/**
  The aggregation step of `analyze`: one entry per function-table name, in
  table order, with rendered figures and breakdown, and the overall time and
  space as `+`-folds over all functions starting from O(1).
 */
module Report {
  import opened Optional
  import opened Complexity
  import opened SyntaxTree
  import opened Engine
  import Traversal
  import RecursionStack

  /** Outcome of the (external) parser: a module body, or the parse failure message. */
  datatype ParseOutcome = Parsed(statements: seq<Node>) | ParseFailure(message: string)

  /** The per-function part of the report, as `{"time", "space", "breakdown"}`. */
  datatype FunctionReport = FunctionReport(name: string, time: string, space: string, breakdown: seq<LogLine>)

  datatype AnalysisReport = AnalysisReport(
    functions: seq<FunctionReport>,
    overallTime: string,
    overallSpace: string,
    globalLog: seq<LogLine>)

  /**
    The outcome of `analyze`: the `{"error": ...}` dictionary, a full report,
    or the uncaught `KeyError` that `recursion_stack.remove(key)` raises.
   */
  datatype AnalysisResult =
    | SyntaxError(message: string)
    | Analysed(report: AnalysisReport)
    | KeyErrorRaised(key: string)

  /**
    The `+`-fold of `ts` starting from O(1): the result dominates every term
    and is one of them, or O(1) when there are none, i.e. it is the largest
    term in asymptotic order.
   */
  function Overall(ts: seq<Term>): (r: Term)
    ensures forall i :: 0 <= i < |ts| ==> LexLe(ts[i], r)
    ensures r == Constant || r in ts
    ensures ts == [] ==> r == Constant
  {
    if ts == [] then Constant
    else Add(Overall(ts[..|ts| - 1]), ts[|ts| - 1])
  }

  lemma LexLeAntisymmetric(a: Term, b: Term)
    requires LexLe(a, b) && LexLe(b, a)
    ensures a == b
  {
  }

  /**
    The overall figure depends only on which terms occur, not on their order
    or multiplicity: declaration order does not matter.
   */
  lemma OverallOrderIndependent(ts: seq<Term>, us: seq<Term>)
    requires forall t :: t in ts <==> t in us
    ensures Overall(ts) == Overall(us)
  {
    var a, b := Overall(ts), Overall(us);
    if a != Constant {
      var j :| 0 <= j < |us| && us[j] == a;
      assert LexLe(a, b);
    }
    if b != Constant {
      var i :| 0 <= i < |ts| && ts[i] == b;
      assert LexLe(b, a);
    }
    LexLeAntisymmetric(a, b);
  }

  /** The records the function table designates, in table order. */
  function Records(st: State): (rs: seq<FunctionAnalysis>)
    requires Wf(st)
    ensures |rs| == |st.table|
    ensures forall i :: 0 <= i < |rs| ==> rs[i] == st.store[st.table[i].id]
  {
    seq(|st.table|, i requires 0 <= i < |st.table| => st.store[st.table[i].id])
  }

  function Times(rs: seq<FunctionAnalysis>): (ts: seq<Term>)
    ensures |ts| == |rs| && forall i :: 0 <= i < |rs| ==> ts[i] == rs[i].time
  {
    seq(|rs|, i requires 0 <= i < |rs| => rs[i].time)
  }

  function Spaces(rs: seq<FunctionAnalysis>): (ts: seq<Term>)
    ensures |ts| == |rs| && forall i :: 0 <= i < |rs| ==> ts[i] == rs[i].space
  {
    seq(|rs|, i requires 0 <= i < |rs| => rs[i].space)
  }

  function ReportOf(fa: FunctionAnalysis): FunctionReport {
    FunctionReport(fa.name, Render(fa.time), Render(fa.space), fa.breakdown)
  }

  /** The overall time of a finished traversal. */
  function OverallTime(st: State): Term
    requires Wf(st)
  {
    Overall(Times(Records(st)))
  }

  /**
    The overall space of a finished traversal: O(n) exactly when some
    function in the table was charged space, O(1) otherwise.
   */
  function OverallSpace(st: State): (r: Term)
    requires Wf(st)
    ensures r == Constant || r == Linear
    ensures r == Linear <==> exists i :: 0 <= i < |st.table| && st.store[st.table[i].id].space == Linear
  {
    var rs := Records(st);
    var ss := Spaces(rs);
    var r := Overall(ss);
    assert r != Constant ==> r == Linear by {
      if r != Constant {
        var i :| 0 <= i < |ss| && ss[i] == r;
        assert Sound(st.store[st.table[i].id]);
      }
    }
    assert (exists i :: 0 <= i < |st.table| && st.store[st.table[i].id].space == Linear) ==> r == Linear by {
      if exists i :: 0 <= i < |st.table| && st.store[st.table[i].id].space == Linear {
        var i :| 0 <= i < |st.table| && st.store[st.table[i].id].space == Linear;
        assert LexLe(ss[i], r);
      }
    }
    assert r == Linear ==> exists i :: 0 <= i < |st.table| && st.store[st.table[i].id].space == Linear by {
      if r == Linear {
        var i :| 0 <= i < |ss| && ss[i] == r;
      }
    }
    r
  }

  /** The report dictionary built from a finished traversal. */
  function BuildReport(st: State): (rep: AnalysisReport)
    requires Wf(st)
    ensures |rep.functions| == |st.table|
    ensures forall i :: 0 <= i < |rep.functions| ==>
      rep.functions[i] == ReportOf(st.store[st.table[i].id]) && rep.functions[i].name == st.table[i].name
    ensures rep.overallTime == Render(OverallTime(st))
    ensures rep.overallSpace == Render(OverallSpace(st))
    ensures rep.overallSpace == "O(1)" || rep.overallSpace == "O(n)"
    ensures rep.globalLog == st.globalLog
  {
    var rs := Records(st);
    RenderExamples();
    AnalysisReport(
      seq(|rs|, i requires 0 <= i < |rs| => ReportOf(rs[i])),
      Render(OverallTime(st)),
      Render(OverallSpace(st)),
      st.globalLog)
  }

  /** The state after visiting a whole module from a fresh engine. */
  function Run(statements: seq<Node>): (st: State)
    ensures Wf(st) && st.loops == []
  {
    assert Wf(Initial);
    VisitSeq(statements, Initial)
  }

  /**
    `AnalyzerV2().analyze(source)` once parsing has been done: a parse
    failure yields only the error variant; a module in which some definition
    nests one of its own name raises `KeyError`; otherwise the result is the
    report built from a fresh traversal of the module, whose function entries
    are the table's names, distinct, in declaration order.
   */
  function Analyze(p: ParseOutcome): (r: AnalysisResult)
    ensures p.ParseFailure? <==> r.SyntaxError?
    ensures p.ParseFailure? ==> r.message == p.message
    ensures r.KeyErrorRaised? <==> p.Parsed? && RecursionStack.NestsOwnNameSeq(p.statements)
    ensures p.Parsed? && !RecursionStack.NestsOwnNameSeq(p.statements) ==>
      r == Analysed(BuildReport(Run(p.statements)))
    ensures r.Analysed? ==>
      && (forall i, j :: 0 <= i < j < |r.report.functions| ==>
            r.report.functions[i].name != r.report.functions[j].name)
      && (r.report.overallSpace == "O(1)" || r.report.overallSpace == "O(n)")
  {
    match p
    case ParseFailure(msg) => SyntaxError(msg)
    case Parsed(statements) =>
      RecursionStack.ModuleRaisesIff(statements);
      match RecursionStack.TrackSeq(statements, {})
      case KeyError(key) => KeyErrorRaised(key)
      case Done(_) => Analysed(BuildReport(Run(statements)))
  }

  /** A module without definitions raises nothing and yields an empty table and O(1) overall figures. */
  lemma ScriptWithoutFunctions(statements: seq<Node>)
    requires DefFreeSeq(statements)
    ensures Analyze(Parsed(statements)).Analysed?
    ensures Analyze(Parsed(statements)).report.functions == []
    ensures Analyze(Parsed(statements)).report.overallTime == "O(1)"
    ensures Analyze(Parsed(statements)).report.overallSpace == "O(1)"
  {
    assert Wf(Initial);
    RecursionStack.DefFreeSeqNestsNothing(statements);
    Traversal.TopLevelSeqChargesNothing(statements, Initial);
    RenderExamples();
  }
}
