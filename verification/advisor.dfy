/**
  `generate_v2_advice`: fixed rules over a finished report. Two global rules
  test the rendered overall figures for substrings; one rule per function
  tests its breakdown for a recursion line and its rendered time for "n^2".
  The advice texts are opaque, so each is a constructor.
 */
module Advisor {
  import opened Optional
  import opened Strings
  import opened SyntaxTree
  import opened Complexity
  import opened Engine
  import opened Report

  datatype Advice =
    | HighTimeWarning(overallTime: string)
    | HashLookupHint
    | SortingHint
    | HighSpaceWarning(overallSpace: string)
    | ListsInLoopsHint
    | GeneratorHint
    | RecursionNote(fname: string)
    | MemoizationHint(fname: string)

  /** The advice produced by the per-function rule. */
  predicate IsFunctionAdvice(a: Advice) {
    a.RecursionNote? || a.MemoizationHint?
  }

  /**
    The keys of the report dictionary the advisor reads; a missing key is
    `None` (the error dictionary has none of them).
   */
  datatype ReportView = ReportView(
    overallTime: Option<string>,
    overallSpace: Option<string>,
    functions: Option<seq<FunctionReport>>)

  function GetOr<T>(o: Option<T>, default: T): T {
    match o
    case Some(v) => v
    case None => default
  }

  /**
    The dictionary `analyze` returns, seen through the advisor's keys. A
    raised `KeyError` returns no dictionary, so there is nothing to view.
   */
  function ViewOf(r: AnalysisResult): ReportView
    requires !r.KeyErrorRaised?
  {
    match r
    case SyntaxError(_) => ReportView(None, None, None)
    case Analysed(rep) => ReportView(Some(rep.overallTime), Some(rep.overallSpace), Some(rep.functions))
  }

  /** `"n^2" in t or "n^3" in t`. */
  predicate TimeMarker(t: string) {
    Contains(t, "n^2") || Contains(t, "n^3")
  }

  /** `"n" in s`. */
  predicate SpaceMarker(s: string) {
    Contains(s, "n")
  }

  function TimeAdvice(time: string): seq<Advice> {
    if TimeMarker(time) then [HighTimeWarning(time), HashLookupHint, SortingHint] else []
  }

  function SpaceAdvice(space: string): seq<Advice> {
    if SpaceMarker(space) then [HighSpaceWarning(space), ListsInLoopsHint, GeneratorHint] else []
  }

  /** The per-function rule for one entry. */
  function NotesFor(f: FunctionReport): seq<Advice> {
    if HasRecursionLine(f.breakdown) then
      [RecursionNote(f.name)] + (if Contains(f.time, "n^2") then [MemoizationHint(f.name)] else [])
    else []
  }

  predicate NotedIn(fs: seq<FunctionReport>, name: string) {
    exists i :: 0 <= i < |fs| && fs[i].name == name && HasRecursionLine(fs[i].breakdown)
  }

  predicate MemoizedIn(fs: seq<FunctionReport>, name: string) {
    exists i :: 0 <= i < |fs| && fs[i].name == name && HasRecursionLine(fs[i].breakdown)
      && Contains(fs[i].time, "n^2")
  }

  lemma NotedCons(fs: seq<FunctionReport>, name: string)
    requires fs != []
    ensures NotedIn(fs, name) <==> RecursionNote(name) in NotesFor(fs[0]) || NotedIn(fs[1..], name)
    ensures MemoizedIn(fs, name) <==> MemoizationHint(name) in NotesFor(fs[0]) || MemoizedIn(fs[1..], name)
  {
    if NotedIn(fs[1..], name) {
      var k :| 0 <= k < |fs[1..]| && fs[1..][k].name == name && HasRecursionLine(fs[1..][k].breakdown);
      assert fs[k + 1] == fs[1..][k];
    }
    if MemoizedIn(fs[1..], name) {
      var k :| 0 <= k < |fs[1..]| && fs[1..][k].name == name && HasRecursionLine(fs[1..][k].breakdown)
        && Contains(fs[1..][k].time, "n^2");
      assert fs[k + 1] == fs[1..][k];
    }
    if NotedIn(fs, name) {
      var i :| 0 <= i < |fs| && fs[i].name == name && HasRecursionLine(fs[i].breakdown);
      if i > 0 {
        assert fs[1..][i - 1] == fs[i];
      }
    }
    if MemoizedIn(fs, name) {
      var i :| 0 <= i < |fs| && fs[i].name == name && HasRecursionLine(fs[i].breakdown)
        && Contains(fs[i].time, "n^2");
      if i > 0 {
        assert fs[1..][i - 1] == fs[i];
      }
    }
  }

  /**
    Where the lines for `fs[i]` start among the per-function lines: after the
    lines for every earlier entry.
   */
  function Offset(fs: seq<FunctionReport>, i: nat): nat
    requires i <= |fs|
  {
    if i == 0 then 0 else |NotesFor(fs[0])| + Offset(fs[1..], i - 1)
  }

  /** The lines for `fs[i]` end where those for `fs[i + 1]` begin. */
  lemma {:induction false} OffsetStep(fs: seq<FunctionReport>, i: nat)
    requires i < |fs|
    ensures Offset(fs, i + 1) == Offset(fs, i) + |NotesFor(fs[i])|
  {
    if i > 0 {
      OffsetStep(fs[1..], i - 1);
      assert fs[1..][i - 1] == fs[i];
    }
  }

  /**
    The lines for each entry `fs[i]` form one block starting at its offset,
    so the blocks follow table order, and nothing else is in the list.
   */
  predicate InBlocks(advice: seq<Advice>, fs: seq<FunctionReport>) {
    && |advice| == Offset(fs, |fs|)
    && forall i :: 0 <= i < |fs| ==>
      && Offset(fs, i) + |NotesFor(fs[i])| <= |advice|
      && advice[Offset(fs, i)..Offset(fs, i) + |NotesFor(fs[i])|] == NotesFor(fs[i])
  }

  lemma SliceAfter<T>(a: seq<T>, b: seq<T>, x: nat, y: nat)
    requires x <= y <= |b|
    ensures (a + b)[|a| + x..|a| + y] == b[x..y]
  {
  }

  /** The block of a later entry moves back by the length of the first entry's lines. */
  lemma BlockShift(fs: seq<FunctionReport>, rest: seq<Advice>, i: nat)
    requires 0 < i < |fs|
    requires var a := Offset(fs[1..], i - 1);
      a + |NotesFor(fs[i])| <= |rest| && rest[a..a + |NotesFor(fs[i])|] == NotesFor(fs[i])
    ensures var advice := NotesFor(fs[0]) + rest;
      Offset(fs, i) + |NotesFor(fs[i])| <= |advice|
      && advice[Offset(fs, i)..Offset(fs, i) + |NotesFor(fs[i])|] == NotesFor(fs[i])
  {
    var a := Offset(fs[1..], i - 1);
    SliceAfter(NotesFor(fs[0]), rest, a, a + |NotesFor(fs[i])|);
  }

  /** Prepending the lines for `fs[0]` to blocks for the other entries gives blocks for all. */
  lemma BlocksCons(fs: seq<FunctionReport>, rest: seq<Advice>)
    requires fs != [] && InBlocks(rest, fs[1..])
    ensures InBlocks(NotesFor(fs[0]) + rest, fs)
  {
    var advice := NotesFor(fs[0]) + rest;
    forall i | 0 <= i < |fs|
      ensures Offset(fs, i) + |NotesFor(fs[i])| <= |advice|
      ensures advice[Offset(fs, i)..Offset(fs, i) + |NotesFor(fs[i])|] == NotesFor(fs[i])
    {
      if i > 0 {
        assert fs[1..][i - 1] == fs[i];
        BlockShift(fs, rest, i);
      }
    }
  }

  /** A memoization hint is always directly preceded by the recursion note for the same function. */
  predicate MemoAfterNote(advice: seq<Advice>) {
    forall p :: 0 <= p < |advice| && advice[p].MemoizationHint? ==>
      p > 0 && advice[p - 1] == RecursionNote(advice[p].fname)
  }

  /** Joining two lists that each keep every hint right after its note keeps that order. */
  lemma MemoAfterNoteConcat(a: seq<Advice>, b: seq<Advice>)
    requires MemoAfterNote(a) && MemoAfterNote(b)
    ensures MemoAfterNote(a + b)
  {
    var advice := a + b;
    forall p | 0 <= p < |advice| && advice[p].MemoizationHint?
      ensures p > 0 && advice[p - 1] == RecursionNote(advice[p].fname)
    {
      if p >= |a| {
        assert advice[p] == b[p - |a|];
        assert advice[p - 1] == b[p - |a| - 1];
      }
    }
  }

  /** One entry yields at most two lines, all of them per-function advice. */
  lemma NotesForShape(f: FunctionReport)
    ensures |NotesFor(f)| <= 2
    ensures forall i :: 0 <= i < |NotesFor(f)| ==> IsFunctionAdvice(NotesFor(f)[i])
  {
  }

  lemma AllFunctionAdvice(a: seq<Advice>, b: seq<Advice>)
    requires forall i :: 0 <= i < |a| ==> IsFunctionAdvice(a[i])
    requires forall i :: 0 <= i < |b| ==> IsFunctionAdvice(b[i])
    ensures forall i :: 0 <= i < |a + b| ==> IsFunctionAdvice((a + b)[i])
  {
  }

  /**
    The per-function rule over all entries in table order: a note for
    exactly the functions with a recursion line, a memoization hint for
    exactly those whose time also shows "n^2".
   */
  function FunctionAdvice(fs: seq<FunctionReport>): (advice: seq<Advice>)
    ensures forall i :: 0 <= i < |advice| ==> IsFunctionAdvice(advice[i])
    ensures forall name :: RecursionNote(name) in advice <==> NotedIn(fs, name)
    ensures forall name :: MemoizationHint(name) in advice <==> MemoizedIn(fs, name)
    ensures |advice| <= 2 * |fs|
    ensures InBlocks(advice, fs)
    ensures MemoAfterNote(advice)
  {
    if fs == [] then []
    else
      var first := NotesFor(fs[0]);
      var rest := FunctionAdvice(fs[1..]);
      var advice := first + rest;
      BlocksCons(fs, rest);
      MemoAfterNoteConcat(first, rest);
      NotesForShape(fs[0]);
      AllFunctionAdvice(first, rest);
      assert forall name :: RecursionNote(name) in advice <==> NotedIn(fs, name) by {
        forall name ensures RecursionNote(name) in advice <==> NotedIn(fs, name) {
          NotedCons(fs, name);
        }
      }
      assert forall name :: MemoizationHint(name) in advice <==> MemoizedIn(fs, name) by {
        forall name ensures MemoizationHint(name) in advice <==> MemoizedIn(fs, name) {
          NotedCons(fs, name);
        }
      }
      advice
  }

  lemma TimeLinesIff(time: string, space: string, fs: seq<FunctionReport>)
    ensures HighTimeWarning(time) in TimeAdvice(time) + SpaceAdvice(space) + FunctionAdvice(fs)
      <==> TimeMarker(time)
  {
  }

  lemma TimeLinesFirst(time: string, space: string, fs: seq<FunctionReport>)
    ensures var advice := TimeAdvice(time) + SpaceAdvice(space) + FunctionAdvice(fs);
      TimeMarker(time) ==> |advice| >= 3 && advice[..3] == [HighTimeWarning(time), HashLookupHint, SortingHint]
  {
  }

  lemma SpaceLinesIff(time: string, space: string, fs: seq<FunctionReport>)
    ensures HighSpaceWarning(space) in TimeAdvice(time) + SpaceAdvice(space) + FunctionAdvice(fs)
      <==> SpaceMarker(space)
  {
  }

  lemma NotesIff(time: string, space: string, fs: seq<FunctionReport>)
    ensures var advice := TimeAdvice(time) + SpaceAdvice(space) + FunctionAdvice(fs);
      && (forall name :: RecursionNote(name) in advice <==> NotedIn(fs, name))
      && (forall name :: MemoizationHint(name) in advice <==> MemoizedIn(fs, name))
  {
  }

  /** The two global rules produce no per-function advice. */
  lemma GlobalLinesAreGlobal(time: string, space: string)
    ensures var global := TimeAdvice(time) + SpaceAdvice(space);
      forall i :: 0 <= i < |global| ==> !IsFunctionAdvice(global[i])
  {
    var t, s := TimeAdvice(time), SpaceAdvice(space);
    assert forall i :: 0 <= i < |t| ==> !IsFunctionAdvice(t[i]);
    assert forall i :: 0 <= i < |s| ==> !IsFunctionAdvice(s[i]);
  }

  /** Global lines first, then per-function lines. */
  lemma GlobalBeforeLocal(global: seq<Advice>, local: seq<Advice>)
    requires forall i :: 0 <= i < |global| ==> !IsFunctionAdvice(global[i])
    requires forall i :: 0 <= i < |local| ==> IsFunctionAdvice(local[i])
    ensures forall i, j :: 0 <= i < j < |global + local| && IsFunctionAdvice((global + local)[i]) ==>
      IsFunctionAdvice((global + local)[j])
  {
  }

  /**
    The order `generate_v2_advice` appends in: the three time lines when the
    time shows "n^2" or "n^3", then the three space lines when the space
    shows "n", then the per-function lines in table order, and nothing else.
   */
  predicate LaidOut(advice: seq<Advice>, time: string, space: string, fs: seq<FunctionReport>) {
    var k := if TimeMarker(time) then 3 else 0;
    var m := k + (if SpaceMarker(space) then 3 else 0);
    && |advice| == m + |FunctionAdvice(fs)|
    && (TimeMarker(time) ==> advice[..3] == [HighTimeWarning(time), HashLookupHint, SortingHint])
    && (SpaceMarker(space) ==> advice[k..m] == [HighSpaceWarning(space), ListsInLoopsHint, GeneratorHint])
    && advice[m..] == FunctionAdvice(fs)
  }

  lemma Layout(time: string, space: string, fs: seq<FunctionReport>)
    ensures LaidOut(TimeAdvice(time) + SpaceAdvice(space) + FunctionAdvice(fs), time, space, fs)
  {
    var t, sp, f := TimeAdvice(time), SpaceAdvice(space), FunctionAdvice(fs);
    var advice := t + sp + f;
    assert advice[|t|..|t| + |sp|] == sp;
    assert advice[|t| + |sp|..] == f;
  }

  /**
    The advice for given overall figures and function entries: the three
    time lines exactly when the time shows "n^2" or "n^3", the three space
    lines exactly when the space shows "n", and the per-function notes
    after every global line.
   */
  function AdviceFor(time: string, space: string, fs: seq<FunctionReport>): (advice: seq<Advice>)
    ensures HighTimeWarning(time) in advice <==> TimeMarker(time)
    ensures TimeMarker(time) ==> |advice| >= 3 && advice[..3] == [HighTimeWarning(time), HashLookupHint, SortingHint]
    ensures HighSpaceWarning(space) in advice <==> SpaceMarker(space)
    ensures forall name :: RecursionNote(name) in advice <==> NotedIn(fs, name)
    ensures forall name :: MemoizationHint(name) in advice <==> MemoizedIn(fs, name)
    ensures forall i, j :: 0 <= i < j < |advice| && IsFunctionAdvice(advice[i]) ==> IsFunctionAdvice(advice[j])
    ensures fs == [] ==> forall i :: 0 <= i < |advice| ==> !IsFunctionAdvice(advice[i])
    ensures LaidOut(advice, time, space, fs)
    ensures MemoAfterNote(advice)
  {
    var advice := TimeAdvice(time) + SpaceAdvice(space) + FunctionAdvice(fs);
    Layout(time, space, fs);
    TimeLinesIff(time, space, fs);
    TimeLinesFirst(time, space, fs);
    SpaceLinesIff(time, space, fs);
    NotesIff(time, space, fs);
    GlobalLinesAreGlobal(time, space);
    GlobalBeforeLocal(TimeAdvice(time) + SpaceAdvice(space), FunctionAdvice(fs));
    MemoAfterNoteConcat(TimeAdvice(time) + SpaceAdvice(space), FunctionAdvice(fs));
    advice
  }

  /**
    `generate_v2_advice(report)`: missing overall figures count as "O(1)"
    and a missing function table as empty.
   */
  function GenerateAdvice(v: ReportView): (advice: seq<Advice>)
    ensures var time := GetOr(v.overallTime, "O(1)");
      HighTimeWarning(time) in advice <==> TimeMarker(time)
    ensures var space := GetOr(v.overallSpace, "O(1)");
      HighSpaceWarning(space) in advice <==> SpaceMarker(space)
    ensures v.functions.Some? ==> forall name :: RecursionNote(name) in advice <==> NotedIn(v.functions.value, name)
    ensures v.functions.None? ==> forall i :: 0 <= i < |advice| ==> !IsFunctionAdvice(advice[i])
    ensures v.functions.Some? ==> forall name :: MemoizationHint(name) in advice <==> MemoizedIn(v.functions.value, name)
    ensures LaidOut(advice, GetOr(v.overallTime, "O(1)"), GetOr(v.overallSpace, "O(1)"), GetOr(v.functions, []))
    ensures MemoAfterNote(advice)
    ensures forall i, j :: 0 <= i < j < |advice| && IsFunctionAdvice(advice[i]) ==> IsFunctionAdvice(advice[j])
  {
    AdviceFor(GetOr(v.overallTime, "O(1)"), GetOr(v.overallSpace, "O(1)"), GetOr(v.functions, []))
  }

  /** The error dictionary and an empty report dictionary both yield no advice. */
  lemma NoAdviceWithoutReport(message: string)
    ensures GenerateAdvice(ViewOf(SyntaxError(message))) == []
    ensures GenerateAdvice(ReportView(None, None, None)) == []
  {
    assert !Contains("O(1)", "n^2") by { NoOccurrence("O(1)", "n^2"); }
    assert !Contains("O(1)", "n^3") by { NoOccurrence("O(1)", "n^3"); }
    assert !Contains("O(1)", "n") by { NoOccurrence("O(1)", "n"); }
  }

  // ----- the substring tests against rendered terms -----

  /** After an `n` that is not followed by `^`, no `n^d` starts there. */
  lemma AfterBareN(rest: string, d: char)
    requires |rest| > 0 && rest[0] != '^'
    ensures Contains("n" + rest, ['n', '^', d]) <==> Contains(rest, ['n', '^', d])
  {
    var p := ['n', '^', d];
    var s := "n" + rest;
    assert s[1..] == rest;
    assert !IsPrefix(p, s) by {
      if |p| <= |s| {
        assert s[..|p|][1] == rest[0];
      }
    }
    assert Contains(s, p) == (IsPrefix(p, s) || (|s| > 0 && Contains(s[1..], p)));
  }

  /** The closing part `LogText + ")"`, or `" * " + LogText + ")"`, holds no `n^d`. */
  lemma LogTailClean(l: nat, d: char)
    ensures !Contains(LogText(l) + ")", ['n', '^', d])
    ensures !Contains(" * " + LogText(l) + ")", ['n', '^', d])
  {
    var p := ['n', '^', d];
    var tail := LogText(l) + ")";
    if l == 0 {
      assert tail == ")";
      NoOccurrence(tail, p);
    } else if l == 1 {
      assert tail == "log " + ("n" + ")");
      SkipPrefix("log ", "n" + ")", p);
      AfterBareN(")", d);
      NoOccurrence(")", p);
    } else {
      var e := NatToString(l);
      var after := ")^" + e + ")";
      assert 'n' !in after by {
        forall i | 0 <= i < |after| ensures after[i] != 'n' {
          if 2 <= i < 2 + |e| {
            assert after[i] == e[i - 2];
          }
        }
      }
      assert tail == "(log " + ("n" + after);
      SkipPrefix("(log ", "n" + after, p);
      AfterBareN(after, d);
      NoOccurrence(after, p);
    }
    assert " * " + LogText(l) + ")" == " * " + tail;
    SkipPrefix(" * ", tail, p);
  }

  /** An exponent `^k` holds no letter `n`. */
  lemma CaretDigitsClean(digits: string)
    requires forall i :: 0 <= i < |digits| ==> IsDigit(digits[i])
    ensures 'n' !in "^" + digits
  {
    forall i | 0 <= i < |"^" + digits| ensures ("^" + digits)[i] != 'n' {
      if i >= 1 {
        assert ("^" + digits)[i] == digits[i - 1];
      }
    }
  }

  /** `n^` and a digit string followed by a clean tail holds `n^d` exactly when the digits start with `d`. */
  lemma MarkerAfterDigits(digits: string, rest: string, d: char)
    requires |digits| >= 1 && forall i :: 0 <= i < |digits| ==> IsDigit(digits[i])
    requires !Contains(rest, ['n', '^', d])
    ensures Contains("n" + ("^" + digits + rest), ['n', '^', d]) <==> digits[0] == d
  {
    var p := ['n', '^', d];
    var after := "^" + digits + rest;
    assert ("n" + after)[1..] == after;
    assert IsPrefix(p, "n" + after) <==> digits[0] == d by {
      assert ("n" + after)[..3] == ['n', '^', digits[0]];
    }
    CaretDigitsClean(digits);
    assert after == ("^" + digits) + rest;
    SkipPrefix("^" + digits, rest, p);
  }

  lemma RegroupPower(digits: string, rest: string)
    ensures ("n^" + digits) + rest == "n" + ("^" + digits + rest)
  {
  }

  /** `n^k` followed by a clean tail holds `n^d` exactly when `k` starts with `d`. */
  lemma MarkerAfterPower(power: nat, rest: string, d: char)
    requires power >= 2
    requires !Contains(rest, ['n', '^', d])
    ensures Contains(PowerText(power) + rest, ['n', '^', d]) <==> NatToString(power)[0] == d
  {
    var digits := NatToString(power);
    assert PowerText(power) == "n^" + digits;
    RegroupPower(digits, rest);
    MarkerAfterDigits(digits, rest, d);
  }

  /** The text after `O(` in a non-constant rendering: the power factor, then a clean tail. */
  lemma RenderSplit(t: Term, d: char) returns (rest: string)
    requires t != Constant
    ensures Render(t) == "O(" + (PowerText(t.power) + rest)
    ensures |rest| > 0 && rest[0] != '^'
    ensures !Contains(rest, ['n', '^', d])
  {
    if t.logPower == 0 {
      rest := SplitWithoutLog(t, d);
    } else if t.power == 0 {
      rest := SplitWithoutPower(t, d);
    } else {
      rest := SplitWithBoth(t, d);
    }
  }

  lemma SplitWithoutLog(t: Term, d: char) returns (rest: string)
    requires t.power > 0 && t.logPower == 0
    ensures Render(t) == "O(" + (PowerText(t.power) + rest)
    ensures |rest| > 0 && rest[0] != '^'
    ensures !Contains(rest, ['n', '^', d])
  {
    RenderPowerOnly(t);
    rest := ")";
    NoOccurrence(rest, ['n', '^', d]);
  }

  lemma SplitWithoutPower(t: Term, d: char) returns (rest: string)
    requires t.power == 0 && t.logPower > 0
    ensures Render(t) == "O(" + (PowerText(t.power) + rest)
    ensures |rest| > 0 && rest[0] != '^'
    ensures !Contains(rest, ['n', '^', d])
  {
    RenderLogOnly(t);
    var log := LogText(t.logPower);
    rest := log + ")";
    LogTailClean(t.logPower, d);
    assert log[0] == 'l' || log[0] == '(';
    assert PowerText(t.power) + rest == rest;
  }

  lemma SplitWithBoth(t: Term, d: char) returns (rest: string)
    requires t.power > 0 && t.logPower > 0
    ensures Render(t) == "O(" + (PowerText(t.power) + rest)
    ensures |rest| > 0 && rest[0] != '^'
    ensures !Contains(rest, ['n', '^', d])
  {
    RenderBoth(t);
    rest := " * " + LogText(t.logPower) + ")";
    LogTailClean(t.logPower, d);
  }

  /**
    `n^d` occurs in a rendered term exactly when the power is at least 2 and
    its decimal rendering starts with the digit `d`.
   */
  lemma MarkerInRender(t: Term, d: char)
    ensures Contains(Render(t), ['n', '^', d]) <==> t.power >= 2 && NatToString(t.power)[0] == d
  {
    var p := ['n', '^', d];
    if t == Constant {
      RenderShape(t);
      NoOccurrence("O(1)", p);
    } else {
      var rest := RenderSplit(t, d);
      SkipPrefix("O(", PowerText(t.power) + rest, p);
      if t.power == 0 {
        assert PowerText(t.power) + rest == rest;
      } else if t.power == 1 {
        AfterBareN(rest, d);
      } else {
        MarkerAfterPower(t.power, rest, d);
      }
    }
  }

  /**
    The time warning fires on a rendered term exactly when its power is at
    least 2 and begins with the digit 2 or 3: O(n^2), O(n^3), O(n^25) warn,
    O(n^4) through O(n^19) do not.
   */
  lemma TimeWarningOnRendered(t: Term)
    ensures TimeMarker(Render(t)) <==> t.power >= 2 && (LeadingDigit(t.power) == 2 || LeadingDigit(t.power) == 3)
  {
    MarkerInRender(t, '2');
    MarkerInRender(t, '3');
    assert "n^2" == ['n', '^', '2'] && "n^3" == ['n', '^', '3'];
    NatToStringHead(t.power);
  }

  /** The memoization test: "n^2" occurs exactly when the power starts with the digit 2. */
  lemma QuadraticMarkerOnRendered(t: Term)
    ensures Contains(Render(t), "n^2") <==> t.power >= 2 && LeadingDigit(t.power) == 2
  {
    MarkerInRender(t, '2');
    assert "n^2" == ['n', '^', '2'];
    NatToStringHead(t.power);
  }

  /** The space warning fires on a rendered term exactly when it is not O(1). */
  lemma SpaceWarningOnRendered(t: Term)
    ensures SpaceMarker(Render(t)) <==> t != Constant
  {
    RenderShape(t);
    ContainsChar(Render(t), 'n');
    assert "n" == ['n'];
    var s := Render(t);
    if t == Constant {
      assert s == "O(1)";
    } else if t.power > 0 {
      assert s[2] == 'n';
    } else if t.logPower == 1 {
      assert s == "O(log n)";
      assert s[6] == 'n';
    } else {
      assert s[7] == 'n';
    }
  }

  /** The time rule on sample classes: quadratic and cubic warn, quartic does not. */
  lemma TimeWarningExamples()
    ensures TimeMarker(Render(Term(2, 0))) && TimeMarker(Render(Term(3, 1)))
    ensures !TimeMarker(Render(Term(4, 0))) && !TimeMarker(Render(Term(1, 5)))
    ensures TimeMarker(Render(Term(21, 0)))
  {
    TimeWarningOnRendered(Term(2, 0));
    TimeWarningOnRendered(Term(3, 1));
    TimeWarningOnRendered(Term(4, 0));
    TimeWarningOnRendered(Term(1, 5));
    TimeWarningOnRendered(Term(21, 0));
  }

  // ----- the advisor on the analyzer's own reports -----

  /** The advice on the report built from a finished traversal. */
  function AdviceOnState(st: State): seq<Advice>
    requires Wf(st)
  {
    GenerateAdvice(ViewOf(Analysed(BuildReport(st))))
  }

  /**
    On an analysed report the time warning fires iff the largest function
    time has power >= 2 starting with digit 2 or 3.
   */
  lemma TimeAdviceOnAnalysis(st: State)
    requires Wf(st)
    ensures var t := OverallTime(st);
      HighTimeWarning(Render(t)) in AdviceOnState(st) <==>
        t.power >= 2 && (LeadingDigit(t.power) == 2 || LeadingDigit(t.power) == 3)
  {
    TimeWarningOnRendered(OverallTime(st));
  }

  /** On an analysed report the space warning fires iff some function was charged space. */
  lemma SpaceAdviceOnAnalysis(st: State)
    requires Wf(st)
    ensures HighSpaceWarning(Render(OverallSpace(st))) in AdviceOnState(st) <==>
      exists i :: 0 <= i < |st.table| && st.store[st.table[i].id].space == Linear
  {
    SpaceWarningOnRendered(OverallSpace(st));
  }

  /** In a built report, a function's entry shows a recursion line iff its record is flagged. */
  lemma NotedInReport(st: State, name: string)
    requires Wf(st)
    ensures NotedIn(BuildReport(st).functions, name) <==>
      exists i :: 0 <= i < |st.table| && st.table[i].name == name && st.store[st.table[i].id].isRecursive
  {
    var fs := BuildReport(st).functions;
    forall i | 0 <= i < |fs|
      ensures fs[i].name == st.table[i].name
      ensures HasRecursionLine(fs[i].breakdown) == st.store[st.table[i].id].isRecursive
    {
      assert Sound(st.store[st.table[i].id]);
    }
  }

  /** On an analysed report a function gets a recursion note iff it was flagged recursive. */
  lemma NotesOnAnalysis(st: State, name: string)
    requires Wf(st)
    ensures RecursionNote(name) in AdviceOnState(st) <==>
      exists i :: 0 <= i < |st.table| && st.table[i].name == name && st.store[st.table[i].id].isRecursive
  {
    NotedInReport(st, name);
  }
}
