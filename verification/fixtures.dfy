/**
  Hand-built syntax trees of the sample programs in `v2_checks.py` and the
  figures the analyzer assigns them. Each sample is a module holding one
  function definition; the lemmas walk the traversal statement by statement.
 */
module Fixtures {
  import opened Optional
  import opened Complexity
  import opened SyntaxTree
  import opened Engine
  import Traversal
  import opened Report

  // ----- tree builders -----

  /** The parameter list `()`. */
  const NoParams: Node := Other([])

  /** The parameter list `(n)`: one `arg` node without annotation. */
  const OneParam: Node := Other([Other([])])

  /** `pass`, `return`, `x += 1` and the like reduce to quiet `Other` nodes. */
  const Pass: Node := Other([])

  /** `range(<args>)`. */
  function Range(args: seq<Node>): Node {
    Call(Name("range"), args, [])
  }

  /** `for <v> in range(<stop>): <body>`. */
  function RangeLoop(v: string, stop: Node, body: seq<Node>): Node {
    For(Name(v), Range([stop]), body)
  }

  // ----- the state of a module's only function while its body is visited -----

  /** The engine is inside `name`, the first and only function of its module. */
  predicate InFunction(st: State, name: string) {
    && Wf(st)
    && st.current == Some(0)
    && |st.store| == 1
    && st.store[0].name == name
    && st.table == [Entry(name, 0)]
  }

  /** The three figures of a function record. */
  datatype Figures = Figures(time: Term, space: Term, recursive: bool)

  function FiguresOf(fa: FunctionAnalysis): Figures {
    Figures(fa.time, fa.space, fa.isRecursive)
  }

  /** Entering the first definition of a module. */
  lemma EnterFirst(name: string)
    ensures Wf(Initial)
    ensures var e := EnterFunction(Initial, name);
      InFunction(e, name) && e.loops == [] && FiguresOf(e.store[0]) == Figures(Constant, Constant, false)
  {
    assert Wf(Initial);
  }

  /** A quiet statement leaves the sequence to the statements after it. */
  lemma SkipQuiet(ns: seq<Node>, st: State, name: string)
    requires InFunction(st, name) && ns != [] && Quiet(ns[0], name)
    ensures VisitSeq(ns, st) == VisitSeq(ns[1..], st)
  {
    Traversal.SeqStep(ns, st);
    Traversal.QuietUnchanged(ns[0], st);
  }

  /** The last statement of a sequence. */
  lemma LastStatement(n: Node, st: State)
    requires Wf(st)
    ensures VisitSeq([n], st) == Visit(n, st)
  {
    assert [n][1..] == [];
  }

  /** A `for` loop whose header and body are all quiet. */
  predicate QuietFor(n: Node, name: string) {
    n.For? && Quiet(n.target, name) && Quiet(n.iter, name) && QuietSeq(n.body, name)
  }

  /**
    A `for` loop with a quiet header and body at nesting depth `|loops|`:
    the time figure becomes the larger of its power and the chain's.
   */
  lemma QuietLoop(n: Node, st: State, name: string)
    requires InFunction(st, name)
    requires QuietFor(n, name)
    ensures StepsTo(st, Visit(n, st), LoopOf(BoundTerm(ForBound(n.iter)).power + SumPowers(st.loops)), name)
  {
    Traversal.QuietLoopState(n, st);
    EmptyLoopSteps(st, ForBound(n.iter), name);
  }

  /** Entering and leaving a loop at once moves the time figure to the chain. */
  lemma EmptyLoopSteps(st: State, bound: BoundClass, name: string)
    requires InFunction(st, name)
    ensures StepsTo(st, ExitLoop(EnterLoop(st, ForLoop, bound), st.current, bound, |st.loops|),
      LoopOf(BoundTerm(bound).power + SumPowers(st.loops)), name)
  {
    var r := ExitLoop(EnterLoop(st, ForLoop, bound), st.current, bound, |st.loops|);
    Traversal.EmptyLoopInFunction(st, bound);
    assert Sound(r.store[0]);
    assert Grows(st.store[0], r.store[0]);
  }

  /** Leaving the outermost loop of the function. */
  lemma ExitOutermost(st: State, name: string, bound: BoundClass)
    requires InFunction(st, name) && |st.loops| == 1
    ensures var r := ExitLoop(st, Some(0), bound, 0);
      && InFunction(r, name) && r.loops == []
      && FiguresOf(r.store[0]) == FiguresOf(st.store[0]).(time :=
           Term(Max(st.store[0].time.power, BoundTerm(bound).power), 0))
  {
    var r := ExitLoop(st, Some(0), bound, 0);
    assert r.loops == [] && SumPowers(r.loops) == 0;
    Traversal.ExitLoopKeepsSpace(st, Some(0), bound, 0);
    assert Sound(r.store[0]);
    assert Grows(st.store[0], r.store[0]);
  }

  /** Entering a loop inside the module's only function changes no figure. */
  lemma EnterLoopInFunction(st: State, name: string, kind: LoopKind, bound: BoundClass)
    requires InFunction(st, name)
    ensures var r := EnterLoop(st, kind, bound);
      && InFunction(r, name) && r.loops == st.loops + [BoundTerm(bound)]
      && FiguresOf(r.store[0]) == FiguresOf(st.store[0])
  {
    var r := EnterLoop(st, kind, bound);
    assert SameFigures(st.store[0], r.store[0]);
  }

  /** The body of an outermost loop that consists of one quiet loop. */
  lemma NestedBody(n: Node, st: State, name: string)
    requires InFunction(st, name) && st.loops == []
    requires n.For? && |n.body| == 1 && QuietFor(n.body[0], name)
    ensures var st1 := EnterLoop(st, ForLoop, ForBound(n.iter));
      var r := VisitSeq(n.body, st1);
      && InFunction(r, name) && |r.loops| == 1
      && FiguresOf(r.store[0]) == FiguresOf(st.store[0]).(time := Term(Max(st.store[0].time.power,
           BoundTerm(ForBound(n.body[0].iter)).power + BoundTerm(ForBound(n.iter)).power), 0))
  {
    var bound := ForBound(n.iter);
    var st1 := EnterLoop(st, ForLoop, bound);
    EnterLoopInFunction(st, name, ForLoop, bound);
    assert st1.loops == [BoundTerm(bound)];
    assert SumPowers(st1.loops) == BoundTerm(bound).power;
    QuietLoop(n.body[0], st1, name);
    assert n.body == [n.body[0]];
    LastStatement(n.body[0], st1);
  }

  /**
    A `for` loop whose body is one quiet loop, at the top of the function:
    the inner chain multiplies both bounds, the outer chain is the outer
    bound alone.
   */
  lemma NestedQuietLoop(n: Node, st: State, name: string)
    requires InFunction(st, name) && st.loops == []
    requires n.For? && Quiet(n.target, name) && Quiet(n.iter, name) && |n.body| == 1 && QuietFor(n.body[0], name)
    ensures var r := Visit(n, st);
      var outer := BoundTerm(ForBound(n.iter)).power;
      var inner := BoundTerm(ForBound(n.body[0].iter)).power;
      && InFunction(r, name) && r.loops == []
      && FiguresOf(r.store[0]) == FiguresOf(st.store[0]).(time :=
           Term(Max(Max(st.store[0].time.power, inner + outer), outer), 0))
  {
    var bound := ForBound(n.iter);
    Traversal.ForStep(n.target, n.iter, n.body, st);
    NestedBody(n, st, name);
    var st2 := VisitSeq(n.body, EnterLoop(st, ForLoop, bound));
    ExitOutermost(st2, name, bound);
  }

  /** An assignment of a value the space heuristic ignores changes nothing. */
  lemma PlainAssign(n: Node, st: State, name: string)
    requires InFunction(st, name)
    requires n.Assign? && !Allocates(n.value) && QuietSeq(n.targets, name) && Quiet(n.value, name)
    ensures Visit(n, st) == st
  {
    Traversal.QuietSeqUnchanged(n.targets, st);
    Traversal.QuietUnchanged(n.value, st);
  }

  /** An assignment of a recognised allocation charges O(n) space. */
  lemma AllocatingAssign(n: Node, st: State, name: string)
    requires InFunction(st, name)
    requires n.Assign? && Allocates(n.value) && QuietSeq(n.targets, name) && Quiet(n.value, name)
    ensures var r := Visit(n, st);
      && InFunction(r, name) && r.loops == st.loops
      && FiguresOf(r.store[0]) == FiguresOf(st.store[0]).(space := Linear)
  {
    var st1 := ChargeSpace(n.value, st);
    assert Grows(st.store[0], st1.store[0]);
    assert InFunction(st1, name);
    Traversal.QuietSeqUnchanged(n.targets, st1);
    Traversal.QuietUnchanged(n.value, st1);
  }

  /** Noting a self-call inside the module's only function. */
  lemma NoteSelfCall(st: State, name: string)
    requires InFunction(st, name)
    ensures var r := NoteRecursiveCall(st, name);
      && InFunction(r, name) && r.loops == st.loops
      && FiguresOf(r.store[0]) == FiguresOf(st.store[0]).(recursive := true)
  {
    var r := NoteRecursiveCall(st, name);
    Traversal.NoteRecursiveCallKeepsSpace(st, name);
    assert Grows(st.store[0], r.store[0]);
  }

  /** A call of the current function by bare name, with quiet arguments, only flags it. */
  lemma SelfCallStep(callee: string, args: seq<Node>, st: State)
    requires Wf(st) && st.current.Some? && st.store[st.current.value].name == callee
    requires QuietSeq(args, callee)
    ensures Visit(Call(Name(callee), args, []), st) == NoteRecursiveCall(st, callee)
  {
    var flagged := NoteRecursiveCall(st, callee);
    assert Grows(st.store[st.current.value], flagged.store[st.current.value]);
    assert IsSelfCall(Name(callee), st);
    assert Visit(Name(callee), flagged) == flagged;
    Traversal.QuietSeqUnchanged(args, flagged);
    assert VisitSeq([], flagged) == flagged;
  }

  /** `return <x> <op> <name>(<args>)` inside `name`: the function is flagged recursive. */
  lemma SelfCallReturn(x: Node, op: Operator, args: seq<Node>, st: State, name: string)
    requires Wf(st) && st.current.Some? && st.store[st.current.value].name == name
    requires Quiet(x, name) && QuietSeq(args, name)
    ensures Visit(Other([BinOp(x, op, Call(Name(name), args, []))]), st) == NoteRecursiveCall(st, name)
  {
    var call := Call(Name(name), args, []);
    SelfCallStep(name, args, st);
    Traversal.QuietUnchanged(x, st);
    Traversal.QuietLeftStep(x, op, call, st);
    LastStatement(BinOp(x, op, call), st);
    Traversal.OtherStep([BinOp(x, op, call)], st);
  }

  /** Leaving a function that was never flagged only clears the context. */
  lemma LeavePlain(st: State, name: string)
    requires InFunction(st, name) && !st.store[0].isRecursive
    ensures LeaveFunction(st, 0) == st.(current := None)
  {
  }

  /** Leaving a flagged function whose body was O(1). */
  lemma LeaveRecursiveConstant(st: State, left: State, name: string)
    requires InFunction(st, name) && st.store[0].isRecursive && st.store[0].time == Constant
    requires left == LeaveFunction(st, 0)
    ensures (|left.store|, left.table, left.store[0].time, left.store[0].space, left.store[0].isRecursive)
         == (1, [Entry(name, 0)], Linear, Linear, true)
  {
  }

  /** A module holding one definition. */
  lemma RunSingle(name: string, body: seq<Node>)
    ensures Wf(Initial)
    ensures Run([FunctionDef(name, body)])
         == LeaveFunction(VisitSeq(body, EnterFunction(Initial, name)), 0)
  {
    assert Wf(Initial);
    LastStatement(FunctionDef(name, body), Initial);
  }

  // ----- a reference semantics for straight-line function bodies -----

  /**
    What a statement at the top of a function body does to the figures:
    nothing, a loop whose chain has the given power, or an allocation.
   */
  datatype Effect = NoEffect | LoopOf(power: nat) | Allocation

  /**
    The effect of a top-level statement of `name`'s body, when it is one of
    the shapes recognised here: a quiet statement, a quiet loop, a loop
    around one quiet loop, or an assignment of quiet parts.
   */
  function EffectOf(n: Node, name: string): Option<Effect> {
    if Quiet(n, name) then Some(NoEffect)
    else if QuietFor(n, name) then Some(LoopOf(BoundTerm(ForBound(n.iter)).power))
    else if n.For? && Quiet(n.target, name) && Quiet(n.iter, name) && |n.body| == 1 && QuietFor(n.body[0], name) then
      Some(LoopOf(BoundTerm(ForBound(n.iter)).power + BoundTerm(ForBound(n.body[0].iter)).power))
    else if n.Assign? && QuietSeq(n.targets, name) && Quiet(n.value, name) then
      Some(if Allocates(n.value) then Allocation else NoEffect)
    else None
  }

  predicate Recognised(body: seq<Node>, name: string) {
    forall i :: 0 <= i < |body| ==> EffectOf(body[i], name).Some?
  }

  /** The figures after one effect: a loop raises time to its chain, an allocation sets O(n) space. */
  function Apply(e: Effect, f: Figures): Figures {
    match e
    case NoEffect => f
    case LoopOf(k) => f.(time := Term(Max(f.time.power, k), 0))
    case Allocation => f.(space := Linear)
  }

  /** The figures predicted for a body, statement by statement. */
  function Predict(body: seq<Node>, name: string, f: Figures): Figures
    requires Recognised(body, name)
  {
    if body == [] then f
    else Predict(body[1..], name, Apply(EffectOf(body[0], name).value, f))
  }

  /** `r` is `st` with the figures of its function moved by `e`. */
  predicate StepsTo(st: State, r: State, e: Effect, name: string)
    requires InFunction(st, name)
  {
    && InFunction(r, name) && r.loops == st.loops
    && FiguresOf(r.store[0]) == Apply(e, FiguresOf(st.store[0]))
  }

  /** A recognised statement moves a function's figures one step of the prediction. */
  predicate Stepped(n: Node, st: State, name: string)
    requires InFunction(st, name) && EffectOf(n, name).Some?
  {
    StepsTo(st, Visit(n, st), EffectOf(n, name).value, name)
  }

  lemma QuietStatement(n: Node, st: State, name: string)
    requires InFunction(st, name) && Quiet(n, name)
    ensures Stepped(n, st, name)
  {
    Traversal.QuietUnchanged(n, st);
  }

  lemma LoopEffect(n: Node, name: string)
    requires QuietFor(n, name)
    ensures EffectOf(n, name) == Some(LoopOf(BoundTerm(ForBound(n.iter)).power))
  {
  }

  lemma LoopStatement(n: Node, st: State, name: string)
    requires InFunction(st, name) && st.loops == [] && QuietFor(n, name)
    ensures Stepped(n, st, name)
  {
    QuietLoop(n, st, name);
    LoopEffect(n, name);
    assert SumPowers(st.loops) == 0;
  }

  lemma NestedStatement(n: Node, st: State, name: string)
    requires InFunction(st, name) && st.loops == [] && EffectOf(n, name).Some?
    requires !Quiet(n, name) && !QuietFor(n, name) && n.For?
    ensures Stepped(n, st, name)
  {
    NestedQuietLoop(n, st, name);
    assert Sound(st.store[0]);
  }

  lemma AssignStatement(n: Node, st: State, name: string)
    requires InFunction(st, name) && EffectOf(n, name).Some?
    requires !Quiet(n, name) && !QuietFor(n, name) && !n.For?
    ensures Stepped(n, st, name)
  {
    if Allocates(n.value) {
      AllocatingAssign(n, st, name);
    } else {
      PlainAssign(n, st, name);
    }
  }

  /** One recognised statement takes the figures one step of the prediction. */
  lemma StatementEffect(n: Node, st: State, name: string)
    requires InFunction(st, name) && st.loops == [] && EffectOf(n, name).Some?
    ensures Stepped(n, st, name)
  {
    if Quiet(n, name) {
      QuietStatement(n, st, name);
    } else if QuietFor(n, name) {
      LoopStatement(n, st, name);
    } else if n.For? {
      NestedStatement(n, st, name);
    } else {
      AssignStatement(n, st, name);
    }
  }

  /** A recognised body takes the figures to the prediction. */
  lemma {:induction false} BodyEffect(body: seq<Node>, st: State, name: string)
    requires InFunction(st, name) && st.loops == [] && Recognised(body, name)
    ensures var r := VisitSeq(body, st);
      && InFunction(r, name) && r.loops == []
      && FiguresOf(r.store[0]) == Predict(body, name, FiguresOf(st.store[0]))
    decreases body
  {
    if body != [] {
      Traversal.SeqStep(body, st);
      StatementEffect(body[0], st, name);
      BodyEffect(body[1..], Visit(body[0], st), name);
    }
  }

  /** The prediction never flags recursion. */
  lemma {:induction false} PredictKeepsFlag(body: seq<Node>, name: string, f: Figures)
    requires Recognised(body, name)
    ensures Predict(body, name, f).recursive == f.recursive
    decreases body
  {
    if body != [] {
      PredictKeepsFlag(body[1..], name, Apply(EffectOf(body[0], name).value, f));
    }
  }

  /**
    A module holding one function whose body is recognised: the function
    ends with exactly the predicted figures, unflagged.
   */
  lemma PredictedFigures(name: string, body: seq<Node>)
    requires Recognised(body, name)
    ensures |Run([FunctionDef(name, body)]).store| == 1
    ensures var st := Run([FunctionDef(name, body)]);
      (|st.store|, st.table, FiguresOf(st.store[0]))
        == (1, [Entry(name, 0)], Predict(body, name, Figures(Constant, Constant, false)))
  {
    RunSingle(name, body);
    EnterFirst(name);
    var e := EnterFunction(Initial, name);
    BodyEffect(body, e, name);
    PredictKeepsFlag(body, name, Figures(Constant, Constant, false));
    LeavePlain(VisitSeq(body, e), name);
  }

  // ----- the samples -----

  /** The figures a sample module's only function ends with. */
  predicate EndsWith(def: Node, time: Term, space: Term)
    requires def.FunctionDef?
  {
    var st := Run([def]);
    && |st.store| == 1 && st.table == [Entry(def.name, 0)]
    && st.store[0].time == time && st.store[0].space == space && !st.store[0].isRecursive
  }

  /** The figures after a sequence of effects, in order. */
  function ApplyAll(es: seq<Effect>, f: Figures): Figures {
    if es == [] then f else ApplyAll(es[1..], Apply(es[0], f))
  }

  /** A body whose statements have the effects `es` is predicted by folding them. */
  lemma {:induction false} PredictByEffects(body: seq<Node>, name: string, es: seq<Effect>, f: Figures)
    requires |es| == |body| && forall i :: 0 <= i < |es| ==> EffectOf(body[i], name) == Some(es[i])
    ensures Recognised(body, name) && Predict(body, name, f) == ApplyAll(es, f)
    decreases body
  {
    if body != [] {
      PredictByEffects(body[1..], name, es[1..], Apply(es[0], f));
    }
  }

  /** Parameter lists and `return <v>` do nothing. */
  lemma QuietStatementEffects(v: string, name: string)
    ensures EffectOf(NoParams, name) == Some(NoEffect) && EffectOf(OneParam, name) == Some(NoEffect)
    ensures EffectOf(Other([Name(v)]), name) == Some(NoEffect)
  {
    QuietSingle(Other([]), name);
    QuietSingle(Name(v), name);
  }

  /** `v = 0` does nothing; `v = []` charges O(n) space. */
  lemma InitEffects(v: string, name: string)
    ensures EffectOf(Assign([Name(v)], IntConst(0)), name) == Some(NoEffect)
    ensures EffectOf(Assign([Name(v)], ListLit([])), name) == Some(Allocation)
  {
    QuietSingle(Name(v), name);
    assert Quiet(ListLit([]), name) && Allocates(ListLit([]));
  }

  /** `print(<v>)` as a statement. */
  function Print(v: string): Node {
    Other([Call(Name("print"), [Name(v)], [])])
  }

  /** `<r>.append(<v>)` as a statement. */
  function Append(r: string, v: string): Node {
    Other([Call(Other([Name(r)]), [Name(v)], [])])
  }

  lemma QuietSingle(n: Node, name: string)
    ensures QuietSeq([n], name) == Quiet(n, name)
  {
    assert [n][1..] == [];
  }

  /** The `range` stops of the samples are quiet. */
  lemma QuietStops(k: nat, name: string)
    ensures Quiet(IntConst(k), name) && Quiet(Name("n"), name) && Quiet(BinOp(Name("n"), Mult, Name("n")), name)
  {
  }

  lemma QuietBump(x: string, name: string)
    ensures QuietSeq([Bump(x)], name)
  {
    assert [Name(x), IntConst(1)][1..] == [IntConst(1)];
    QuietSingle(IntConst(1), name);
    assert QuietSeq([Name(x), IntConst(1)], name);
    QuietSingle(Bump(x), name);
  }

  lemma QuietAppend(x: string, name: string)
    ensures QuietSeq([Append(x, "i")], name)
  {
    QuietSingle(Name("i"), name);
    QuietSingle(Name(x), name);
    QuietSingle(Call(Other([Name(x)]), [Name("i")], []), name);
    QuietSingle(Append(x, "i"), name);
  }

  lemma QuietPrint(x: string, name: string)
    ensures name != "print" ==> QuietSeq([Print(x)], name)
  {
    QuietSingle(Name(x), name);
    QuietSingle(Call(Name("print"), [Name(x)], []), name);
    QuietSingle(Print(x), name);
  }

  /** The loop bodies of the samples are quiet. */
  lemma QuietParts(x: string, name: string)
    ensures QuietSeq([Pass], name) && QuietSeq([Bump(x)], name) && QuietSeq([Append(x, "i")], name)
    ensures name != "print" ==> QuietSeq([Print(x)], name)
  {
    QuietSingle(Pass, name);
    QuietBump(x, name);
    QuietAppend(x, name);
    QuietPrint(x, name);
  }

  /** `for v in range(stop)` with a quiet stop and body: its chain is the stop's bound class. */
  lemma RangeLoopEffect(v: string, stop: Node, body: seq<Node>, name: string)
    ensures name != "range" && Quiet(stop, name) && QuietSeq(body, name) ==>
      EffectOf(RangeLoop(v, stop, body), name) == Some(LoopOf(
        if stop.IntConst? then 0 else if stop.BinOp? && stop.op == Pow then 2 else 1))
  {
    if name != "range" && Quiet(stop, name) && QuietSeq(body, name) {
      var n := RangeLoop(v, stop, body);
      assert QuietSeq([stop], name);
      assert QuietFor(n, name);
      LoopEffect(n, name);
    }
  }

  /** The statements of definition `def` have, in order, the effects `es`. */
  predicate HasEffects(def: Node, es: seq<Effect>) {
    && def.FunctionDef? && |es| == |def.body|
    && forall i :: 0 <= i < |es| ==> EffectOf(def.body[i], def.name) == Some(es[i])
  }

  /** A sample whose statements have the effects `es`, folding to the given figures. */
  lemma SampleFigures(def: Node, es: seq<Effect>, time: Term, space: Term)
    requires HasEffects(def, es)
    requires ApplyAll(es, Figures(Constant, Constant, false)) == Figures(time, space, false)
    ensures EndsWith(def, time, space)
  {
    PredictByEffects(def.body, def.name, es, Figures(Constant, Constant, false));
    PredictedFigures(def.name, def.body);
    assert def == FunctionDef(def.name, def.body);
  }

  /** `x += 1` and the like. */
  function Bump(v: string): Node {
    Other([Name(v), IntConst(1)])
  }

  /** `def constant_loop(): x = 0; for i in range(100): x += 1; return x`. */
  const ConstantLoop: Node := FunctionDef("constant_loop", [
    NoParams,
    Assign([Name("x")], IntConst(0)),
    RangeLoop("i", IntConst(100), [Bump("x")]),
    Other([Name("x")])
  ])

  lemma ConstantLoopEffects()
    ensures HasEffects(ConstantLoop, [NoEffect, NoEffect, LoopOf(0), NoEffect])
  {
    var name := "constant_loop";
    QuietStatementEffects("x", name);
    InitEffects("x", name);
    QuietParts("x", name);
    QuietStops(100, name);
    RangeLoopEffect("i", IntConst(100), [Bump("x")], name);
  }

  /** Test 1: a literal `range` bound keeps `constant_loop` at O(1). */
  lemma ConstantLoopFigures()
    ensures EndsWith(ConstantLoop, Constant, Constant)
  {
    ConstantLoopEffects();
    SampleFigures(ConstantLoop, [NoEffect, NoEffect, LoopOf(0), NoEffect], Constant, Constant);
  }

  /** `def linear_loop(n): x = 0; for i in range(n): x += 1; return x`. */
  const LinearLoop: Node := FunctionDef("linear_loop", [
    OneParam,
    Assign([Name("x")], IntConst(0)),
    RangeLoop("i", Name("n"), [Bump("x")]),
    Other([Name("x")])
  ])

  lemma LinearLoopEffects()
    ensures HasEffects(LinearLoop, [NoEffect, NoEffect, LoopOf(1), NoEffect])
  {
    var name := "linear_loop";
    QuietStatementEffects("x", name);
    InitEffects("x", name);
    QuietParts("x", name);
    QuietStops(0, name);
    RangeLoopEffect("i", Name("n"), [Bump("x")], name);
  }

  /** Test 2: `range(n)` gives `linear_loop` O(n) time. */
  lemma LinearLoopFigures()
    ensures EndsWith(LinearLoop, Linear, Constant)
  {
    LinearLoopEffects();
    SampleFigures(LinearLoop, [NoEffect, NoEffect, LoopOf(1), NoEffect], Linear, Constant);
  }

  /** `def quadratic_loop(n): for i in range(n*n): print(i)`. */
  const QuadraticLoop: Node := FunctionDef("quadratic_loop", [
    OneParam,
    RangeLoop("i", BinOp(Name("n"), Mult, Name("n")), [Print("i")])
  ])

  lemma QuadraticLoopEffects()
    ensures HasEffects(QuadraticLoop, [NoEffect, LoopOf(1)])
  {
    var name := "quadratic_loop";
    QuietStatementEffects("i", name);
    QuietParts("i", name);
    QuietStops(0, name);
    RangeLoopEffect("i", BinOp(Name("n"), Mult, Name("n")), [Print("i")], name);
  }

  /**
    Test 3: `range(n*n)` is a product, not a power, so the heuristic
    classifies it as linear and `quadratic_loop` gets O(n), not the O(n^2)
    the sample's comment expects.
   */
  lemma QuadraticLoopFigures()
    ensures EndsWith(QuadraticLoop, Linear, Constant)
  {
    QuadraticLoopEffects();
    SampleFigures(QuadraticLoop, [NoEffect, LoopOf(1)], Linear, Constant);
  }

  /** `for <v> in range(n): for <w> in range(n): <body>`. */
  function NestedRangeLoops(v: string, w: string, body: seq<Node>): Node {
    RangeLoop(v, Name("n"), [RangeLoop(w, Name("n"), body)])
  }

  /** Two nested `range(n)` loops with a quiet body: a chain of O(n^2). */
  lemma NestedRangeLoopsEffect(v: string, w: string, body: seq<Node>, name: string)
    ensures name != "range" && name != "n" && QuietSeq(body, name) ==>
      EffectOf(NestedRangeLoops(v, w, body), name) == Some(LoopOf(2))
  {
    if name != "range" && name != "n" && QuietSeq(body, name) {
      var inner := RangeLoop(w, Name("n"), body);
      assert QuietSeq([Name("n")], name);
      assert QuietFor(inner, name);
      assert !QuietSeq([inner], name);
    }
  }

  /** `def nested_loops(n): count = 0; for i in range(n): for j in range(n): count += 1`. */
  const NestedLoops: Node := FunctionDef("nested_loops", [
    OneParam,
    Assign([Name("count")], IntConst(0)),
    NestedRangeLoops("i", "j", [Bump("count")])
  ])

  lemma NestedLoopsEffects()
    ensures HasEffects(NestedLoops, [NoEffect, NoEffect, LoopOf(2)])
  {
    var name := "nested_loops";
    QuietStatementEffects("count", name);
    InitEffects("count", name);
    QuietParts("count", name);
    QuietStops(0, name);
    NestedRangeLoopsEffect("i", "j", [Bump("count")], name);
  }

  /** Test 4: two nested `range(n)` loops give `nested_loops` O(n^2). */
  lemma NestedLoopsFigures()
    ensures EndsWith(NestedLoops, Quadratic, Constant)
  {
    NestedLoopsEffects();
    SampleFigures(NestedLoops, [NoEffect, NoEffect, LoopOf(2)], Quadratic, Constant);
  }

  /** `def space_waster(n): result = []; for i in range(n): result.append(i); return result`. */
  const SpaceWaster: Node := FunctionDef("space_waster", [
    OneParam,
    Assign([Name("result")], ListLit([])),
    RangeLoop("i", Name("n"), [Append("result", "i")]),
    Other([Name("result")])
  ])

  lemma SpaceWasterEffects()
    ensures HasEffects(SpaceWaster, [NoEffect, Allocation, LoopOf(1), NoEffect])
  {
    var name := "space_waster";
    QuietStatementEffects("result", name);
    InitEffects("result", name);
    QuietParts("result", name);
    QuietStops(0, name);
    RangeLoopEffect("i", Name("n"), [Append("result", "i")], name);
  }

  /**
    Test 6: the empty list literal charges O(n) space; the loop gives O(n)
    time (the `append` call itself is not an allocation to the heuristic).
   */
  lemma SpaceWasterFigures()
    ensures EndsWith(SpaceWaster, Linear, Linear)
  {
    SpaceWasterEffects();
    SampleFigures(SpaceWaster, [NoEffect, Allocation, LoopOf(1), NoEffect], Linear, Linear);
  }

  /** `def complex_algo(n)`: a `range(n)` loop, two nested ones, a `range(500)` loop, each with `pass`. */
  const ComplexAlgo: Node := FunctionDef("complex_algo", [
    OneParam,
    RangeLoop("i", Name("n"), [Pass]),
    NestedRangeLoops("i", "j", [Pass]),
    RangeLoop("k", IntConst(500), [Pass])
  ])

  lemma ComplexAlgoEffects()
    ensures HasEffects(ComplexAlgo, [NoEffect, LoopOf(1), LoopOf(2), LoopOf(0)])
  {
    var name := "complex_algo";
    QuietStatementEffects("i", name);
    QuietParts("i", name);
    QuietStops(500, name);
    RangeLoopEffect("i", Name("n"), [Pass], name);
    NestedRangeLoopsEffect("i", "j", [Pass], name);
    RangeLoopEffect("k", IntConst(500), [Pass], name);
  }

  /** Test 7: the costliest loop decides, so `complex_algo` gets O(n^2). */
  lemma ComplexAlgoFigures()
    ensures EndsWith(ComplexAlgo, Quadratic, Constant)
  {
    ComplexAlgoEffects();
    SampleFigures(ComplexAlgo, [NoEffect, LoopOf(1), LoopOf(2), LoopOf(0)], Quadratic, Constant);
  }

  /**
    `def factorial(n): if n <= 1: return 1` then `return n * factorial(n-1)`.
   */
  const Factorial: Node := FunctionDef("factorial", [
    OneParam,
    Other([Other([Name("n"), IntConst(1)]), Other([IntConst(1)])]),
    Other([BinOp(Name("n"), Mult, Call(Name("factorial"), [BinOp(Name("n"), OtherOperator, IntConst(1))], []))])
  ])

  /**
    A function whose body is a quiet guard followed by `return x op
    name(args)`: one self-call, nothing else the analyzer reacts to.
   */
  function GuardedRecursion(name: string, params: Node, guard: Node, x: Node, op: Operator, args: seq<Node>): Node {
    FunctionDef(name, [params, guard, Other([BinOp(x, op, Call(Name(name), args, []))])])
  }

  /** Its body only notes the self-call. */
  lemma GuardedRecursionBody(name: string, params: Node, guard: Node, x: Node, op: Operator, args: seq<Node>, e: State)
    requires InFunction(e, name)
    requires Quiet(params, name) && Quiet(guard, name) && Quiet(x, name) && QuietSeq(args, name)
    ensures VisitSeq(GuardedRecursion(name, params, guard, x, op, args).body, e) == NoteRecursiveCall(e, name)
  {
    var body := GuardedRecursion(name, params, guard, x, op, args).body;
    SkipQuiet(body, e, name);
    SkipQuiet(body[1..], e, name);
    assert body[1..][1..] == [body[2]];
    LastStatement(body[2], e);
    SelfCallReturn(x, op, args, e, name);
  }

  /** The state after such a module: enter, note the self-call, leave. */
  lemma GuardedRecursionRun(name: string, params: Node, guard: Node, x: Node, op: Operator, args: seq<Node>)
    requires Quiet(params, name) && Quiet(guard, name) && Quiet(x, name) && QuietSeq(args, name)
    ensures Wf(Initial)
    ensures Run([GuardedRecursion(name, params, guard, x, op, args)])
         == LeaveFunction(NoteRecursiveCall(EnterFunction(Initial, name), name), 0)
  {
    RunSingle(name, GuardedRecursion(name, params, guard, x, op, args).body);
    EnterFirst(name);
    GuardedRecursionBody(name, params, guard, x, op, args, EnterFunction(Initial, name));
  }

  /** Entering a module's only function and noting a self-call in it. */
  lemma FirstFunctionFlagged(name: string)
    ensures Wf(Initial)
    ensures var f := NoteRecursiveCall(EnterFunction(Initial, name), name);
      InFunction(f, name) && f.store[0].isRecursive && f.store[0].time == Constant
  {
    EnterFirst(name);
    NoteSelfCall(EnterFunction(Initial, name), name);
  }

  /** Any such function ends with O(n) time and O(n) space, flagged recursive. */
  lemma GuardedRecursionFigures(name: string, params: Node, guard: Node, x: Node, op: Operator, args: seq<Node>)
    requires Quiet(params, name) && Quiet(guard, name) && Quiet(x, name) && QuietSeq(args, name)
    ensures |Run([GuardedRecursion(name, params, guard, x, op, args)]).store| == 1
    ensures var st := Run([GuardedRecursion(name, params, guard, x, op, args)]);
      (|st.store|, st.table, st.store[0].time, st.store[0].space, st.store[0].isRecursive)
        == (1, [Entry(name, 0)], Linear, Linear, true)
  {
    GuardedRecursionRun(name, params, guard, x, op, args);
    FirstFunctionFlagged(name);
    var flagged := NoteRecursiveCall(EnterFunction(Initial, name), name);
    LeaveRecursiveConstant(flagged, LeaveFunction(flagged, 0), name);
  }

  /** Test 5: recursion gives `factorial` O(n) time and O(n) space. */
  lemma FactorialFigures()
    ensures |Run([Factorial]).store| == 1
    ensures var st := Run([Factorial]);
      (|st.store|, st.table, st.store[0].time, st.store[0].space, st.store[0].isRecursive)
        == (1, [Entry("factorial", 0)], Linear, Linear, true)
  {
    assert Factorial == GuardedRecursion("factorial", OneParam,
      Other([Other([Name("n"), IntConst(1)]), Other([IntConst(1)])]),
      Name("n"), Mult, [BinOp(Name("n"), OtherOperator, IntConst(1))]);
    GuardedRecursionFigures("factorial", OneParam,
      Other([Other([Name("n"), IntConst(1)]), Other([IntConst(1)])]),
      Name("n"), Mult, [BinOp(Name("n"), OtherOperator, IntConst(1))]);
  }
}
