/**
  The single-pass complexity inference over a syntax tree. The visitor's
  mutable fields become an explicit `State` threaded through `Visit`:

  - `store` holds every per-function analysis record ever created, by
    identity (position), because the visitor keeps references to a record
    after the function table has stopped pointing at it;
  - `table` is the function table: names in first-insertion order, each
    mapped to the record it currently designates;
  - `current` is the record being populated, or none at top level;
  - `loops` is the stack of bounds of the loops enclosing the cursor;
  - `globalLog` collects the lines produced outside any function.
 */
module Engine {
  import opened Optional
  import opened Complexity
  import opened SyntaxTree

  // ----- breakdown lines -----

  datatype LoopKind = ForLoop | WhileLoop

  /** The three classes the loop-bound heuristic can assign. */
  datatype BoundClass = ConstantBound | LinearBound | QuadraticBound

  function BoundTerm(b: BoundClass): Term {
    match b
    case ConstantBound => Constant
    case LinearBound => Linear
    case QuadraticBound => Quadratic
  }

  datatype SpaceReason = ListAllocation | DictSetAllocation | ListMultiplication

  /** One breakdown line; `level` is the loop-nesting depth used for indentation. */
  datatype LogLine =
    | LoopHeader(kind: LoopKind, bound: BoundClass, level: nat)
    | LoopContribution(chain: Term, level: nat)
    | RecursiveCall(callee: string)
    | RecursionAdjusted
    | SpaceAllocation(reason: SpaceReason, level: nat)

  /** The lines whose text contains the word "Recursive". */
  predicate MentionsRecursive(line: LogLine) {
    line.RecursiveCall? || line.RecursionAdjusted?
  }

  /** Some line of the breakdown mentions recursion. */
  predicate HasRecursionLine(lines: seq<LogLine>) {
    lines != [] && (HasRecursionLine(lines[..|lines| - 1]) || MentionsRecursive(lines[|lines| - 1]))
  }

  /** A breakdown that gains a line mentions recursion iff it did or the new line does. */
  lemma RecursionLineAppend(lines: seq<LogLine>, line: LogLine)
    ensures HasRecursionLine(lines + [line]) <==> HasRecursionLine(lines) || MentionsRecursive(line)
  {
    assert (lines + [line])[..|lines|] == lines;
  }

  /** The recursive definition agrees with "some index holds a recursion line". */
  lemma {:induction false} RecursionLineAt(lines: seq<LogLine>)
    ensures HasRecursionLine(lines) <==> exists i :: 0 <= i < |lines| && MentionsRecursive(lines[i])
  {
    if lines != [] {
      var init := lines[..|lines| - 1];
      RecursionLineAt(init);
      if exists i :: 0 <= i < |init| && MentionsRecursive(init[i]) {
        var i :| 0 <= i < |init| && MentionsRecursive(init[i]);
        assert lines[i] == init[i];
      }
      if exists i :: 0 <= i < |lines| && MentionsRecursive(lines[i]) {
        var i :| 0 <= i < |lines| && MentionsRecursive(lines[i]);
        if i < |init| {
          assert init[i] == lines[i];
        }
      }
    }
  }

  // ----- per-function records and the function table -----

  datatype FunctionAnalysis = FunctionAnalysis(
    name: string,
    time: Term,
    space: Term,
    breakdown: seq<LogLine>,
    isRecursive: bool)

  /** A record as created on entering a definition: O(1) time and space, nothing logged. */
  function NewAnalysis(name: string): FunctionAnalysis {
    FunctionAnalysis(name, Constant, Constant, [], false)
  }

  /** A function-table entry: a name and the store position of its record. */
  datatype Entry = Entry(name: string, id: nat)

  function Names(t: seq<Entry>): set<string> {
    set e | e in t :: e.name
  }

  predicate DistinctNames(t: seq<Entry>) {
    forall i, j :: 0 <= i < j < |t| ==> t[i].name != t[j].name
  }

  /** `functions.get(name)`. */
  function Lookup(t: seq<Entry>, name: string): (r: Option<nat>)
    ensures r.Some? <==> name in Names(t)
    ensures r.Some? ==> Entry(name, r.value) in t
  {
    if t == [] then None
    else if t[0].name == name then Some(t[0].id)
    else
      assert Names(t) == {t[0].name} + Names(t[1..]);
      Lookup(t[1..], name)
  }

  lemma NamesCons(e: Entry, t: seq<Entry>)
    ensures Names([e] + t) == {e.name} + Names(t)
  {
    assert forall x :: x in [e] + t <==> x == e || x in t;
  }

  /** A name of the tail of a distinct table is not the head's name. */
  lemma DistinctHead(t: seq<Entry>)
    requires t != [] && DistinctNames(t)
    ensures t[0].name !in Names(t[1..])
  {
  }

  lemma DistinctCons(e: Entry, t: seq<Entry>)
    requires DistinctNames(t) && e.name !in Names(t)
    ensures DistinctNames([e] + t)
  {
    var r := [e] + t;
    forall i, j | 0 <= i < j < |r|
      ensures r[i].name != r[j].name
    {
      if i == 0 {
        assert r[j] == t[j - 1];
        assert r[j] in t;
      } else {
        assert r[i] == t[i - 1] && r[j] == t[j - 1];
      }
    }
  }

  /**
    `functions[name] = id`: a new name is appended; an existing name keeps
    its position and is redirected to the new record.
   */
  function Put(t: seq<Entry>, name: string, id: nat): (r: seq<Entry>)
    ensures Names(r) == Names(t) + {name}
    ensures forall i :: 0 <= i < |r| ==> r[i] == Entry(name, id) || r[i] in t
    ensures DistinctNames(t) ==> DistinctNames(r)
  {
    if t == [] then [Entry(name, id)]
    else
      NamesCons(t[0], t[1..]);
      assert t == [t[0]] + t[1..];
      if t[0].name == name then
        var r := [Entry(name, id)] + t[1..];
        NamesCons(Entry(name, id), t[1..]);
        assert DistinctNames(t) ==> DistinctNames(r) by {
          if DistinctNames(t) {
            DistinctHead(t);
            DistinctCons(Entry(name, id), t[1..]);
          }
        }
        r
      else
        var rest := Put(t[1..], name, id);
        var r := [t[0]] + rest;
        NamesCons(t[0], rest);
        assert DistinctNames(t) ==> DistinctNames(r) by {
          if DistinctNames(t) {
            DistinctHead(t);
            DistinctCons(t[0], rest);
          }
        }
        r
  }

  /** After `functions[name] = id` the name designates the new record. */
  lemma {:induction false} PutFinds(t: seq<Entry>, name: string, id: nat)
    ensures Lookup(Put(t, name, id), name) == Some(id)
  {
    if t != [] && t[0].name != name {
      PutFinds(t[1..], name, id);
    }
  }

  /** Every other name designates what it did before. */
  lemma {:induction false} PutKeepsOthers(t: seq<Entry>, name: string, id: nat, other: string)
    requires other != name
    ensures Lookup(Put(t, name, id), other) == Lookup(t, other)
  {
    if t != [] && t[0].name != name {
      PutKeepsOthers(t[1..], name, id, other);
    }
  }

  /**
    A redefined name keeps its position (Python dicts keep first-insertion
    order): no entry moves.
   */
  lemma {:induction false} PutKeepsPositions(t: seq<Entry>, name: string, id: nat)
    requires name in Names(t)
    ensures |Put(t, name, id)| == |t|
    ensures forall i :: 0 <= i < |t| ==> Put(t, name, id)[i].name == t[i].name
  {
    NamesCons(t[0], t[1..]);
    assert t == [t[0]] + t[1..];
    if t[0].name != name {
      PutKeepsPositions(t[1..], name, id);
    }
  }

  /** A new name goes last. */
  lemma {:induction false} PutAppendsNew(t: seq<Entry>, name: string, id: nat)
    requires name !in Names(t)
    ensures Put(t, name, id) == t + [Entry(name, id)]
  {
    if t != [] {
      NamesCons(t[0], t[1..]);
      assert t == [t[0]] + t[1..];
      PutAppendsNew(t[1..], name, id);
    }
  }

  // ----- engine state -----

  datatype State = State(
    store: seq<FunctionAnalysis>,
    table: seq<Entry>,
    current: Option<nat>,
    loops: seq<Term>,
    globalLog: seq<LogLine>)

  /** A fresh engine: empty table, no context, empty loop stack, empty log. */
  const Initial: State := State([], [], None, [], [])

  /**
    What every record satisfies: space is O(1) or O(n), time has no log
    factor, and the recursion flag is set exactly when a breakdown line
    mentions recursion.
   */
  predicate Sound(fa: FunctionAnalysis) {
    && (fa.space == Constant || fa.space == Linear)
    && fa.time.logPower == 0
    && (fa.isRecursive <==> HasRecursionLine(fa.breakdown))
  }

  predicate Wf(st: State) {
    && DistinctNames(st.table)
    && (forall i :: 0 <= i < |st.table| ==>
          st.table[i].id < |st.store| && st.store[st.table[i].id].name == st.table[i].name)
    && (st.current.Some? ==> st.current.value < |st.store|)
    && (forall i :: 0 <= i < |st.store| ==> Sound(st.store[i]))
    && (forall i :: 0 <= i < |st.loops| ==> st.loops[i].logPower == 0)
  }

  /** A record only ever grows: same name, larger terms, extended log, flag kept. */
  predicate Grows(a: FunctionAnalysis, b: FunctionAnalysis) {
    && a.name == b.name
    && LexLe(a.time, b.time)
    && LexLe(a.space, b.space)
    && a.breakdown <= b.breakdown
    && (a.isRecursive ==> b.isRecursive)
  }

  /** Nothing recorded is ever lost between two states of one run. */
  predicate Evolves(st: State, r: State) {
    && |st.store| <= |r.store|
    && (forall i :: 0 <= i < |st.store| ==> Grows(st.store[i], r.store[i]))
    && st.globalLog <= r.globalLog
    && Names(st.table) <= Names(r.table)
  }

  lemma EvolvesTransitive(a: State, b: State, c: State)
    requires Evolves(a, b) && Evolves(b, c)
    ensures Evolves(a, c)
  {
    forall i | 0 <= i < |a.store|
      ensures Grows(a.store[i], c.store[i])
    {
      assert Grows(a.store[i], b.store[i]) && Grows(b.store[i], c.store[i]);
    }
  }

  /** Replacing one record by a sound record grown from it keeps the state well formed. */
  lemma UpdateRecord(st: State, c: nat, fa: FunctionAnalysis)
    requires Wf(st) && c < |st.store|
    requires Sound(fa) && Grows(st.store[c], fa)
    ensures Wf(st.(store := st.store[c := fa]))
    ensures Evolves(st, st.(store := st.store[c := fa]))
  {
    var r := st.(store := st.store[c := fa]);
    forall i | 0 <= i < |r.store|
      ensures Sound(r.store[i]) && Grows(st.store[i], r.store[i])
    {
      if i != c {
        assert r.store[i] == st.store[i];
      }
    }
  }

  /** Two records agree on everything but the breakdown. */
  predicate SameFigures(a: FunctionAnalysis, b: FunctionAnalysis) {
    a.name == b.name && a.time == b.time && a.space == b.space && a.isRecursive == b.isRecursive
  }

  // ----- the visitor's helpers -----

  /** `_log`: the line goes to the current record if any, else to the global log. */
  function Log(st: State, line: LogLine): (r: State)
    requires Wf(st)
    requires MentionsRecursive(line) && st.current.Some? ==> st.store[st.current.value].isRecursive
    ensures Wf(r) && Evolves(st, r)
    ensures r.table == st.table && r.current == st.current && r.loops == st.loops
    ensures |r.store| == |st.store|
    ensures forall i :: 0 <= i < |st.store| ==> SameFigures(st.store[i], r.store[i])
    ensures forall i :: 0 <= i < |st.store| && Some(i) != st.current ==> r.store[i] == st.store[i]
    ensures st.current.None? ==> r.store == st.store && r.globalLog == st.globalLog + [line]
    ensures st.current.Some? ==>
      && r.globalLog == st.globalLog
      && r.store[st.current.value].breakdown == st.store[st.current.value].breakdown + [line]
  {
    match st.current
    case None => st.(globalLog := st.globalLog + [line])
    case Some(c) =>
      var fa := st.store[c];
      var lines := fa.breakdown + [line];
      RecursionLineAppend(fa.breakdown, line);
      st.(store := st.store[c := fa.(breakdown := lines)])
  }

  /** `visit_Call` on a call of the current function by its bare name: flag it, log it. */
  function NoteRecursiveCall(st: State, callee: string): (r: State)
    requires Wf(st) && st.current.Some?
    ensures Wf(r) && Evolves(st, r)
    ensures r.table == st.table && r.current == st.current && r.loops == st.loops
    ensures |r.store| == |st.store|
    ensures r.store[st.current.value].isRecursive
    ensures forall i :: 0 <= i < |st.store| && Some(i) != st.current ==> r.store[i] == st.store[i]
    ensures forall i :: 0 <= i < |st.store| ==> r.store[i].time == st.store[i].time
  {
    var c := st.current.value;
    var fa := st.store[c];
    var lines := fa.breakdown + [RecursiveCall(callee)];
    RecursionLineAppend(fa.breakdown, RecursiveCall(callee));
    st.(store := st.store[c := fa.(isRecursive := true, breakdown := lines)])
  }

  /** `_add_space`: at top level nothing happens; inside a function, space gains an O(n) term. */
  function AddSpace(st: State, reason: SpaceReason): (r: State)
    requires Wf(st)
    ensures Wf(r) && Evolves(st, r)
    ensures r.table == st.table && r.current == st.current && r.loops == st.loops
    ensures |r.store| == |st.store|
    ensures st.current.None? ==> r == st
    ensures st.current.Some? ==> r.store[st.current.value].space == Linear
    ensures forall i :: 0 <= i < |st.store| && Some(i) != st.current ==> r.store[i] == st.store[i]
    ensures forall i :: 0 <= i < |st.store| ==> r.store[i].time == st.store[i].time
  {
    match st.current
    case None => st
    case Some(c) =>
      var fa := st.store[c];
      var grown := st.(store := st.store[c := fa.(space := Add(fa.space, Linear))]);
      Log(grown, SpaceAllocation(reason, |st.loops|))
  }

  /** The space heuristic of `visit_Assign`, applied before the children are visited. */
  function ChargeSpace(value: Node, st: State): (r: State)
    requires Wf(st)
    ensures Wf(r) && Evolves(st, r)
    ensures r.table == st.table && r.current == st.current && r.loops == st.loops
    ensures |r.store| == |st.store|
    ensures forall i :: 0 <= i < |st.store| ==> r.store[i].time == st.store[i].time
    ensures st.current.Some? && Allocates(value) ==> r.store[st.current.value].space == Linear
    ensures forall i :: 0 <= i < |st.store| && Some(i) != st.current ==> r.store[i] == st.store[i]
    ensures st.current.None? || !Allocates(value) ==> r == st
  {
    match value
    case ListLit(_) => AddSpace(st, ListAllocation)
    case ListComp(_) => AddSpace(st, ListAllocation)
    case DictLit(_) => AddSpace(st, DictSetAllocation)
    case SetLit(_) => AddSpace(st, DictSetAllocation)
    case BinOp(l, Mult, r) =>
      if l.ListLit? || r.ListLit? then AddSpace(st, ListMultiplication) else st
    case _ => st
  }

  /**
    The allocation shapes the space heuristic recognises: a list, list
    comprehension, dict or set display, or a product with a list display on
    either side.
   */
  predicate Allocates(value: Node) {
    || value.ListLit? || value.ListComp? || value.DictLit? || value.SetLit?
    || (value.BinOp? && value.op == Mult && (value.left.ListLit? || value.right.ListLit?))
  }

  /** A `for` over `range(...)` with at least one positional argument. */
  predicate IsRangeCall(iter: Node) {
    iter.Call? && iter.func.Name? && iter.func.id == "range" && |iter.args| > 0
  }

  /**
    `_analyze_loop_bound` for a `for` loop: the last positional argument of
    `range` decides; everything else is linear.
   */
  function ForBound(iter: Node): BoundClass {
    if IsRangeCall(iter) then
      var stop := iter.args[|iter.args| - 1];
      if stop.IntConst? then ConstantBound
      else if stop.BinOp? && stop.op == Pow then QuadraticBound
      else LinearBound
    else LinearBound
  }

  /**
    The bound heuristic in full: a literal last positional argument of
    `range` means constant, an exponentiation means quadratic, and every
    other `for` (a non-range iterable, `range()`, a product stop such as
    `range(n*n)`) is linear.
   */
  lemma BoundHeuristic(iter: Node)
    ensures ForBound(iter) == ConstantBound <==>
      IsRangeCall(iter) && iter.args[|iter.args| - 1].IntConst?
    ensures ForBound(iter) == QuadraticBound <==>
      IsRangeCall(iter) && iter.args[|iter.args| - 1].BinOp? && iter.args[|iter.args| - 1].op == Pow
    ensures ForBound(iter) == LinearBound <==>
      !IsRangeCall(iter) ||
      (!iter.args[|iter.args| - 1].IntConst? &&
       !(iter.args[|iter.args| - 1].BinOp? && iter.args[|iter.args| - 1].op == Pow))
  {
  }

  /** `range(n*n)` is classified linear: only `**` counts as non-linear. */
  lemma ProductStopIsLinear(n: Node, step: seq<Node>)
    ensures ForBound(Call(Name("range"), [BinOp(n, Mult, n)], step)) == LinearBound
  {
  }

  /** The sum of the powers of a loop stack. */
  function SumPowers(stack: seq<Term>): nat {
    if stack == [] then 0 else stack[0].power + SumPowers(stack[1..])
  }

  function SumLogPowers(stack: seq<Term>): nat {
    if stack == [] then 0 else stack[0].logPower + SumLogPowers(stack[1..])
  }

  /** A stack of log-free bounds sums to no log factor. */
  lemma {:induction false} LogFreeStack(stack: seq<Term>)
    requires forall i :: 0 <= i < |stack| ==> stack[i].logPower == 0
    ensures SumLogPowers(stack) == 0
  {
    if stack != [] {
      LogFreeStack(stack[1..]);
    }
  }

  /**
    The nested-loop product: `acc` multiplied by the bound of every loop in
    `stack`, so its exponents are `acc`'s plus those of every enclosing loop.
   */
  function Chain(acc: Term, stack: seq<Term>): (r: Term)
    ensures r.power == acc.power + SumPowers(stack)
    ensures r.logPower == acc.logPower + SumLogPowers(stack)
    decreases |stack|
  {
    if stack == [] then acc else Chain(Mul(acc, stack[0]), stack[1..])
  }

  /** The first half of `_handle_loop`: log the classification, push the bound. */
  function EnterLoop(st: State, kind: LoopKind, bound: BoundClass): (r: State)
    requires Wf(st)
    ensures Wf(r) && Evolves(st, r)
    ensures r.table == st.table && r.current == st.current
    ensures r.loops == st.loops + [BoundTerm(bound)]
    ensures |r.store| == |st.store|
    ensures forall i :: 0 <= i < |st.store| ==> SameFigures(st.store[i], r.store[i])
    ensures forall i :: 0 <= i < |st.store| && Some(i) != st.current ==> r.store[i] == st.store[i]
    ensures st.current.None? ==> r.store == st.store
  {
    var logged := Log(st, LoopHeader(kind, bound, |st.loops|));
    logged.(loops := logged.loops + [BoundTerm(bound)])
  }

  /** Folding the chain of a finished loop into record `c`, before the line is logged. */
  lemma ChargeChain(st: State, c: nat, bound: BoundClass)
    requires Wf(st) && |st.loops| > 0 && c < |st.store|
    ensures var popped := st.(loops := st.loops[..|st.loops| - 1]);
      var chain := Chain(BoundTerm(bound), popped.loops);
      var fa := st.store[c];
      var grown := popped.(store := st.store[c := fa.(time := Add(fa.time, chain))]);
      && Wf(grown) && Evolves(st, grown)
      && grown.store[c].time.power == Max(fa.time.power, BoundTerm(bound).power + SumPowers(popped.loops))
  {
    var popped := st.(loops := st.loops[..|st.loops| - 1]);
    var chain := Chain(BoundTerm(bound), popped.loops);
    var fa := st.store[c];
    LogFreeStack(popped.loops);
    AddPower(fa.time, chain);
    assert Wf(popped) && Evolves(st, popped);
    UpdateRecord(popped, c, fa.(time := Add(fa.time, chain)));
  }

  /**
    The second half of `_handle_loop`: pop the bound, form the chain with the
    loops still enclosing, and fold it into the record `ctx` that was current
    when the loop was entered (nothing happens to any record when it was
    top-level code).
   */
  function ExitLoop(st: State, ctx: Option<nat>, bound: BoundClass, level: nat): (r: State)
    requires Wf(st) && |st.loops| > 0
    requires ctx.Some? ==> ctx.value < |st.store|
    ensures Wf(r) && Evolves(st, r)
    ensures r.table == st.table && r.current == st.current
    ensures r.loops == st.loops[..|st.loops| - 1]
    ensures |r.store| == |st.store|
    ensures ctx.Some? ==>
      && r.store[ctx.value].time.power
           == Max(st.store[ctx.value].time.power, BoundTerm(bound).power + SumPowers(r.loops))
      && forall i :: 0 <= i < |st.store| && i != ctx.value ==> r.store[i].time == st.store[i].time
    ensures ctx.None? ==> r.store == st.store
    ensures forall i :: 0 <= i < |st.store| && Some(i) != ctx && Some(i) != st.current ==> r.store[i] == st.store[i]
  {
    var popped := st.(loops := st.loops[..|st.loops| - 1]);
    var chain := Chain(BoundTerm(bound), popped.loops);
    match ctx
    case None => popped
    case Some(c) =>
      var fa := st.store[c];
      var grown := popped.(store := st.store[c := fa.(time := Add(fa.time, chain))]);
      ChargeChain(st, c, bound);
      var r := Log(grown, LoopContribution(chain, level));
      EvolvesTransitive(st, grown, r);
      r
  }

  /** The state right after a definition is entered. */
  function Registered(st: State, name: string): State {
    var id := |st.store|;
    State(st.store + [NewAnalysis(name)], Put(st.table, name, id), Some(id), st.loops, st.globalLog)
  }

  /** Appending a sound record keeps every record sound and nothing recorded changes. */
  lemma RegisteredRecords(st: State, name: string)
    requires Wf(st)
    ensures var store := Registered(st, name).store;
      && (forall i :: 0 <= i < |store| ==> Sound(store[i]))
      && (forall i :: 0 <= i < |st.store| ==> store[i] == st.store[i])
  {
    var store := Registered(st, name).store;
    assert Sound(NewAnalysis(name));
    forall i | 0 <= i < |store| ensures Sound(store[i]) {
      if i < |st.store| {
        assert store[i] == st.store[i];
      }
    }
  }

  /** Every entry of the new table designates a record with its name. */
  lemma RegisteredTable(st: State, name: string)
    requires Wf(st)
    requires forall i :: 0 <= i < |st.store| ==> Registered(st, name).store[i] == st.store[i]
    ensures var r := Registered(st, name);
      forall i :: 0 <= i < |r.table| ==>
        r.table[i].id < |r.store| && r.store[r.table[i].id].name == r.table[i].name
  {
    var r := Registered(st, name);
    var id := |st.store|;
    forall i | 0 <= i < |r.table|
      ensures r.table[i].id < |r.store| && r.store[r.table[i].id].name == r.table[i].name
    {
      if r.table[i] != Entry(name, id) {
        var k :| 0 <= k < |st.table| && st.table[k] == r.table[i];
      }
    }
  }

  /** The entry half of `visit_FunctionDef`: a fresh record, registered and made current. */
  function EnterFunction(st: State, name: string): (r: State)
    requires Wf(st)
    ensures Wf(r) && Evolves(st, r)
    ensures r.loops == st.loops && r.globalLog == st.globalLog
    ensures |r.store| == |st.store| + 1 && r.store[|st.store|] == NewAnalysis(name)
    ensures r.current == Some(|st.store|)
    ensures Lookup(r.table, name) == Some(|st.store|)
    ensures forall i :: 0 <= i < |st.store| ==> r.store[i] == st.store[i]
    ensures forall other :: other != name ==> Lookup(r.table, other) == Lookup(st.table, other)
  {
    var r := Registered(st, name);
    PutFinds(st.table, name, |st.store|);
    forall other | other != name
      ensures Lookup(r.table, other) == Lookup(st.table, other)
    {
      PutKeepsOthers(st.table, name, |st.store|, other);
    }
    RegisteredRecords(st, name);
    RegisteredTable(st, name);
    assert forall i :: 0 <= i < |st.store| ==> Grows(st.store[i], r.store[i]);
    r
  }

  /**
    The exit half of `visit_FunctionDef`: a record flagged recursive gets its
    time raised by one power of n and its space raised to O(n); then the
    context becomes none (even when an enclosing definition is still open).
   */
  function LeaveFunction(st: State, id: nat): (r: State)
    requires Wf(st) && id < |st.store|
    requires st.current == Some(id) || st.current.None?
    ensures Wf(r) && Evolves(st, r)
    ensures r.table == st.table && r.loops == st.loops && r.current.None?
    ensures |r.store| == |st.store|
    ensures st.store[id].isRecursive ==>
      && r.store[id].time == Term(st.store[id].time.power + 1, st.store[id].time.logPower)
      && r.store[id].space == Linear
    ensures !st.store[id].isRecursive ==> r == st.(current := None)
    ensures forall i :: 0 <= i < |st.store| && i != id ==> r.store[i] == st.store[i]
  {
    var fa := st.store[id];
    if fa.isRecursive then
      // `time * O(n)`, i.e. one more power of n (MulLinear)
      var adjusted := fa.(time := Term(fa.time.power + 1, fa.time.logPower), space := Add(fa.space, Linear));
      var st1 := st.(store := st.store[id := adjusted]);
      Log(st1, RecursionAdjusted).(current := None)
    else
      st.(current := None)
  }

  /** True iff the call's callee is the bare name of the current function. */
  predicate IsSelfCall(func: Node, st: State)
    requires Wf(st)
  {
    func.Name? && st.current.Some? && func.id == st.store[st.current.value].name
  }

  // ----- the traversal -----

  /**
    Every record that already existed in `st`, other than the current one,
    is exactly as it was in `r`: a visit charges only the function it
    happens in and the definitions it opens.
   */
  predicate OthersKept(st: State, r: State) {
    forall i :: 0 <= i < |st.store| && Some(i) != st.current ==> i < |r.store| && r.store[i] == st.store[i]
  }

  /** Two visits in a row keep the others, when the first left the context as it was, none, or a record it opened. */
  lemma OthersKeptTransitive(a: State, b: State, c: State)
    requires OthersKept(a, b) && OthersKept(b, c) && |a.store| <= |b.store|
    requires b.current == a.current || b.current.None? || b.current.value >= |a.store|
    ensures OthersKept(a, c)
  {
    forall i | 0 <= i < |a.store| && Some(i) != a.current
      ensures i < |c.store| && c.store[i] == a.store[i]
    {
      assert Some(i) != b.current;
    }
  }

  /**
    Closing a loop charges the context captured at its entry and logs to the
    current one; when the body kept the others and left that context as it
    was or none, the whole loop keeps the others.
   */
  lemma LoopKeepsOthers(st: State, body: State, r: State)
    requires OthersKept(st, body) && |st.store| <= |body.store| == |r.store|
    requires body.current == st.current || body.current.None?
    requires forall i :: 0 <= i < |body.store| && Some(i) != st.current && Some(i) != body.current ==>
      r.store[i] == body.store[i]
    ensures OthersKept(st, r)
  {
  }

  /**
    Visit one node, dispatching on its kind to the matching `visit_*`
    method; every other kind is visited generically, its children in field
    order. The loop stack is left exactly as found, no recorded figure ever
    shrinks, and the context is unchanged unless a definition inside reset it
    to none.
   */
  function Visit(n: Node, st: State): (r: State)
    requires Wf(st)
    ensures Wf(r) && Evolves(st, r)
    ensures r.loops == st.loops
    ensures r.current == st.current || r.current.None?
    ensures OthersKept(st, r)
    decreases n, 1
  {
    match n
    case FunctionDef(name, body) => VisitFunctionDef(name, body, st)
    case Call(func, args, keywords) => VisitCall(func, args, keywords, st)
    case For(target, iter, body) => VisitFor(target, iter, body, st)
    case While(test, body) => VisitWhile(test, body, st)
    case Assign(targets, value) => VisitAssign(targets, value, st)
    case Name(_) => st
    case IntConst(_) => st
    case BinOp(left, op, right) => VisitBinOp(left, op, right, st)
    case ListLit(elts) => VisitSeq(elts, st)
    case ListComp(parts) => VisitSeq(parts, st)
    case DictLit(parts) => VisitSeq(parts, st)
    case SetLit(parts) => VisitSeq(parts, st)
    case Other(children) => VisitSeq(children, st)
  }

  /**
    `visit_FunctionDef`: open a record, visit the children inside it, close
    it. The record opened is the next one in the store, it carries the
    definition's name, and the name stays in the table.
   */
  function VisitFunctionDef(name: string, body: seq<Node>, st: State): (r: State)
    requires Wf(st)
    ensures Wf(r) && Evolves(st, r)
    ensures r.loops == st.loops
    ensures r.current.None?
    ensures |r.store| > |st.store| && r.store[|st.store|].name == name
    ensures name in Names(r.table)
    ensures forall i :: 0 <= i < |st.store| ==> r.store[i] == st.store[i]
    decreases FunctionDef(name, body), 0
  {
    var entered := EnterFunction(st, name);
    var visited := VisitSeq(body, entered);
    var r := LeaveFunction(visited, |st.store|);
    EvolvesTransitive(st, entered, visited);
    EvolvesTransitive(st, visited, r);
    r
  }

  /** `visit_Call`: flag a call of the current function by bare name, then visit the children. */
  function VisitCall(func: Node, args: seq<Node>, keywords: seq<Node>, st: State): (r: State)
    requires Wf(st)
    ensures Wf(r) && Evolves(st, r)
    ensures r.loops == st.loops
    ensures r.current == st.current || r.current.None?
    ensures OthersKept(st, r)
    decreases Call(func, args, keywords), 0
  {
    var st1 := if IsSelfCall(func, st) then NoteRecursiveCall(st, func.id) else st;
    var st2 := Visit(func, st1);
    var st3 := VisitSeq(args, st2);
    var r := VisitSeq(keywords, st3);
    EvolvesTransitive(st, st1, st2);
    EvolvesTransitive(st, st2, st3);
    EvolvesTransitive(st, st3, r);
    OthersKeptTransitive(st, st1, st2);
    OthersKeptTransitive(st, st2, st3);
    OthersKeptTransitive(st, st3, r);
    r
  }

  /** `visit_For`: push the loop with the bound read off `iter`, visit the children, pop and charge. */
  function VisitFor(target: Node, iter: Node, body: seq<Node>, st: State): (r: State)
    requires Wf(st)
    ensures Wf(r) && Evolves(st, r)
    ensures r.loops == st.loops
    ensures r.current == st.current || r.current.None?
    ensures OthersKept(st, r)
    decreases For(target, iter, body), 0
  {
    var bound := ForBound(iter);
    var st1 := EnterLoop(st, ForLoop, bound);
    var st2 := Visit(target, st1);
    var st3 := Visit(iter, st2);
    var st4 := VisitSeq(body, st3);
    var r := ExitLoop(st4, st.current, bound, |st.loops|);
    EvolvesTransitive(st, st1, st2);
    EvolvesTransitive(st, st2, st3);
    EvolvesTransitive(st, st3, st4);
    EvolvesTransitive(st, st4, r);
    OthersKeptTransitive(st, st1, st2);
    OthersKeptTransitive(st, st2, st3);
    OthersKeptTransitive(st, st3, st4);
    LoopKeepsOthers(st, st4, r);
    r
  }

  /** `visit_While`: the same with an O(n) bound. */
  function VisitWhile(test: Node, body: seq<Node>, st: State): (r: State)
    requires Wf(st)
    ensures Wf(r) && Evolves(st, r)
    ensures r.loops == st.loops
    ensures r.current == st.current || r.current.None?
    ensures OthersKept(st, r)
    decreases While(test, body), 0
  {
    var st1 := EnterLoop(st, WhileLoop, LinearBound);
    var st2 := Visit(test, st1);
    var st3 := VisitSeq(body, st2);
    var r := ExitLoop(st3, st.current, LinearBound, |st.loops|);
    EvolvesTransitive(st, st1, st2);
    EvolvesTransitive(st, st2, st3);
    EvolvesTransitive(st, st3, r);
    OthersKeptTransitive(st, st1, st2);
    OthersKeptTransitive(st, st2, st3);
    LoopKeepsOthers(st, st3, r);
    r
  }

  /** `visit_Assign`: charge space for the value, then visit targets and value. */
  function VisitAssign(targets: seq<Node>, value: Node, st: State): (r: State)
    requires Wf(st)
    ensures Wf(r) && Evolves(st, r)
    ensures r.loops == st.loops
    ensures r.current == st.current || r.current.None?
    ensures OthersKept(st, r)
    decreases Assign(targets, value), 0
  {
    var st1 := ChargeSpace(value, st);
    var st2 := VisitSeq(targets, st1);
    var r := Visit(value, st2);
    EvolvesTransitive(st, st1, st2);
    EvolvesTransitive(st, st2, r);
    OthersKeptTransitive(st, st1, st2);
    OthersKeptTransitive(st, st2, r);
    r
  }

  /** The generic visit of a binary operation: left operand, then right. */
  function VisitBinOp(left: Node, op: Operator, right: Node, st: State): (r: State)
    requires Wf(st)
    ensures Wf(r) && Evolves(st, r)
    ensures r.loops == st.loops
    ensures r.current == st.current || r.current.None?
    ensures OthersKept(st, r)
    decreases BinOp(left, op, right), 0
  {
    var st1 := Visit(left, st);
    var r := Visit(right, st1);
    EvolvesTransitive(st, st1, r);
    OthersKeptTransitive(st, st1, r);
    r
  }

  /** Visit a sequence of siblings left to right. */
  function VisitSeq(ns: seq<Node>, st: State): (r: State)
    requires Wf(st)
    ensures Wf(r) && Evolves(st, r)
    ensures r.loops == st.loops
    ensures r.current == st.current || r.current.None?
    ensures OthersKept(st, r)
    decreases ns, 1
  {
    if ns == [] then st
    else
      var st1 := Visit(ns[0], st);
      var r := VisitSeq(ns[1..], st1);
      EvolvesTransitive(st, st1, r);
      OthersKeptTransitive(st, st1, r);
      r
  }
}

/** Properties of whole traversals. */
module Traversal {
  import opened Optional
  import opened Complexity
  import opened SyntaxTree
  import opened Engine

  /**
    A record is final once the visit of its definition has ended: whatever
    follows at top level, later sibling definitions included, leaves every
    existing record exactly as it is.
   */
  lemma ClosedRecordsFinal(ns: seq<Node>, st: State)
    requires Wf(st) && st.current.None?
    ensures forall i :: 0 <= i < |st.store| ==> VisitSeq(ns, st).store[i] == st.store[i]
  {
  }

  /** A later definition, at any depth, never changes a record that already exists. */
  lemma DefinitionKeepsEarlier(name: string, body: seq<Node>, st: State)
    requires Wf(st)
    ensures forall i :: 0 <= i < |st.store| ==> Visit(FunctionDef(name, body), st).store[i] == st.store[i]
  {
  }

  /** The store, the table and the (empty) context are as they were. */
  predicate Untouched(st: State, r: State) {
    r.store == st.store && r.table == st.table && r.current.None?
  }

  /**
    Top-level code without definitions touches no record and no table
    entry, and the context stays empty: calls, loops and allocations outside
    any function charge no one.
   */
  lemma {:induction false} TopLevelCodeChargesNothing(n: Node, st: State)
    requires Wf(st) && st.current.None? && DefFree(n)
    ensures Untouched(st, Visit(n, st))
    decreases n, 1
  {
    match n
    case FunctionDef(_, _) =>
    case Call(func, args, keywords) =>
      CallDispatch(func, args, keywords, st);
      TopLevelCall(func, args, keywords, st);
    case For(target, iter, body) =>
      ForDispatch(target, iter, body, st);
      TopLevelFor(target, iter, body, st);
    case While(test, body) =>
      WhileDispatch(test, body, st);
      TopLevelWhile(test, body, st);
    case Assign(targets, value) =>
      AssignDispatch(targets, value, st);
      TopLevelAssign(targets, value, st);
    case Name(_) =>
    case IntConst(_) =>
    case BinOp(left, op, right) =>
      BinOpDispatch(left, op, right, st);
      TopLevelBinOp(left, op, right, st);
    case ListLit(elts) => TopLevelSeqChargesNothing(elts, st);
    case ListComp(parts) => TopLevelSeqChargesNothing(parts, st);
    case DictLit(parts) => TopLevelSeqChargesNothing(parts, st);
    case SetLit(parts) => TopLevelSeqChargesNothing(parts, st);
    case Other(children) => TopLevelSeqChargesNothing(children, st);
  }

  lemma {:induction false} TopLevelCall(func: Node, args: seq<Node>, keywords: seq<Node>, st: State)
    requires Wf(st) && st.current.None? && DefFree(Call(func, args, keywords))
    ensures Untouched(st, VisitCall(func, args, keywords, st))
    decreases Call(func, args, keywords), 0
  {
    TopLevelCodeChargesNothing(func, st);
    var st2 := Visit(func, st);
    TopLevelSeqChargesNothing(args, st2);
    TopLevelSeqChargesNothing(keywords, VisitSeq(args, st2));
  }

  lemma {:induction false} TopLevelFor(target: Node, iter: Node, body: seq<Node>, st: State)
    requires Wf(st) && st.current.None? && DefFree(For(target, iter, body))
    ensures Untouched(st, VisitFor(target, iter, body, st))
    decreases For(target, iter, body), 0
  {
    var st1 := EnterLoop(st, ForLoop, ForBound(iter));
    TopLevelCodeChargesNothing(target, st1);
    var st2 := Visit(target, st1);
    TopLevelCodeChargesNothing(iter, st2);
    TopLevelSeqChargesNothing(body, Visit(iter, st2));
  }

  lemma {:induction false} TopLevelWhile(test: Node, body: seq<Node>, st: State)
    requires Wf(st) && st.current.None? && DefFree(While(test, body))
    ensures Untouched(st, VisitWhile(test, body, st))
    decreases While(test, body), 0
  {
    var st1 := EnterLoop(st, WhileLoop, LinearBound);
    TopLevelCodeChargesNothing(test, st1);
    TopLevelSeqChargesNothing(body, Visit(test, st1));
  }

  lemma {:induction false} TopLevelAssign(targets: seq<Node>, value: Node, st: State)
    requires Wf(st) && st.current.None? && DefFree(Assign(targets, value))
    ensures Untouched(st, VisitAssign(targets, value, st))
    decreases Assign(targets, value), 0
  {
    TopLevelSeqChargesNothing(targets, st);
    TopLevelCodeChargesNothing(value, VisitSeq(targets, st));
  }

  lemma {:induction false} TopLevelBinOp(left: Node, op: Operator, right: Node, st: State)
    requires Wf(st) && st.current.None? && DefFree(BinOp(left, op, right))
    ensures Untouched(st, VisitBinOp(left, op, right, st))
    decreases BinOp(left, op, right), 0
  {
    TopLevelCodeChargesNothing(left, st);
    TopLevelCodeChargesNothing(right, Visit(left, st));
  }

  lemma {:induction false} TopLevelSeqChargesNothing(ns: seq<Node>, st: State)
    requires Wf(st) && st.current.None? && DefFreeSeq(ns)
    ensures Untouched(st, VisitSeq(ns, st))
    decreases ns, 1
  {
    if ns != [] {
      TopLevelCodeChargesNothing(ns[0], st);
      TopLevelSeqChargesNothing(ns[1..], Visit(ns[0], st));
    }
  }

  /**
    A loop met while a function is current leaves that function's time at
    least as high as the loop's chain: the bound's power plus the powers of
    every enclosing loop.
   */
  lemma ForLoopContributes(target: Node, iter: Node, body: seq<Node>, st: State)
    requires Wf(st) && st.current.Some?
    ensures Visit(For(target, iter, body), st).store[st.current.value].time.power
      >= BoundTerm(ForBound(iter)).power + SumPowers(st.loops)
  {
    ForDispatch(target, iter, body, st);
    var bound := ForBound(iter);
    var st1 := EnterLoop(st, ForLoop, bound);
    var st4 := VisitSeq(body, Visit(iter, Visit(target, st1)));
    assert st4.loops[..|st4.loops| - 1] == st.loops;
    assert VisitFor(target, iter, body, st) == ExitLoop(st4, st.current, bound, |st.loops|);
  }

  lemma WhileLoopContributes(test: Node, body: seq<Node>, st: State)
    requires Wf(st) && st.current.Some?
    ensures Visit(While(test, body), st).store[st.current.value].time.power
      >= 1 + SumPowers(st.loops)
  {
    WhileDispatch(test, body, st);
    var st3 := VisitSeq(body, Visit(test, EnterLoop(st, WhileLoop, LinearBound)));
    assert st3.loops[..|st3.loops| - 1] == st.loops;
    assert VisitWhile(test, body, st) == ExitLoop(st3, st.current, LinearBound, |st.loops|);
  }

  // ----- one dispatch step of `Visit` per node kind -----

  lemma ForDispatch(target: Node, iter: Node, body: seq<Node>, st: State)
    requires Wf(st)
    ensures Visit(For(target, iter, body), st) == VisitFor(target, iter, body, st)
  {
  }

  lemma WhileDispatch(test: Node, body: seq<Node>, st: State)
    requires Wf(st)
    ensures Visit(While(test, body), st) == VisitWhile(test, body, st)
  {
  }

  lemma CallDispatch(func: Node, args: seq<Node>, keywords: seq<Node>, st: State)
    requires Wf(st)
    ensures Visit(Call(func, args, keywords), st) == VisitCall(func, args, keywords, st)
  {
  }

  lemma AssignDispatch(targets: seq<Node>, value: Node, st: State)
    requires Wf(st)
    ensures Visit(Assign(targets, value), st) == VisitAssign(targets, value, st)
  {
  }

  lemma BinOpDispatch(left: Node, op: Operator, right: Node, st: State)
    requires Wf(st)
    ensures Visit(BinOp(left, op, right), st) == VisitBinOp(left, op, right, st)
  {
  }

  /** A call of the current function by its bare name flags that function for good. */
  lemma SelfCallFlagsRecursion(callee: string, args: seq<Node>, keywords: seq<Node>, st: State)
    requires Wf(st) && st.current.Some? && st.store[st.current.value].name == callee
    ensures Visit(Call(Name(callee), args, keywords), st).store[st.current.value].isRecursive
  {
  }

  /** A call of any other name, without arguments, changes nothing: no flag, no figure, no line. */
  lemma OtherCallFlagsNothing(callee: string, st: State)
    requires Wf(st) && st.current.Some? && st.store[st.current.value].name != callee
    ensures Visit(Call(Name(callee), [], []), st) == st
  {
    assert Visit(Name(callee), st) == st;
    assert VisitCall(Name(callee), [], [], st) == st;
  }

  /**
    Every function definition registers its name: afterwards the name is
    in the table, designating a record with that name, and the context is none.
   */
  lemma DefinitionRegisters(name: string, body: seq<Node>, st: State)
    requires Wf(st)
    ensures name in Names(Visit(FunctionDef(name, body), st).table)
    ensures Visit(FunctionDef(name, body), st).current.None?
  {
    var entered := EnterFunction(st, name);
    assert name in Names(entered.table) by {
      assert Lookup(entered.table, name) == Some(|st.store|);
    }
  }

  /** Inside a function, a quiet node changes nothing at all. */
  lemma {:induction false} QuietUnchanged(n: Node, st: State)
    requires Wf(st) && st.current.Some? && Quiet(n, st.store[st.current.value].name)
    ensures Visit(n, st) == st
    decreases n
  {
    match n
    case Call(func, args, keywords) =>
      QuietUnchanged(func, st);
      QuietSeqUnchanged(args, st);
      QuietSeqUnchanged(keywords, st);
    case BinOp(left, _, right) =>
      QuietUnchanged(left, st);
      QuietUnchanged(right, st);
    case ListLit(elts) => QuietSeqUnchanged(elts, st);
    case ListComp(parts) => QuietSeqUnchanged(parts, st);
    case DictLit(parts) => QuietSeqUnchanged(parts, st);
    case SetLit(parts) => QuietSeqUnchanged(parts, st);
    case Other(children) => QuietSeqUnchanged(children, st);
    case _ =>
  }

  lemma {:induction false} QuietSeqUnchanged(ns: seq<Node>, st: State)
    requires Wf(st) && st.current.Some? && QuietSeq(ns, st.store[st.current.value].name)
    ensures VisitSeq(ns, st) == st
    decreases ns
  {
    if ns != [] {
      QuietUnchanged(ns[0], st);
      QuietSeqUnchanged(ns[1..], st);
    }
  }

  /** Visiting a statement sequence: the first statement, then the rest from where it left off. */
  lemma SeqStep(ns: seq<Node>, st: State)
    requires Wf(st) && ns != []
    ensures VisitSeq(ns, st) == VisitSeq(ns[1..], Visit(ns[0], st))
  {
  }

  /** A `for` loop with a quiet header: enter, visit the body, leave. */
  lemma ForStep(target: Node, iter: Node, body: seq<Node>, st: State)
    requires Wf(st) && st.current.Some?
    requires Quiet(target, st.store[st.current.value].name) && Quiet(iter, st.store[st.current.value].name)
    ensures var bound := ForBound(iter);
      Visit(For(target, iter, body), st)
        == ExitLoop(VisitSeq(body, EnterLoop(st, ForLoop, bound)), st.current, bound, |st.loops|)
  {
    ForDispatch(target, iter, body, st);
    QuietHeader(target, iter, body, st);
  }

  lemma QuietHeader(target: Node, iter: Node, body: seq<Node>, st: State)
    requires Wf(st) && st.current.Some?
    requires Quiet(target, st.store[st.current.value].name) && Quiet(iter, st.store[st.current.value].name)
    ensures var bound := ForBound(iter);
      VisitFor(target, iter, body, st)
        == ExitLoop(VisitSeq(body, EnterLoop(st, ForLoop, bound)), st.current, bound, |st.loops|)
  {
    var st1 := EnterLoop(st, ForLoop, ForBound(iter));
    QuietUnchanged(target, st1);
    QuietUnchanged(iter, st1);
  }

  /** Leaving a loop changes no space figure and no recursion flag. */
  lemma ExitLoopKeepsSpace(st: State, ctx: Option<nat>, bound: BoundClass, level: nat)
    requires Wf(st) && |st.loops| > 0
    requires ctx.Some? ==> ctx.value < |st.store|
    ensures var r := ExitLoop(st, ctx, bound, level);
      forall i :: 0 <= i < |st.store| ==>
        r.store[i].space == st.store[i].space && r.store[i].isRecursive == st.store[i].isRecursive
  {
  }

  /** Noting a recursive call changes no space figure. */
  lemma NoteRecursiveCallKeepsSpace(st: State, callee: string)
    requires Wf(st) && st.current.Some?
    ensures var r := NoteRecursiveCall(st, callee);
      forall i :: 0 <= i < |st.store| ==> r.store[i].space == st.store[i].space
  {
  }

  /** A quiet `for` loop acts as entering and leaving its loop at once. */
  lemma QuietLoopState(n: Node, st: State)
    requires Wf(st) && st.current.Some?
    requires var name := st.store[st.current.value].name;
      n.For? && Quiet(n.target, name) && Quiet(n.iter, name) && QuietSeq(n.body, name)
    ensures Visit(n, st) == ExitLoop(EnterLoop(st, ForLoop, ForBound(n.iter)), st.current, ForBound(n.iter), |st.loops|)
  {
    ForStep(n.target, n.iter, n.body, st);
    QuietSeqUnchanged(n.body, EnterLoop(st, ForLoop, ForBound(n.iter)));
  }

  /** Entering and leaving a loop at once, inside a function: the chain is folded into its time. */
  lemma EmptyLoopInFunction(st: State, bound: BoundClass)
    requires Wf(st) && st.current.Some?
    ensures var r := ExitLoop(EnterLoop(st, ForLoop, bound), st.current, bound, |st.loops|);
      var c := st.current.value;
      && r.current == st.current && r.table == st.table && r.loops == st.loops
      && |r.store| == |st.store|
      && r.store[c].time == Term(Max(st.store[c].time.power, BoundTerm(bound).power + SumPowers(st.loops)), 0)
      && (forall i :: 0 <= i < |st.store| ==> r.store[i].space == st.store[i].space)
      && (forall i :: 0 <= i < |st.store| ==> r.store[i].isRecursive == st.store[i].isRecursive)
  {
    var st1 := EnterLoop(st, ForLoop, bound);
    assert st1.loops[..|st1.loops| - 1] == st.loops;
    var r := ExitLoop(st1, st.current, bound, |st.loops|);
    ExitLoopKeepsSpace(st1, st.current, bound, |st.loops|);
    assert Sound(r.store[st.current.value]);
  }

  /** A binary operation whose left operand is quiet: only the right operand acts. */
  lemma QuietLeftStep(left: Node, op: Operator, right: Node, st: State)
    requires Wf(st) && st.current.Some? && Quiet(left, st.store[st.current.value].name)
    ensures Visit(BinOp(left, op, right), st) == Visit(right, st)
  {
    BinOpDispatch(left, op, right, st);
    QuietLeftOperand(left, op, right, st);
  }

  lemma QuietLeftOperand(left: Node, op: Operator, right: Node, st: State)
    requires Wf(st) && st.current.Some? && Quiet(left, st.store[st.current.value].name)
    ensures VisitBinOp(left, op, right, st) == Visit(right, st)
  {
    QuietUnchanged(left, st);
  }

  /** Any other node: its children in order. */
  lemma OtherStep(children: seq<Node>, st: State)
    requires Wf(st)
    ensures Visit(Other(children), st) == VisitSeq(children, st)
  {
  }
}
