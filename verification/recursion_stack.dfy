/**
  The `recursion_stack` set of the visitor. `visit_FunctionDef` adds the
  definition's name on entry and removes it on exit; nothing else reads or
  writes it. Since it is a set, a definition nested (at any depth) inside a
  definition of the same name removes the shared entry first, and the outer
  `remove` then raises `KeyError`, which `analyze` does not catch.

  The traversal below visits nodes in the same order as `Engine.Visit`, but
  tracks only this set: no other part of the engine state influences it or
  is influenced by it.
 */
module RecursionStack {
  import opened SyntaxTree

  /** The set after a visit, or the key whose `remove` raised `KeyError`. */
  datatype Outcome = Done(names: set<string>) | KeyError(key: string)

  /** The exit half of `visit_FunctionDef`: `recursion_stack.remove(name)`, unless a visit inside already raised. */
  function Leave(o: Outcome, name: string): Outcome {
    match o
    case KeyError(_) => o
    case Done(names) => if name in names then Done(names - {name}) else KeyError(name)
  }

  /** Continue with the node `n` unless a visit before it raised. */
  function ThenNode(o: Outcome, n: Node): Outcome
    decreases n, 2
  {
    match o
    case KeyError(_) => o
    case Done(names) => Track(n, names)
  }

  /** Continue with the nodes `ns` unless a visit before them raised. */
  function ThenSeq(o: Outcome, ns: seq<Node>): Outcome
    decreases ns, 2
  {
    match o
    case KeyError(_) => o
    case Done(names) => TrackSeq(ns, names)
  }

  /** The set operations a visit of `n` performs, starting from `names`. */
  function Track(n: Node, names: set<string>): Outcome
    decreases n, 1
  {
    match n
    case FunctionDef(name, body) => Leave(TrackSeq(body, names + {name}), name)
    case Call(func, args, keywords) => ThenSeq(ThenSeq(Track(func, names), args), keywords)
    case For(target, iter, body) => ThenSeq(ThenNode(Track(target, names), iter), body)
    case While(test, body) => ThenSeq(Track(test, names), body)
    case Assign(targets, value) => ThenNode(TrackSeq(targets, names), value)
    case Name(_) => Done(names)
    case IntConst(_) => Done(names)
    case BinOp(left, _, right) => ThenNode(Track(left, names), right)
    case ListLit(elts) => TrackSeq(elts, names)
    case ListComp(parts) => TrackSeq(parts, names)
    case DictLit(parts) => TrackSeq(parts, names)
    case SetLit(parts) => TrackSeq(parts, names)
    case Other(children) => TrackSeq(children, names)
  }

  function TrackSeq(ns: seq<Node>, names: set<string>): Outcome
    decreases ns, 1
  {
    if ns == [] then Done(names) else ThenSeq(Track(ns[0], names), ns[1..])
  }

  // ----- the reference description -----

  /** The names of all definitions in `n`, `n` itself included. */
  function DefinedIn(n: Node): set<string> {
    match n
    case FunctionDef(name, body) => {name} + DefinedInSeq(body)
    case Call(func, args, keywords) => DefinedIn(func) + DefinedInSeq(args) + DefinedInSeq(keywords)
    case For(target, iter, body) => DefinedIn(target) + DefinedIn(iter) + DefinedInSeq(body)
    case While(test, body) => DefinedIn(test) + DefinedInSeq(body)
    case Assign(targets, value) => DefinedInSeq(targets) + DefinedIn(value)
    case Name(_) => {}
    case IntConst(_) => {}
    case BinOp(left, _, right) => DefinedIn(left) + DefinedIn(right)
    case ListLit(elts) => DefinedInSeq(elts)
    case ListComp(parts) => DefinedInSeq(parts)
    case DictLit(parts) => DefinedInSeq(parts)
    case SetLit(parts) => DefinedInSeq(parts)
    case Other(children) => DefinedInSeq(children)
  }

  function DefinedInSeq(ns: seq<Node>): set<string> {
    if ns == [] then {} else DefinedIn(ns[0]) + DefinedInSeq(ns[1..])
  }

  /** Some definition in `n` contains, at any depth, a definition of its own name. */
  predicate NestsOwnName(n: Node) {
    match n
    case FunctionDef(name, body) => name in DefinedInSeq(body) || NestsOwnNameSeq(body)
    case Call(func, args, keywords) => NestsOwnName(func) || NestsOwnNameSeq(args) || NestsOwnNameSeq(keywords)
    case For(target, iter, body) => NestsOwnName(target) || NestsOwnName(iter) || NestsOwnNameSeq(body)
    case While(test, body) => NestsOwnName(test) || NestsOwnNameSeq(body)
    case Assign(targets, value) => NestsOwnNameSeq(targets) || NestsOwnName(value)
    case Name(_) => false
    case IntConst(_) => false
    case BinOp(left, _, right) => NestsOwnName(left) || NestsOwnName(right)
    case ListLit(elts) => NestsOwnNameSeq(elts)
    case ListComp(parts) => NestsOwnNameSeq(parts)
    case DictLit(parts) => NestsOwnNameSeq(parts)
    case SetLit(parts) => NestsOwnNameSeq(parts)
    case Other(children) => NestsOwnNameSeq(children)
  }

  predicate NestsOwnNameSeq(ns: seq<Node>) {
    ns != [] && (NestsOwnName(ns[0]) || NestsOwnNameSeq(ns[1..]))
  }

  /** `o` raised when `raises` holds, and otherwise ended with the set `names`. */
  predicate Means(o: Outcome, raises: bool, names: set<string>) {
    if raises then o.KeyError? else o == Done(names)
  }

  // ----- the set operations against the reference description -----

  /**
    A visit raises exactly when some definition in `n` nests a definition of
    its own name; otherwise it removes from the set every name defined in
    `n` and nothing else, whatever the set held on entry.
   */
  lemma {:induction false} TrackMeaning(n: Node, names: set<string>)
    ensures Means(Track(n, names), NestsOwnName(n), names - DefinedIn(n))
    decreases n, 1
  {
    match n
    case FunctionDef(name, body) =>
      var entry := names + {name};
      TrackSeqMeaning(body, entry);
      if !NestsOwnNameSeq(body) && name !in DefinedInSeq(body) {
        assert (entry - DefinedInSeq(body)) - {name} == names - DefinedIn(n);
      }
    case Call(func, args, keywords) =>
      TrackMeaning(func, names);
      var s1 := names - DefinedIn(func);
      ThenSeqMeaning(Track(func, names), NestsOwnName(func), s1, args);
      var s2 := s1 - DefinedInSeq(args);
      ThenSeqMeaning(ThenSeq(Track(func, names), args), NestsOwnName(func) || NestsOwnNameSeq(args), s2, keywords);
      assert s2 - DefinedInSeq(keywords) == names - DefinedIn(n);
    case For(target, iter, body) =>
      TrackMeaning(target, names);
      var s1 := names - DefinedIn(target);
      ThenNodeMeaning(Track(target, names), NestsOwnName(target), s1, iter);
      var s2 := s1 - DefinedIn(iter);
      ThenSeqMeaning(ThenNode(Track(target, names), iter), NestsOwnName(target) || NestsOwnName(iter), s2, body);
      assert s2 - DefinedInSeq(body) == names - DefinedIn(n);
    case While(test, body) =>
      TrackMeaning(test, names);
      ThenSeqMeaning(Track(test, names), NestsOwnName(test), names - DefinedIn(test), body);
      assert names - DefinedIn(test) - DefinedInSeq(body) == names - DefinedIn(n);
    case Assign(targets, value) =>
      TrackSeqMeaning(targets, names);
      ThenNodeMeaning(TrackSeq(targets, names), NestsOwnNameSeq(targets), names - DefinedInSeq(targets), value);
      assert names - DefinedInSeq(targets) - DefinedIn(value) == names - DefinedIn(n);
    case Name(_) =>
    case IntConst(_) =>
    case BinOp(left, _, right) =>
      TrackMeaning(left, names);
      ThenNodeMeaning(Track(left, names), NestsOwnName(left), names - DefinedIn(left), right);
      assert names - DefinedIn(left) - DefinedIn(right) == names - DefinedIn(n);
    case ListLit(elts) => TrackSeqMeaning(elts, names);
    case ListComp(parts) => TrackSeqMeaning(parts, names);
    case DictLit(parts) => TrackSeqMeaning(parts, names);
    case SetLit(parts) => TrackSeqMeaning(parts, names);
    case Other(children) => TrackSeqMeaning(children, names);
  }

  /** `TrackMeaning` for a sequence of siblings visited in order. */
  lemma {:induction false} TrackSeqMeaning(ns: seq<Node>, names: set<string>)
    ensures Means(TrackSeq(ns, names), NestsOwnNameSeq(ns), names - DefinedInSeq(ns))
    decreases ns, 1
  {
    if ns != [] {
      TrackMeaning(ns[0], names);
      var s1 := names - DefinedIn(ns[0]);
      ThenSeqMeaning(Track(ns[0], names), NestsOwnName(ns[0]), s1, ns[1..]);
      assert s1 - DefinedInSeq(ns[1..]) == names - DefinedInSeq(ns);
    }
  }

  lemma {:induction false} ThenNodeMeaning(o: Outcome, raises: bool, names: set<string>, n: Node)
    requires Means(o, raises, names)
    ensures Means(ThenNode(o, n), raises || NestsOwnName(n), names - DefinedIn(n))
    decreases n, 2
  {
    if !raises {
      TrackMeaning(n, names);
    }
  }

  lemma {:induction false} ThenSeqMeaning(o: Outcome, raises: bool, names: set<string>, ns: seq<Node>)
    requires Means(o, raises, names)
    ensures Means(ThenSeq(o, ns), raises || NestsOwnNameSeq(ns), names - DefinedInSeq(ns))
    decreases ns, 2
  {
    if !raises {
      TrackSeqMeaning(ns, names);
    }
  }

  /**
    Over a whole module, starting from the empty set, `visit` raises
    `KeyError` exactly when some definition nests one of its own name, and
    otherwise leaves the set empty again.
   */
  lemma ModuleRaisesIff(statements: seq<Node>)
    ensures TrackSeq(statements, {}).KeyError? <==> NestsOwnNameSeq(statements)
    ensures !NestsOwnNameSeq(statements) ==> TrackSeq(statements, {}) == Done({})
  {
    TrackSeqMeaning(statements, {});
  }

  /** A module without definitions never touches the set. */
  lemma {:induction false} DefFreeNestsNothing(n: Node)
    requires DefFree(n)
    ensures !NestsOwnName(n) && DefinedIn(n) == {}
    decreases n, 1
  {
    match n
    case Call(func, args, keywords) =>
      DefFreeNestsNothing(func); DefFreeSeqNestsNothing(args); DefFreeSeqNestsNothing(keywords);
    case For(target, iter, body) =>
      DefFreeNestsNothing(target); DefFreeNestsNothing(iter); DefFreeSeqNestsNothing(body);
    case While(test, body) =>
      DefFreeNestsNothing(test); DefFreeSeqNestsNothing(body);
    case Assign(targets, value) =>
      DefFreeSeqNestsNothing(targets); DefFreeNestsNothing(value);
    case Name(_) =>
    case IntConst(_) =>
    case BinOp(left, _, right) =>
      DefFreeNestsNothing(left); DefFreeNestsNothing(right);
    case ListLit(elts) => DefFreeSeqNestsNothing(elts);
    case ListComp(parts) => DefFreeSeqNestsNothing(parts);
    case DictLit(parts) => DefFreeSeqNestsNothing(parts);
    case SetLit(parts) => DefFreeSeqNestsNothing(parts);
    case Other(children) => DefFreeSeqNestsNothing(children);
  }

  lemma {:induction false} DefFreeSeqNestsNothing(ns: seq<Node>)
    requires DefFreeSeq(ns)
    ensures !NestsOwnNameSeq(ns) && DefinedInSeq(ns) == {}
    decreases ns, 1
  {
    if ns != [] {
      DefFreeNestsNothing(ns[0]);
      DefFreeSeqNestsNothing(ns[1..]);
    }
  }

  /**
    `def f():` around `def f(): pass` raises `KeyError('f')`, and so does a
    method `f` of a class inside `f`; `def f():` around `def g(): pass` does
    not.
   */
  lemma NestingExamples()
    ensures TrackSeq([FunctionDef("f", [FunctionDef("f", [Other([])])])], {}) == KeyError("f")
    ensures TrackSeq([FunctionDef("f", [Other([FunctionDef("f", [Other([])])])])], {}) == KeyError("f")
    ensures TrackSeq([FunctionDef("f", [FunctionDef("g", [Other([])])])], {}) == Done({})
  {
  }
}
