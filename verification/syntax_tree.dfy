/** An optional value, for the analyzer's "no current function" context. */
module Optional {
  datatype Option<T> = None | Some(value: T)
}

/**
  The part of a Python syntax tree the analyzer distinguishes. Each node lists
  its children in the order a generic visit reaches them (the ast field
  order); every node kind the analyzer does not single out is `Other`.
 */
module SyntaxTree {

  /** The binary operators the heuristics test for. */
  datatype Operator = Pow | Mult | OtherOperator

  datatype Node =
      /** `def name(...)`: `body` holds every child in field order (argument defaults, statements, decorators). */
    | FunctionDef(name: string, body: seq<Node>)
      /** A call; `func` is the callee expression. */
    | Call(func: Node, args: seq<Node>, keywords: seq<Node>)
      /** `for target in iter:`; `body` includes the `else` block. */
    | For(target: Node, iter: Node, body: seq<Node>)
      /** `while test:`; `body` includes the `else` block. */
    | While(test: Node, body: seq<Node>)
      /** `t1 = t2 = ... = value` (augmented and annotated assignments are `Other`). */
    | Assign(targets: seq<Node>, value: Node)
      /** A bare identifier. */
    | Name(id: string)
      /**
        A non-negative integer (or boolean) literal. Python writes `-5` as a
        unary minus around `5`, a node without a `visit_*` method, so it is
        `Other([IntConst(5)])`.
       */
    | IntConst(literal: nat)
    | BinOp(left: Node, op: Operator, right: Node)
      /** `[a, b, ...]`. */
    | ListLit(elts: seq<Node>)
      /** `[x for ...]`. */
    | ListComp(parts: seq<Node>)
      /** `{k: v, ...}`. */
    | DictLit(parts: seq<Node>)
      /** `{a, b, ...}`. */
    | SetLit(parts: seq<Node>)
      /** Any other node: visited transparently. */
    | Other(children: seq<Node>)

  /** No function definition occurs anywhere in `n`. */
  predicate DefFree(n: Node) {
    match n
    case FunctionDef(_, _) => false
    case Call(f, a, k) => DefFree(f) && DefFreeSeq(a) && DefFreeSeq(k)
    case For(t, i, b) => DefFree(t) && DefFree(i) && DefFreeSeq(b)
    case While(t, b) => DefFree(t) && DefFreeSeq(b)
    case Assign(ts, v) => DefFreeSeq(ts) && DefFree(v)
    case Name(_) => true
    case IntConst(_) => true
    case BinOp(l, _, r) => DefFree(l) && DefFree(r)
    case ListLit(es) => DefFreeSeq(es)
    case ListComp(ps) => DefFreeSeq(ps)
    case DictLit(ps) => DefFreeSeq(ps)
    case SetLit(ps) => DefFreeSeq(ps)
    case Other(cs) => DefFreeSeq(cs)
  }

  predicate DefFreeSeq(ns: seq<Node>) {
    if ns == [] then true else DefFree(ns[0]) && DefFreeSeq(ns[1..])
  }

  /**
    Visiting `n` inside the function `fname` has no effect: no definition,
    loop or assignment occurs in it, and no call of `fname` by bare name.
   */
  predicate Quiet(n: Node, fname: string) {
    match n
    case FunctionDef(_, _) => false
    case Call(f, a, k) =>
      !(f.Name? && f.id == fname) && Quiet(f, fname) && QuietSeq(a, fname) && QuietSeq(k, fname)
    case For(_, _, _) => false
    case While(_, _) => false
    case Assign(_, _) => false
    case Name(_) => true
    case IntConst(_) => true
    case BinOp(l, _, r) => Quiet(l, fname) && Quiet(r, fname)
    case ListLit(es) => QuietSeq(es, fname)
    case ListComp(ps) => QuietSeq(ps, fname)
    case DictLit(ps) => QuietSeq(ps, fname)
    case SetLit(ps) => QuietSeq(ps, fname)
    case Other(cs) => QuietSeq(cs, fname)
  }

  predicate QuietSeq(ns: seq<Node>, fname: string) {
    if ns == [] then true else Quiet(ns[0], fname) && QuietSeq(ns[1..], fname)
  }
}
