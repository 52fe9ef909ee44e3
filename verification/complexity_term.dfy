/**
  The complexity class `n^power * (log n)^logPower` and the two ways the
  analyzer combines classes: sequential composition (`+`, keep the dominant
  term) and nesting (`*`, multiply, i.e. add exponents), plus the canonical
  `O(...)` rendering used in every report.
 */
module Complexity {
  import opened Strings

  datatype Term = Term(power: nat, logPower: nat)

  /** `ComplexityTerm(0)`: O(1), the starting value of every accumulator. */
  const Constant: Term := Term(0, 0)

  /** `ComplexityTerm(1)`: O(n). */
  const Linear: Term := Term(1, 0)

  /** `ComplexityTerm(2)`: O(n^2). */
  const Quadratic: Term := Term(2, 0)

  /** Lexicographic order on (power, logPower): the asymptotic order of two classes. */
  predicate LexLe(a: Term, b: Term) {
    a.power < b.power || (a.power == b.power && a.logPower <= b.logPower)
  }

  function Max(x: nat, y: nat): nat {
    if x >= y then x else y
  }

  /**
    Sequential composition: the operand with the larger power, unchanged; on a
    tie of powers, that power with the larger log power. The result is one of
    the operands and dominates both, i.e. it is their least upper bound.
   */
  function Add(a: Term, b: Term): (r: Term)
    ensures r == a || r == b
    ensures LexLe(a, r) && LexLe(b, r)
  {
    if a.power > b.power then a
    else if b.power > a.power then b
    else Term(a.power, Max(a.logPower, b.logPower))
  }

  /** Nesting: the exponents of `n` and of `log n` add up. */
  function Mul(a: Term, b: Term): Term {
    Term(a.power + b.power, a.logPower + b.logPower)
  }

  // ----- laws of `+` -----

  /** Power of a sum is the max power; distinct powers keep the larger operand whole. */
  lemma AddPower(a: Term, b: Term)
    ensures Add(a, b).power == Max(a.power, b.power)
    ensures a.power > b.power ==> Add(a, b) == a
    ensures b.power > a.power ==> Add(a, b) == b
    ensures a.power == b.power ==> Add(a, b) == Term(a.power, Max(a.logPower, b.logPower))
  {
  }

  lemma AddCommutative(a: Term, b: Term)
    ensures Add(a, b) == Add(b, a)
  {
  }

  lemma AddAssociative(a: Term, b: Term, c: Term)
    ensures Add(Add(a, b), c) == Add(a, Add(b, c))
  {
  }

  lemma AddIdempotent(a: Term)
    ensures Add(a, a) == a
  {
  }

  lemma AddIdentity(a: Term)
    ensures Add(Constant, a) == a && Add(a, Constant) == a
  {
  }

  /** `a + b == b` exactly when `a` is dominated by `b`. */
  lemma AddAbsorbs(a: Term, b: Term)
    ensures Add(a, b) == b <==> LexLe(a, b)
  {
  }

  // ----- laws of `*` -----

  lemma MulCommutative(a: Term, b: Term)
    ensures Mul(a, b) == Mul(b, a)
  {
  }

  lemma MulAssociative(a: Term, b: Term, c: Term)
    ensures Mul(Mul(a, b), c) == Mul(a, Mul(b, c))
  {
  }

  lemma MulIdentity(a: Term)
    ensures Mul(Constant, a) == a && Mul(a, Constant) == a
  {
  }

  /** Nesting inside a common context preserves the order of two classes. */
  lemma MulMonotone(a: Term, b: Term, c: Term)
    requires LexLe(a, b)
    ensures LexLe(Mul(a, c), Mul(b, c))
  {
  }

  /** Nesting distributes over sequential composition. */
  lemma MulDistributes(a: Term, b: Term, c: Term)
    ensures Mul(a, Add(b, c)) == Add(Mul(a, b), Mul(a, c))
  {
  }

  /** Nesting under an O(n) factor raises the power by exactly one. */
  lemma MulLinear(a: Term)
    ensures Mul(a, Linear) == Term(a.power + 1, a.logPower)
  {
  }

  // ----- rendering -----

  /** The text of the `n` factor: `n` or `n^k`, and "" when absent. */
  function PowerText(power: nat): string {
    if power == 0 then "" else if power == 1 then "n" else "n^" + NatToString(power)
  }

  /** The text of the `log n` factor: `log n` or `(log n)^m`, and "" when absent. */
  function LogText(logPower: nat): string {
    if logPower == 0 then "" else if logPower == 1 then "log n" else "(log n)^" + NatToString(logPower)
  }

  /** The `n` factor as a list of parts: empty when absent. */
  function PowerFactor(power: nat): seq<string> {
    if power == 0 then [] else [PowerText(power)]
  }

  /** The `log n` factor as a list of parts: empty when absent. */
  function LogFactor(logPower: nat): seq<string> {
    if logPower == 0 then [] else [LogText(logPower)]
  }

  /** `sep.join(parts)`. */
  function Join(parts: seq<string>, sep: string): string {
    if |parts| == 0 then ""
    else if |parts| == 1 then parts[0]
    else parts[0] + sep + Join(parts[1..], sep)
  }

  /** `str(term)`. */
  function Render(t: Term): string {
    if t.power == 0 && t.logPower == 0 then "O(1)"
    else
      var parts := PowerFactor(t.power) + LogFactor(t.logPower);
      "O(" + (if |parts| > 0 then Join(parts, " * ") else "1") + ")"
  }

  /** A term with only an `n` factor renders as `O(` + that factor + `)`. */
  lemma RenderPowerOnly(t: Term)
    requires t.power > 0 && t.logPower == 0
    ensures Render(t) == "O(" + (PowerText(t.power) + ")")
  {
    assert PowerFactor(t.power) + LogFactor(t.logPower) == [PowerText(t.power)];
  }

  /** A term with only a `log n` factor renders as `O(` + that factor + `)`. */
  lemma RenderLogOnly(t: Term)
    requires t.power == 0 && t.logPower > 0
    ensures Render(t) == "O(" + (LogText(t.logPower) + ")")
  {
    assert PowerFactor(t.power) + LogFactor(t.logPower) == [LogText(t.logPower)];
  }

  /** A term with both factors renders them joined by ` * `. */
  lemma RenderBoth(t: Term)
    requires t.power > 0 && t.logPower > 0
    ensures Render(t) == "O(" + (PowerText(t.power) + (" * " + LogText(t.logPower) + ")"))
  {
    var p, l := PowerText(t.power), LogText(t.logPower);
    var parts := PowerFactor(t.power) + LogFactor(t.logPower);
    assert parts == [p, l];
    assert parts[1..] == [l];
    assert Join([l], " * ") == l;
    var joined := Join(parts, " * ");
    assert joined == p + " * " + Join(parts[1..], " * ");
    assert joined + ")" == p + (" * " + l + ")");
  }

  /**
    The rendered string spelled out: `O(1)` for the constant class, otherwise
    `O(` + the present factors joined by ` * ` + `)`.
   */
  lemma RenderShape(t: Term)
    ensures t == Constant ==> Render(t) == "O(1)"
    ensures t.power > 0 && t.logPower == 0 ==> Render(t) == "O(" + (PowerText(t.power) + ")")
    ensures t.power == 0 && t.logPower > 0 ==> Render(t) == "O(" + (LogText(t.logPower) + ")")
    ensures t.power > 0 && t.logPower > 0 ==>
      Render(t) == "O(" + (PowerText(t.power) + (" * " + LogText(t.logPower) + ")"))
  {
    if t.power > 0 && t.logPower > 0 {
      RenderBoth(t);
    } else if t.power > 0 {
      RenderPowerOnly(t);
    } else if t.logPower > 0 {
      RenderLogOnly(t);
    }
  }

  /** The reference renderings. */
  lemma RenderExamples()
    ensures Render(Term(0, 0)) == "O(1)"
    ensures Render(Term(1, 0)) == "O(n)"
    ensures Render(Term(2, 0)) == "O(n^2)"
    ensures Render(Term(0, 1)) == "O(log n)"
  {
    assert NatToString(2) == "2";
    RenderPowerOnly(Term(1, 0));
    RenderPowerOnly(Term(2, 0));
    RenderLogOnly(Term(0, 1));
  }

  /** A reference rendering with both factors at the first power. */
  lemma RenderLinearLogExample()
    ensures Render(Term(1, 1)) == "O(n * log n)"
  {
    RenderBoth(Term(1, 1));
  }

  /** A reference rendering with both factors raised. */
  lemma RenderPowersExample()
    ensures Render(Term(2, 3)) == "O(n^2 * (log n)^3)"
  {
    RenderBoth(Term(2, 3));
    assert PowerText(2) == "n^2" by { assert NatToString(2) == "2"; }
    assert LogText(3) == "(log n)^3" by { assert NatToString(3) == "3"; }
  }
}
