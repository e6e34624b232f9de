/** Floor-division facts, one per lemma, so that callers never meet nonlinear division head on. */
module Arith {

  lemma MulOrder(a: int, b: int, d: int)
    requires d > 0
    ensures a <= b <==> a * d <= b * d
    ensures a < b <==> a * d < b * d
  {
    assert (b - a) * d == b * d - a * d;
  }

  lemma MulBothSides(a: nat, b: nat, c: nat, d: nat)
    requires a <= c && b <= d
    ensures a * b <= c * d
  {
    assert a * b <= c * b;
    assert c * b <= c * d;
  }

  lemma DivRange(a: int, d: int)
    requires d > 0
    ensures (a / d) * d <= a < (a / d) * d + d
    ensures a >= 0 ==> a / d >= 0
  {
    assert a == (a / d) * d + a % d;
  }

  lemma DivIs(a: int, d: int, q: int)
    requires d > 0 && q * d <= a < q * d + d
    ensures a / d == q
  {
    DivRange(a, d);
    MulOrder(a / d + 1, q, d);
    MulOrder(q + 1, a / d, d);
  }

  // q is at most the quotient exactly when q multiples fit.
  lemma DivAtLeast(a: int, d: int, q: int)
    requires d > 0
    ensures q <= a / d <==> q * d <= a
  {
    DivRange(a, d);
    MulOrder(q, a / d, d);
    MulOrder(a / d + 1, q, d);
  }

  lemma ModSmall(a: nat, m: nat)
    requires a < m
    ensures a % m == a
  {
  }

  lemma DivMonotone(a: int, b: int, d: int)
    requires d > 0 && a <= b
    ensures a / d <= b / d
  {
    DivRange(a, d);
    DivAtLeast(b, d, a / d);
  }

  lemma DivShrinks(a: nat, d: int)
    requires d > 0
    ensures 0 <= a / d <= a
  {
    DivRange(a, d);
    MulBothSides(a / d, 1, a / d, d);
  }

  lemma DivDiv(a: nat, c: nat, d: nat)
    requires c > 0 && d > 0
    ensures c * d > 0 && a / c / d == a / (c * d)
  {
    MulOrder(0, c, d);
    var q := a / c;
    DivRange(a, c);
    DivRange(q, d);
    var p := q / d;
    MulOrder(p * d, q, c);
    MulOrder(q + 1, p * d + d, c);
    assert p * (c * d) == p * d * c;
    assert (p * d + d) * c == p * (c * d) + c * d;
    assert (q + 1) * c == q * c + c;
    DivIs(a, c * d, p);
  }

  // The least r with a <= r * d, by repeated subtraction.
  function CeilDiv(a: nat, d: nat): (r: nat)
    requires d > 0
    ensures a <= r * d < a + d
    decreases a
  {
    if a == 0 then 0 else if a <= d then 1 else 1 + CeilDiv(a - d, d)
  }

  lemma CeilIs(a: nat, d: nat, r: nat)
    requires d > 0 && a <= r * d < a + d
    ensures CeilDiv(a, d) == r
  {
    var c := CeilDiv(a, d);
    assert (r + 1) * d == r * d + d && (c + 1) * d == c * d + d;
    MulOrder(c, r + 1, d);
    MulOrder(r, c + 1, d);
  }

  // The way the code rounds a quotient up.
  lemma CeilAsWritten(a: nat, d: nat)
    requires d > 0
    ensures (a + d - 1) / d == CeilDiv(a, d)
  {
    DivIs(a + d - 1, d, CeilDiv(a, d));
  }

  lemma CeilAtMost(a: nat, d: nat, r: nat)
    requires d > 0
    ensures CeilDiv(a, d) <= r <==> a <= r * d
  {
    MulOrder(CeilDiv(a, d), r, d);
    MulOrder(r + 1, CeilDiv(a, d), d);
    assert (r + 1) * d == r * d + d;
  }

  lemma CeilMonotone(a: nat, b: nat, d: nat)
    requires d > 0 && a <= b
    ensures CeilDiv(a, d) <= CeilDiv(b, d)
  {
    CeilAtMost(a, d, CeilDiv(b, d));
  }

  // Whole division and remainder by repeated subtraction.
  function Quotient(a: nat, d: nat): nat
    requires d > 0
    decreases a
  {
    if a < d then 0 else 1 + Quotient(a - d, d)
  }

  function Remainder(a: nat, d: nat): (r: nat)
    requires d > 0
    ensures r < d
    decreases a
  {
    if a < d then a else Remainder(a - d, d)
  }

  lemma {:induction false} QuotientAndRemainder(a: nat, d: nat)
    requires d > 0
    ensures a == Quotient(a, d) * d + Remainder(a, d)
    decreases a
  {
    if a >= d {
      QuotientAndRemainder(a - d, d);
      assert (1 + Quotient(a - d, d)) * d == d + Quotient(a - d, d) * d;
    }
  }

  // The operators of the source mean the same.
  lemma QuotientAsWritten(a: nat, d: nat)
    requires d > 0
    ensures a / d == Quotient(a, d) && a % d == Remainder(a, d)
  {
    QuotientAndRemainder(a, d);
    DivIs(a, d, Quotient(a, d));
    assert a == (a / d) * d + a % d;
  }
}
