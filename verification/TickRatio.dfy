/**
 * The product loop of TickMath for any table of factors below one: its rounding
 * error, and how it falls from one tick to the next when each factor is close to
 * the square of the one before.
 */
module TickRatio {
  import opened Words
  import opened Arith

  const Q128: nat := 0x1_0000_0000_0000_0000_0000_0000_0000_0000

  const STEPS: nat := 20

  // Bit i of x.
  predicate Bit(x: nat, i: nat) {
    Pow2Monotone(0, i);
    (x / Pow2(i)) % 2 == 1
  }

  type Table = fs: seq<nat> | |fs| == STEPS && forall i | 0 <= i < STEPS :: 0 < fs[i] < Q128
    witness seq(STEPS, i => 1)

  // The running ratio after the first n bits of |tick|, for any table of factors below one.
  function Ratio(fs: Table, x: nat, n: nat): (r: nat)
    requires n <= STEPS
    ensures r <= Q128
  {
    if n == 0 then Q128
    else if Bit(x, n - 1) then Scale(Ratio(fs, x, n - 1), fs[n - 1])
    else Ratio(fs, x, n - 1)
  }

  function Scale(ratio: nat, factor: nat): (r: nat)
    requires ratio <= Q128 && factor < Q128
    ensures r <= ratio
  {
    ScaleShrinks(ratio, factor);
    ratio * factor / Q128
  }

  lemma ScaleShrinks(ratio: nat, factor: nat)
    requires ratio <= Q128 && factor < Q128
    ensures 0 <= ratio * factor < U256_LIMIT
    ensures ratio * factor / Q128 <= ratio
  {
    MulBothSides(ratio, factor, Q128, Q128 - 1);
    MulBothSides(ratio, factor, ratio, Q128);
  }

  // ---------------------------------------------------------------- the exact product

  // The product of the factors as a rational, with no rounding anywhere.
  ghost function Exact(fs: Table, x: nat, n: nat): (e: real)
    requires n <= STEPS
    ensures 0.0 < e
  {
    if n == 0 then Q128 as real
    else if Bit(x, n - 1) then Times(Exact(fs, x, n - 1), fs[n - 1])
    else Exact(fs, x, n - 1)
  }

  ghost function AsReal(factor: nat): (f: real)
    requires 0 < factor < Q128
    ensures 0.0 < f < 1.0
  {
    factor as real / Q128 as real
  }

  // The unrounded product of a ratio and a factor.
  ghost function Times(e: real, factor: nat): (p: real)
    requires 0 < factor < Q128
    ensures e > 0.0 ==> p > 0.0
  {
    e * AsReal(factor)
  }

  ghost function Applied(x: nat, n: nat): nat {
    if n == 0 then 0 else Applied(x, n - 1) + if Bit(x, n - 1) then 1 else 0
  }

  ghost predicate Within(e: real, r: nat, applied: nat) {
    && e - applied as real <= r as real <= e
    && (applied > 0 ==> e - applied as real < r as real)
  }

  lemma RealProduct(a: real, b: real)
    requires a >= 0.0 && b >= 0.0
    ensures a * b >= 0.0
  {
  }

  lemma RealScaling(e: real, r: real, n: real, f: real)
    requires 0.0 < f < 1.0 && 0.0 <= n && e - n <= r <= e
    ensures e * f - n <= r * f <= e * f
  {
    RealProduct(e - r, f);
    assert (e - r) * f == e * f - r * f;
    RealProduct(n - (e - r), f);
    assert (n - (e - r)) * f == n * f - e * f + r * f;
    RealProduct(n, 1.0 - f);
    assert n * (1.0 - f) == n - n * f;
  }

  lemma FloorAsReal(r: nat, factor: nat)
    requires r <= Q128 && 0 < factor < Q128
    ensures r as real * AsReal(factor) - 1.0 < Scale(r, factor) as real <= r as real * AsReal(factor)
  {
    var product, q := r * factor, Scale(r, factor);
    DivRange(product, Q128);
    assert (q * Q128) as real <= product as real < (q * Q128 + Q128) as real;
    assert product as real == r as real * factor as real;
    assert r as real * AsReal(factor) == product as real / Q128 as real;
  }

  lemma StepOfReals(e: real, r: real, n: real, f: real, q: real)
    requires 0.0 < f < 1.0 && 0.0 <= n && e - n <= r <= e
    requires r * f - 1.0 < q <= r * f
    ensures e * f - n - 1.0 < q <= e * f
  {
    RealScaling(e, r, n, f);
  }

  // One rounded multiplication: the error shrinks with the factor, then grows by less than one.
  lemma OneStepError(e: real, r: nat, n: nat, factor: nat)
    requires r <= Q128 && 0 < factor < Q128
    requires Within(e, r, n)
    ensures Within(Times(e, factor), Scale(r, factor), n + 1)
  {
    FloorAsReal(r, factor);
    var f, q := AsReal(factor), Scale(r, factor);
    StepOfReals(e, r as real, n as real, f, q as real);
    var p := Times(e, factor);
    assert p == e * f;
    assert (n + 1) as real == n as real + 1.0;
    assert p - (n + 1) as real < q as real <= p;
  }

  // The ratio loses less than one unit for each factor applied.
  lemma {:induction false} RatioError(fs: Table, x: nat, n: nat)
    requires n <= STEPS
    ensures Within(Exact(fs, x, n), Ratio(fs, x, n), Applied(x, n))
    ensures Applied(x, n) <= n
    decreases n
  {
    if n > 0 {
      RatioError(fs, x, n - 1);
      var e, r, a := Exact(fs, x, n - 1), Ratio(fs, x, n - 1), Applied(x, n - 1);
      if Bit(x, n - 1) {
        OneStepError(e, r, a, fs[n - 1]);
      }
    }
  }

  lemma ScaleMonotone(r: nat, s: nat, factor: nat)
    requires r <= s <= Q128 && factor < Q128
    ensures Scale(r, factor) <= Scale(s, factor)
  {
    MulBothSides(r, factor, s, factor);
    DivMonotone(r * factor, s * factor, Q128);
  }

  // ---------------------------------------------------------------- from one tick to the next

  lemma {:induction false} BitShift(x: nat, i: nat)
    ensures Bit(x, i + 1) <==> Bit(x / 2, i)
  {
    Pow2Monotone(0, i);
    DivDiv(x, 2, Pow2(i));
  }

  // From x to y = x + 1 the carry stops at bit k.
  ghost predicate CarryAt(x: nat, y: nat, k: nat) {
    && !Bit(x, k) && Bit(y, k)
    && (forall i | 0 <= i < k :: Bit(x, i) && !Bit(y, i))
    && (forall i | i > k :: Bit(x, i) <==> Bit(y, i))
  }

  lemma {:induction false} Carry(x: nat) returns (k: nat)
    ensures CarryAt(x, x + 1, k)
    ensures Pow2(k) <= x + 1
  {
    if x % 2 == 0 {
      k := 0;
      forall i | i > 0 ensures Bit(x, i) <==> Bit(x + 1, i) {
        BitShift(x, i - 1);
        BitShift(x + 1, i - 1);
      }
    } else {
      var h := Carry(x / 2);
      k := h + 1;
      assert (x + 1) / 2 == x / 2 + 1;
      forall i | i > 0 ensures Bit(x, i) <==> Bit(x / 2, i - 1) {
        BitShift(x, i - 1);
      }
      var y := x + 1;
      forall i | i > 0 ensures Bit(y, i) <==> Bit(x / 2 + 1, i - 1) {
        BitShift(y, i - 1);
      }
    }
  }

  // The product of the first k factors.
  ghost function Ones(fs: Table, k: nat): (e: real)
    requires k <= STEPS
    ensures e > 0.0
  {
    if k == 0 then Q128 as real else Times(Ones(fs, k - 1), fs[k - 1])
  }

  ghost predicate Squares(f: nat, g: nat) {
    10_000_000 * (g * Q128) <= 10_000_001 * (f * f)
  }

  // Each factor is at most the square of the one before, but for one part in ten
  // million, and the first is below 0.9999501.
  ghost predicate SquareLaw(fs: Table) {
    && fs[0] * 10_000_000 <= 9_999_501 * Q128
    && forall k | 1 <= k < STEPS :: Squares(fs[k - 1], fs[k])
  }

  ghost function Fall(k: nat): (a: real)
    requires k < STEPS
    ensures 0.0 < a <= 0.999953
  {
    (9_999_501 + k) as real / 10_000_000.0
  }

  ghost predicate Fallen(before: real, after: real, k: nat)
    requires k < STEPS
  {
    after <= Fall(k) * before
  }

  lemma SquareInReals(f: nat, g: nat)
    requires 0 < f < Q128 && 0 < g < Q128
    requires Squares(f, g)
    ensures AsReal(g) <= 1.0000001 * AsReal(f) * AsReal(f)
  {
    var q := Q128 as real;
    assert (g * Q128) as real == g as real * q;
    assert (f * f) as real == f as real * f as real;
    assert 10_000_000.0 * (g as real * q) <= 10_000_001.0 * (f as real * f as real);
    assert AsReal(g) * q * q == g as real * q;
    assert AsReal(f) * q == f as real;
    assert AsReal(f) * AsReal(f) * (q * q) == f as real * f as real;
  }

  lemma FallStep(f: real, g: real, q: real, ones: real, a: real, b: real)
    requires f > 0.0 && ones > 0.0 && q > 0.0 && 0.0 < a < 1.0 && a + 0.0000001 <= b
    requires g <= 1.0000001 * f * f
    requires q * f <= a * ones
    ensures q * g <= b * (ones * f)
  {
    var p := ones * f;
    RealProduct(q, 1.0000001 * f * f - g);
    assert q * g <= 1.0000001 * f * (q * f);
    RealProduct(1.0000001 * f, a * ones - q * f);
    assert 1.0000001 * f * (q * f) <= 1.0000001 * f * (a * ones) == 1.0000001 * a * p;
    RealProduct(p, b - 1.0000001 * a);
  }

  lemma FirstFall(fs: Table)
    requires SquareLaw(fs)
    ensures Fallen(Q128 as real, Times(Q128 as real, fs[0]), 0)
  {
    var q, f := Q128 as real, AsReal(fs[0]);
    assert q * f == fs[0] as real;
    assert (fs[0] * 10_000_000) as real <= (9_999_501 * Q128) as real;
  }

  lemma NextFall(f: nat, g: nat, ones: real, k: nat)
    requires 0 < f < Q128 && 0 < g < Q128 && ones > 0.0 && k + 1 < STEPS
    requires Squares(f, g)
    requires Fallen(ones, Times(Q128 as real, f), k)
    ensures Fallen(Times(ones, f), Times(Q128 as real, g), k + 1)
  {
    SquareInReals(f, g);
    FallStep(AsReal(f), AsReal(g), Q128 as real, ones, Fall(k), Fall(k + 1));
  }

  // Trading the k lower factors for factor k lowers the product.
  lemma {:induction false} FallAtCarry(fs: Table, k: nat)
    requires k < STEPS && SquareLaw(fs)
    ensures Fallen(Ones(fs, k), Times(Q128 as real, fs[k]), k)
  {
    if k == 0 {
      FirstFall(fs);
    } else {
      FallAtCarry(fs, k - 1);
      NextFall(fs[k - 1], fs[k], Ones(fs, k - 1), k - 1);
    }
  }

  lemma {:induction false} ExactBelowCarry(fs: Table, x: nat, y: nat, k: nat, n: nat)
    requires n <= k < STEPS && CarryAt(x, y, k)
    ensures Exact(fs, x, n) == Ones(fs, n) && Exact(fs, y, n) == Q128 as real
    decreases n
  {
    if n > 0 {
      ExactBelowCarry(fs, x, y, k, n - 1);
      assert Bit(x, n - 1) && !Bit(y, n - 1);
    }
  }

  lemma FallScales(ex: real, ey: real, k: nat, factor: nat)
    requires k < STEPS && 0 < factor < Q128 && Fallen(ex, ey, k)
    ensures Fallen(Times(ex, factor), Times(ey, factor), k)
  {
    RealProduct(Fall(k) * ex - ey, AsReal(factor));
  }

  lemma {:induction false} ExactFalls(fs: Table, x: nat, y: nat, k: nat, n: nat)
    requires k < n <= STEPS && CarryAt(x, y, k) && SquareLaw(fs)
    ensures Fallen(Exact(fs, x, n), Exact(fs, y, n), k)
    decreases n
  {
    if n == k + 1 {
      ExactBelowCarry(fs, x, y, k, k);
      FallAtCarry(fs, k);
    } else {
      ExactFalls(fs, x, y, k, n - 1);
      assert Bit(x, n - 1) <==> Bit(y, n - 1);
      if Bit(x, n - 1) {
        FallScales(Exact(fs, x, n - 1), Exact(fs, y, n - 1), k, fs[n - 1]);
      }
    }
  }

  lemma FallWithError(ex: real, ey: real, k: nat, rx: nat, ry: nat, n: nat, m: nat)
    requires k < STEPS && ex > 0.0 && Fallen(ex, ey, k)
    requires Within(ex, rx, n) && Within(ey, ry, m)
    ensures 100_000 * ry <= 99_996 * (rx + n)
  {
    var a := Fall(k);
    RealProduct(ex, 0.99996 - a);
    assert ex * (0.99996 - a) == 0.99996 * ex - a * ex;
    assert (rx + n) as real == rx as real + n as real;
    assert ry as real <= ey <= a * ex <= 0.99996 * ex <= 0.99996 * (rx + n) as real;
  }

  // One more tick lowers the ratio by at least one part in 25000, less the rounding units.
  lemma RatioFalls(fs: Table, x: nat)
    requires SquareLaw(fs) && x + 1 < Pow2(STEPS)
    ensures 100_000 * Ratio(fs, x + 1, STEPS) <= 99_996 * (Ratio(fs, x, STEPS) + STEPS)
  {
    var k := Carry(x);
    if k >= STEPS {
      Pow2Monotone(STEPS, k);
      assert false;
    }
    ExactFalls(fs, x, x + 1, k, STEPS);
    RatioError(fs, x, STEPS);
    RatioError(fs, x + 1, STEPS);
    FallWithError(Exact(fs, x, STEPS), Exact(fs, x + 1, STEPS), k,
                  Ratio(fs, x, STEPS), Ratio(fs, x + 1, STEPS), Applied(x, STEPS), Applied(x + 1, STEPS));
  }
}
