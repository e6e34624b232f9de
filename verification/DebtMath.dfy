/**
 * Morpho debt arithmetic of `components/vault-nav/src/nav.rs`: Taylor-compounded
 * interest rounded down, then borrow shares to assets rounded up, on words that wrap.
 */
module DebtMath {
  import opened Words
  import opened Arith

  const WAD: nat := 1_000_000_000_000_000_000
  const VIRTUAL_SHARES: nat := 1_000_000
  const VIRTUAL_ASSETS: nat := 1

  // ---------------------------------------------------------------- accrual

  /** Total borrow assets with interest accrued over `elapsed` seconds at `rate`. */
  function AccruedTotalBorrow(assets: u128, rate: u128, elapsed: u64): u256 {
    WithInterest(assets, WrappedTaylor(Mul256(rate, elapsed)))
  }

  // Morpho's `wTaylorCompounded`: three terms of e^x - 1 at x = first / WAD.
  function WrappedTaylor(first: u256): u256 {
    var second := Div256(Mul256(first, first), 2 * WAD);
    var third := Div256(Mul256(second, first), 3 * WAD);
    Add256(Add256(first, second), third)
  }

  function WithInterest(assets: u128, taylor: u256): u256 {
    Add256(assets, Div256(Mul256(assets, taylor), WAD))
  }

  // The three Taylor terms without a word size.
  ghost function Taylor(first: nat): nat {
    first + Second(first) + Second(first) * first / (3 * WAD)
  }

  ghost function Second(first: nat): nat {
    first * first / (2 * WAD)
  }

  // Interest of up to a millionfold: nothing in the accrual wraps.
  const ACCRUAL_LIMIT: nat := 0x1_0000_0000_0000_0000_0000

  const SECOND_LIMIT: nat := 0x1_0000_0000_0000_0000_0000_0000_0

  lemma SecondFits(first: nat)
    requires first <= ACCRUAL_LIMIT
    ensures first * first < U256_LIMIT
    ensures Second(first) <= SECOND_LIMIT
  {
    MulBothSides(first, first, ACCRUAL_LIMIT, ACCRUAL_LIMIT);
    DivMonotone(first * first, ACCRUAL_LIMIT * ACCRUAL_LIMIT, 2 * WAD);
  }

  lemma ThirdFits(first: nat, second: nat)
    requires first <= ACCRUAL_LIMIT && second <= SECOND_LIMIT
    ensures second * first < U256_LIMIT
    ensures second * first / (3 * WAD) < U128_LIMIT - ACCRUAL_LIMIT - SECOND_LIMIT
  {
    MulBothSides(second, first, SECOND_LIMIT, ACCRUAL_LIMIT);
    DivMonotone(second * first, SECOND_LIMIT * ACCRUAL_LIMIT, 3 * WAD);
  }

  lemma WrappedTaylorExact(first: u256)
    requires first <= ACCRUAL_LIMIT
    ensures WrappedTaylor(first) == Taylor(first) < U128_LIMIT
  {
    SecondFits(first);
    Mul256Fits(first, first);
    var second := Second(first);
    ThirdFits(first, second);
    Mul256Fits(second, first);
  }

  lemma WithInterestExact(assets: u128, taylor: u256)
    requires taylor < U128_LIMIT
    ensures WithInterest(assets, taylor) == assets + assets * taylor / WAD
  {
    MulBothSides(assets, taylor, U128_LIMIT - 1, U128_LIMIT - 1);
    Mul256Fits(assets, taylor);
    DivMonotone(assets * taylor, (U128_LIMIT - 1) * (U128_LIMIT - 1), WAD);
  }

  lemma AccrualExact(assets: u128, rate: u128, elapsed: u64)
    requires rate * elapsed <= ACCRUAL_LIMIT
    ensures AccruedTotalBorrow(assets, rate, elapsed) == assets + assets * Taylor(rate * elapsed) / WAD
  {
    Mul256Fits(rate, elapsed);
    WrappedTaylorExact(rate * elapsed);
    WithInterestExact(assets, Taylor(rate * elapsed));
  }

  lemma TaylorMonotone(x: nat, y: nat)
    requires x <= y
    ensures Taylor(x) <= Taylor(y)
  {
    MulBothSides(x, x, y, y);
    DivMonotone(x * x, y * y, 2 * WAD);
    var a, b := Second(x), Second(y);
    MulBothSides(a, x, b, y);
    DivMonotone(a * x, b * y, 3 * WAD);
  }

  // A higher rate, a longer wait or a larger loan never accrues less.
  lemma AccrualMonotone(a1: u128, r1: u128, t1: u64, a2: u128, r2: u128, t2: u64)
    requires a1 <= a2 && r1 <= r2 && t1 <= t2
    requires r2 * t2 <= ACCRUAL_LIMIT
    ensures AccruedTotalBorrow(a1, r1, t1) <= AccruedTotalBorrow(a2, r2, t2)
  {
    var x1, x2 := r1 * t1, r2 * t2;
    MulBothSides(r1, t1, r2, t2);
    assert 0 <= x1 <= x2;
    AccrualExact(a1, r1, t1);
    AccrualExact(a2, r2, t2);
    InterestMonotone(a1, x1, a2, x2);
  }

  lemma InterestMonotone(a1: nat, x1: nat, a2: nat, x2: nat)
    requires a1 <= a2 && x1 <= x2
    ensures a1 + a1 * Taylor(x1) / WAD <= a2 + a2 * Taylor(x2) / WAD
  {
    TaylorMonotone(x1, x2);
    var t1, t2 := Taylor(x1), Taylor(x2);
    MulBothSides(a1, t1, a2, t2);
    DivMonotone(a1 * t1, a2 * t2, WAD);
  }

  // 6 * WAD^3 times the exact value 1 + x + x^2/2 + x^3/6 at x = first / WAD.
  ghost function ExactTaylor(first: nat): nat {
    6 * WAD * WAD * WAD + 6 * WAD * WAD * first + 3 * WAD * first * first + first * first * first
  }

  // A floored third-order term stays below the cube.
  lemma CubicFloor(first: nat, square: nat, second: nat, third: nat)
    requires square == first * first
    requires second * (2 * WAD) <= square
    requires third * (3 * WAD) <= second * first
    ensures 6 * WAD * WAD * third <= first * first * first
  {
    MulBothSides(second * (2 * WAD), first, square, first);
    assert second * (2 * WAD) * first == 2 * WAD * (second * first);
    assert 2 * WAD * (third * (3 * WAD)) <= 2 * WAD * (second * first);
  }

  lemma TaylorBounds(first: nat)
    ensures first <= Taylor(first)
    ensures 6 * WAD * WAD * (WAD + Taylor(first)) <= ExactTaylor(first)
  {
    var square := first * first;
    var second := square / (2 * WAD);
    var third := second * first / (3 * WAD);
    DivRange(square, 2 * WAD);
    DivRange(second * first, 3 * WAD);
    MulBothSides(0, first, second, first);
    CubicFloor(first, square, second, third);
    assert ExactTaylor(first) ==
           6 * WAD * WAD * WAD + 6 * WAD * WAD * first + 3 * WAD * square + first * first * first;
  }

  lemma InterestBound(assets: nat, interest: nat, w: nat, taylor: nat, scale: nat, exact: nat)
    requires w * interest <= assets * taylor
    requires scale * (w + taylor) <= exact
    ensures scale * (w * (assets + interest)) <= assets * exact
  {
    assert w * (assets + interest) <= assets * (w + taylor);
    MulBothSides(scale, w * (assets + interest), scale, assets * (w + taylor));
    assert scale * (assets * (w + taylor)) == assets * (scale * (w + taylor));
    MulBothSides(assets, scale * (w + taylor), assets, exact);
  }

  lemma InterestBetween(assets: nat, first: nat)
    ensures var accrued := assets + assets * Taylor(first) / WAD;
            && assets + assets * first / WAD <= accrued
            && 6 * WAD * WAD * (WAD * accrued) <= assets * ExactTaylor(first)
  {
    var taylor := Taylor(first);
    TaylorBounds(first);
    MulBothSides(assets, first, assets, taylor);
    DivMonotone(assets * first, assets * taylor, WAD);
    DivRange(assets * taylor, WAD);
    InterestBound(assets, assets * taylor / WAD, WAD, taylor, 6 * WAD * WAD, ExactTaylor(first));
  }

  // The debt lies between linear interest, rounded down, and the exact cubic.
  lemma AccrualBounds(assets: u128, rate: u128, elapsed: u64)
    requires rate * elapsed <= ACCRUAL_LIMIT
    ensures var accrued := AccruedTotalBorrow(assets, rate, elapsed);
            && assets + assets * (rate * elapsed) / WAD <= accrued
            && 6 * WAD * WAD * (WAD * accrued) <= assets * ExactTaylor(rate * elapsed)
  {
    AccrualExact(assets, rate, elapsed);
    InterestBetween(assets, rate * elapsed);
  }

  // ---------------------------------------------------------------- shares to assets

  /** Morpho `toAssetsUp`. The share total is a u128 sum, which the overflow check guards. */
  function BorrowAssetsUp(shares: u128, totalAssets: u256, totalShares: u128): u256
    requires totalShares + VIRTUAL_SHARES < U128_LIMIT
  {
    if shares == 0 then 0
    else
      var numerator := Mul256(shares, Add256(totalAssets, VIRTUAL_ASSETS));
      var denominator := totalShares + VIRTUAL_SHARES;
      Div256(Sub256(Add256(numerator, denominator), 1), denominator)
  }

  // The division the code rounds up.
  ghost function AssetsUp(shares: nat, totalAssets: nat, totalShares: nat): nat {
    CeilDiv(shares * (totalAssets + VIRTUAL_ASSETS), totalShares + VIRTUAL_SHARES)
  }

  ghost predicate ShareMathFits(shares: nat, totalAssets: nat, totalShares: nat) {
    && totalShares + VIRTUAL_SHARES < U128_LIMIT
    && totalAssets + VIRTUAL_ASSETS < U256_LIMIT
    && shares * (totalAssets + VIRTUAL_ASSETS) + totalShares + VIRTUAL_SHARES < U256_LIMIT
  }

  lemma BorrowAssetsUpExact(shares: u128, totalAssets: u256, totalShares: u128)
    requires ShareMathFits(shares, totalAssets, totalShares)
    ensures BorrowAssetsUp(shares, totalAssets, totalShares) == AssetsUp(shares, totalAssets, totalShares)
  {
    var n, d := totalAssets + VIRTUAL_ASSETS, totalShares + VIRTUAL_SHARES;
    var product := shares * n;
    if shares == 0 {
      CeilIs(0, d, 0);
    } else {
      Mul256Fits(shares, n);
      CeilAsWritten(product, d);
    }
  }

  // The debt is the least whole number of assets not below the exact quotient, so never understated.
  lemma DebtIsCeiling(shares: u128, totalAssets: u256, totalShares: u128, assets: nat)
    requires ShareMathFits(shares, totalAssets, totalShares)
    ensures BorrowAssetsUp(shares, totalAssets, totalShares) <= assets <==>
            shares * (totalAssets + 1) <= assets * (totalShares + 1_000_000)
  {
    BorrowAssetsUpExact(shares, totalAssets, totalShares);
    CeilAtMost(shares * (totalAssets + VIRTUAL_ASSETS), totalShares + VIRTUAL_SHARES, assets);
  }

  // Splitting a position in two never lowers its total debt, and raises it by at most one unit.
  lemma SplittingNeverLowersDebt(a: u128, b: u128, totalAssets: u256, totalShares: u128)
    requires a + b < U128_LIMIT
    requires ShareMathFits(a + b, totalAssets, totalShares)
    ensures var whole := BorrowAssetsUp(a + b, totalAssets, totalShares);
            var parts := BorrowAssetsUp(a, totalAssets, totalShares) + BorrowAssetsUp(b, totalAssets, totalShares);
            whole <= parts <= whole + 1
  {
    PartsFit(a, b, totalAssets, totalShares);
    BorrowAssetsUpExact(a + b, totalAssets, totalShares);
    BorrowAssetsUpExact(a, totalAssets, totalShares);
    BorrowAssetsUpExact(b, totalAssets, totalShares);
    AssetsUpSplits(a, b, totalAssets, totalShares);
  }

  lemma AssetsUpSplits(a: nat, b: nat, totalAssets: nat, totalShares: nat)
    ensures var whole := AssetsUp(a + b, totalAssets, totalShares);
            var parts := AssetsUp(a, totalAssets, totalShares) + AssetsUp(b, totalAssets, totalShares);
            whole <= parts <= whole + 1
  {
    var n, d := totalAssets + VIRTUAL_ASSETS, totalShares + VIRTUAL_SHARES;
    assert (a + b) * n == a * n + b * n;
    CeilSplits(a * n, b * n, d);
  }

  lemma PartsFit(a: nat, b: nat, totalAssets: nat, totalShares: nat)
    requires ShareMathFits(a + b, totalAssets, totalShares)
    ensures ShareMathFits(a, totalAssets, totalShares) && ShareMathFits(b, totalAssets, totalShares)
  {
    var n := totalAssets + VIRTUAL_ASSETS;
    MulBothSides(a, n, a + b, n);
    MulBothSides(b, n, a + b, n);
  }

  lemma CeilSplits(x: nat, y: nat, d: nat)
    requires d > 0
    ensures CeilDiv(x + y, d) <= CeilDiv(x, d) + CeilDiv(y, d) <= CeilDiv(x + y, d) + 1
  {
    RoundedSum(x, y, d, CeilDiv(x, d), CeilDiv(y, d), CeilDiv(x + y, d));
  }

  lemma RoundedSum(x: nat, y: nat, d: nat, p: nat, q: nat, w: nat)
    requires d > 0 && p * d < x + d && q * d < y + d && w * d < x + y + d
    requires x <= p * d && y <= q * d && x + y <= w * d
    ensures w <= p + q <= w + 1
  {
    assert (p + q) * d == p * d + q * d;
    assert (p + q + 1) * d == p * d + q * d + d;
    assert (w + 2) * d == w * d + 2 * d;
    MulOrder(w, p + q + 1, d);
    MulOrder(p + q, w + 2, d);
  }

  // More shares, or more assets behind the same shares, never owe less.
  lemma DebtMonotone(s1: u128, a1: u256, s2: u128, a2: u256, totalShares: u128)
    requires s1 <= s2 && a1 <= a2
    requires ShareMathFits(s2, a2, totalShares)
    ensures BorrowAssetsUp(s1, a1, totalShares) <= BorrowAssetsUp(s2, a2, totalShares)
  {
    MulBothSides(s1, a1 + VIRTUAL_ASSETS, s2, a2 + VIRTUAL_ASSETS);
    BorrowAssetsUpExact(s1, a1, totalShares);
    BorrowAssetsUpExact(s2, a2, totalShares);
    CeilMonotone(s1 * (a1 + VIRTUAL_ASSETS), s2 * (a2 + VIRTUAL_ASSETS), totalShares + VIRTUAL_SHARES);
  }
}
