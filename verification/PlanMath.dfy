/**
 * Prices, leverage and swap minimums of `components/vault-nav/src/nav.rs`, on words
 * that wrap, and the sizes `build_action_plan` in `lib.rs` computes for each plan.
 */
module PlanMath {
  import opened Words
  import opened Arith
  import opened DebtMath

  const TEN36: nat := 1_000_000_000_000_000_000_000_000_000_000_000_000
  const TEN12: nat := 1_000_000_000_000
  const PAR_PRICE: nat := 1_000_000_000_000_000_000_000_000
  const BPS: nat := 10_000
  const SLIPPAGE_BPS: u32 := 50

  // ---------------------------------------------------------------- multiply, then divide

  function MulDiv(a: u256, b: u256, d: u256): u256
    requires d > 0
  {
    Div256(Mul256(a, b), d)
  }

  // q is the floor of product / d.
  ghost predicate Floor(product: int, d: int, q: int) {
    q * d <= product < q * d + d
  }

  lemma MulDivFits(a: u256, b: u256, d: u256)
    requires d > 0 && a * b < U256_LIMIT
    ensures Floor(a * b, d, MulDiv(a, b, d))
  {
    Mul256Fits(a, b);
    DivRange(a * b, d);
  }

  lemma ProductFits(a: nat, b: nat, m: nat, n: nat)
    requires a <= m && b <= n && m * n < U256_LIMIT
    ensures 0 <= a * b < U256_LIMIT
  {
    MulBothSides(a, b, m, n);
    MulBothSides(0, b, a, b);
  }

  lemma FloorAtMost(product: int, d: int, q: int, bound: int)
    requires d > 0 && Floor(product, d, q) && product <= bound * d
    ensures q <= bound
  {
    MulOrder(q, bound, d);
  }

  // ---------------------------------------------------------------- prices and leverage

  function BoundedPrice(twap: u256): u256 {
    if twap < PAR_PRICE then twap else PAR_PRICE
  }

  function PricedCollateral(collateral: u128, price: u256): u256 {
    MulDiv(collateral, price, TEN36)
  }

  function KeepBps(slippage: u32): u32 {
    if slippage <= BPS then BPS - slippage else 0
  }

  /** The least USDe a USDC swap may return at the TWAP, less the slippage. */
  function SwapMinUsdeOut(usdcIn: u256, twap: u256, slippage: u32): u256 {
    if twap == 0 then 0
    else MulDiv(MulDiv(usdcIn, TEN36, twap), KeepBps(slippage), BPS)
  }

  /** The least USDC a USDe swap may return at the TWAP, less the slippage. */
  function SwapMinUsdcOut(usdeIn: u256, twap: u256, slippage: u32): u256 {
    MulDiv(MulDiv(usdeIn, twap, TEN36), KeepBps(slippage), BPS)
  }

  /** Position over equity, in bps: zero without debt, saturated without equity. */
  function MeasuredLeverageBps(collateral: u128, price: u256, debt: u256): u32 {
    if debt == 0 then 0
    else
      var priced := PricedCollateral(collateral, price);
      if priced <= debt then U32_MAX
      else SaturateU32(MulDiv(priced, BPS, priced - debt))
  }

  /** False when the measured leverage is outside the band around the configured one. */
  predicate LeverageDriftAccepted(measured: u32, configured: u32, tolerance: u32, debt: u256) {
    || debt < 1_000_000
    || configured == 0
    || (var slack := configured * tolerance / BPS % 0x1_0000_0000;
        var lo := if slack <= configured then configured - slack else 0;
        var hi := if configured + slack <= U32_MAX then configured + slack else U32_MAX;
        lo <= measured <= hi)
  }

  // Neither saturation nor truncation shows: with a tolerance of up to all of the configured
  // leverage the check accepts exactly what is within that share of it.
  lemma DriftIsABand(measured: u32, configured: u32, tolerance: u32, debt: u256)
    requires tolerance <= 10_000
    ensures LeverageDriftAccepted(measured, configured, tolerance, debt) <==>
              || debt < 1_000_000 || configured == 0
              || (if measured < configured then configured - measured else measured - configured) * 10_000
                 <= configured * tolerance
  {
    var slack := configured * tolerance / BPS % 0x1_0000_0000;
    SlackIs(configured, tolerance, slack);
    var gap := if measured < configured then configured - measured else measured - configured;
    WithinSlack(gap, configured * tolerance, slack);
    assert LeverageDriftAccepted(measured, configured, tolerance, debt) <==>
             debt < 1_000_000 || configured == 0 || gap <= slack;
  }

  lemma SlackIs(configured: u32, tolerance: u32, slack: int)
    requires tolerance <= 10_000 && slack == configured * tolerance / BPS % 0x1_0000_0000
    ensures Floor(configured * tolerance, BPS, slack) && 0 <= slack <= configured
  {
    var product := configured * tolerance;
    MulBothSides(0, tolerance, configured, tolerance);
    MulBothSides(configured, tolerance, configured, BPS);
    SlackFits(product, configured);
  }

  lemma SlackFits(product: nat, configured: u32)
    requires product <= configured * BPS
    ensures var slack := product / BPS % 0x1_0000_0000; Floor(product, BPS, slack) && 0 <= slack <= configured
  {
  }

  lemma WithinSlack(gap: int, product: int, slack: int)
    requires Floor(product, BPS, slack)
    ensures gap <= slack <==> gap * 10_000 <= product
  {
  }
}
