/**
 * The zero-debt redemption branch of `build_action_plan`, and the exit-slippage
 * reserve `nav_usdc` keeps for a full exit.
 */
module Redemption {
  import opened Wrappers
  import opened Words
  import opened Arith
  import opened PlanMath

  datatype SpotUnwind = SpotUnwind(usdeOut: u256, minUsdcOut: u256)

  function RedeemTarget(shortfall: u256): u256 {
    Add256(shortfall, MulDiv(shortfall, 100, BPS))
  }

  // The USDe whose sale at the TWAP, less the slippage, should fetch the target.
  function UsdeNeeded(target: u256, twap: u256): u256
    requires Mul256(twap, KeepBps(SLIPPAGE_BPS)) > 0
  {
    Div256(Mul256(Mul256(target, TEN36), BPS), Mul256(twap, KeepBps(SLIPPAGE_BPS)))
  }

  /** The sizes of the spot unwind, capped at the collateral held. */
  function SizeSpotUnwind(collateral: u128, twap: u256, shortfall: u256): SpotUnwind
    requires Mul256(twap, KeepBps(SLIPPAGE_BPS)) > 0
  {
    var needed := UsdeNeeded(RedeemTarget(shortfall), twap);
    var usdeOut: u256 := if needed <= collateral then needed else collateral;
    SpotUnwind(usdeOut, SwapMinUsdcOut(usdeOut, twap, SLIPPAGE_BPS))
  }

  const TWAP_LIMIT: nat := 1_000_000_000_000_000_000_000_000_000_000
  const REDEEM_LIMIT: nat := 0x100_0000_0000_0000_0000_0000_0000_0000

  // ---------------------------------------------------------------- what the rounding leaves

  // `usde` is the floor of target * 1e40 / (twap * 9950), `gross` its value, `min` 99.5% of that.
  ghost predicate Rounded(target: nat, twap: nat, usde: nat, gross: nat, min: nat) {
    && Floor(target * (TEN36 * BPS), twap * 9_950, usde)
    && Floor(usde * twap, TEN36, gross)
    && Floor(gross * 9_950, BPS, min)
  }

  lemma RoundedLands(target: nat, twap: nat, usde: nat, gross: nat, min: nat)
    requires 0 < twap <= TWAP_LIMIT && Rounded(target, twap, usde, gross, min)
    ensures target - 1 <= min <= target
    ensures min == target <==> 199 * gross == 200 * target
  {
    assert usde * (twap * 9_950) == 9_950 * (usde * twap);
  }

  // The target is hit exactly when it divides by 199 and the TWAP divides the exact proceeds.
  ghost predicate ExactSale(target: nat, twap: nat)
    requires twap > 0
  {
    target % 199 == 0 && (target / 199 * 200 * TEN36) % twap == 0
  }

  lemma OnlyExactSalesHit(target: nat, twap: nat, usde: nat, gross: nat, min: nat)
    requires 0 < twap <= TWAP_LIMIT && Rounded(target, twap, usde, gross, min)
    requires 199 * gross == 200 * target
    ensures ExactSale(target, twap)
  {
    assert usde * (twap * 9_950) == 9_950 * (usde * twap);
    assert target == 199 * (gross - target);
    assert usde * twap == gross * TEN36;
    Multiple(usde, twap);
  }

  lemma ExactSalesHit(target: nat, twap: nat, usde: nat, gross: nat, min: nat)
    requires 0 < twap <= TWAP_LIMIT && Rounded(target, twap, usde, gross, min)
    requires ExactSale(target, twap)
    ensures 199 * gross == 200 * target
  {
    var exact := target / 199 * 200 * TEN36;
    assert usde * (twap * 9_950) == 9_950 * (usde * twap);
    assert target * (TEN36 * BPS) == 9_950 * exact;
    var q := exact / twap;
    assert exact == q * twap;
    assert (usde + 1) * twap == usde * twap + twap;
    MulOrder(usde, q, twap);
    MulOrder(q, usde + 1, twap);
  }

  lemma Multiple(q: nat, d: nat)
    requires d > 0
    ensures (q * d) % d == 0
  {
    DivIs(q * d, d, q);
  }

  lemma SpotUnwindFits(twap: u256, shortfall: u256)
    requires 0 < twap <= TWAP_LIMIT && shortfall < REDEEM_LIMIT
    ensures RedeemTarget(shortfall) == shortfall + shortfall / 100
    ensures Mul256(twap, KeepBps(SLIPPAGE_BPS)) == twap * 9_950 > 0
    ensures Floor(RedeemTarget(shortfall) * (TEN36 * BPS), twap * 9_950, UsdeNeeded(RedeemTarget(shortfall), twap))
  {
    var target := shortfall + shortfall / 100;
    MulDivFits(shortfall, 100, BPS);
    Mul256Fits(twap, 9_950);
    Mul256Fits(target, TEN36);
    Mul256Fits(target * TEN36, BPS);
    DivRange(target * (TEN36 * BPS), twap * 9_950);
  }

  lemma SaleFits(usde: u256, twap: u256)
    requires usde < U128_LIMIT && twap <= TWAP_LIMIT
    ensures var gross := MulDiv(usde, twap, TEN36);
            && Floor(usde * twap, TEN36, gross)
            && Floor(gross * 9_950, BPS, SwapMinUsdcOut(usde, twap, SLIPPAGE_BPS))
  {
    ProductFits(usde, twap, U128_LIMIT, TWAP_LIMIT);
    MulDivFits(usde, twap, TEN36);
    MulBothSides(usde, twap, U128_LIMIT, TWAP_LIMIT);
    FloorAtMost(usde * twap, TEN36, MulDiv(usde, twap, TEN36), U128_LIMIT);
    MulDivFits(MulDiv(usde, twap, TEN36), 9_950, BPS);
  }

  ghost predicate Lands(shortfall: nat, target: nat, twap: nat, min: nat)
    requires twap > 0
  {
    && target - 1 <= min <= target
    && (min == target <==> ExactSale(target, twap))
    && (min >= shortfall <==> shortfall >= 100)
  }

  lemma RoundedCovers(shortfall: nat, target: nat, twap: nat, usde: nat, gross: nat, min: nat)
    requires 0 < twap <= TWAP_LIMIT && Rounded(target, twap, usde, gross, min)
    requires target == shortfall + shortfall / 100 && shortfall > 0
    ensures Lands(shortfall, target, twap, min)
  {
    RoundedLands(target, twap, usde, gross, min);
    if min == target {
      OnlyExactSalesHit(target, twap, usde, gross, min);
    }
    if ExactSale(target, twap) {
      ExactSalesHit(target, twap, usde, gross, min);
    }
    assert shortfall < 100 ==> target % 199 != 0;
  }

  // Any shortfall sells something.
  lemma SomethingIsSold(collateral: u128, twap: u256, shortfall: u256)
    requires 0 < twap <= TWAP_LIMIT && 0 < shortfall < REDEEM_LIMIT && collateral > 0
    requires Mul256(twap, KeepBps(SLIPPAGE_BPS)) > 0
    ensures SizeSpotUnwind(collateral, twap, shortfall).usdeOut > 0
  {
    SpotUnwindFits(twap, shortfall);
    var usde := UsdeNeeded(RedeemTarget(shortfall), twap);
    assert RedeemTarget(shortfall) * (TEN36 * BPS) >= TEN36 * BPS;
    MulOrder(1, usde + 1, twap * 9_950);
    assert (usde + 1) * (twap * 9_950) == usde * (twap * 9_950) + twap * 9_950;
  }

  // While the collateral cap does not bite, the least proceeds are the cushioned target
  // or one unit less, and they cover the shortfall exactly from 100 base units up.
  lemma SpotUnwindCoversShortfall(collateral: u128, twap: u256, shortfall: u256)
    requires 0 < twap <= TWAP_LIMIT && 0 < shortfall < REDEEM_LIMIT
    requires Mul256(twap, KeepBps(SLIPPAGE_BPS)) > 0
    requires UsdeNeeded(RedeemTarget(shortfall), twap) <= collateral
    ensures Lands(shortfall, shortfall + shortfall / 100, twap, SizeSpotUnwind(collateral, twap, shortfall).minUsdcOut)
  {
    SpotUnwindFits(twap, shortfall);
    var target := RedeemTarget(shortfall);
    var usde := UsdeNeeded(target, twap);
    SaleFits(usde, twap);
    RoundedCovers(shortfall, target, twap, usde, MulDiv(usde, twap, TEN36), SwapMinUsdcOut(usde, twap, SLIPPAGE_BPS));
  }

  lemma SpotUnwindSuffices(collateral: u128, twap: u256, shortfall: u256)
    requires 0 < twap <= TWAP_LIMIT && 0 < shortfall < REDEEM_LIMIT
    requires Mul256(twap, KeepBps(SLIPPAGE_BPS)) > 0
    requires UsdeNeeded(RedeemTarget(shortfall), twap) <= collateral
    ensures SizeSpotUnwind(collateral, twap, shortfall).minUsdcOut >= shortfall <==> shortfall >= 100
  {
    SpotUnwindCoversShortfall(collateral, twap, shortfall);
  }

  // ---------------------------------------------------------------- attested NAV and a full exit

  datatype NavError = SumOverflows | EscrowFloorBreached

  /** Attested NAV: collateral less a 1/200 exit reserve, plus idle USDC above the escrow floor, less debt. */
  function NavUsdc(
      collateral: u128, price: u256, debt: u256, balance: u128, pending: u128, claimable: u128)
    : Result<u256, NavError>
  {
    if pending + claimable >= U128_LIMIT then Failure(SumOverflows)
    else if balance < pending + claimable then Failure(EscrowFloorBreached)
    else
      var value := PricedCollateral(collateral, price);
      var assets := Add256(value, balance - pending - claimable);
      var owed := Add256(debt, Div256(value, 200));
      Success(if owed <= assets then assets - owed else 0)
  }

  datatype RiskPreset = Aggressive | Standard | Conservative

  function EquityHaircutBps(preset: RiskPreset): u32 {
    if preset.Conservative? then 100 else 0
  }

  /** The NAV a strike attests: that, less the preset's haircut on equity. */
  function AttestedNav(
      preset: RiskPreset, collateral: u128, price: u256, debt: u256, balance: u128, pending: u128, claimable: u128)
    : Result<u256, NavError>
  {
    match NavUsdc(collateral, price, debt, balance, pending, claimable)
    case Failure(e) => Failure(e)
    case Success(value) =>
      if EquityHaircutBps(preset) == 0 then Success(value)
      else Success(MulDiv(value, BPS - EquityHaircutBps(preset), BPS))
  }

  lemma HaircutOnlyLowers(
      preset: RiskPreset, collateral: u128, price: u256, debt: u256, balance: u128, pending: u128, claimable: u128)
    requires price <= PAR_PRICE
    ensures var attested := AttestedNav(preset, collateral, price, debt, balance, pending, claimable);
            attested.Success? ==>
              && NavUsdc(collateral, price, debt, balance, pending, claimable).Success?
              && attested.value <= NavUsdc(collateral, price, debt, balance, pending, claimable).value <= 2 * U128_LIMIT
  {
    var value := PricedCollateral(collateral, price);
    ProductFits(collateral, price, U128_LIMIT, PAR_PRICE);
    MulDivFits(collateral, price, TEN36);
    MulBothSides(collateral, price, U128_LIMIT, PAR_PRICE);
    FloorAtMost(collateral * price, TEN36, value, U128_LIMIT);
    var nav := NavUsdc(collateral, price, debt, balance, pending, claimable);
    if nav.Success? && preset.Conservative? {
      MulDivFits(nav.value, 9_900, BPS);
    }
  }

  // Collateral at its price less 1/200, plus idle USDC, less debt; never below zero.
  ghost predicate IsEquity(collateral: nat, price: nat, idle: nat, debt: nat, equity: nat) {
    exists value: nat ::
      && Floor(collateral * price, TEN36, value)
      && equity == if value / 200 + debt <= value + idle then value + idle - value / 200 - debt else 0
  }

  ghost predicate Attests(preset: RiskPreset, equity: nat, value: nat) {
    if preset == Conservative then Floor(equity * 99, 100, value) else value == equity
  }

  lemma NavIsEquity(collateral: u128, price: u256, debt: u256, balance: u128, pending: u128, claimable: u128)
    requires price <= PAR_PRICE && debt < U128_LIMIT
    ensures var nav := NavUsdc(collateral, price, debt, balance, pending, claimable);
            && (nav == Failure(SumOverflows) <==> pending + claimable >= U128_LIMIT)
            && (nav == Failure(EscrowFloorBreached) <==> balance < pending + claimable < U128_LIMIT)
            && (nav.Success? ==> IsEquity(collateral, price, balance - pending - claimable, debt, nav.value))
  {
    var value := PricedCollateral(collateral, price);
    ProductFits(collateral, price, U128_LIMIT, PAR_PRICE);
    MulDivFits(collateral, price, TEN36);
    MulBothSides(collateral, price, U128_LIMIT, PAR_PRICE);
    FloorAtMost(collateral * price, TEN36, value, U128_LIMIT);
  }

  // A strike attests exactly that equity, or 99% of it rounded down under the conservative
  // preset, and fails exactly when the floor does not add up or the balance is under it.
  lemma AttestedNavIsExact(
      preset: RiskPreset, collateral: u128, price: u256, debt: u256, balance: u128, pending: u128, claimable: u128)
    requires price <= PAR_PRICE && debt < U128_LIMIT
    ensures var attested := AttestedNav(preset, collateral, price, debt, balance, pending, claimable);
            && (attested == Failure(SumOverflows) <==> pending + claimable >= U128_LIMIT)
            && (attested == Failure(EscrowFloorBreached) <==> balance < pending + claimable < U128_LIMIT)
            && (attested.Success? ==>
                  exists equity: nat ::
                    && IsEquity(collateral, price, balance - pending - claimable, debt, equity)
                    && Attests(preset, equity, attested.value))
  {
    NavIsEquity(collateral, price, debt, balance, pending, claimable);
    HaircutOnlyLowers(preset, collateral, price, debt, balance, pending, claimable);
    var nav := NavUsdc(collateral, price, debt, balance, pending, claimable);
    if nav.Success? {
      assert IsEquity(collateral, price, balance - pending - claimable, debt, nav.value);
      assert Attests(preset, nav.value, AttestedNav(preset, collateral, price, debt, balance, pending, claimable).value)
      by {
        if preset == Conservative {
          MulDivFits(nav.value, 9_900, BPS);
        }
      }
    }
  }

  // What the exit reserve leaves uncovered: the reserve is floored, and so is the swap minimum.
  lemma ExitSale(value: nat, gross: nat, min: nat)
    requires value <= gross && Floor(gross * 9_950, BPS, min)
    ensures min + 1 >= value - value / 200
    ensures min >= value - value / 200 <==> value % 200 == 0 || value < gross
  {
    var kept, rest, over := value / 200, value % 200, gross - value;
    assert gross == 200 * kept + rest + over;
    if over > 0 {
      assert 199 * (rest + over) >= 200 * rest;
    }
  }

  // Selling every unit of collateral at the slippage limit and repaying the debt leaves the
  // attested NAV above the escrow floor exactly when the priced collateral divides by 200
  // or the pool pays more than it was priced at; otherwise it is one unit short.
  lemma FullExitPaysNav(collateral: u128, twap: u256, debt: u256, balance: u128, pending: u128, claimable: u128)
    requires twap <= TWAP_LIMIT && debt < U128_LIMIT
    requires var nav := NavUsdc(collateral, BoundedPrice(twap), debt, balance, pending, claimable);
             nav.Success? && nav.value > 0
    ensures var nav := NavUsdc(collateral, BoundedPrice(twap), debt, balance, pending, claimable).value;
            var value := PricedCollateral(collateral, BoundedPrice(twap));
            var owed := nav + pending + claimable + debt;
            var paid := SwapMinUsdcOut(collateral, twap, SLIPPAGE_BPS) + balance;
            && owed <= paid + 1
            && (owed <= paid <==> value % 200 == 0 || value < PricedCollateral(collateral, twap))
  {
    var price := BoundedPrice(twap);
    var value, gross := PricedCollateral(collateral, price), PricedCollateral(collateral, twap);
    ProductFits(collateral, price, U128_LIMIT, PAR_PRICE);
    MulDivFits(collateral, price, TEN36);
    MulBothSides(collateral, price, U128_LIMIT, PAR_PRICE);
    FloorAtMost(collateral * price, TEN36, value, U128_LIMIT);
    SaleFits(collateral, twap);
    MulBothSides(collateral, price, collateral, twap);
    FloorsOrdered(collateral * price, collateral * twap, value, gross);
    ExitSale(value, gross, SwapMinUsdcOut(collateral, twap, SLIPPAGE_BPS));
  }

  lemma FloorsOrdered(a: nat, b: nat, p: nat, q: nat)
    requires a <= b && Floor(a, TEN36, p) && Floor(b, TEN36, q)
    ensures p <= q
  {
  }

  // Up to par the pool pays what the collateral was priced at, so the exit falls short
  // whenever that does not divide by 200: one base unit of collateral value is enough.
  lemma FullExitFallsShort(collateral: u128, twap: u256, debt: u256, balance: u128, pending: u128, claimable: u128)
    requires twap <= PAR_PRICE && debt < U128_LIMIT
    requires var nav := NavUsdc(collateral, BoundedPrice(twap), debt, balance, pending, claimable);
             nav.Success? && nav.value > 0
    ensures var nav := NavUsdc(collateral, BoundedPrice(twap), debt, balance, pending, claimable).value;
            var owed := nav + pending + claimable + debt;
            var paid := SwapMinUsdcOut(collateral, twap, SLIPPAGE_BPS) + balance;
            owed == paid + if PricedCollateral(collateral, twap) % 200 == 0 then 0 else 1
  {
    FullExitPaysNav(collateral, twap, debt, balance, pending, claimable);
    var value := PricedCollateral(collateral, twap);
    ProductFits(collateral, twap, U128_LIMIT, PAR_PRICE);
    MulDivFits(collateral, twap, TEN36);
    MulBothSides(collateral, twap, U128_LIMIT, PAR_PRICE);
    FloorAtMost(collateral * twap, TEN36, value, U128_LIMIT);
    SaleFits(collateral, twap);
    ReserveIsRounded(value, SwapMinUsdcOut(collateral, twap, SLIPPAGE_BPS));
  }

  lemma ReserveIsRounded(value: nat, min: nat)
    requires Floor(value * 9_950, BPS, min)
    ensures value - value / 200 == min + if value % 200 == 0 then 0 else 1
  {
  }
}
