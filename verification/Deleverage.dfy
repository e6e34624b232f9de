/**
 * The deleverage branch of `build_action_plan`: what one flash-loan unwind is sized
 * to, and that it covers the redemption shortfall and its own repayment.
 */
module Deleverage {
  import opened Words
  import opened Arith
  import opened DebtMath
  import opened PlanMath

  datatype Unwind = Unwind(
    proportion: u256, debtRepay: u256, sharesToRepay: u256, collateralOut: u256, minUsdcOut: u256)

  function LeverageBps(priced: u256, equity: u256): u32
    requires equity > 0
  {
    SaturateU32(MulDiv(priced, BPS, equity))
  }

  // 100 bps, and 60 more for each unit of leverage.
  function CushionBps(leverageBps: u32): u64 {
    100 + 60 * leverageBps / BPS
  }

  function TargetFree(shortfall: u256, leverageBps: u32): u256 {
    Add256(shortfall, MulDiv(shortfall, CushionBps(leverageBps), BPS))
  }

  function Proportion(target: u256, equity: u256): (p: u256)
    requires equity > 0
    ensures p <= WAD
  {
    var p := MulDiv(target, WAD, equity);
    if p < WAD then p else WAD
  }

  function DebtSlice(debt: u256, proportion: u256): u256 {
    MulDiv(debt, proportion, WAD)
  }

  /** The sizes of the unwind for a position worth more than its debt. */
  function SizeUnwind(
      collateral: u128, borrowShares: u128, priced: u256, debt: u256, twap: u256, shortfall: u256)
    : Unwind
    requires priced > debt
  {
    var equity: u256 := priced - debt;
    var p := Proportion(TargetFree(shortfall, LeverageBps(priced, equity)), equity);
    var collateralOut := MulDiv(collateral, p, WAD);
    var slice := DebtSlice(debt, p);
    Unwind(p,
           Add256(slice, Div256(slice, 5_000)),
           MulDiv(borrowShares, p, WAD),
           collateralOut,
           SwapMinUsdcOut(collateralOut, twap, SLIPPAGE_BPS))
  }

  // ---------------------------------------------------------------- the debt the unwind pulls

  lemma DebtOfPart(shares: nat, part: nat, p: nat, n: nat, d: nat, debt: nat)
    requires part * WAD <= shares * p
    requires shares * n <= debt * d
    ensures WAD * (part * n) <= d * (debt * p)
  {
    MulBothSides(part * WAD, n, shares * p, n);
    MulBothSides(shares * n, p, debt * d, p);
    assert part * WAD * n == WAD * (part * n);
    assert shares * p * n == shares * n * p;
    assert debt * d * p == d * (debt * p);
  }

  // Shares rounded down to a proportion owe at most that proportion of the debt, and less than one unit more.
  lemma PulledAssets(shares: nat, part: nat, p: nat, n: nat, d: nat, debt: nat, pulled: nat)
    requires d > 0 && part * WAD <= shares * p
    requires shares * n <= debt * d
    requires pulled * d < part * n + d
    ensures pulled * WAD < debt * p + WAD
  {
    DebtOfPart(shares, part, p, n, d, debt);
    assert WAD * (pulled * d) < WAD * (part * n + d);
    assert d * (pulled * WAD) < d * (debt * p + WAD);
    MulOrder(pulled * WAD, debt * p + WAD, d);
  }

  // ---------------------------------------------------------------- what the swap returns

  // The collateral slice sold at the TWAP with 50 bps held back, against 99.5% of the priced slice.
  lemma Proceeds(collateral: nat, price: nat, twap: nat, priced: nat, p: nat, out: nat, expected: nat, min: nat)
    requires p <= WAD && price <= twap && price <= PAR_PRICE
    requires priced * TEN36 <= collateral * price
    requires collateral * p < out * WAD + WAD
    requires out * twap < expected * TEN36 + TEN36
    requires expected * 9_950 < min * BPS + BPS
    ensures min * BPS * WAD > 9_950 * (priced * p) - 19_951 * WAD
  {
    ExpectedProceeds(collateral, price, twap, priced, p, out, expected);
    assert WAD * (expected * 9_950) < WAD * (min * BPS + BPS);
  }

  lemma ExpectedProceeds(collateral: nat, price: nat, twap: nat, priced: nat, p: nat, out: nat, expected: nat)
    requires p <= WAD && price <= twap && price <= PAR_PRICE
    requires priced * TEN36 <= collateral * price
    requires collateral * p < out * WAD + WAD
    requires out * twap < expected * TEN36 + TEN36
    ensures (expected + 1) * WAD + 1_000_000 > priced * p
  {
    MulBothSides(out, price, out, twap);
    MulBothSides(priced * TEN36, p, collateral * price, p);
    MulBothSides(collateral * p, price, out * WAD + WAD, price);
    assert collateral * p * price == collateral * price * p;
    assert priced * TEN36 * p == TEN36 * (priced * p);
    assert (out * WAD + WAD) * price == WAD * (out * price) + WAD * price;
    assert TEN36 * (priced * p) <= WAD * (out * price) + WAD * price;
    assert WAD * (out * price) < WAD * (expected * TEN36 + TEN36);
    assert TEN36 * (priced * p) < TEN36 * ((expected + 1) * WAD) + WAD * PAR_PRICE;
  }

  // ---------------------------------------------------------------- coverage

  // What the swap leaves after the pull is worth the proportion of (equity - 0.5% of collateral).
  lemma NetProceeds(priced: nat, debt: nat, p: nat, min: nat, pulled: nat)
    requires min * BPS * WAD > 9_950 * (priced * p) - 19_951 * WAD
    requires pulled * WAD < debt * p + WAD
    ensures BPS * WAD * (min - pulled) > (9_950 * priced - 10_000 * debt) * p - 29_951 * WAD
  {
    assert (9_950 * priced - 10_000 * debt) * p == 9_950 * (priced * p) - 10_000 * (debt * p);
    assert BPS * WAD * (min - pulled) == min * BPS * WAD - 10_000 * (pulled * WAD);
  }

  // The slice of equity the target needs, net of slippage, in units of 1/200 of a leverage bp.
  lemma SliceOfEquity(priced: nat, debt: nat, equity: nat, leverage: nat, target: nat, p: nat)
    requires priced == debt + equity && 0 < equity <= WAD
    requires leverage <= 1_999_999 && priced * BPS < leverage * equity + equity
    requires target * WAD < p * equity + equity
    ensures 200 * ((9_950 * priced - 10_000 * debt) * p) >= WAD * (target * (1_999_999 - leverage)) - 2_000_000 * WAD
  {
    var g := 9_950 * priced - 10_000 * debt;
    var rate := 1_999_999 - leverage;
    assert g == 10_000 * equity - 50 * priced;
    assert rate * equity == 1_999_999 * equity - leverage * equity;
    assert 200 * g >= rate * equity;
    assert 0 <= g <= 10_000 * equity by {
      MulBothSides(0, 0, rate, equity);
    }
    // target * WAD * rate * equity <= target * WAD * 200 * g < 200 * g * (p * equity + equity)
    MulBothSides(rate * equity, target * WAD, 200 * g, target * WAD);
    MulBothSides(target * WAD, 200 * g, p * equity + equity, 200 * g);
    assert rate * equity * (target * WAD) == target * WAD * rate * equity;
    assert (p * equity + equity) * (200 * g) == (200 * (g * p) + 200 * g) * equity;
    assert 200 * g * (target * WAD) == target * WAD * (200 * g);
    MulOrder(target * WAD * rate, 200 * (g * p) + 200 * g, equity);
    assert target * WAD * rate == WAD * (target * rate);
  }

  // Whether the cushion of a shortfall outgrows slippage and rounding at this leverage.
  // Slippage costs 0.5% of the leverage, and the cushion is 1% and 0.6% of the leverage, so
  // the two meet at (1.01 + 0.006 L)(1 - 0.005 L) = 1, which is 40x; the rest is rounding.
  predicate CushionPays(shortfall: nat, leverageBps: u32) {
    leverageBps <= 1_999_999 && PaysAt(shortfall, 1_999_999 - leverageBps, CushionBps(leverageBps))
  }

  predicate PaysAt(shortfall: nat, rate: nat, cushion: nat) {
    shortfall * (rate * (BPS + cushion)) >= 20_000_000_000 * shortfall + 9_999 * rate + 79_902_000_000
  }

  lemma CushionedTarget(shortfall: nat, cushion: nat, target: nat)
    requires Floor(shortfall * cushion, BPS, target - shortfall)
    ensures shortfall * (BPS + cushion) - 9_999 <= BPS * target <= shortfall * (BPS + cushion)
  {
    assert shortfall * (BPS + cushion) == BPS * shortfall + shortfall * cushion;
  }

  lemma CushionEarns(shortfall: nat, rate: nat, cushion: nat, target: nat)
    requires PaysAt(shortfall, rate, cushion)
    requires Floor(shortfall * cushion, BPS, target - shortfall)
    ensures target * rate >= 2_000_000 * shortfall + 7_990_200
  {
    var gain := shortfall * (BPS + cushion);
    CushionedTarget(shortfall, cushion, target);
    assert rate > 0 by {
      assert 0 * (BPS + cushion) == 0 && shortfall * 0 == 0;
    }
    MulOrder(gain - 9_999, BPS * target, rate);
    assert BPS * target * rate == BPS * (target * rate);
    assert (gain - 9_999) * rate == shortfall * (rate * (BPS + cushion)) - 9_999 * rate;
  }

  // The rate and the cushion of a leverage, in hundredths of a millionth.
  lemma CushionRate(leverage: nat)
    requires BPS <= leverage <= 399_000
    ensures (1_999_999 - leverage) * (100_990_001 + 60 * leverage) >= 200_012_000_000_000
    ensures leverage <= 300_000 ==> (1_999_999 - leverage) * (100_990_001 + 60 * leverage) >= 202_000_000_000_000
  {
    MulBothSides(0, 0, leverage - BPS, 399_000 - leverage);
    assert (leverage - BPS) * (399_000 - leverage) == 409_000 * leverage - leverage * leverage - 3_990_000_000;
    assert (leverage - BPS) * (300_000 - leverage) == 310_000 * leverage - leverage * leverage - 3_000_000_000;
    if leverage <= 300_000 {
      MulBothSides(0, 0, leverage - BPS, 300_000 - leverage);
    }
    assert (1_999_999 - leverage) * (100_990_001 + 60 * leverage)
        == 1_999_999 * 100_990_001 + (1_999_999 * 60 - 100_990_001) * leverage - 60 * (leverage * leverage);
  }

  lemma RateOfCushion(leverage: nat, rate: nat, cushion: nat)
    requires leverage <= 399_000 && rate == 1_999_999 - leverage && cushion == 100 + 60 * leverage / BPS
    ensures BPS * (rate * (BPS + cushion)) >= rate * (100_990_001 + 60 * leverage)
  {
    assert BPS * (BPS + cushion) >= 100_990_001 + 60 * leverage;
    MulBothSides(rate, 100_990_001 + 60 * leverage, rate, BPS * (BPS + cushion));
    assert rate * (BPS * (BPS + cushion)) == BPS * (rate * (BPS + cushion));
  }

  // Up to 30x a shortfall of 500 base units is enough, and up to 39.9x one of 84000.
  lemma CushionPaysBelowForty(shortfall: nat, leverageBps: u32)
    requires BPS <= leverageBps <= 399_000
    requires shortfall >= 84_000 || (shortfall >= 500 && leverageBps <= 300_000)
    ensures CushionPays(shortfall, leverageBps)
  {
    var rate, cushion := 1_999_999 - leverageBps, CushionBps(leverageBps);
    CushionRate(leverageBps);
    RateOfCushion(leverageBps, rate, cushion);
    var product := rate * (BPS + cushion);
    if leverageBps <= 300_000 {
      MulBothSides(500, 200_000_000, shortfall, product - 20_000_000_000);
    } else {
      MulBothSides(84_000, 1_200_000, shortfall, product - 20_000_000_000);
    }
    assert shortfall * (product - 20_000_000_000) == shortfall * product - 20_000_000_000 * shortfall;
  }

  lemma Covers(priced: nat, debt: nat, equity: nat, leverage: nat, cushion: nat, shortfall: nat,
               target: nat, p: nat, min: nat, pulled: nat)
    requires priced == debt + equity && 0 < equity <= WAD
    requires leverage <= 1_999_999 && PaysAt(shortfall, 1_999_999 - leverage, cushion)
    requires priced * BPS < leverage * equity + equity
    requires Floor(shortfall * cushion, BPS, target - shortfall)
    requires target * WAD < p * equity + equity
    requires min * BPS * WAD > 9_950 * (priced * p) - 19_951 * WAD
    requires pulled * WAD < debt * p + WAD
    ensures min - pulled >= shortfall
  {
    NetProceeds(priced, debt, p, min, pulled);
    SliceOfEquity(priced, debt, equity, leverage, target, p);
    CushionEarns(shortfall, 1_999_999 - leverage, cushion, target);
    Balance(min - pulled, (9_950 * priced - 10_000 * debt) * p, target * (1_999_999 - leverage), shortfall);
  }

  lemma Balance(net: int, slice: int, earned: int, shortfall: int)
    requires BPS * WAD * net > slice - 29_951 * WAD
    requires 200 * slice >= WAD * earned - 2_000_000 * WAD
    requires earned >= 2_000_000 * shortfall + 7_990_200
    ensures net >= shortfall
  {
  }

  // ---------------------------------------------------------------- the sizes as the code computes them

  // Shortfalls and prices for which no product of the sizing leaves 256 bits.
  const SHORTFALL_LIMIT: nat := 0x1_0000_0000_0000_0000_0000_0000_0000_0000_0000_0000

  lemma PricedFits(collateral: u128, price: u256)
    requires price <= PAR_PRICE
    ensures Floor(collateral * price, TEN36, PricedCollateral(collateral, price))
    ensures PricedCollateral(collateral, price) <= U128_LIMIT
  {
    ProductFits(collateral, price, U128_LIMIT, PAR_PRICE);
    MulDivFits(collateral, price, TEN36);
    MulBothSides(collateral, price, U128_LIMIT, PAR_PRICE);
    FloorAtMost(collateral * price, TEN36, PricedCollateral(collateral, price), U128_LIMIT);
  }

  lemma LeverageFits(priced: u256, equity: u256)
    requires 0 < equity <= priced <= U128_LIMIT
    ensures LeverageBps(priced, equity) >= BPS
    ensures LeverageBps(priced, equity) < U32_MAX ==>
              Floor(priced * BPS, equity, LeverageBps(priced, equity))
  {
    MulDivFits(priced, BPS, equity);
    MulOrder(BPS, MulDiv(priced, BPS, equity) + 1, equity);
    assert (MulDiv(priced, BPS, equity) + 1) * equity == MulDiv(priced, BPS, equity) * equity + equity;
  }

  lemma TargetFits(shortfall: u256, leverage: u32)
    requires shortfall < SHORTFALL_LIMIT
    ensures var target := TargetFree(shortfall, leverage);
            && Floor(shortfall * CushionBps(leverage), BPS, target - shortfall)
            && target < 0x1_0000_0000 * SHORTFALL_LIMIT
  {
    var cushion := CushionBps(leverage);
    ProductFits(shortfall, cushion, SHORTFALL_LIMIT, 0x1000_0000);
    MulDivFits(shortfall, cushion, BPS);
    MulBothSides(shortfall, cushion, SHORTFALL_LIMIT, 0x1000_0000);
    FloorAtMost(shortfall * cushion, BPS, MulDiv(shortfall, cushion, BPS), 0x1000_0000 * SHORTFALL_LIMIT);
  }

  lemma ProportionFits(target: u256, equity: u256)
    requires target < 0x1_0000_0000 * SHORTFALL_LIMIT && 0 < equity
    ensures Proportion(target, equity) < WAD ==> Floor(target * WAD, equity, Proportion(target, equity))
  {
    MulDivFits(target, WAD, equity);
  }

  lemma SlicesFit(amount: u256, p: u256)
    requires amount <= U128_LIMIT && p <= WAD
    ensures Floor(amount * p, WAD, MulDiv(amount, p, WAD)) && MulDiv(amount, p, WAD) <= amount
    ensures p == WAD ==> MulDiv(amount, p, WAD) == amount
  {
    ProductFits(amount, p, U128_LIMIT, WAD);
    MulDivFits(amount, p, WAD);
    MulBothSides(amount, p, amount, WAD);
    FloorAtMost(amount * p, WAD, MulDiv(amount, p, WAD), amount);
    if p == WAD {
      MulOrder(amount, MulDiv(amount, p, WAD) + 1, WAD);
    }
  }

  lemma SwapFits(usde: u256, twap: u256)
    requires usde <= U128_LIMIT && twap < U128_LIMIT
    ensures var expected := MulDiv(usde, twap, TEN36);
            && Floor(usde * twap, TEN36, expected)
            && Floor(expected * 9_950, BPS, SwapMinUsdcOut(usde, twap, SLIPPAGE_BPS))
  {
    var expected := MulDiv(usde, twap, TEN36);
    ProductFits(usde, twap, U128_LIMIT, U128_LIMIT - 1);
    MulDivFits(usde, twap, TEN36);
    MulBothSides(usde, twap, U128_LIMIT, U128_LIMIT);
    FloorAtMost(usde * twap, TEN36, expected, U128_LIMIT * 1000);
    MulDivFits(expected, 9_950, BPS);
  }

  lemma PulledFits(shares: u128, part: u256, p: u256, totalAssets: u256, totalShares: u128)
    requires ShareMathFits(shares, totalAssets, totalShares)
    requires p <= WAD && part <= shares && part * WAD <= shares * p
    ensures var debt := BorrowAssetsUp(shares, totalAssets, totalShares);
            var pulled := BorrowAssetsUp(part, totalAssets, totalShares);
            pulled * WAD < debt * p + WAD
  {
    var n, d := totalAssets + VIRTUAL_ASSETS, totalShares + VIRTUAL_SHARES;
    MulBothSides(part, n, shares, n);
    BorrowAssetsUpExact(shares, totalAssets, totalShares);
    BorrowAssetsUpExact(part, totalAssets, totalShares);
    PulledAssets(shares, part, p, n, d,
                 AssetsUp(shares, totalAssets, totalShares), AssetsUp(part, totalAssets, totalShares));
  }

  // ---------------------------------------------------------------- the two promises

  // Wherever the cushion pays, a partial unwind leaves at least the shortfall after its own
  // repayment: the assets Morpho pulls for the shares, at the same accrual.
  lemma UnwindCoversShortfall(
      collateral: u128, twap: u256, borrowShares: u128, totalAssets: u256, totalShares: u128, shortfall: u256)
    requires twap < U128_LIMIT && ShareMathFits(borrowShares, totalAssets, totalShares)
    requires shortfall < SHORTFALL_LIMIT
    requires var priced := PricedCollateral(collateral, BoundedPrice(twap));
             var debt := BorrowAssetsUp(borrowShares, totalAssets, totalShares);
             && debt < priced && priced - debt <= WAD
             && CushionPays(shortfall, LeverageBps(priced, priced - debt))
             && SizeUnwind(collateral, borrowShares, priced, debt, twap, shortfall).proportion < WAD
    ensures var priced := PricedCollateral(collateral, BoundedPrice(twap));
            var debt := BorrowAssetsUp(borrowShares, totalAssets, totalShares);
            var unwind := SizeUnwind(collateral, borrowShares, priced, debt, twap, shortfall);
            unwind.sharesToRepay < U128_LIMIT &&
            unwind.minUsdcOut - BorrowAssetsUp(unwind.sharesToRepay, totalAssets, totalShares) >= shortfall
  {
    var price := BoundedPrice(twap);
    var priced := PricedCollateral(collateral, price);
    var debt := BorrowAssetsUp(borrowShares, totalAssets, totalShares);
    var equity: u256 := priced - debt;
    var leverage := LeverageBps(priced, equity);
    var target := TargetFree(shortfall, leverage);
    var p := Proportion(target, equity);
    PricedFits(collateral, price);
    LeverageFits(priced, equity);
    TargetFits(shortfall, leverage);
    ProportionFits(target, equity);
    SlicesFit(borrowShares, p);
    SlicesFit(collateral, p);
    var part, out := MulDiv(borrowShares, p, WAD), MulDiv(collateral, p, WAD);
    PulledFits(borrowShares, part, p, totalAssets, totalShares);
    SwapFits(out, twap);
    var min := SwapMinUsdcOut(out, twap, SLIPPAGE_BPS);
    Proceeds(collateral, price, twap, priced, p, out, MulDiv(out, twap, TEN36), min);
    Covers(priced, debt, equity, leverage, CushionBps(leverage), shortfall, target, p, min,
           BorrowAssetsUp(part, totalAssets, totalShares));
  }

  // A full unwind sells all the collateral and owes the whole debt, whatever the cushion: it
  // covers the shortfall exactly when 99.5% of what the pool pays for the collateral does.
  // Up to par that is the priced collateral.
  lemma FullUnwindCovers(
      collateral: u128, twap: u256, borrowShares: u128, totalAssets: u256, totalShares: u128, shortfall: u256)
    requires twap < U128_LIMIT && ShareMathFits(borrowShares, totalAssets, totalShares)
    requires var priced := PricedCollateral(collateral, BoundedPrice(twap));
             var debt := BorrowAssetsUp(borrowShares, totalAssets, totalShares);
             debt < priced && SizeUnwind(collateral, borrowShares, priced, debt, twap, shortfall).proportion == WAD
    ensures var priced := PricedCollateral(collateral, BoundedPrice(twap));
            var debt := BorrowAssetsUp(borrowShares, totalAssets, totalShares);
            var unwind := SizeUnwind(collateral, borrowShares, priced, debt, twap, shortfall);
            && unwind.collateralOut == collateral && unwind.sharesToRepay == borrowShares
            && (unwind.minUsdcOut - debt >= shortfall <==>
                  200 * (shortfall + debt) <= 199 * PricedCollateral(collateral, twap))
            && (twap <= PAR_PRICE ==> PricedCollateral(collateral, twap) == priced)
  {
    SlicesFit(collateral, WAD);
    SlicesFit(borrowShares, WAD);
    SwapFits(collateral, twap);
    FloorReaches(PricedCollateral(collateral, twap), SwapMinUsdcOut(collateral, twap, SLIPPAGE_BPS),
                 shortfall + BorrowAssetsUp(borrowShares, totalAssets, totalShares));
  }

  lemma FloorReaches(gross: nat, min: nat, wanted: nat)
    requires Floor(gross * 9_950, BPS, min)
    ensures min >= wanted <==> 200 * wanted <= 199 * gross
  {
  }

  // ---------------------------------------------------------------- where the cushion does not pay

  // The leverage has outrun the cushion of a shortfall, rounding included.
  predicate CushionOutrun(shortfall: nat, leverageBps: u32) {
    OutrunAt(shortfall, if leverageBps <= 2_000_000 then 2_000_000 - leverageBps else 0, CushionBps(leverageBps))
  }

  predicate OutrunAt(shortfall: nat, rate: nat, cushion: nat) {
    20_000_000_000 * shortfall > shortfall * (rate * (BPS + cushion)) + 59_900_000_000
  }

  lemma ProceedsAtMost(collateral: nat, twap: nat, priced: nat, p: nat, out: nat, expected: nat, min: nat)
    requires collateral * twap < priced * TEN36 + TEN36
    requires out * WAD <= collateral * p && expected * TEN36 <= out * twap && min * BPS <= expected * 9_950
    ensures min * BPS * WAD <= 9_950 * (priced * p + p)
  {
    MulBothSides(out * WAD, twap, collateral * p, twap);
    MulBothSides(collateral * twap, p, priced * TEN36 + TEN36, p);
    assert out * WAD * twap == WAD * (out * twap) && collateral * p * twap == collateral * twap * p;
    assert (priced * TEN36 + TEN36) * p == TEN36 * (priced * p + p);
    assert WAD * (expected * TEN36) == TEN36 * (expected * WAD);
    assert expected * WAD <= priced * p + p;
  }

  lemma PartAtLeast(shares: nat, part: nat, p: nat, n: nat)
    requires shares * p < part * WAD + WAD
    ensures shares * n * p <= WAD * (part * n) + WAD * n
  {
    MulBothSides(shares * p, n, part * WAD + WAD, n);
    assert shares * p * n == shares * n * p;
    assert (part * WAD + WAD) * n == WAD * (part * n) + WAD * n;
  }

  lemma OwedAtMost(owed: nat, p: nat, d: nat, debt: nat)
    requires debt * d < owed + d
    ensures d * (debt * p) <= owed * p + d * p
  {
    MulBothSides(debt * d, p, owed + d, p);
    assert (owed + d) * p == owed * p + d * p && debt * d * p == d * (debt * p);
  }

  lemma PulledAtLeast(shares: nat, part: nat, p: nat, n: nat, d: nat, debt: nat, pulled: nat)
    requires 0 < d && n <= d && debt * d < shares * n + d
    requires shares * p < part * WAD + WAD && part * n <= pulled * d
    ensures pulled * WAD >= debt * p - p - WAD
  {
    PartAtLeast(shares, part, p, n);
    OwedAtMost(shares * n, p, d, debt);
    DividedBy(d, debt * p, pulled, p, part * n, shares * n * p, n);
  }

  lemma DividedBy(d: nat, owed: nat, pulled: nat, p: nat, taken: nat, whole: nat, n: nat)
    requires 0 < d && n <= d && taken <= pulled * d
    requires d * owed <= whole + d * p && whole <= WAD * taken + WAD * n
    ensures pulled * WAD >= owed - p - WAD
  {
    assert WAD * (pulled * d) == d * (pulled * WAD);
    assert d * (pulled * WAD + WAD + p) == d * (pulled * WAD) + d * WAD + d * p;
    MulOrder(owed, pulled * WAD + WAD + p, d);
  }

  lemma NetAtMost(priced: nat, debt: nat, p: nat, min: nat, pulled: nat)
    requires p <= WAD && min * BPS * WAD <= 9_950 * (priced * p + p)
    requires pulled * WAD >= debt * p - p - WAD
    ensures BPS * WAD * (min - pulled) <= (9_950 * priced - 10_000 * debt) * p + 29_950 * WAD
  {
    assert (9_950 * priced - 10_000 * debt) * p == 9_950 * (priced * p) - 10_000 * (debt * p);
    assert BPS * WAD * (min - pulled) == min * BPS * WAD - 10_000 * (pulled * WAD);
  }

  lemma SliceAtMost(priced: nat, debt: nat, equity: nat, leverage: nat, rate: nat, target: nat, p: nat)
    requires priced == debt + equity && leverage * equity <= priced * BPS
    requires rate >= 2_000_000 - leverage && p * equity <= target * WAD
    ensures 200 * ((9_950 * priced - 10_000 * debt) * p) <= WAD * (target * rate)
  {
    var g := 9_950 * priced - 10_000 * debt;
    assert 200 * g == 2_000_000 * equity - BPS * priced;
    assert (2_000_000 - leverage) * equity == 2_000_000 * equity - leverage * equity;
    MulOrder(2_000_000 - leverage, rate, if equity > 0 then equity else 1);
    assert 200 * g <= rate * equity;
    MulOrder(200 * g, rate * equity, if p > 0 then p else 1);
    assert 200 * (g * p) == 200 * g * p;
    MulBothSides(rate, p * equity, rate, target * WAD);
    assert rate * equity * p == rate * (p * equity) && rate * (target * WAD) == WAD * (target * rate);
  }

  lemma Undershoots(priced: nat, debt: nat, equity: nat, leverage: nat, rate: nat, cushion: nat, shortfall: nat,
                    target: nat, p: nat, min: nat, pulled: nat)
    requires priced == debt + equity && leverage * equity <= priced * BPS && rate >= 2_000_000 - leverage
    requires OutrunAt(shortfall, rate, cushion) && Floor(shortfall * cushion, BPS, target - shortfall)
    requires p <= WAD && p * equity <= target * WAD
    requires min * BPS * WAD <= 9_950 * (priced * p + p)
    requires pulled * WAD >= debt * p - p - WAD
    ensures min - pulled < shortfall
  {
    NetAtMost(priced, debt, p, min, pulled);
    SliceAtMost(priced, debt, equity, leverage, rate, target, p);
    CushionedTarget(shortfall, cushion, target);
    TargetAtRate(rate, target, shortfall, BPS + cushion);
    Shortage(min - pulled, (9_950 * priced - 10_000 * debt) * p, target * rate, shortfall,
             shortfall * (rate * (BPS + cushion)));
  }

  lemma TargetAtRate(rate: nat, target: nat, shortfall: nat, gain: nat)
    requires BPS * target <= shortfall * gain
    ensures BPS * (target * rate) <= shortfall * (rate * gain)
  {
    MulBothSides(rate, BPS * target, rate, shortfall * gain);
    assert rate * (BPS * target) == BPS * (target * rate);
    assert rate * (shortfall * gain) == shortfall * (rate * gain);
  }

  lemma Shortage(net: int, slice: int, earned: int, shortfall: int, paid: int)
    requires BPS * WAD * net <= slice + 29_950 * WAD && 200 * slice <= WAD * earned
    requires BPS * earned <= paid && 20_000_000_000 * shortfall > paid + 59_900_000_000
    ensures net < shortfall
  {
  }

  lemma ProportionAtMost(target: u256, equity: u256)
    requires target < 0x1_0000_0000 * SHORTFALL_LIMIT && 0 < equity
    ensures Proportion(target, equity) * equity <= target * WAD
  {
    MulDivFits(target, WAD, equity);
    MulBothSides(Proportion(target, equity), equity, MulDiv(target, WAD, equity), equity);
  }

  lemma PulledFloor(shares: u128, part: u256, p: u256, totalAssets: u256, totalShares: u128)
    requires ShareMathFits(shares, totalAssets, totalShares)
    requires totalAssets + VIRTUAL_ASSETS <= totalShares + VIRTUAL_SHARES
    requires p <= WAD && part <= shares && Floor(shares * p, WAD, part)
    ensures var debt := BorrowAssetsUp(shares, totalAssets, totalShares);
            BorrowAssetsUp(part, totalAssets, totalShares) * WAD >= debt * p - p - WAD
  {
    var n, d := totalAssets + VIRTUAL_ASSETS, totalShares + VIRTUAL_SHARES;
    MulBothSides(part, n, shares, n);
    BorrowAssetsUpExact(shares, totalAssets, totalShares);
    BorrowAssetsUpExact(part, totalAssets, totalShares);
    PulledAtLeast(shares, part, p, n, d,
                  AssetsUp(shares, totalAssets, totalShares), AssetsUp(part, totalAssets, totalShares));
  }

  // Wherever the leverage has outrun the cushion, every unwind falls short, full or
  // partial: at a TWAP up to par and with at most one asset behind a share.
  lemma UnwindFallsShort(
      collateral: u128, twap: u256, borrowShares: u128, totalAssets: u256, totalShares: u128, shortfall: u256)
    requires twap <= PAR_PRICE && ShareMathFits(borrowShares, totalAssets, totalShares)
    requires totalAssets + VIRTUAL_ASSETS <= totalShares + VIRTUAL_SHARES
    requires shortfall < SHORTFALL_LIMIT
    requires var priced := PricedCollateral(collateral, BoundedPrice(twap));
             var debt := BorrowAssetsUp(borrowShares, totalAssets, totalShares);
             debt < priced && CushionOutrun(shortfall, LeverageBps(priced, priced - debt))
    ensures var priced := PricedCollateral(collateral, BoundedPrice(twap));
            var debt := BorrowAssetsUp(borrowShares, totalAssets, totalShares);
            var unwind := SizeUnwind(collateral, borrowShares, priced, debt, twap, shortfall);
            unwind.sharesToRepay < U128_LIMIT &&
            unwind.minUsdcOut - BorrowAssetsUp(unwind.sharesToRepay, totalAssets, totalShares) < shortfall
  {
    var priced := PricedCollateral(collateral, twap);
    var debt := BorrowAssetsUp(borrowShares, totalAssets, totalShares);
    var equity: u256 := priced - debt;
    var leverage := LeverageBps(priced, equity);
    var target := TargetFree(shortfall, leverage);
    var p := Proportion(target, equity);
    PricedFits(collateral, twap);
    LeverageAtMost(priced, equity);
    TargetFits(shortfall, leverage);
    ProportionAtMost(target, equity);
    SlicesFit(borrowShares, p);
    SlicesFit(collateral, p);
    var part, out := MulDiv(borrowShares, p, WAD), MulDiv(collateral, p, WAD);
    PulledFloor(borrowShares, part, p, totalAssets, totalShares);
    SwapFits(out, twap);
    var min := SwapMinUsdcOut(out, twap, SLIPPAGE_BPS);
    ProceedsAtMost(collateral, twap, priced, p, out, MulDiv(out, twap, TEN36), min);
    Undershoots(priced, debt, equity, leverage, if leverage <= 2_000_000 then 2_000_000 - leverage else 0,
                CushionBps(leverage), shortfall, target, p, min, BorrowAssetsUp(part, totalAssets, totalShares));
  }

  lemma LeverageAtMost(priced: u256, equity: u256)
    requires 0 < equity <= priced <= U128_LIMIT
    ensures LeverageBps(priced, equity) * equity <= priced * BPS
  {
    MulDivFits(priced, BPS, equity);
    MulBothSides(LeverageBps(priced, equity), equity, MulDiv(priced, BPS, equity), equity);
  }

  // From 40.1x and a shortfall of 25000 base units up the cushion is always outrun.
  lemma CushionOutrunPastForty(shortfall: nat, leverageBps: u32)
    requires leverageBps >= 401_000 && shortfall >= 25_000
    ensures CushionOutrun(shortfall, leverageBps)
  {
    var rate := if leverageBps <= 2_000_000 then 2_000_000 - leverageBps else 0;
    var cushion := CushionBps(leverageBps);
    RatePastForty(leverageBps, rate, cushion);
    var product := rate * (BPS + cushion);
    MulBothSides(25_000, 2_400_000, shortfall, 20_000_000_000 - product);
    assert shortfall * (20_000_000_000 - product) == 20_000_000_000 * shortfall - shortfall * product;
  }

  lemma RatePastForty(leverage: nat, rate: nat, cushion: nat)
    requires leverage >= 401_000 && rate == (if leverage <= 2_000_000 then 2_000_000 - leverage else 0)
    requires cushion == 100 + 60 * leverage / BPS
    ensures rate * (BPS + cushion) <= 19_997_600_000
  {
    if leverage <= 2_000_000 {
      assert BPS * (BPS + cushion) <= 101_000_000 + 60 * leverage;
      MulBothSides(rate, BPS * (BPS + cushion), rate, 101_000_000 + 60 * leverage);
      assert rate * (BPS * (BPS + cushion)) == BPS * (rate * (BPS + cushion));
      MulBothSides(0, 0, leverage - 401_000, leverage);
      assert (leverage - 401_000) * leverage == leverage * leverage - 401_000 * leverage;
      assert rate * (101_000_000 + 60 * leverage)
          == 202_000_000_000_000 + 19_000_000 * leverage - 60 * (leverage * leverage);
    }
  }

  // The flash principal covers what Morpho pulls whenever the unwind is full or the
  // floored debt slice is at least 5000 units; below that, exactly when the pull did
  // not round up past the slice.
  lemma FlashPrincipalCoversPull(
      collateral: u128, twap: u256, borrowShares: u128, totalAssets: u256, totalShares: u128, shortfall: u256,
      priced: u256)
    requires ShareMathFits(borrowShares, totalAssets, totalShares)
    requires BorrowAssetsUp(borrowShares, totalAssets, totalShares) < priced <= U128_LIMIT
    ensures var debt := BorrowAssetsUp(borrowShares, totalAssets, totalShares);
            var unwind := SizeUnwind(collateral, borrowShares, priced, debt, twap, shortfall);
            var slice := DebtSlice(debt, unwind.proportion);
            && unwind.sharesToRepay < U128_LIMIT
            && var pulled := BorrowAssetsUp(unwind.sharesToRepay, totalAssets, totalShares);
            && pulled <= slice + 1
            && (unwind.proportion == WAD ==> pulled == slice == debt)
            && (pulled <= unwind.debtRepay <==> slice >= 5_000 || pulled <= slice)
  {
    var debt := BorrowAssetsUp(borrowShares, totalAssets, totalShares);
    var unwind := SizeUnwind(collateral, borrowShares, priced, debt, twap, shortfall);
    var p := unwind.proportion;
    var slice := DebtSlice(debt, p);
    SlicesFit(borrowShares, p);
    SlicesFit(debt, p);
    var part := unwind.sharesToRepay;
    PulledFits(borrowShares, part, p, totalAssets, totalShares);
    var pulled := BorrowAssetsUp(part, totalAssets, totalShares);
    MulOrder(pulled, slice + 2, WAD);
  }

  // ---------------------------------------------------------------- the limits of the two promises

  // The pull grows with the accrued total. A slice of the debt absorbs growth by
  // (slice + slice / 5000) / (slice + 1), two bps less one unit of rounding.
  lemma CushionAbsorbs(part: nat, n: nat, later: nat, d: nat, debt: nat, p: nat, slice: nat, pulled: nat)
    requires n > 0 && d > 0 && later * (slice + 1) <= n * (slice + slice / 5_000)
    requires WAD * (part * n) <= d * (debt * p)
    requires pulled * d < part * later + d
    requires debt * p < slice * WAD + WAD
    ensures pulled <= slice + slice / 5_000
  {
    var repay := slice + slice / 5_000;
    PartBelowSlice(part, n, d, debt * p, slice);
    CrossAtMost(part, n, later, d, slice + 1, repay);
    assert (repay + 1) * d == d * repay + d;
    MulOrder(pulled, repay + 1, d);
  }

  lemma Exchange(a: int, b: int, c: int)
    ensures a * b * c == a * c * b
  {
    assert a * b * c == a * (b * c) && a * c * b == a * (c * b);
  }

  // part / d <= whole / n and later / n <= repay / whole give part / d <= repay / later.
  lemma CrossAtMost(part: nat, n: nat, later: nat, d: nat, whole: nat, repay: nat)
    requires n > 0 && part * n <= d * whole && later * whole <= n * repay
    ensures part * later <= d * repay
  {
    MulBothSides(part * n, later, d * whole, later);
    MulBothSides(d, later * whole, d, n * repay);
    Exchange(part, n, later);
    Exchange(d, n, repay);
    assert d * whole * later == d * (later * whole) && d * (n * repay) == d * n * repay;
    MulOrder(part * later, d * repay, n);
  }

  lemma CrossAbove(shares: nat, n: nat, later: nat, d: nat, whole: nat, repay: nat)
    requires n > 0 && later > 0 && whole * d < shares * n && n * repay <= later * whole
    ensures repay * d < shares * later
  {
    MulOrder(whole * d, shares * n, later);
    MulBothSides(n * repay, d, later * whole, d);
    Exchange(shares, n, later);
    assert later * whole * d == whole * d * later && n * repay * d == repay * d * n;
    MulOrder(repay * d, shares * later, n);
  }

  lemma PartBelowSlice(part: nat, n: nat, d: nat, owed: nat, slice: nat)
    requires WAD * (part * n) <= d * owed && owed <= slice * WAD + WAD
    ensures part * n <= d * (slice + 1)
  {
    MulBothSides(d, owed, d, slice * WAD + WAD);
    assert d * (slice * WAD + WAD) == WAD * (d * (slice + 1));
  }

  // The principal still covers the pull after accrual, as long as the total has not grown
  // past what the cushion of the slice absorbs.
  lemma FlashPrincipalCoversAccrual(
      collateral: u128, twap: u256, borrowShares: u128, totalAssets: u256, laterAssets: u256, totalShares: u128,
      shortfall: u256, priced: u256)
    requires ShareMathFits(borrowShares, totalAssets, totalShares)
    requires ShareMathFits(borrowShares, laterAssets, totalShares)
    requires BorrowAssetsUp(borrowShares, totalAssets, totalShares) < priced <= U128_LIMIT
    requires var debt := BorrowAssetsUp(borrowShares, totalAssets, totalShares);
             var unwind := SizeUnwind(collateral, borrowShares, priced, debt, twap, shortfall);
             var slice := DebtSlice(debt, unwind.proportion);
             (laterAssets + VIRTUAL_ASSETS) * (slice + 1) <= (totalAssets + VIRTUAL_ASSETS) * (slice + slice / 5_000)
    ensures var debt := BorrowAssetsUp(borrowShares, totalAssets, totalShares);
            var unwind := SizeUnwind(collateral, borrowShares, priced, debt, twap, shortfall);
            && unwind.sharesToRepay < U128_LIMIT
            && BorrowAssetsUp(unwind.sharesToRepay, laterAssets, totalShares) <= unwind.debtRepay
  {
    var debt := BorrowAssetsUp(borrowShares, totalAssets, totalShares);
    var unwind := SizeUnwind(collateral, borrowShares, priced, debt, twap, shortfall);
    var p, part := unwind.proportion, unwind.sharesToRepay;
    var n, later, d := totalAssets + VIRTUAL_ASSETS, laterAssets + VIRTUAL_ASSETS, totalShares + VIRTUAL_SHARES;
    SlicesFit(borrowShares, p);
    SlicesFit(debt, p);
    MulBothSides(part, later, borrowShares, later);
    BorrowAssetsUpExact(borrowShares, totalAssets, totalShares);
    BorrowAssetsUpExact(part, laterAssets, totalShares);
    DebtOfPart(borrowShares, part, p, n, d, debt);
    CushionAbsorbs(part, n, later, d, debt, p, DebtSlice(debt, p), BorrowAssetsUp(part, laterAssets, totalShares));
  }

  // One bp of growth is absorbed by every slice of 20000 units or more.
  lemma OneBasisPointIsAbsorbed(n: nat, later: nat, slice: nat)
    requires 10_000 * later <= 10_001 * n && slice >= 20_000
    ensures later * (slice + 1) <= n * (slice + slice / 5_000)
  {
    MulBothSides(slice + 1, 10_000 * later, slice + 1, 10_001 * n);
    assert (slice + 1) * (10_000 * later) == 10_000 * (later * (slice + 1));
    assert (slice + 1) * (10_001 * n) == n * (10_001 * (slice + 1));
    MulBothSides(n, 10_001 * (slice + 1), n, 10_000 * (slice + slice / 5_000));
    assert n * (10_000 * (slice + slice / 5_000)) == 10_000 * (n * (slice + slice / 5_000));
  }

  // A full unwind owes exactly what its shares owe then, so past the cushion, again but for
  // a unit of rounding, its principal is too small.
  lemma FullUnwindFallsShort(
      collateral: u128, twap: u256, borrowShares: u128, totalAssets: u256, laterAssets: u256, totalShares: u128,
      shortfall: u256, priced: u256)
    requires ShareMathFits(borrowShares, totalAssets, totalShares)
    requires ShareMathFits(borrowShares, laterAssets, totalShares)
    requires BorrowAssetsUp(borrowShares, totalAssets, totalShares) < priced <= U128_LIMIT
    requires var debt := BorrowAssetsUp(borrowShares, totalAssets, totalShares);
             && SizeUnwind(collateral, borrowShares, priced, debt, twap, shortfall).proportion == WAD
             && debt > 1
             && (laterAssets + VIRTUAL_ASSETS) * (debt - 1) >= (totalAssets + VIRTUAL_ASSETS) * (debt + debt / 5_000)
    ensures var debt := BorrowAssetsUp(borrowShares, totalAssets, totalShares);
            var unwind := SizeUnwind(collateral, borrowShares, priced, debt, twap, shortfall);
            && unwind.sharesToRepay == borrowShares
            && BorrowAssetsUp(borrowShares, laterAssets, totalShares) > unwind.debtRepay
  {
    var debt := BorrowAssetsUp(borrowShares, totalAssets, totalShares);
    SlicesFit(borrowShares, WAD);
    SlicesFit(debt, WAD);
    BorrowAssetsUpExact(borrowShares, totalAssets, totalShares);
    GrownDebt(borrowShares, totalAssets + VIRTUAL_ASSETS, laterAssets + VIRTUAL_ASSETS, totalShares + VIRTUAL_SHARES,
              debt, debt + debt / 5_000);
    DebtIsCeiling(borrowShares, laterAssets, totalShares, debt + debt / 5_000);
  }

  lemma GrownDebt(shares: nat, n: nat, later: nat, d: nat, debt: nat, repay: nat)
    requires n > 0 && d > 0 && later > 0 && debt > 1 && later * (debt - 1) >= n * repay
    requires debt * d < shares * n + d
    ensures shares * later > repay * d
  {
    assert (debt - 1) * d == debt * d - d;
    CrossAbove(shares, n, later, d, debt - 1, repay);
  }

  // The same for any unwind, with at most one asset behind a share: past the cushion of its
  // slice, but for two units more of rounding, the principal is too small.
  lemma AccrualOutgrowsPrincipal(
      collateral: u128, twap: u256, borrowShares: u128, totalAssets: u256, laterAssets: u256, totalShares: u128,
      shortfall: u256, priced: u256)
    requires ShareMathFits(borrowShares, totalAssets, totalShares)
    requires ShareMathFits(borrowShares, laterAssets, totalShares)
    requires totalAssets + VIRTUAL_ASSETS <= totalShares + VIRTUAL_SHARES
    requires BorrowAssetsUp(borrowShares, totalAssets, totalShares) < priced <= U128_LIMIT
    requires var debt := BorrowAssetsUp(borrowShares, totalAssets, totalShares);
             var unwind := SizeUnwind(collateral, borrowShares, priced, debt, twap, shortfall);
             var slice := DebtSlice(debt, unwind.proportion);
             && slice > 2
             && (laterAssets + VIRTUAL_ASSETS) * (slice - 2) >= (totalAssets + VIRTUAL_ASSETS) * (slice + slice / 5_000)
    ensures var debt := BorrowAssetsUp(borrowShares, totalAssets, totalShares);
            var unwind := SizeUnwind(collateral, borrowShares, priced, debt, twap, shortfall);
            && unwind.sharesToRepay < U128_LIMIT
            && BorrowAssetsUp(unwind.sharesToRepay, laterAssets, totalShares) > unwind.debtRepay
  {
    var debt := BorrowAssetsUp(borrowShares, totalAssets, totalShares);
    var unwind := SizeUnwind(collateral, borrowShares, priced, debt, twap, shortfall);
    var p, part, slice := unwind.proportion, unwind.sharesToRepay, DebtSlice(debt, unwind.proportion);
    var n, later, d := totalAssets + VIRTUAL_ASSETS, laterAssets + VIRTUAL_ASSETS, totalShares + VIRTUAL_SHARES;
    SlicesFit(borrowShares, p);
    SlicesFit(debt, p);
    BorrowAssetsUpExact(borrowShares, totalAssets, totalShares);
    PartAboveSlice(borrowShares, part, p, n, d, debt, slice);
    CrossAbove(part, n, later, d, slice - 2, slice + slice / 5_000);
    MulBothSides(part, later, borrowShares, later);
    DebtIsCeiling(part, laterAssets, totalShares, slice + slice / 5_000);
  }

  lemma PartAbove(shares: nat, part: nat, p: nat, n: nat)
    requires n > 0 && shares * p < part * WAD + WAD
    ensures shares * n * p < WAD * (part * n) + WAD * n
  {
    MulOrder(shares * p, part * WAD + WAD, n);
    Exchange(shares, p, n);
    assert (part * WAD + WAD) * n == WAD * (part * n) + WAD * n;
  }

  lemma PartAboveSlice(shares: nat, part: nat, p: nat, n: nat, d: nat, debt: nat, slice: nat)
    requires 0 < n <= d && p <= WAD && debt * d < shares * n + d
    requires shares * p < part * WAD + WAD && slice * WAD <= debt * p
    ensures (slice - 2) * d < part * n
  {
    PartAbove(shares, part, p, n);
    OwedAtMost(shares * n, p, d, debt);
    MulBothSides(d, slice * WAD, d, debt * p);
    MulBothSides(d, p, d, WAD);
    SliceBelow(part * n, shares * n * p, n, d, d * (debt * p), d * p, d * (slice * WAD), slice);
  }

  lemma SliceBelow(taken: int, whole: int, n: int, d: int, owed: int, unit: int, share: int, slice: int)
    requires whole < WAD * taken + WAD * n && n <= d && owed <= whole + unit && unit <= d * WAD && share <= owed
    requires share == d * (slice * WAD)
    ensures (slice - 2) * d < taken
  {
    assert d * (slice * WAD) == WAD * (slice * d);
    assert (slice - 2) * d == slice * d - 2 * d;
  }

  // So the cushion is not 20 bps: three bps of accrual outgrow the principal of every full
  // unwind of 10004 units or more.
  lemma CushionIsNotTwentyBps(
      collateral: u128, twap: u256, borrowShares: u128, totalAssets: u256, laterAssets: u256, totalShares: u128,
      shortfall: u256, priced: u256)
    requires ShareMathFits(borrowShares, totalAssets, totalShares)
    requires ShareMathFits(borrowShares, laterAssets, totalShares)
    requires 10_000 * (laterAssets + VIRTUAL_ASSETS) >= 10_003 * (totalAssets + VIRTUAL_ASSETS)
    requires var debt := BorrowAssetsUp(borrowShares, totalAssets, totalShares);
             && 10_004 <= debt < priced <= U128_LIMIT
             && SizeUnwind(collateral, borrowShares, priced, debt, twap, shortfall).proportion == WAD
    ensures var debt := BorrowAssetsUp(borrowShares, totalAssets, totalShares);
            BorrowAssetsUp(borrowShares, laterAssets, totalShares)
            > SizeUnwind(collateral, borrowShares, priced, debt, twap, shortfall).debtRepay
  {
    var debt := BorrowAssetsUp(borrowShares, totalAssets, totalShares);
    ThreeBasisPoints(totalAssets + VIRTUAL_ASSETS, laterAssets + VIRTUAL_ASSETS, debt);
    FullUnwindFallsShort(collateral, twap, borrowShares, totalAssets, laterAssets, totalShares, shortfall, priced);
  }

  lemma ThreeBasisPoints(n: nat, later: nat, debt: nat)
    requires 10_000 * later >= 10_003 * n && debt >= 10_004
    ensures later * (debt - 1) >= n * (debt + debt / 5_000)
  {
    MulBothSides(debt - 1, 10_003 * n, debt - 1, 10_000 * later);
    assert (debt - 1) * (10_000 * later) == 10_000 * (later * (debt - 1));
    assert (debt - 1) * (10_003 * n) == n * (10_003 * (debt - 1));
    MulBothSides(n, 10_000 * (debt + debt / 5_000), n, 10_003 * (debt - 1));
    assert n * (10_000 * (debt + debt / 5_000)) == 10_000 * (n * (debt + debt / 5_000));
  }

  lemma MulDivIs(a: u256, b: u256, d: u256, q: u256)
    requires d > 0 && a * b < U256_LIMIT && Floor(a * b, d, q)
    ensures MulDiv(a, b, d) == q
  {
    Mul256Fits(a, b);
    DivIs(a * b, d, q);
  }

  lemma DebtIs(shares: u128, totalAssets: u256, totalShares: u128, debt: nat)
    requires ShareMathFits(shares, totalAssets, totalShares)
    requires var owed, d := shares * (totalAssets + VIRTUAL_ASSETS), totalShares + VIRTUAL_SHARES;
             owed <= debt * d < owed + d
    ensures BorrowAssetsUp(shares, totalAssets, totalShares) == debt
  {
    BorrowAssetsUpExact(shares, totalAssets, totalShares);
    CeilIs(shares * (totalAssets + VIRTUAL_ASSETS), totalShares + VIRTUAL_SHARES, debt);
  }

  // A slice under 5000 units whose pull rounds up past the principal: 2053 borrowed, 2054 pulled.
  lemma SmallSliceFallsShort()
    ensures var unwind := SizeUnwind(3_000_001_000_000_000_000, 1_000_000_000_000_000_000,
                                     3_000_001, 2_000_000, PAR_PRICE, 1_000);
            unwind.sharesToRepay == 1_026_998_973_001_026 && unwind.debtRepay == 2_053
    ensures BorrowAssetsUp(1_000_000_000_000_000_000, 3_999_999, 1_999_999_999_999_000_000) == 2_000_000
    ensures BorrowAssetsUp(1_026_998_973_001_026, 3_999_999, 1_999_999_999_999_000_000) == 2_054
  {
    DebtIs(1_000_000_000_000_000_000, 3_999_999, 1_999_999_999_999_000_000, 2_000_000);
    DebtIs(1_026_998_973_001_026, 3_999_999, 1_999_999_999_999_000_000, 2_054);
    SmallSliceProportion();
    MulDivIs(1_000_000_000_000_000_000, 1_026_998_973_001_026, WAD, 1_026_998_973_001_026);
    MulDivIs(2_000_000, 1_026_998_973_001_026, WAD, 2_053);
  }

  // A position the coverage theorem is about: 3x, a shortfall of 1000, a partial unwind.
  lemma PartialUnwindExample()
    ensures var debt := BorrowAssetsUp(1_000_000_000_000_000_000, 3_999_999, 1_999_999_999_999_000_000);
            var priced := PricedCollateral(3_000_001_000_000_000_000, BoundedPrice(PAR_PRICE));
            && ShareMathFits(1_000_000_000_000_000_000, 3_999_999, 1_999_999_999_999_000_000)
            && debt == 2_000_000 && priced == 3_000_001 && LeverageBps(priced, priced - debt) == 29_999
            && CushionPays(1_000, 29_999)
            && SizeUnwind(3_000_001_000_000_000_000, 1_000_000_000_000_000_000, priced, debt, PAR_PRICE,
                          1_000).proportion < WAD
  {
    DebtIs(1_000_000_000_000_000_000, 3_999_999, 1_999_999_999_999_000_000, 2_000_000);
    MulDivIs(3_000_001_000_000_000_000, PAR_PRICE, TEN36, 3_000_001);
    SmallSliceProportion();
    CushionPaysBelowForty(1_000, 29_999);
  }

  // The same position asked for more than its equity: the cushion pays and the unwind is full,
  // and 985_000 of 1_000_001 units are left.
  lemma FullUnwindExample()
    ensures var debt := BorrowAssetsUp(1_000_000_000_000_000_000, 3_999_999, 1_999_999_999_999_000_000);
            var unwind := SizeUnwind(3_000_001_000_000_000_000, 1_000_000_000_000_000_000, 3_000_001, 2_000_000,
                                     PAR_PRICE, 1_000_001);
            && debt == 2_000_000 && PricedCollateral(3_000_001_000_000_000_000, BoundedPrice(PAR_PRICE)) == 3_000_001
            && LeverageBps(3_000_001, 1_000_001) == 29_999 && CushionPays(1_000_001, 29_999)
            && unwind.proportion == WAD && unwind.sharesToRepay == 1_000_000_000_000_000_000
            && unwind.minUsdcOut - debt == 985_000
  {
    DebtIs(1_000_000_000_000_000_000, 3_999_999, 1_999_999_999_999_000_000, 2_000_000);
    MulDivIs(3_000_001_000_000_000_000, PAR_PRICE, TEN36, 3_000_001);
    SmallSliceProportion();
    CushionPaysBelowForty(1_000_001, 29_999);
    MulDivIs(1_000_001, 279, BPS, 27_900);
    MulDivIs(1_027_901, WAD, 1_000_001, 1_027_899_972_100_027_899);
    SlicesFit(1_000_000_000_000_000_000, WAD);
    SlicesFit(3_000_001_000_000_000_000, WAD);
    MulDivIs(3_000_001, 9_950, BPS, 2_985_000);
  }

  lemma SmallSliceProportion()
    ensures LeverageBps(3_000_001, 1_000_001) == 29_999
    ensures TargetFree(1_000, 29_999) == 1_027
    ensures Proportion(1_027, 1_000_001) == 1_026_998_973_001_026
  {
    MulDivIs(3_000_001, BPS, 1_000_001, 29_999);
    MulDivIs(1_000, 279, BPS, 27);
    MulDivIs(1_027, WAD, 1_000_001, 1_026_998_973_001_026);
  }

  // At 50x leverage the cushion no longer pays for the slippage: 982_500 units are left of 1_000_000.
  lemma HighLeverageUndershoots()
    ensures var unwind := SizeUnwind(1_000_000_000_000_000_000_000_000, 980_000_000_000_000_000,
                                     1_000_000_000_000, 980_000_000_000, PAR_PRICE, 1_000_000);
            unwind.minUsdcOut == 65_172_500 && unwind.sharesToRepay == 64_190_000_000_000
    ensures BorrowAssetsUp(980_000_000_000_000_000, 1_000_000_000_000, WAD) == 980_000_000_000
    ensures BorrowAssetsUp(64_190_000_000_000, 1_000_000_000_000, WAD) == 64_190_000
    ensures CushionOutrun(1_000_000, 500_000) && 65_172_500 - 64_190_000 < 1_000_000
  {
    DebtIs(980_000_000_000_000_000, 1_000_000_000_000, WAD, 980_000_000_000);
    DebtIs(64_190_000_000_000, 1_000_000_000_000, WAD, 64_190_000);
    HighLeverageProportion();
    MulDivIs(980_000_000_000_000_000, 65_500_000_000_000, WAD, 64_190_000_000_000);
    MulDivIs(1_000_000_000_000_000_000_000_000, 65_500_000_000_000, WAD, 65_500_000_000_000_000_000);
    MulDivIs(65_500_000_000_000_000_000, PAR_PRICE, TEN36, 65_500_000);
    MulDivIs(65_500_000, 9_950, BPS, 65_172_500);
  }

  lemma HighLeverageProportion()
    ensures LeverageBps(1_000_000_000_000, 20_000_000_000) == 500_000
    ensures TargetFree(1_000_000, 500_000) == 1_310_000
    ensures Proportion(1_310_000, 20_000_000_000) == 65_500_000_000_000
  {
    MulDivIs(1_000_000_000_000, BPS, 20_000_000_000, 500_000);
    MulDivIs(1_000_000, 3_100, BPS, 310_000);
    MulDivIs(1_310_000, WAD, 20_000_000_000, 65_500_000_000_000);
  }
}
