/**
 * What the deleverage and redemption plans of `components/vault-nav/src/lib.rs` leave the vault
 * with, against everything claimable once the strike has priced the pending redemptions.
 */
module EscrowFloor {
  import opened Wrappers
  import opened Words
  import opened Arith
  import opened DebtMath
  import opened PlanMath
  import opened Deleverage
  import opened Redemption
  import opened ActionPlan
  import opened PlanEffects

  // ---------------------------------------------------------------- the claims

  const CLAIMS_LIMIT: nat := 0x8000_0000_0000_0000_0000_0000_0000_0000

  // What the pending redemptions are worth: their share of NAV and fresh deposits, rounded
  // down, and nothing while there are no shares.
  ghost predicate ProRata(s: ChainState, nav: nat, redeemed: nat) {
    if s.shareSupply == 0 then redeemed == 0
    else Floor(s.totalPendingRedeemShares * (nav + s.totalPendingDeposit), s.shareSupply, redeemed)
  }

  lemma FloorIsOne(product: int, d: int, p: int, q: int)
    requires d > 0 && Floor(product, d, p) && Floor(product, d, q)
    ensures p == q
  {
    MulOrder(p, q + 1, d);
    MulOrder(q, p + 1, d);
    assert (p + 1) * d == p * d + d && (q + 1) * d == q * d + d;
  }

  // The claims a strike prices are the redeemers' share; when every share asks out, all of it.
  lemma RedemptionsArePricedProRata(s: ChainState, nav: u256)
    requires nav + s.totalPendingDeposit < CLAIMS_LIMIT
    ensures ProRata(s, nav, RedeemAssetsOut(s, nav)) && RedeemAssetsOut(s, nav) <= U128_LIMIT * CLAIMS_LIMIT
    ensures s.totalPendingRedeemShares == s.shareSupply > 0 ==>
              RedeemAssetsOut(s, nav) == nav + s.totalPendingDeposit
  {
    var shares, effective := s.totalPendingRedeemShares, nav + s.totalPendingDeposit;
    if s.shareSupply > 0 {
      if shares == 0 {
        MulOrder(0, s.shareSupply, 1);
      } else {
        ProductFits(shares, effective, U128_LIMIT, CLAIMS_LIMIT);
        MulDivFits(shares, effective, s.shareSupply);
        MulBothSides(shares, effective, U128_LIMIT, CLAIMS_LIMIT);
        DivShrinks(shares * effective, s.shareSupply);
      }
      if shares == s.shareSupply {
        FloorIsOne(shares * effective, s.shareSupply, RedeemAssetsOut(s, nav), effective);
      }
    }
  }

  // The shortfall is what those claims lack in the vault.
  lemma ShortfallIs(s: ChainState, nav: u256, redeemed: nat)
    requires nav + s.totalPendingDeposit < CLAIMS_LIMIT && ProRata(s, nav, redeemed)
    ensures RedeemAssetsOut(s, nav) == redeemed
    ensures Shortfall(s, nav) == if s.totalClaimableRedeem + redeemed > s.vaultUsdcBalance
                                 then s.totalClaimableRedeem + redeemed - s.vaultUsdcBalance else 0
  {
    RedemptionsArePricedProRata(s, nav);
    if s.shareSupply > 0 {
      FloorIsOne(s.totalPendingRedeemShares * (nav + s.totalPendingDeposit), s.shareSupply,
                 RedeemAssetsOut(s, nav), redeemed);
    }
  }

  // The vault lacks `short` of everything claimable after the strike.
  ghost predicate Lacks(s: ChainState, nav: u256, redeemed: nat, short: u256) {
    && nav + s.totalPendingDeposit < CLAIMS_LIMIT && ProRata(s, nav, redeemed)
    && 0 < short == s.totalClaimableRedeem + redeemed - s.vaultUsdcBalance
  }

  // With debt a shortfall is answered by one flash-loan unwind, unless the debt has
  // outgrown the collateral; nothing else is done about it then.
  lemma ShortfallIsUnwound(s: ChainState, knobs: Knobs, debt: u256, nav: u256, twap: u256, price: u256)
    requires twap > 0 ==> Mul256(twap, KeepBps(SLIPPAGE_BPS)) > 0
    requires CanSwap(knobs) && Shortfall(s, nav) > 0 && debt > 0
    ensures var priced := PricedCollateral(s.collateral, price);
            BuildActionPlan(s, knobs, debt, nav, twap, price) ==
              if priced <= debt then Success(Empty(s))
              else Success(PlanBuild(DeleverageSteps(SizeUnwind(s.collateral, s.borrowShares, priced, debt, twap,
                                                                Shortfall(s, nav))),
                                     s.blockTimestamp + DEADLINE_SECS))
  {
  }

  // A partial deleverage plan, run at its slippage limit, leaves the vault at or above
  // everything claimable after the strike.
  lemma DeleverageKeepsEscrowFloor(
      s: ChainState, knobs: Knobs, nav: u256, twap: u256, totalAssets: u256, totalShares: u128, redeemed: nat,
      short: u256)
    requires 0 < twap < U128_LIMIT && Mul256(twap, KeepBps(SLIPPAGE_BPS)) > 0
    requires ShareMathFits(s.borrowShares, totalAssets, totalShares)
    requires CanSwap(knobs) && Lacks(s, nav, redeemed, short) && short < SHORTFALL_LIMIT
    requires var debt := BorrowAssetsUp(s.borrowShares, totalAssets, totalShares);
             var priced := PricedCollateral(s.collateral, BoundedPrice(twap));
             && 0 < debt < priced && priced - debt <= WAD
             && CushionPays(short, LeverageBps(priced, priced - debt))
             && SizeUnwind(s.collateral, s.borrowShares, priced, debt, twap, short).proportion < WAD
    ensures var debt := BorrowAssetsUp(s.borrowShares, totalAssets, totalShares);
            var plan := BuildActionPlan(s, knobs, debt, nav, twap, BoundedPrice(twap));
            && plan.Success? && |plan.value.steps| == 1 && plan.value.steps[0].FlashLoan?
            && plan.value.steps[0].sharesToRepay < U128_LIMIT
            && s.vaultUsdcBalance + plan.value.steps[0].minUsdcOut
                 - BorrowAssetsUp(plan.value.steps[0].sharesToRepay, totalAssets, totalShares)
               >= s.totalClaimableRedeem + redeemed
  {
    ShortfallIs(s, nav, redeemed);
    var debt := BorrowAssetsUp(s.borrowShares, totalAssets, totalShares);
    ShortfallIsUnwound(s, knobs, debt, nav, twap, BoundedPrice(twap));
    UnwindCoversShortfall(s.collateral, twap, s.borrowShares, totalAssets, totalShares, short);
  }

  lemma RedemptionPlan(s: ChainState, knobs: Knobs, nav: u256, twap: u256, price: u256)
    requires twap > 0 && Mul256(twap, KeepBps(SLIPPAGE_BPS)) > 0
    requires CanSwap(knobs) && knobs.lltv.Given? && s.collateral > 0 && Shortfall(s, nav) > 0
    requires SizeSpotUnwind(s.collateral, twap, Shortfall(s, nav)).usdeOut > 0
    ensures BuildActionPlan(s, knobs, 0, nav, twap, price) ==
              Success(PlanBuild(RedeemSteps(SizeSpotUnwind(s.collateral, twap, Shortfall(s, nav)), knobs.lltv.value),
                                s.blockTimestamp + DEADLINE_SECS))
  {
  }

  lemma PlayRedeem(book: Book, unwind: SpotUnwind, lltv: u256, oracle: nat)
    requires book.usde == 0 && book.borrowed == 0 && unwind.usdeOut <= book.supplied
    ensures var end := Play(book, RedeemSteps(unwind, lltv), oracle);
            && end.Some?
            && end.value.usdc == book.usdc + unwind.minUsdcOut && end.value.usde == 0
            && end.value.supplied == book.supplied - unwind.usdeOut && end.value.borrowed == 0
            && Allowance(end.value, Usde, Router) == 0
  {
    var steps := RedeemSteps(unwind, lltv);
    var b1 := Execute(book, steps[0], oracle).value;
    var b2 := Execute(b1, steps[1], oracle).value;
    PlayFrom(book, steps, 0, oracle);
    PlayFrom(b1, steps, 1, oracle);
    PlayFrom(b2, steps, 2, oracle);
    assert steps[0..] == steps;
  }

  // The same for a redemption from unlevered collateral that the cap does not cut short.
  lemma RedemptionKeepsEscrowFloor(
      s: ChainState, knobs: Knobs, nav: u256, twap: u256, oracle: nat, redeemed: nat, short: u256)
    requires 0 < twap <= TWAP_LIMIT && Mul256(twap, KeepBps(SLIPPAGE_BPS)) > 0
    requires CanSwap(knobs) && knobs.lltv.Given? && Lacks(s, nav, redeemed, short)
    requires s.collateral > 0 && short < REDEEM_LIMIT
    requires UsdeNeeded(RedeemTarget(short), twap) <= s.collateral
    ensures var plan := BuildActionPlan(s, knobs, 0, nav, twap, BoundedPrice(twap));
            && plan.Success?
            && var end := Play(Unlevered(s), plan.value.steps, oracle);
            && end.Some? && end.value.usde == 0 && end.value.supplied < s.collateral
            && (end.value.usdc >= s.totalClaimableRedeem + redeemed <==> short >= 100)
  {
    ShortfallIs(s, nav, redeemed);
    SomethingIsSold(s.collateral, twap, short);
    RedemptionPlan(s, knobs, nav, twap, BoundedPrice(twap));
    PlayRedeem(Unlevered(s), SizeSpotUnwind(s.collateral, twap, short), knobs.lltv.value, oracle);
    SpotUnwindSuffices(s.collateral, twap, short);
  }

  // ---------------------------------------------------------------- a full exit at the attested NAV

  // The strike's NAV is the attested one, and no more shares ask out than there are.
  ghost predicate AtAttestedNav(s: ChainState, preset: RiskPreset, debt: u256, nav: u256, twap: u256) {
    && AttestedNav(preset, s.collateral, BoundedPrice(twap), debt, s.vaultUsdcBalance, s.totalPendingDeposit,
                   s.totalClaimableRedeem) == Success(nav)
    && s.totalPendingRedeemShares <= s.shareSupply
    && nav + s.totalPendingDeposit < CLAIMS_LIMIT
  }

  lemma RedeemsAtMostNav(s: ChainState, nav: u256)
    requires s.totalPendingRedeemShares <= s.shareSupply && nav + s.totalPendingDeposit < CLAIMS_LIMIT
    ensures RedeemAssetsOut(s, nav) <= nav + s.totalPendingDeposit
  {
    var effective := nav + s.totalPendingDeposit;
    if s.shareSupply > 0 && s.totalPendingRedeemShares > 0 {
      ProductFits(s.totalPendingRedeemShares, effective, U128_LIMIT, CLAIMS_LIMIT);
      MulDivFits(s.totalPendingRedeemShares, effective, s.shareSupply);
      MulBothSides(s.totalPendingRedeemShares, effective, s.shareSupply, effective);
      FloorAtMost(s.totalPendingRedeemShares * effective, s.shareSupply, RedeemAssetsOut(s, nav), effective);
    }
  }

  // All the collateral, sold at the slippage limit, pays debt and claims but for one unit, and
  // that too when its value divides by 200 or the pool pays more than it was priced at.
  lemma ExitPaysClaims(s: ChainState, preset: RiskPreset, debt: u256, nav: u256, twap: u256)
    requires twap <= TWAP_LIMIT && debt < U128_LIMIT && AtAttestedNav(s, preset, debt, nav, twap)
    requires Shortfall(s, nav) > 0
    ensures var owed := s.totalClaimableRedeem + RedeemAssetsOut(s, nav) + debt;
            var paid := s.vaultUsdcBalance + SwapMinUsdcOut(s.collateral, twap, SLIPPAGE_BPS);
            var value := PricedCollateral(s.collateral, BoundedPrice(twap));
            && owed <= paid + 1
            && (value % 200 == 0 || value < PricedCollateral(s.collateral, twap) ==> owed <= paid)
  {
    var price := BoundedPrice(twap);
    HaircutOnlyLowers(preset, s.collateral, price, debt, s.vaultUsdcBalance, s.totalPendingDeposit,
                      s.totalClaimableRedeem);
    RedeemsAtMostNav(s, nav);
    RedemptionsArePricedProRata(s, nav);
    ShortfallIs(s, nav, RedeemAssetsOut(s, nav));
    FullExitPaysNav(s.collateral, twap, debt, s.vaultUsdcBalance, s.totalPendingDeposit, s.totalClaimableRedeem);
  }

  // The case the exit reserve is kept for, at any leverage: at the attested NAV the full
  // deleverage plan leaves the vault at most one unit under everything claimable after the strike.
  lemma FullDeleverageAtNav(
      s: ChainState, preset: RiskPreset, knobs: Knobs, nav: u256, twap: u256, totalAssets: u256, totalShares: u128,
      redeemed: nat, short: u256)
    requires 0 < twap <= TWAP_LIMIT && Mul256(twap, KeepBps(SLIPPAGE_BPS)) > 0
    requires ShareMathFits(s.borrowShares, totalAssets, totalShares) && CanSwap(knobs)
    requires var debt := BorrowAssetsUp(s.borrowShares, totalAssets, totalShares);
             var priced := PricedCollateral(s.collateral, BoundedPrice(twap));
             && AtAttestedNav(s, preset, debt, nav, twap) && Lacks(s, nav, redeemed, short) && 0 < debt < priced
             && SizeUnwind(s.collateral, s.borrowShares, priced, debt, twap, short).proportion == WAD
    ensures var debt := BorrowAssetsUp(s.borrowShares, totalAssets, totalShares);
            var priced := PricedCollateral(s.collateral, BoundedPrice(twap));
            var plan := BuildActionPlan(s, knobs, debt, nav, twap, BoundedPrice(twap));
            && plan.Success? && |plan.value.steps| == 1 && plan.value.steps[0].FlashLoan?
            && plan.value.steps[0].sharesToRepay == s.borrowShares
            && plan.value.steps[0].collateralOut == s.collateral
            && var left := s.vaultUsdcBalance + plan.value.steps[0].minUsdcOut - debt;
            && left + 1 >= s.totalClaimableRedeem + redeemed
            && (priced % 200 == 0 || priced < PricedCollateral(s.collateral, twap) ==>
                  left >= s.totalClaimableRedeem + redeemed)
  {
    ShortfallIs(s, nav, redeemed);
    var debt := BorrowAssetsUp(s.borrowShares, totalAssets, totalShares);
    ShortfallIsUnwound(s, knobs, debt, nav, twap, BoundedPrice(twap));
    PricedFits(s.collateral, BoundedPrice(twap));
    FullUnwindCovers(s.collateral, twap, s.borrowShares, totalAssets, totalShares, short);
    ExitPaysClaims(s, preset, debt, nav, twap);
  }

  // So does a redemption whose sale is capped at the collateral: at the attested NAV the cap
  // does not leave the vault short of its claims by more than that unit.
  lemma CappedRedemptionAtNav(
      s: ChainState, preset: RiskPreset, knobs: Knobs, nav: u256, twap: u256, oracle: nat, redeemed: nat, short: u256)
    requires 0 < twap <= TWAP_LIMIT && Mul256(twap, KeepBps(SLIPPAGE_BPS)) > 0
    requires CanSwap(knobs) && knobs.lltv.Given? && s.collateral > 0
    requires AtAttestedNav(s, preset, 0, nav, twap) && Lacks(s, nav, redeemed, short)
    requires UsdeNeeded(RedeemTarget(short), twap) > s.collateral
    ensures var value := PricedCollateral(s.collateral, BoundedPrice(twap));
            var plan := BuildActionPlan(s, knobs, 0, nav, twap, BoundedPrice(twap));
            && plan.Success?
            && var end := Play(Unlevered(s), plan.value.steps, oracle);
            && end.Some? && end.value.supplied == 0
            && end.value.usdc + 1 >= s.totalClaimableRedeem + redeemed
            && (value % 200 == 0 || value < PricedCollateral(s.collateral, twap) ==>
                  end.value.usdc >= s.totalClaimableRedeem + redeemed)
  {
    ShortfallIs(s, nav, redeemed);
    RedemptionPlan(s, knobs, nav, twap, BoundedPrice(twap));
    PlayRedeem(Unlevered(s), SizeSpotUnwind(s.collateral, twap, short), knobs.lltv.value, oracle);
    ExitPaysClaims(s, preset, 0, nav, twap);
  }
}
