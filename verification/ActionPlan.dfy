/**
 * `build_action_plan` of `components/vault-nav/src/lib.rs`: which plan a strike emits, and
 * with which steps.
 */
module ActionPlan {
  import opened Wrappers
  import opened Words
  import opened PlanMath
  import opened Deleverage
  import opened Redemption
  import opened OpenPosition

  datatype Party = Usdc | Usde | Morpho | Router

  // The calls a plan may hold, by what they move.
  datatype Step =
    | Approve(token: Party, spender: Party, amount: u256)
    | Swap(tokenIn: Party, tokenOut: Party, amountIn: u256, amountOutMinimum: u256)
    | SupplyCollateral(assets: u256)
    | Borrow(assets: u256, lltv: u256)
    | WithdrawCollateral(assets: u256, lltv: u256)
    | FlashLoan(principal: u256, collateralOut: u256, minUsdcOut: u256, sharesToRepay: u256)

  // The steps, and the time the plan is bound to: the block's, or its deadline.
  datatype PlanBuild = PlanBuild(steps: seq<Step>, timestamp: nat) {
    function Push(step: Step): PlanBuild {
      PlanBuild(steps + [step], timestamp)
    }
  }

  datatype Knob<+T> = Absent | Malformed | Given(value: T)

  datatype PlanError = BadPoolFee | BadMarket | BadLeverage

  // The liquidation LTV stands for the market parameters, which the builders read last.
  datatype Knobs = Knobs(
    swapRouter: Knob<string>, poolFee: Knob<u32>, lltv: Knob<u256>, appliedLeverage: Knob<u32>)

  datatype ChainState = ChainState(
    blockTimestamp: u64, borrowShares: u128, collateral: u128, vaultUsdcBalance: u128, totalPendingDeposit: u128,
    totalClaimableRedeem: u128, totalPendingRedeemShares: u128, shareSupply: u128)

  // ---------------------------------------------------------------- the shortfall

  // What the pending redemptions will claim at this strike.
  function RedeemAssetsOut(s: ChainState, nav: u256): u256 {
    if s.shareSupply == 0 || s.totalPendingRedeemShares == 0 then 0
    else MulDiv(s.totalPendingRedeemShares, Add256(nav, s.totalPendingDeposit), s.shareSupply)
  }

  function PostStrikeClaimable(s: ChainState, nav: u256): u256 {
    Add256(s.totalClaimableRedeem, RedeemAssetsOut(s, nav))
  }

  function Shortfall(s: ChainState, nav: u256): u256 {
    var claimable := PostStrikeClaimable(s, nav);
    if claimable > s.vaultUsdcBalance then claimable - s.vaultUsdcBalance else 0
  }

  // ---------------------------------------------------------------- the plan builders

  function OpeningSteps(usdcAmount: u256, sizes: Opening, lltv: u256): seq<Step> {
    [Approve(Usdc, Router, usdcAmount),
     Swap(Usdc, Usde, usdcAmount, sizes.collateral),
     Approve(Usde, Morpho, sizes.collateral),
     SupplyCollateral(sizes.collateral)]
    + if sizes.borrow == 0 then [] else [Borrow(sizes.borrow, lltv)]
  }

  method PlanOpenPosition(usdcAmount: u256, twap: u256, slippage: u32, targetBps: u32, lltv: u256, deadline: nat)
    returns (plan: PlanBuild)
    ensures plan == PlanBuild(OpeningSteps(usdcAmount, SizeOpening(usdcAmount, twap, slippage, targetBps), lltv),
                              deadline)
  {
    var minUsdeOut := SwapMinUsdeOut(usdcAmount, twap, slippage);
    var borrowUsdc := BorrowFor(Div256(minUsdeOut, TEN12), targetBps);
    plan := PlanBuild([], deadline);
    plan := plan.Push(Approve(Usdc, Router, usdcAmount));
    plan := plan.Push(Swap(Usdc, Usde, usdcAmount, minUsdeOut));
    plan := plan.Push(Approve(Usde, Morpho, minUsdeOut));
    plan := plan.Push(SupplyCollateral(minUsdeOut));
    if borrowUsdc != 0 {
      plan := plan.Push(Borrow(borrowUsdc, lltv));
    }
  }

  function DeleverageSteps(unwind: Unwind): seq<Step> {
    [FlashLoan(unwind.debtRepay, unwind.collateralOut, unwind.minUsdcOut, unwind.sharesToRepay)]
  }

  function RedeemSteps(unwind: SpotUnwind, lltv: u256): seq<Step> {
    [WithdrawCollateral(unwind.usdeOut, lltv),
     Approve(Usde, Router, unwind.usdeOut),
     Swap(Usde, Usdc, unwind.usdeOut, unwind.minUsdcOut)]
  }

  method PlanDeleverage(unwind: Unwind, deadline: nat) returns (plan: PlanBuild)
    ensures plan == PlanBuild(DeleverageSteps(unwind), deadline)
  {
    plan := PlanBuild([], deadline);
    plan := plan.Push(FlashLoan(unwind.debtRepay, unwind.collateralOut, unwind.minUsdcOut, unwind.sharesToRepay));
  }

  method PlanRedeemCollateral(usdeOut: u256, minUsdcOut: u256, lltv: u256, deadline: nat) returns (plan: PlanBuild)
    ensures plan == PlanBuild(RedeemSteps(SpotUnwind(usdeOut, minUsdcOut), lltv), deadline)
  {
    plan := PlanBuild([], deadline);
    plan := plan.Push(WithdrawCollateral(usdeOut, lltv));
    plan := plan.Push(Approve(Usde, Router, usdeOut));
    plan := plan.Push(Swap(Usde, Usdc, usdeOut, minUsdcOut));
  }

  // ---------------------------------------------------------------- the decision

  const ONE_USDC: nat := 1_000_000
  const DEADLINE_SECS: nat := 300

  function Empty(s: ChainState): PlanBuild {
    PlanBuild([], s.blockTimestamp)
  }

  function Usable(s: ChainState, nav: u256): u256 {
    if nav < s.vaultUsdcBalance then nav else s.vaultUsdcBalance
  }

  /**
   * The plan of this strike. `twap` is the pool price and `price` the valuation price;
   * dividing by a zero product of the two is the arithmetic fault the source would meet.
   */
  function BuildActionPlan(
      s: ChainState, knobs: Knobs, debt: u256, nav: u256, twap: u256, price: u256)
    : Result<PlanBuild, PlanError>
    requires twap > 0 ==> Mul256(twap, KeepBps(SLIPPAGE_BPS)) > 0
  {
    if !knobs.swapRouter.Given? then Success(Empty(s))
    else if knobs.poolFee.Malformed? then Failure(BadPoolFee)
    else if knobs.poolFee.Absent? then Success(Empty(s))
    else
      var shortfall := Shortfall(s, nav);
      if shortfall > 0 && debt > 0 then
        var priced := PricedCollateral(s.collateral, price);
        if priced <= debt then Success(Empty(s))
        else
          var unwind := SizeUnwind(s.collateral, s.borrowShares, priced, debt, twap, shortfall);
          Success(PlanBuild(DeleverageSteps(unwind), s.blockTimestamp + DEADLINE_SECS))
      else if shortfall > 0 && s.collateral > 0 then
        if twap == 0 then Success(Empty(s))
        else
          var unwind := SizeSpotUnwind(s.collateral, twap, shortfall);
          if unwind.usdeOut == 0 then Success(Empty(s))
          else if !knobs.lltv.Given? then Failure(BadMarket)
          else Success(PlanBuild(RedeemSteps(unwind, knobs.lltv.value), s.blockTimestamp + DEADLINE_SECS))
      else if s.totalPendingRedeemShares != 0 then Success(Empty(s))
      else if knobs.appliedLeverage.Malformed? then Failure(BadLeverage)
      else if knobs.appliedLeverage.Absent? || knobs.appliedLeverage.value <= BPS then Success(Empty(s))
      else if debt > 0 then Success(Empty(s))
      else
        var usable := Usable(s, nav);
        if usable < ONE_USDC then Success(Empty(s))
        else
          var deploy := MulDiv(usable, 99, 100);
          if deploy < ONE_USDC then Success(Empty(s))
          else if !knobs.lltv.Given? then Failure(BadMarket)
          else
            var sizes := SizeOpening(deploy, twap, SLIPPAGE_BPS, knobs.appliedLeverage.value);
            Success(PlanBuild(OpeningSteps(deploy, sizes, knobs.lltv.value), s.blockTimestamp + DEADLINE_SECS))
  }

  // The decision with its early returns and the builders it calls.
  method EmitActionPlan(s: ChainState, knobs: Knobs, debt: u256, nav: u256, twap: u256, price: u256)
    returns (r: Result<PlanBuild, PlanError>)
    requires twap > 0 ==> Mul256(twap, KeepBps(SLIPPAGE_BPS)) > 0
    ensures r == BuildActionPlan(s, knobs, debt, nav, twap, price)
  {
    if !knobs.swapRouter.Given? { return Success(Empty(s)); }
    if knobs.poolFee.Malformed? { return Failure(BadPoolFee); }
    if knobs.poolFee.Absent? { return Success(Empty(s)); }
    var shortfall, deadline := Shortfall(s, nav), s.blockTimestamp + DEADLINE_SECS;
    if shortfall > 0 && debt > 0 {
      var priced := PricedCollateral(s.collateral, price);
      if priced <= debt { return Success(Empty(s)); }
      var plan := PlanDeleverage(SizeUnwind(s.collateral, s.borrowShares, priced, debt, twap, shortfall), deadline);
      return Success(plan);
    }
    if shortfall > 0 && s.collateral > 0 {
      if twap == 0 { return Success(Empty(s)); }
      var unwind := SizeSpotUnwind(s.collateral, twap, shortfall);
      if unwind.usdeOut == 0 { return Success(Empty(s)); }
      if !knobs.lltv.Given? { return Failure(BadMarket); }
      var plan := PlanRedeemCollateral(unwind.usdeOut, unwind.minUsdcOut, knobs.lltv.value, deadline);
      return Success(plan);
    }
    if s.totalPendingRedeemShares != 0 { return Success(Empty(s)); }
    if knobs.appliedLeverage.Malformed? { return Failure(BadLeverage); }
    if knobs.appliedLeverage.Absent? || knobs.appliedLeverage.value <= BPS || debt > 0 { return Success(Empty(s)); }
    var usable := Usable(s, nav);
    if usable < ONE_USDC { return Success(Empty(s)); }
    var deploy := MulDiv(usable, 99, 100);
    if deploy < ONE_USDC { return Success(Empty(s)); }
    if !knobs.lltv.Given? { return Failure(BadMarket); }
    var plan := PlanOpenPosition(deploy, twap, SLIPPAGE_BPS, knobs.appliedLeverage.value, knobs.lltv.value, deadline);
    return Success(plan);
  }

  predicate LeversUp(step: Step) {
    step.SupplyCollateral? || step.Borrow?
  }

  predicate Frees(step: Step) {
    step.FlashLoan? || step.WithdrawCollateral?
  }

  // The plans by the steps that tell them apart.
  predicate Opens(plan: PlanBuild) {
    exists step :: step in plan.steps && LeversUp(step)
  }

  predicate Deleverages(plan: PlanBuild) {
    exists step :: step in plan.steps && step.FlashLoan?
  }

  predicate Redeems(plan: PlanBuild) {
    exists step :: step in plan.steps && step.WithdrawCollateral?
  }

  // No strike levers up while a redemption is pending, a shortfall is being covered or
  // debt is outstanding, and no strike both frees and deploys capital.
  lemma NeverLeversAgainstRedemptions(
      s: ChainState, knobs: Knobs, debt: u256, nav: u256, twap: u256, price: u256, plan: PlanBuild)
    requires twap > 0 ==> Mul256(twap, KeepBps(SLIPPAGE_BPS)) > 0
    requires BuildActionPlan(s, knobs, debt, nav, twap, price) == Success(plan)
    ensures Opens(plan) ==>
              && s.totalPendingRedeemShares == 0 && debt == 0
              && (Shortfall(s, nav) > 0 ==> s.collateral == 0)
              && (forall step | step in plan.steps :: !Frees(step))
    ensures (exists step :: step in plan.steps && Frees(step)) ==> Shortfall(s, nav) > 0
  {
  }

  // ---------------------------------------------------------------- which plan a strike owes

  predicate CanSwap(knobs: Knobs) {
    knobs.swapRouter.Given? && knobs.poolFee.Given?
  }

  // Nothing is left to free: no shortfall, or nothing that could cover it.
  ghost predicate NothingToFree(s: ChainState, debt: u256, nav: u256) {
    Shortfall(s, nav) == 0 || (debt == 0 && s.collateral == 0)
  }

  ghost predicate OwesDeleverage(s: ChainState, knobs: Knobs, debt: u256, nav: u256, price: u256) {
    CanSwap(knobs) && Shortfall(s, nav) > 0 && 0 < debt < PricedCollateral(s.collateral, price)
  }

  ghost predicate OwesRedemption(s: ChainState, knobs: Knobs, debt: u256, nav: u256, twap: u256)
    requires twap > 0 ==> Mul256(twap, KeepBps(SLIPPAGE_BPS)) > 0
  {
    && CanSwap(knobs) && Shortfall(s, nav) > 0 && debt == 0 && s.collateral > 0
    && twap > 0 && UsdeNeeded(RedeemTarget(Shortfall(s, nav)), twap) > 0
  }

  // 1_010_102 is the least balance 99% of which is a whole USDC.
  ghost predicate OwesOpening(s: ChainState, knobs: Knobs, debt: u256, nav: u256) {
    && CanSwap(knobs) && NothingToFree(s, debt, nav) && s.totalPendingRedeemShares == 0
    && knobs.appliedLeverage.Given? && knobs.appliedLeverage.value > 10_000
    && debt == 0 && nav >= 1_010_102 && s.vaultUsdcBalance >= 1_010_102
  }

  lemma WorthOpening(usable: u128)
    ensures usable >= 1_010_102 <==> usable >= ONE_USDC && MulDiv(usable, 99, 100) >= ONE_USDC
  {
    MulDivFits(usable, 99, 100);
  }

  // A strike frees, sells or opens exactly when it owes that, fails exactly on a knob that is
  // there but unreadable where it is read, and otherwise has nothing to do.
  lemma PlansAreOwed(s: ChainState, knobs: Knobs, debt: u256, nav: u256, twap: u256, price: u256)
    requires twap > 0 ==> Mul256(twap, KeepBps(SLIPPAGE_BPS)) > 0
    ensures var r := BuildActionPlan(s, knobs, debt, nav, twap, price);
            var sells, opens := OwesRedemption(s, knobs, debt, nav, twap), OwesOpening(s, knobs, debt, nav);
            && (r == Failure(BadPoolFee) <==> knobs.swapRouter.Given? && knobs.poolFee.Malformed?)
            && (r == Failure(BadLeverage) <==> CanSwap(knobs) && NothingToFree(s, debt, nav)
                                               && s.totalPendingRedeemShares == 0 && knobs.appliedLeverage.Malformed?)
            && (r == Failure(BadMarket) <==> (sells || opens) && !knobs.lltv.Given?)
            && (r.Success? ==>
                  && (Deleverages(r.value) <==> OwesDeleverage(s, knobs, debt, nav, price))
                  && (Redeems(r.value) <==> sells) && (Opens(r.value) <==> opens)
                  && (r.value.steps == [] <==> !Deleverages(r.value) && !Redeems(r.value) && !Opens(r.value))
                  && r.value.timestamp == s.blockTimestamp + if r.value.steps == [] then 0 else 300)
  {
    WorthOpening(if nav < s.vaultUsdcBalance then nav else s.vaultUsdcBalance);
    var r := BuildActionPlan(s, knobs, debt, nav, twap, price);
    assert r.Success? && |r.value.steps| >= 4 ==> LeversUp(r.value.steps[3]);
    assert r.Success? && r.value.steps != [] ==> r.value.steps[0] in r.value.steps;
  }
}
