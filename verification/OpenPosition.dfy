/**
 * Sizing of the opening plan in `components/vault-nav/src/nav.rs`, against the leverage
 * the same component measures on the position it opens.
 */
module OpenPosition {
  import opened Words
  import opened Arith
  import opened PlanMath

  datatype Opening = Opening(collateral: u256, borrow: u256)

  function BorrowFor(value: u256, targetBps: u32): u256 {
    if targetBps > BPS then MulDiv(value, targetBps - BPS, targetBps) else 0
  }

  /** Collateral to supply and USDC to borrow for a fresh position at the target leverage. */
  function SizeOpening(usdcAmount: u256, twap: u256, slippage: u32, targetBps: u32): (o: Opening)
    ensures targetBps <= 10_000 ==> o.borrow == 0
  {
    var collateral := SwapMinUsdeOut(usdcAmount, twap, slippage);
    Opening(collateral, BorrowFor(Div256(collateral, TEN12), targetBps))
  }

  lemma ParValue(collateral: u128)
    ensures PricedCollateral(collateral, PAR_PRICE) == collateral / TEN12
  {
    MulDivFits(collateral, PAR_PRICE, TEN36);
    DivIs(collateral * PAR_PRICE, TEN36, collateral / TEN12);
  }

  // The equity left by a floored borrow is the ceiling of value / leverage.
  lemma EquityIsCeiling(value: nat, target: nat, borrow: nat, equity: int)
    requires BPS < target && Floor(value * (target - BPS), target, borrow)
    requires equity == value - borrow
    ensures value * BPS <= equity * target < value * BPS + target
  {
    assert value * (target - BPS) == value * target - value * BPS;
    assert equity * target == value * target - borrow * target;
  }

  lemma RatioAtMostTarget(position: nat, target: nat, equity: nat, ratio: nat)
    requires equity > 0 && position <= equity * target
    requires Floor(position, equity, ratio)
    ensures ratio <= target
    ensures ratio == target <==> position == equity * target
  {
    MulOrder(ratio, target, equity);
    if ratio < target {
      MulOrder(ratio + 1, target, equity);
      assert (ratio + 1) * equity == ratio * equity + equity;
    }
  }

  lemma ExactCeiling(position: nat, target: nat, equity: nat)
    requires target > 0 && position <= equity * target < position + target
    ensures position == equity * target <==> position % target == 0
  {
    var q := position / target;
    DivRange(position, target);
    assert position % target == position - q * target;
    MulOrder(q, equity, target);
    MulOrder(equity, q + 1, target);
    assert (q + 1) * target == q * target + target;
    if position == equity * target {
      DivIs(position, target, equity);
    }
  }

  lemma RatioNearTarget(position: nat, target: nat, equity: nat, ratio: nat)
    requires target >= 1 && equity >= target && equity * target < position + target
    requires Floor(position, equity, ratio)
    ensures target - 1 <= ratio
  {
    assert (target - 1) * equity == equity * target - equity;
    assert (ratio + 1) * equity == ratio * equity + equity;
    MulOrder(target - 1, ratio + 1, equity);
  }

  // A borrow of one USDC at up to 10x leaves an equity no smaller than the leverage in bps.
  lemma EquityIsLarge(value: nat, target: nat, borrow: nat, equity: nat)
    requires BPS < target <= 100_000 && borrow >= 1_000_000
    requires borrow * target <= value * (target - BPS)
    requires value * BPS <= equity * target
    ensures equity >= target
  {
    var over := target - BPS;
    MulOrder(value * BPS, equity * target, over);
    assert value * BPS * over == BPS * (value * over);
    assert equity * target * over == equity * over * target;
    assert BPS * (borrow * target) == BPS * borrow * target;
    MulOrder(BPS * borrow, equity * over, target);
    MulBothSides(equity, over, if equity < target then 99_999 else equity, 90_000);
  }

  lemma OpeningLeverage(value: nat, target: nat, borrow: nat, ratio: nat)
    requires BPS < target <= 100_000 && 1_000_000 <= borrow
    requires Floor(value * (target - BPS), target, borrow)
    requires borrow < value && Floor(value * BPS, value - borrow, ratio)
    ensures target - 1 <= ratio <= target
    ensures ratio == target <==> (value * BPS) % target == 0
  {
    var equity := value - borrow;
    EquityIsCeiling(value, target, borrow, equity);
    RatioAtMostTarget(value * BPS, target, equity, ratio);
    ExactCeiling(value * BPS, target, equity);
    EquityIsLarge(value, target, borrow, equity);
    RatioNearTarget(value * BPS, target, equity, ratio);
  }

  lemma BorrowBelowValue(value: nat, target: nat, borrow: nat)
    requires BPS < target && Floor(value * (target - BPS), target, borrow) && borrow > 0
    ensures borrow < value
  {
    assert value * (target - BPS) == value * target - value * BPS;
    MulOrder(borrow, value, target);
    MulBothSides(1, target, borrow, target);
  }

  lemma DriftBand(ratio: u32, target: u32, borrow: u256)
    requires BPS < target <= 100_000 && target - 1 <= ratio <= target
    ensures LeverageDriftAccepted(ratio, target, 2_500, borrow)
  {
  }

  // At par, for a target up to 10x and a borrow of at least 1 USDC, the leverage measured
  // on the planned position is the target or one bp below, the target exactly when it
  // divides the position, and the drift check accepts it.
  lemma OpeningLandsOnTarget(collateral: u128, target: u32)
    requires BPS < target <= 100_000
    requires BorrowFor(collateral / TEN12, target) >= 1_000_000
    ensures var borrow := BorrowFor(collateral / TEN12, target);
            var measured := MeasuredLeverageBps(collateral, PAR_PRICE, borrow);
            && target - 1 <= measured <= target
            && (measured == target <==> (collateral / TEN12 * BPS) % target == 0)
            && LeverageDriftAccepted(measured, target, 2_500, borrow)
  {
    var value := collateral / TEN12;
    var borrow := BorrowFor(value, target);
    ParValue(collateral);
    ProductFits(value, target - BPS, U128_LIMIT, 0x1_0000_0000);
    MulDivFits(value, target - BPS, target);
    BorrowBelowValue(value, target, borrow);
    MulDivFits(value, BPS, value - borrow);
    OpeningLeverage(value, target, borrow, MulDiv(value, BPS, value - borrow));
    DriftBand(MeasuredLeverageBps(collateral, PAR_PRICE, borrow), target, borrow);
  }

  lemma EquityOfMore(value: nat, held: nat, target: nat, borrow: nat)
    requires BPS < target && value <= held && borrow * target <= value * (target - BPS)
    requires 0 < borrow
    ensures borrow < held && held * BPS <= (held - borrow) * target
  {
    MulBothSides(value, target - BPS, held, target - BPS);
    assert held * (target - BPS) == held * target - held * BPS;
    MulOrder(borrow, held, target);
    MulBothSides(1, target, borrow, target);
    assert (held - borrow) * target == held * target - borrow * target;
  }

  // Collateral already held only lowers the leverage a fresh borrow is read at.
  lemma HeldCollateralLowersLeverage(collateral: u128, more: u128, target: u32)
    requires BPS < target && collateral <= more
    requires BorrowFor(collateral / TEN12, target) > 0
    ensures MeasuredLeverageBps(more, PAR_PRICE, BorrowFor(collateral / TEN12, target)) <= target
  {
    var value, held := collateral / TEN12, more / TEN12;
    var borrow := BorrowFor(value, target);
    ParValue(more);
    ProductFits(value, target - BPS, U128_LIMIT, 0x1_0000_0000);
    MulDivFits(value, target - BPS, target);
    EquityOfMore(value, held, target, borrow);
    MulDivFits(held, BPS, held - borrow);
    RatioAtMostTarget(held * BPS, target, held - borrow, MulDiv(held, BPS, held - borrow));
  }
}
