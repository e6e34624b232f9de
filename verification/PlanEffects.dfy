/**
 * What the plans of `components/vault-nav/src/lib.rs` do to the vault's book, and what the
 * opening plan leaves: its position against the configured leverage and the market's
 * liquidation LTV, and its USDC against what redeemers may claim.
 */
module PlanEffects {
  import opened Wrappers
  import opened Words
  import opened Arith
  import opened DebtMath
  import opened PlanMath
  import opened Redemption
  import opened OpenPosition
  import opened ActionPlan

  // ---------------------------------------------------------------- what a plan does

  // The vault's own balances, its position, and what it has allowed others to take.
  datatype Book = Book(usdc: nat, usde: nat, supplied: nat, borrowed: nat, allowed: map<(Party, Party), nat>)

  function Holds(book: Book, token: Party): nat {
    if token == Usdc then book.usdc else if token == Usde then book.usde else 0
  }

  function Allowance(book: Book, token: Party, spender: Party): nat {
    if (token, spender) in book.allowed then book.allowed[(token, spender)] else 0
  }

  // A spender takes tokens it was allowed and the vault holds.
  function Taken(book: Book, token: Party, spender: Party, amount: nat): Option<Book> {
    if Holds(book, token) < amount || Allowance(book, token, spender) < amount then None
    else
      var left := book.(allowed := book.allowed[(token, spender) := Allowance(book, token, spender) - amount]);
      if token == Usdc then Some(left.(usdc := book.usdc - amount))
      else if token == Usde then Some(left.(usde := book.usde - amount))
      else Some(left)
  }

  // The market lends up to its liquidation LTV of the collateral at its own oracle's price,
  // in the units of `PAR_PRICE`, rounding down twice.
  function MaxBorrow(supplied: nat, oracle: nat, lltv: nat): nat {
    DivShrinks(supplied * oracle, TEN36);
    DivShrinks(supplied * oracle / TEN36 * lltv, WAD);
    supplied * oracle / TEN36 * lltv / WAD
  }

  predicate Healthy(book: Book, oracle: nat, lltv: nat) {
    book.borrowed == 0 || book.borrowed <= MaxBorrow(book.supplied, oracle, lltv)
  }

  function IfHealthy(book: Book, oracle: nat, lltv: nat): Option<Book> {
    if Healthy(book, oracle, lltv) then Some(book) else None
  }

  // A call's effect, a swap filling at its minimum; none if it reverts. The vault's flash-loan
  // callback and the market's liquidity are not part of this model.
  function Execute(book: Book, step: Step, oracle: nat): Option<Book> {
    match step
    case Approve(token, spender, amount) => Some(book.(allowed := book.allowed[(token, spender) := amount]))
    case Swap(tokenIn, tokenOut, amountIn, minimum) =>
      (match Taken(book, tokenIn, Router, amountIn)
       case None => None
       case Some(paid) =>
         if tokenOut == Usdc then Some(paid.(usdc := paid.usdc + minimum))
         else Some(paid.(usde := paid.usde + minimum)))
    case SupplyCollateral(assets) =>
      (match Taken(book, Usde, Morpho, assets)
       case None => None
       case Some(paid) => Some(paid.(supplied := paid.supplied + assets)))
    case Borrow(assets, lltv) =>
      IfHealthy(book.(usdc := book.usdc + assets, borrowed := book.borrowed + assets), oracle, lltv)
    case WithdrawCollateral(assets, lltv) =>
      if book.supplied < assets then None
      else IfHealthy(book.(supplied := book.supplied - assets, usde := book.usde + assets), oracle, lltv)
    case FlashLoan(_, _, _, _) => None
  }

  // A spender gets only what the vault holds and has approved to it.
  lemma OnlyApprovedIsTaken(book: Book, token: Party, spender: Party, amount: nat)
    requires amount > 0 && Taken(book, token, spender, amount).Some?
    ensures (token, spender) in book.allowed && amount <= book.allowed[(token, spender)]
    ensures token == Usdc ==> Taken(book, token, spender, amount).value.usdc == book.usdc - amount >= 0
    ensures token == Usde ==> Taken(book, token, spender, amount).value.usde == book.usde - amount >= 0
  {
  }

  function Play(book: Book, steps: seq<Step>, oracle: nat): Option<Book>
    decreases |steps|
  {
    if steps == [] then Some(book)
    else match Execute(book, steps[0], oracle)
      case None => None
      case Some(next) => Play(next, steps[1..], oracle)
  }

  // The vault before an unlevered strike.
  function Unlevered(s: ChainState): Book {
    Book(s.vaultUsdcBalance, 0, s.collateral, 0, map[])
  }

  // The amount an opening plan swaps, 99% of what is usable.
  function Spent(s: ChainState, nav: u256): u256 {
    MulDiv(Usable(s, nav), 99, 100)
  }

  function Target(knobs: Knobs): u32 {
    if knobs.appliedLeverage.Given? then knobs.appliedLeverage.value else 0
  }

  function OpeningSizes(s: ChainState, knobs: Knobs, nav: u256, twap: u256): Opening {
    SizeOpening(Spent(s, nav), twap, SLIPPAGE_BPS, Target(knobs))
  }

  lemma SpentIsFloor(s: ChainState, nav: u256)
    ensures Floor(Usable(s, nav) * 99, 100, Spent(s, nav)) && Spent(s, nav) <= Usable(s, nav) <= s.vaultUsdcBalance
  {
    MulDivFits(Usable(s, nav), 99, 100);
  }

  // The strike emits this opening plan.
  ghost predicate Emits(s: ChainState, knobs: Knobs, debt: u256, nav: u256, twap: u256, price: u256, plan: PlanBuild) {
    && (twap > 0 ==> Mul256(twap, KeepBps(SLIPPAGE_BPS)) > 0)
    && BuildActionPlan(s, knobs, debt, nav, twap, price) == Success(plan) && Opens(plan)
  }

  lemma OpensWithSizes(s: ChainState, knobs: Knobs, debt: u256, nav: u256, twap: u256, price: u256, plan: PlanBuild)
    requires Emits(s, knobs, debt, nav, twap, price, plan)
    ensures Target(knobs) > BPS && knobs.lltv.Given? && debt == 0 && s.totalPendingRedeemShares == 0
    ensures plan.steps == OpeningSteps(Spent(s, nav), OpeningSizes(s, knobs, nav, twap), knobs.lltv.value)
  {
  }

  // The vault's book after an opening plan.
  ghost predicate HasOpened(s: ChainState, spent: nat, sizes: Opening, end: Book) {
    && end.usdc == s.vaultUsdcBalance - spent + sizes.borrow && end.usde == 0
    && end.supplied == s.collateral + sizes.collateral && end.borrowed == sizes.borrow
    && Allowance(end, Usdc, Router) == 0 == Allowance(end, Usde, Morpho)
  }

  predicate BorrowAllowed(supplied: nat, borrow: nat, oracle: nat, lltv: nat) {
    borrow == 0 || borrow <= MaxBorrow(supplied, oracle, lltv)
  }

  lemma PlayOpening(s: ChainState, spent: u256, sizes: Opening, lltv: u256, oracle: nat)
    requires spent <= s.vaultUsdcBalance
    ensures var end := Play(Unlevered(s), OpeningSteps(spent, sizes, lltv), oracle);
            && (end.Some? <==> BorrowAllowed(s.collateral + sizes.collateral, sizes.borrow, oracle, lltv))
            && (end.Some? ==> HasOpened(s, spent, sizes, end.value))
  {
    var steps := OpeningSteps(spent, sizes, lltv);
    var b1 := Execute(Unlevered(s), steps[0], oracle).value;
    var b2 := Execute(b1, steps[1], oracle).value;
    var b3 := Execute(b2, steps[2], oracle).value;
    var b4 := Execute(b3, steps[3], oracle).value;
    PlayFour(Unlevered(s), steps, oracle);
    if sizes.borrow > 0 {
      assert steps[4..] == [Borrow(sizes.borrow, lltv)];
      PlayOne(b4, Borrow(sizes.borrow, lltv), oracle);
    } else {
      assert steps[4..] == [];
    }
  }

  lemma PlayOne(book: Book, step: Step, oracle: nat)
    ensures Play(book, [step], oracle) == Execute(book, step, oracle)
  {
  }

  lemma PlayFour(book: Book, steps: seq<Step>, oracle: nat)
    requires |steps| >= 4
    requires Execute(book, steps[0], oracle).Some?
    requires var b1 := Execute(book, steps[0], oracle).value; Execute(b1, steps[1], oracle).Some?
    requires var b2 := Execute(Execute(book, steps[0], oracle).value, steps[1], oracle).value;
             Execute(b2, steps[2], oracle).Some?
    requires var b2 := Execute(Execute(book, steps[0], oracle).value, steps[1], oracle).value;
             var b3 := Execute(b2, steps[2], oracle).value;
             Execute(b3, steps[3], oracle).Some?
    ensures var b2 := Execute(Execute(book, steps[0], oracle).value, steps[1], oracle).value;
            var b3 := Execute(b2, steps[2], oracle).value;
            Play(book, steps, oracle) == Play(Execute(b3, steps[3], oracle).value, steps[4..], oracle)
  {
    var b1 := Execute(book, steps[0], oracle).value;
    var b2 := Execute(b1, steps[1], oracle).value;
    var b3 := Execute(b2, steps[2], oracle).value;
    PlayFrom(book, steps, 0, oracle);
    PlayFrom(b1, steps, 1, oracle);
    PlayFrom(b2, steps, 2, oracle);
    PlayFrom(b3, steps, 3, oracle);
    assert steps[0..] == steps;
  }

  lemma PlayFrom(book: Book, steps: seq<Step>, i: nat, oracle: nat)
    requires i < |steps| && Execute(book, steps[i], oracle).Some?
    ensures Play(book, steps[i..], oracle) == Play(Execute(book, steps[i], oracle).value, steps[i + 1..], oracle)
  {
    assert steps[i..][1..] == steps[i + 1..];
  }

  // ---------------------------------------------------------------- the opening plan

  // No step of an opening plan lacks tokens or allowance: it runs exactly when the market lends
  // the borrow it asks for. Then it has spent what it was to spend, used up every allowance it
  // gave and holds no USDe back.
  lemma OpeningPlanRuns(
      s: ChainState, knobs: Knobs, debt: u256, nav: u256, twap: u256, price: u256, plan: PlanBuild, oracle: nat)
    requires Emits(s, knobs, debt, nav, twap, price, plan)
    ensures knobs.lltv.Given?
    ensures var end := Play(Unlevered(s), plan.steps, oracle);
            var sizes := OpeningSizes(s, knobs, nav, twap);
            && (end.Some? <==> BorrowAllowed(s.collateral + sizes.collateral, sizes.borrow, oracle, knobs.lltv.value))
            && (end.Some? ==> HasOpened(s, Spent(s, nav), sizes, end.value))
  {
    OpensWithSizes(s, knobs, debt, nav, twap, price, plan);
    SpentIsFloor(s, nav);
    PlayOpening(s, Spent(s, nav), OpeningSizes(s, knobs, nav, twap), knobs.lltv.value, oracle);
  }

  // ---------------------------------------------------------------- the market's guard

  lemma MaxBorrowIs(supplied: nat, oracle: nat, lltv: nat, borrow: nat)
    ensures borrow <= MaxBorrow(supplied, oracle, lltv) <==> borrow * WAD <= supplied * oracle / TEN36 * lltv
  {
    DivShrinks(supplied * oracle, TEN36);
    DivAtLeast(supplied * oracle / TEN36 * lltv, WAD, borrow);
  }

  // What the oracle counts is at least, and for no other collateral at most, the value at par.
  lemma CountedValue(supplied: nat, collateral: nat, oracle: nat)
    requires collateral <= supplied
    ensures oracle >= PAR_PRICE ==> collateral / TEN12 <= supplied * oracle / TEN36
    ensures oracle <= PAR_PRICE && supplied == collateral ==> supplied * oracle / TEN36 <= collateral / TEN12
  {
    DivDiv(supplied * PAR_PRICE, PAR_PRICE, TEN12);
    DivIs(supplied * PAR_PRICE, PAR_PRICE, supplied);
    DivMonotone(collateral, supplied, TEN12);
    if oracle >= PAR_PRICE {
      MulBothSides(supplied, PAR_PRICE, supplied, oracle);
      DivMonotone(supplied * PAR_PRICE, supplied * oracle, TEN36);
    }
    if oracle <= PAR_PRICE {
      MulBothSides(supplied, oracle, supplied, PAR_PRICE);
      DivMonotone(supplied * oracle, supplied * PAR_PRICE, TEN36);
    }
  }

  lemma WithinLltv(value: nat, counted: nat, target: nat, lltv: nat, borrow: nat)
    requires target > BPS && borrow * target <= value * (target - BPS) && value <= counted
    requires (target - BPS) * WAD <= lltv * target
    ensures borrow * WAD <= counted * lltv
  {
    MulBothSides(value, (target - BPS) * WAD, counted, lltv * target);
    MulBothSides(borrow * target, WAD, value * (target - BPS), WAD);
    assert value * (target - BPS) * WAD == value * ((target - BPS) * WAD);
    assert borrow * target * WAD == borrow * WAD * target && counted * (lltv * target) == counted * lltv * target;
    MulOrder(borrow * WAD, counted * lltv, target);
  }

  lemma BeyondLltv(value: nat, counted: nat, target: nat, lltv: nat, borrow: nat)
    requires target > BPS && value * (target - BPS) < borrow * target + target && counted <= value
    requires value * ((target - BPS) * WAD - lltv * target) >= target * WAD
    ensures borrow * WAD > counted * lltv
  {
    var over := (target - BPS) * WAD;
    MulOrder(value * (target - BPS), borrow * target + target, WAD);
    MulBothSides(counted, lltv, value, lltv);
    assert value * (over - lltv * target) == value * over - value * (lltv * target);
    assert value * (target - BPS) * WAD == value * over && value * (lltv * target) == value * lltv * target;
    assert (borrow * target + target) * WAD == borrow * WAD * target + target * WAD;
    MulOrder(value * lltv, borrow * WAD, target);
  }

  lemma BorrowIsFloor(collateral: u128, target: u32)
    requires target > BPS
    ensures Floor(collateral / TEN12 * (target - BPS), target, BorrowFor(collateral / TEN12, target))
  {
    ProductFits(collateral / TEN12, target - BPS, U128_LIMIT, 0x1_0000_0000);
    MulDivFits(collateral / TEN12, target - BPS, target);
  }

  // Whether the market lends is decided by the configured leverage: at an oracle price of par or
  // more, a leverage whose debt share is within the liquidation LTV always gets its borrow.
  // At par or less, for a vault that held nothing, one past it by more than the rounding never does.
  lemma MarketLends(
      s: ChainState, knobs: Knobs, debt: u256, nav: u256, twap: u256, price: u256, plan: PlanBuild, oracle: nat)
    requires Emits(s, knobs, debt, nav, twap, price, plan)
    requires OpeningSizes(s, knobs, nav, twap).collateral < U128_LIMIT
    ensures knobs.lltv.Given? && Target(knobs) > BPS
    ensures oracle >= PAR_PRICE && (Target(knobs) - BPS) * WAD <= knobs.lltv.value * Target(knobs) ==>
              Play(Unlevered(s), plan.steps, oracle).Some?
    ensures var value := OpeningSizes(s, knobs, nav, twap).collateral / TEN12;
            oracle <= PAR_PRICE && s.collateral == 0
            && value * ((Target(knobs) - BPS) * WAD - knobs.lltv.value * Target(knobs)) >= Target(knobs) * WAD ==>
              Play(Unlevered(s), plan.steps, oracle).None?
  {
    OpeningPlanRuns(s, knobs, debt, nav, twap, price, plan, oracle);
    OpensWithSizes(s, knobs, debt, nav, twap, price, plan);
    SizesAgainstMarket(s.collateral, Spent(s, nav), twap, Target(knobs), knobs.lltv.value, oracle);
  }

  lemma SizesAgainstMarket(held: u128, spent: u256, twap: u256, target: u32, lltv: u256, oracle: nat)
    requires target > BPS && SizeOpening(spent, twap, SLIPPAGE_BPS, target).collateral < U128_LIMIT
    ensures var sizes := SizeOpening(spent, twap, SLIPPAGE_BPS, target);
            oracle >= PAR_PRICE && (target - BPS) * WAD <= lltv * target ==>
              BorrowAllowed(held + sizes.collateral, sizes.borrow, oracle, lltv)
    ensures var sizes := SizeOpening(spent, twap, SLIPPAGE_BPS, target);
            oracle <= PAR_PRICE && held == 0
            && sizes.collateral / TEN12 * ((target - BPS) * WAD - lltv * target) >= target * WAD ==>
              !BorrowAllowed(held + sizes.collateral, sizes.borrow, oracle, lltv)
  {
    var sizes := SizeOpening(spent, twap, SLIPPAGE_BPS, target);
    var supplied, value := held + sizes.collateral, sizes.collateral / TEN12;
    var counted := supplied * oracle / TEN36;
    BorrowIsFloor(sizes.collateral, target);
    MaxBorrowIs(supplied, oracle, lltv, sizes.borrow);
    CountedValue(supplied, sizes.collateral, oracle);
    if oracle >= PAR_PRICE && (target - BPS) * WAD <= lltv * target {
      WithinLltv(value, counted, target, lltv, sizes.borrow);
    }
    if oracle <= PAR_PRICE && held == 0 && value * ((target - BPS) * WAD - lltv * target) >= target * WAD {
      DivShrinks(supplied * oracle, TEN36);
      BeyondLltv(value, counted, target, lltv, sizes.borrow);
    }
  }

  // ---------------------------------------------------------------- the leverage it leaves

  lemma SizesReadAtTarget(spent: u256, twap: u256, target: u32, held: u128)
    requires BPS < target && held + SizeOpening(spent, twap, SLIPPAGE_BPS, target).collateral < U128_LIMIT
    ensures var sizes := SizeOpening(spent, twap, SLIPPAGE_BPS, target);
            ReadAtTarget(held, held + sizes.collateral, sizes.borrow, target)
  {
    var sizes := SizeOpening(spent, twap, SLIPPAGE_BPS, target);
    if sizes.borrow > 0 {
      HeldCollateralLowersLeverage(sizes.collateral, held + sizes.collateral, target);
    }
    if held == 0 && target <= 100_000 && sizes.borrow >= ONE_USDC {
      OpeningLandsOnTarget(sizes.collateral, target);
    }
  }

  // What the next cycle reads at par: at most the target, and for a fresh position the target
  // or one bp below, which its drift check accepts.
  predicate ReadAtTarget(held: nat, supplied: u128, borrowed: u256, target: u32)
    requires target > BPS
  {
    var measured := MeasuredLeverageBps(supplied, PAR_PRICE, borrowed);
    && measured <= target
    && (held == 0 && target <= 100_000 && borrowed >= ONE_USDC ==>
          && target - 1 <= measured
          && (measured == target <==> (supplied / TEN12 * BPS) % target == 0))
    && (held == 0 && target <= 100_000 ==> LeverageDriftAccepted(measured, target, 2_500, borrowed))
  }

  // The position the emitted plan leaves is never read above the configured leverage at par;
  // a fresh one is read at it or one bp below, and the drift check of the next cycle passes.
  lemma OpeningPlanLandsOnTarget(
      s: ChainState, knobs: Knobs, debt: u256, nav: u256, twap: u256, price: u256, plan: PlanBuild, oracle: nat,
      end: Book)
    requires Emits(s, knobs, debt, nav, twap, price, plan)
    requires Play(Unlevered(s), plan.steps, oracle) == Some(end)
    requires end.supplied < U128_LIMIT && end.borrowed < U256_LIMIT
    ensures Target(knobs) > BPS && ReadAtTarget(s.collateral, end.supplied, end.borrowed, Target(knobs))
  {
    OpensWithSizes(s, knobs, debt, nav, twap, price, plan);
    OpeningPlanRuns(s, knobs, debt, nav, twap, price, plan, oracle);
    SizesReadAtTarget(Spent(s, nav), twap, Target(knobs), s.collateral);
  }

  // ---------------------------------------------------------------- the opening plan and the claims

  lemma FloorRoom(usable: nat, spent: nat, free: int)
    requires Floor(usable * 99, 100, spent)
    ensures spent <= free <==> usable * 99 < 100 * (free + 1)
  {
  }

  // The least USDe, before slippage, whose position borrows m at the target leverage.
  function UsdeFor(m: nat, target: nat): nat
    requires target > BPS
  {
    CeilDiv(CeilDiv(m * target, target - BPS) * TEN12 * BPS, 9_950)
  }

  lemma FloorAbove(product: int, d: int, q: int, m: int)
    requires d > 0 && Floor(product, d, q)
    ensures q >= m <==> m * d <= product
  {
    MulOrder(m, q, d);
    MulOrder(q + 1, m, d);
    assert (q + 1) * d == q * d + d;
  }

  lemma FloorShrinks(product: nat, d: nat, q: nat, bound: nat)
    requires BPS <= d && Floor(product, d, q) && product <= bound * BPS
    ensures q <= bound
  {
    MulBothSides(q, BPS, q, d);
    MulOrder(q, bound, BPS);
  }

  const QUOTED_LIMIT: nat := U128_LIMIT * (TEN36 / BPS)

  lemma ValueReaches(value: nat, over: nat, target: nat, borrow: nat, m: nat)
    requires over > 0 && target > 0 && Floor(value * over, target, borrow)
    ensures borrow >= m <==> value >= CeilDiv(m * target, over)
  {
    FloorAbove(value * over, target, borrow, m);
    CeilAtMost(m * target, over, value);
  }

  lemma UsdeReaches(usde: nat, collateral: nat, value: nat, v: nat)
    requires Floor(usde * 9_950, BPS, collateral) && Floor(collateral, TEN12, value)
    ensures value >= v <==> usde >= CeilDiv(v * TEN12 * BPS, 9_950)
  {
    FloorAbove(collateral, TEN12, value, v);
    FloorAbove(usde * 9_950, BPS, collateral, v * TEN12);
    CeilAtMost(v * TEN12 * BPS, 9_950, usde);
  }

  // The borrow reaches m exactly when the spend buys that much.
  lemma BorrowReaches(spent: u256, twap: u256, target: u32, m: nat)
    requires BPS <= twap && BPS < target && spent < U128_LIMIT
    ensures SizeOpening(spent, twap, SLIPPAGE_BPS, target).borrow >= m <==> UsdeFor(m, target) * twap <= spent * TEN36
  {
    var usde, collateral := MulDiv(spent, TEN36, twap), SwapMinUsdeOut(spent, twap, SLIPPAGE_BPS);
    var value, over := Div256(collateral, TEN12), target - BPS;
    SizesFit(spent, twap, target);
    ValueReaches(value, over, target, BorrowFor(value, target), m);
    UsdeReaches(usde, collateral, value, CeilDiv(m * target, over));
    FloorAbove(spent * TEN36, twap, usde, UsdeFor(m, target));
  }

  // No product of the opening sizes leaves 256 bits.
  lemma SizesFit(spent: u256, twap: u256, target: u32)
    requires BPS <= twap && BPS < target && spent < U128_LIMIT
    ensures var usde, collateral := MulDiv(spent, TEN36, twap), SwapMinUsdeOut(spent, twap, SLIPPAGE_BPS);
            var value := Div256(collateral, TEN12);
            && Floor(spent * TEN36, twap, usde) && Floor(usde * 9_950, BPS, collateral)
            && Floor(collateral, TEN12, value) && Floor(value * (target - BPS), target, BorrowFor(value, target))
  {
    var usde, collateral := MulDiv(spent, TEN36, twap), SwapMinUsdeOut(spent, twap, SLIPPAGE_BPS);
    var value := Div256(collateral, TEN12);
    ProductFits(spent, TEN36, U128_LIMIT, TEN36);
    MulDivFits(spent, TEN36, twap);
    FloorShrinks(spent * TEN36, twap, usde, QUOTED_LIMIT);
    ProductFits(usde, 9_950, QUOTED_LIMIT, 9_950);
    MulDivFits(usde, 9_950, BPS);
    DivRange(collateral, TEN12);
    FloorShrinks(collateral, TEN12, value, QUOTED_LIMIT / BPS);
    ProductFits(value, target - BPS, QUOTED_LIMIT / BPS, 0x1_0000_0000);
    MulDivFits(value, target - BPS, target);
  }

  // Whether an opening plan leaves `claimable` of the balance, before any of it is built: it
  // spends no more than the rest, or buys enough to borrow back what it spends beyond.
  predicate ReserveStays(s: ChainState, nav: u256, twap: u256, target: nat)
    requires target > BPS
  {
    var beyond := Spent(s, nav) - (s.vaultUsdcBalance - s.totalClaimableRedeem);
    || beyond <= 0
    || (twap > 0 && UsdeFor(beyond, target) * twap <= Spent(s, nav) * TEN36)
  }

  lemma ReserveNeedsBorrow(s: ChainState, nav: u256, twap: u256, target: u32)
    requires (twap == 0 || BPS <= twap) && target > BPS
    ensures ReserveStays(s, nav, twap, target) <==>
              Spent(s, nav) <= s.vaultUsdcBalance - s.totalClaimableRedeem
                               + SizeOpening(Spent(s, nav), twap, SLIPPAGE_BPS, target).borrow
  {
    SpentIsFloor(s, nav);
    var beyond := Spent(s, nav) - (s.vaultUsdcBalance - s.totalClaimableRedeem);
    if twap == 0 {
      MulDivFits(0, target - BPS, target);
      MulOrder(BorrowFor(0, target), 0, target);
    } else if beyond > 0 {
      BorrowReaches(Spent(s, nav), twap, target, beyond);
    }
  }

  // The USDC reserved for claimable redeems stays with the vault exactly when `ReserveStays`.
  // It does whenever no more than the free balance is spent, and never, at par or above, when
  // the equity of what is spent exceeds that.
  lemma OpeningKeepsClaims(
      s: ChainState, knobs: Knobs, debt: u256, nav: u256, twap: u256, price: u256, plan: PlanBuild, oracle: nat,
      end: Book)
    requires Emits(s, knobs, debt, nav, twap, price, plan) && (twap == 0 || BPS <= twap)
    requires Play(Unlevered(s), plan.steps, oracle) == Some(end)
    ensures Target(knobs) > BPS
    ensures end.usdc >= s.totalClaimableRedeem <==> ReserveStays(s, nav, twap, Target(knobs))
    ensures var free := s.vaultUsdcBalance - s.totalClaimableRedeem;
            && (Usable(s, nav) * 99 < 100 * (free + 1) ==> end.usdc >= s.totalClaimableRedeem)
            && (twap >= PAR_PRICE && free * Target(knobs) < Spent(s, nav) * BPS ==> end.usdc < s.totalClaimableRedeem)
  {
    OpensWithSizes(s, knobs, debt, nav, twap, price, plan);
    OpeningPlanRuns(s, knobs, debt, nav, twap, price, plan, oracle);
    ReserveNeedsBorrow(s, nav, twap, Target(knobs));
    SpendAndReserve(s, nav, twap, Target(knobs), s.vaultUsdcBalance - s.totalClaimableRedeem);
  }

  lemma SpendAndReserve(s: ChainState, nav: u256, twap: u256, target: u32, free: int)
    requires BPS < target
    ensures Spent(s, nav) <= free <==> Usable(s, nav) * 99 < 100 * (free + 1)
    ensures twap >= PAR_PRICE && free * target < Spent(s, nav) * BPS ==>
              free + SizeOpening(Spent(s, nav), twap, SLIPPAGE_BPS, target).borrow < Spent(s, nav)
  {
    var spent := Spent(s, nav);
    SpentIsFloor(s, nav);
    FloorRoom(Usable(s, nav), spent, free);
    if twap >= PAR_PRICE && free * target < spent * BPS {
      BorrowIsAShare(spent, twap, target);
      ShareLeftOut(spent, SizeOpening(spent, twap, SLIPPAGE_BPS, target).borrow, free, target);
    }
  }

  // What is borrowed, as long as USDe is not below par, is less than what was spent.
  lemma BorrowIsAShare(spent: u256, twap: u256, target: u32)
    requires PAR_PRICE <= twap && BPS < target && spent < U128_LIMIT
    ensures SizeOpening(spent, twap, SLIPPAGE_BPS, target).borrow * target <= spent * (target - BPS)
  {
    var usde := MulDiv(spent, TEN36, twap);
    SizesFit(spent, twap, target);
    MulBothSides(spent * TEN12, PAR_PRICE, spent * TEN12, twap);
    FloorAtMost(spent * TEN36, twap, usde, spent * TEN12);
    var collateral := SwapMinUsdeOut(spent, twap, SLIPPAGE_BPS);
    assert collateral <= usde;
    DivMonotone(collateral, spent * TEN12, TEN12);
    DivIs(spent * TEN12, TEN12, spent);
    MulBothSides(Div256(collateral, TEN12), target - BPS, spent, target - BPS);
  }

  lemma ShareLeftOut(spent: nat, borrow: nat, free: int, target: nat)
    requires BPS < target && borrow * target <= spent * (target - BPS) && free * target < spent * BPS
    ensures free + borrow < spent
  {
    assert spent * (target - BPS) == spent * target - spent * BPS;
    assert (free + borrow) * target == free * target + borrow * target;
    MulOrder(free + borrow, spent, target);
  }

  lemma UsdeAtPar(v: nat, usde: nat, spent: nat)
    requires usde == CeilDiv(v * TEN12 * BPS, 9_950)
    ensures usde * PAR_PRICE <= spent * TEN36 <==> 200 * v <= 199 * spent
  {
    CeilAtMost(v * TEN12 * BPS, 9_950, spent * TEN12);
  }

  // At par the condition is one product: 99.5% of the spend pays for the value that borrows it.
  lemma ReserveAtPar(s: ChainState, nav: u256, target: u32)
    requires target > BPS
    ensures var beyond := Spent(s, nav) - (s.vaultUsdcBalance - s.totalClaimableRedeem);
            ReserveStays(s, nav, PAR_PRICE, target) <==>
              beyond <= 0 || 200 * CeilDiv(beyond * target, target - BPS) <= 199 * Spent(s, nav)
  {
    var beyond := Spent(s, nav) - (s.vaultUsdcBalance - s.totalClaimableRedeem);
    if beyond > 0 {
      UsdeAtPar(CeilDiv(beyond * target, target - BPS), UsdeFor(beyond, target), Spent(s, nav));
    }
  }

  // The attested NAV of a vault without collateral is at most its free USDC, so its opening plan
  // never touches a claim or a pending deposit.
  lemma UninvestedVaultKeepsClaims(
      s: ChainState, preset: RiskPreset, knobs: Knobs, nav: u256, twap: u256, plan: PlanBuild, oracle: nat, end: Book)
    requires AttestedNav(preset, 0, BoundedPrice(twap), 0, s.vaultUsdcBalance, s.totalPendingDeposit,
                         s.totalClaimableRedeem) == Success(nav)
    requires Emits(s, knobs, 0, nav, twap, BoundedPrice(twap), plan)
    requires Play(Unlevered(s), plan.steps, oracle) == Some(end)
    ensures end.usdc >= s.totalClaimableRedeem + s.totalPendingDeposit
  {
    var price := BoundedPrice(twap);
    OpeningPlanRuns(s, knobs, 0, nav, twap, price, plan, oracle);
    SpentIsFloor(s, nav);
    HaircutOnlyLowers(preset, 0, price, 0, s.vaultUsdcBalance, s.totalPendingDeposit, s.totalClaimableRedeem);
    MulDivFits(0, price, TEN36);
    MulOrder(PricedCollateral(0, price), 0, TEN36);
  }

  // With 100 USDC of unlevered collateral and every idle unit claimable, a 2.5x plan at par
  // spends 49.5 of the claimable 50 USDC and leaves 30.0515.
  lemma ClaimsDeployedExample(s: ChainState, knobs: Knobs)
    requires s.collateral == 100_000_000_000_000_000_000 && s.vaultUsdcBalance == s.totalClaimableRedeem == 50_000_000
    requires s.totalPendingDeposit == s.totalPendingRedeemShares == 0
    requires knobs.swapRouter.Given? && knobs.poolFee.Given?
    requires knobs.lltv == Given(915_000_000_000_000_000) && knobs.appliedLeverage == Given(25_000)
    ensures NavUsdc(s.collateral, PAR_PRICE, 0, s.vaultUsdcBalance, 0, s.totalClaimableRedeem) == Success(99_500_000)
    ensures Mul256(PAR_PRICE, KeepBps(SLIPPAGE_BPS)) > 0
    ensures var plan := BuildActionPlan(s, knobs, 0, 99_500_000, PAR_PRICE, PAR_PRICE);
            && plan.Success? && Opens(plan.value)
            && plan.value.steps[1] == Swap(Usdc, Usde, 49_500_000, 49_252_500_000_000_000_000)
            && plan.value.steps[4] == Borrow(29_551_500, 915_000_000_000_000_000)
            && var end := Play(Unlevered(s), plan.value.steps, PAR_PRICE);
            && end.Some? && end.value.usdc == 30_051_500
  {
    var sizes := ExampleSizes(s);
    MulDivFits(s.collateral, PAR_PRICE, TEN36);
    Mul256Fits(PAR_PRICE, 9_950);
    var plan := BuildActionPlan(s, knobs, 0, 99_500_000, PAR_PRICE, PAR_PRICE);
    assert Spent(s, 99_500_000) == 49_500_000;
    assert plan.Success? && plan.value.steps == OpeningSteps(49_500_000, sizes, knobs.lltv.value);
    assert LeversUp(plan.value.steps[3]);
    PlayOpening(s, 49_500_000, sizes, knobs.lltv.value, PAR_PRICE);
    MaxBorrowIs(s.collateral + sizes.collateral, PAR_PRICE, knobs.lltv.value, sizes.borrow);
  }

  lemma ExampleSizes(s: ChainState) returns (sizes: Opening)
    requires s.vaultUsdcBalance == 50_000_000
    ensures Spent(s, 99_500_000) == 49_500_000
    ensures sizes == SizeOpening(49_500_000, PAR_PRICE, SLIPPAGE_BPS, 25_000)
    ensures sizes == OpenPosition.Opening(49_252_500_000_000_000_000, 29_551_500)
  {
    sizes := SizeOpening(49_500_000, PAR_PRICE, SLIPPAGE_BPS, 25_000);
    SpentIsFloor(s, 99_500_000);
    SizesFit(49_500_000, PAR_PRICE, 25_000);
  }
}
