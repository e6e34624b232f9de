/**
 * Tick to price, as in `components/vault-nav/src/nav.rs`: the Q64.96 rounding of the
 * factor product and the 1e24-scaled pool price. The ticks are those of section 6.1
 * of the Uniswap v3 Core whitepaper.
 */
module TickMath {
  import opened Wrappers
  import opened Words
  import opened Arith
  import opened TickRatio
  import opened TickTables

  datatype TickError = DeltaOverflows | TickOutOfRange | PriceOverflows | EmptyWindow | TickOverflows

  const Q32: nat := 0x1_0000_0000
  const Q192: nat := 0x1_0000_0000_0000_0000_0000_0000_0000_0000_0000_0000_0000_0000
  const TEN36: nat := 1_000_000_000_000_000_000_000_000_000_000_000_000

  const MIN_SQRT_RATIO: nat := 4_295_128_739
  const MAX_SQRT_RATIO: nat := 1461446703485210103287273052203988822378723970342

  // ---------------------------------------------------------------- the average tick

  // Division as Rust does it, truncating toward zero.
  function TruncDiv(a: int, d: int): int
    requires d > 0
  {
    if a >= 0 then a / d else -(-a / d)
  }

  /** Time-weighted average tick, floored toward negative infinity. */
  method AvgTick(tickCumOld: i64, tickCumNew: i64, windowSecs: u32) returns (r: Result<i32, TickError>)
    ensures windowSecs == 0 ==> r == Failure(EmptyWindow)
    ensures windowSecs > 0 ==>
              var delta := tickCumNew - tickCumOld;
              && (r.Success? ==> r.value * windowSecs <= delta < (r.value + 1) * windowSecs)
              && (r.Failure? ==>
                  || (r.error == DeltaOverflows && !(-0x8000_0000_0000_0000 <= delta < 0x8000_0000_0000_0000))
                  || (r.error == TickOverflows && !(-0x8000_0000 * windowSecs <= delta < 0x8000_0000 * windowSecs)))
  {
    if windowSecs == 0 {
      return Failure(EmptyWindow);
    }
    var delta := tickCumNew - tickCumOld;
    if !(-0x8000_0000_0000_0000 <= delta < 0x8000_0000_0000_0000) {
      return Failure(DeltaOverflows);   // the overflow check stops the cycle
    }
    var tick := TruncDiv(delta, windowSecs);
    if delta < 0 && delta - tick * windowSecs != 0 {
      tick := tick - 1;
    }
    AvgTickFloors(delta, windowSecs, tick);
    if -0x8000_0000 <= tick < 0x8000_0000 {
      return Success(tick);
    }
    MulOrder(tick + 1, -0x8000_0000, windowSecs);
    MulOrder(0x8000_0000, tick, windowSecs);
    return Failure(TickOverflows);
  }

  lemma AvgTickFloors(delta: int, window: int, tick: int)
    requires window > 0
    requires var t := TruncDiv(delta, window);
             tick == if delta < 0 && delta - t * window != 0 then t - 1 else t
    ensures tick * window <= delta < (tick + 1) * window
  {
    DivRange(delta, window);
    DivRange(-delta, window);
  }

  // ---------------------------------------------------------------- the sqrt ratio

  // The Q128.128 ratio in the direction of the tick.
  function Directed(tick: int): (r: u256)
    requires -MAX_TICK <= tick <= MAX_TICK
  {
    if tick > 0 then
      RatioStaysUp(tick);
      DivMonotone(U256_LIMIT - 1, (U256_LIMIT - 1) * Ratio(FACTORS, tick, STEPS), Ratio(FACTORS, tick, STEPS));
      Inverse(Ratio(FACTORS, tick, STEPS))
    else Ratio(FACTORS, -tick, STEPS)
  }

  // `U256::MAX / ratio`
  function Inverse(ratio: nat): (q: u256)
    requires 0 < ratio
  {
    DivRange(U256_LIMIT - 1, ratio);
    (U256_LIMIT - 1) / ratio
  }

  // The Q64.96 sqrt ratio, rounded up.
  ghost function SqrtRatio(tick: int): nat
    requires -MAX_TICK <= tick <= MAX_TICK
  {
    CeilDiv(Directed(tick), Q32)
  }

  /** Canonical Uniswap v3 sqrt ratio at a tick. The products are those of wrapping 256-bit words. */
  method SqrtRatioX96AtTick(tick: i32) returns (r: Result<u256, TickError>)
    ensures r.Failure? <==> !(-MAX_TICK <= tick <= MAX_TICK)
    ensures r.Failure? ==> r.error == TickOutOfRange
    ensures r.Success? ==> r.value == SqrtRatio(tick)
  {
    if !(-MAX_TICK <= tick <= MAX_TICK) {
      return Failure(TickOutOfRange);
    }
    var absTick: nat := if tick < 0 then -tick else tick;
    var ratio: u256 := if Bit(absTick, 0) then FACTORS[0] else Q128;
    FirstFactor(absTick);
    for i := 1 to STEPS
      invariant ratio == Ratio(FACTORS, absTick, i)
    {
      if Bit(absTick, i) {
        ratio := WrappingStep(ratio, FACTORS[i]);
      }
    }
    if tick > 0 {
      RatioStaysUp(absTick);
      ratio := Inverse(ratio);
    }
    var rounder := if ratio % Q32 == 0 then 0 else 1;
    RoundsUp(ratio);
    return Success(ratio / Q32 + rounder);
  }

  // `(ratio * factor) >> 128` on wrapping words: the product always fits.
  function WrappingStep(ratio: u256, factor: nat): (r: u256)
    requires ratio <= Q128 && factor < Q128
    ensures r == Scale(ratio, factor)
  {
    ScaleShrinks(ratio, factor);
    Mul256Fits(ratio, factor);
    var product := Mul256(ratio, factor);
    assert product == ratio * factor;
    product / Q128
  }

  lemma FirstFactor(x: nat)
    ensures Ratio(FACTORS, x, 1) == if Bit(x, 0) then FACTORS[0] else Q128
  {
    assert Ratio(FACTORS, x, 0) == Q128;
  }

  lemma RoundsUp(ratio: u256)
    ensures ratio / Q32 + (if ratio % Q32 == 0 then 0 else 1) == CeilDiv(ratio, Q32) < U256_LIMIT
  {
    CeilIs(ratio, Q32, ratio / Q32 + if ratio % Q32 == 0 then 0 else 1);
  }

  // ---------------------------------------------------------------- the ratio rises with the tick

  lemma RatioGap(x: nat)
    requires x < MAX_TICK
    ensures Ratio(FACTORS, x + 1, STEPS) + 2 * Q32 <= Ratio(FACTORS, x, STEPS)
  {
    FactorsFollowSquareLaw();
    Powers(19);
    RatioFalls(FACTORS, x);
    RatioStaysUp(x);
  }

  lemma InverseOfOne()
    ensures Inverse(Q128) == Q128 - 1
  {
  }

  lemma InverseGap(r: nat, s: nat)
    requires 0 < s && s + 2 * Q32 <= r <= Q128
    ensures Inverse(r) + Q32 <= Inverse(s)
  {
    var m, q := U256_LIMIT - 1, Inverse(r);
    DivAtLeast(m, r, Q128 - 1);
    MulBothSides(Q128 - 1, r, Q128 - 1, Q128);
    DivRange(m, r);
    assert q * (2 * Q32) >= (Q128 - 1) * (2 * Q32);
    MulBothSides(q, s, q, r - 2 * Q32);
    assert q * (r - 2 * Q32) == q * r - q * (2 * Q32);
    assert (q + Q32) * s == q * s + Q32 * s;
    DivAtLeast(m, s, q + Q32);
  }

  lemma CeilGap(a: nat, b: nat)
    requires a + Q32 <= b
    ensures CeilDiv(a, Q32) < CeilDiv(b, Q32)
  {
  }

  lemma RisesBelowZero(tick: int)
    requires -MAX_TICK <= tick < 0
    ensures SqrtRatio(tick) < SqrtRatio(tick + 1)
  {
    var x: nat := -tick - 1;
    RatioGap(x);
    CeilGap(Ratio(FACTORS, x + 1, STEPS), Ratio(FACTORS, x, STEPS));
  }

  lemma RisesAboveZero(tick: int)
    requires 0 <= tick < MAX_TICK
    ensures SqrtRatio(tick) < SqrtRatio(tick + 1)
  {
    RatioGap(tick);
    RatioStaysUp(tick + 1);
    InverseGap(Ratio(FACTORS, tick, STEPS), Ratio(FACTORS, tick + 1, STEPS));
    if tick > 0 {
      CeilGap(Directed(tick), Directed(tick + 1));
    } else {
      ZeroTick();
      InverseOfOne();
      CeilAtMost(Directed(0), Q32, Q128 / Q32);
      CeilAtMost(Directed(1), Q32, Q128 / Q32);
    }
  }

  // One tick up moves the sqrt ratio strictly up, over the whole tick range.
  lemma SqrtRatioRises(tick: int)
    requires -MAX_TICK <= tick < MAX_TICK
    ensures SqrtRatio(tick) < SqrtRatio(tick + 1)
  {
    if tick < 0 {
      RisesBelowZero(tick);
    } else {
      RisesAboveZero(tick);
    }
  }

  lemma ZeroTick()
    ensures Ratio(FACTORS, 0, STEPS) == Q128
  {
    NoBits(STEPS);
  }

  lemma {:induction false} NoBits(n: nat)
    requires n <= STEPS
    ensures Ratio(FACTORS, 0, n) == Q128
  {
    if n > 0 {
      NoBits(n - 1);
      Powers(n - 1);
    }
  }

  lemma {:induction false} SqrtRatioMonotone(low: int, high: int)
    requires -MAX_TICK <= low <= high <= MAX_TICK
    ensures SqrtRatio(low) <= SqrtRatio(high)
    decreases high - low
  {
    if low < high {
      SqrtRatioRises(high - 1);
      SqrtRatioMonotone(low, high - 1);
    }
  }

  lemma SqrtRatioEnds()
    ensures SqrtRatio(-MAX_TICK) == MIN_SQRT_RATIO
    ensures SqrtRatio(MAX_TICK) == MAX_SQRT_RATIO
  {
    MaxTickRatio(887_272, STEPS);
  }

  // The ratio never leaves the canonical bounds.
  lemma SqrtRatioBounds(tick: int)
    requires -MAX_TICK <= tick <= MAX_TICK
    ensures MIN_SQRT_RATIO <= SqrtRatio(tick) <= MAX_SQRT_RATIO
  {
    SqrtRatioEnds();
    SqrtRatioMonotone(-MAX_TICK, tick);
    SqrtRatioMonotone(tick, MAX_TICK);
  }

  // A tick above zero has the reciprocal of the ratio below it: the largest whole number
  // whose product with it stays under 2^256.
  lemma OppositeTicksAreReciprocal(tick: int)
    requires 0 < tick <= MAX_TICK
    ensures Directed(-tick) > 0
    ensures Directed(tick) * Directed(-tick) < U256_LIMIT <= (Directed(tick) + 1) * Directed(-tick)
  {
    RatioStaysUp(tick);
    var ratio := Directed(-tick);
    DivRange(U256_LIMIT - 1, ratio);
    assert (Inverse(ratio) + 1) * ratio == Inverse(ratio) * ratio + ratio;
  }

  // ---------------------------------------------------------------- the price

  ghost function Price(tick: int): nat
    requires -MAX_TICK <= tick <= MAX_TICK
  {
    SqrtRatio(tick) * SqrtRatio(tick) * TEN36 / Q192
  }

  lemma PriceIsMonotone(low: int, high: int)
    requires -MAX_TICK <= low <= high <= MAX_TICK
    ensures Price(low) <= Price(high)
  {
    SqrtRatioMonotone(low, high);
    var a, b := SqrtRatio(low), SqrtRatio(high);
    MulBothSides(a, a, b, b);
    DivMonotone(a * a * TEN36, b * b * TEN36, Q192);
  }

  // The price is the square of the sqrt ratio over 2^192, at 36 decimals, rounded down; at
  // tick zero it is one.
  lemma PriceIsTheSquare(tick: int)
    requires -MAX_TICK <= tick <= MAX_TICK
    ensures var s := SqrtRatio(tick);
            Price(tick) * 0x1_0000_0000_0000_0000_0000_0000_0000_0000_0000_0000_0000_0000
            <= s * s * 1_000_000_000_000_000_000_000_000_000_000_000_000
            < (Price(tick) + 1) * 0x1_0000_0000_0000_0000_0000_0000_0000_0000_0000_0000_0000_0000
    ensures Price(0) == 1_000_000_000_000_000_000_000_000_000_000_000_000
  {
    var s := SqrtRatio(tick);
    DivRange(s * s * TEN36, Q192);
    ZeroTick();
    CeilIs(Directed(0), Q32, 0x1_0000_0000_0000_0000_0000_0000);
  }

  // sqrtP^2 * 1e36 / 2^192 in 512-bit words, which wrap.
  function ScaledSquare(s: u256): nat {
    (s * s % U512_LIMIT) * TEN36 % U512_LIMIT / Q192
  }

  lemma LargestSquareFits()
    ensures MAX_SQRT_RATIO * MAX_SQRT_RATIO * TEN36 < U512_LIMIT
    ensures MAX_SQRT_RATIO * MAX_SQRT_RATIO * TEN36 / Q192 < U256_LIMIT
  {
  }

  lemma ScaledSquareFits(s: u256)
    requires s <= MAX_SQRT_RATIO
    ensures ScaledSquare(s) == s * s * TEN36 / Q192 < U256_LIMIT
  {
    var square, largest := s * s, MAX_SQRT_RATIO * MAX_SQRT_RATIO;
    MulBothSides(s, s, MAX_SQRT_RATIO, MAX_SQRT_RATIO);
    LargestSquareFits();
    ModSmall(square, U512_LIMIT);
    ModSmall(square * TEN36, U512_LIMIT);
    DivMonotone(square * TEN36, largest * TEN36, Q192);
  }

  lemma PriceFits(tick: int)
    requires -MAX_TICK <= tick <= MAX_TICK
    ensures SqrtRatio(tick) < U256_LIMIT
    ensures ScaledSquare(SqrtRatio(tick)) == Price(tick) < U256_LIMIT
  {
    SqrtRatioBounds(tick);
    ScaledSquareFits(SqrtRatio(tick));
  }

  // The range check is needed: at tick 983040 the same loop still ends above zero, and its
  // price, exact in 512 bits, no longer fits 256.
  lemma PastTheRangePricesOverflow()
    ensures Ratio(FACTORS, 983_040, STEPS) > 0
    ensures var s := CeilDiv(Inverse(Ratio(FACTORS, 983_040, STEPS)), Q32);
            s * s * TEN36 < U512_LIMIT && s * s * TEN36 / Q192 >= U256_LIMIT
  {
    PastRatio(983_040, STEPS);
    PastSquare();
    CeilIs(Inverse(PastRun(STEPS)), Q32, PAST_SQRT);
  }

  const PAST_SQRT: nat := 175490942847609781316826092514035607084296736873594

  lemma PastSquare()
    ensures Inverse(PastRun(STEPS)) <= PAST_SQRT * Q32 < Inverse(PastRun(STEPS)) + Q32
    ensures PAST_SQRT * PAST_SQRT * TEN36 < U512_LIMIT && PAST_SQRT * PAST_SQRT * TEN36 / Q192 >= U256_LIMIT
  {
  }

  /** Pool price in the 1e24 oracle scale. The overflow error is never taken. */
  method PriceAtTick(tick: i32) returns (r: Result<u256, TickError>)
    ensures -MAX_TICK <= tick <= MAX_TICK ==> r == Success(Price(tick))
    ensures !(-MAX_TICK <= tick <= MAX_TICK) ==> r == Failure(TickOutOfRange)
  {
    var sqrtP :- SqrtRatioX96AtTick(tick);
    var scaled := ScaledSquare(sqrtP);
    PriceFits(tick);
    if scaled >= U256_LIMIT {
      return Failure(PriceOverflows);
    }
    return Success(scaled);
  }
}
