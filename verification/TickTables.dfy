/**
 * The twenty factors of TickMath and what their values imply: the law that makes
 * the ratio fall from tick to tick, a floor under the ratio inside the tick range,
 * and the exact ratio of the last tick.
 */
module TickTables {
  import opened Words
  import opened TickRatio

  const MAX_TICK: int := 887_272
  // FACTORS[i] is sqrt(1.0001)^(-2^i) in Q128, applied when bit i of |tick| is set.
  const FACTORS: Table := [
    0xfffcb933bd6fad37aa2d162d1a594001,
    0xfff97272373d413259a46990580e213a,
    0xfff2e50f5f656932ef12357cf3c7fdcc,
    0xffe5caca7e10e4e61c3624eaa0941cd0,
    0xffcb9843d60f6159c9db58835c926644,
    0xff973b41fa98c081472e6896dfb254c0,
    0xff2ea16466c96a3843ec78b326b52861,
    0xfe5dee046a99a2a811c461f1969c3053,
    0xfcbe86c7900a88aedcffc83b479aa3a4,
    0xf987a7253ac413176f2b074cf7815e54,
    0xf3392b0822b70005940c7a398e4b70f3,
    0xe7159475a2c29b7443b29c7fa6e889d9,
    0xd097f3bdfd2022b8845ad8f792aa5825,
    0xa9f746462d870fdf8a65dc1f90e061e5,
    0x70d869a156d2a1b890bb3df62baf32f7,
    0x31be135f97d08fd981231505542fcfa6,
    0x9aa508b5b7a84e1c677de54f3e99bc9,
    0x5d6af8dedb81196699c329225ee604,
    0x2216e584f5fa1ea926041bedfe98,
    0x48a170391f7dc42444e8fa2
  ]

  // A floor for the ratio after n low bits, whatever the tick.
  function LowFloor(n: nat): nat
    requires n <= 17
  {
    match n
    case 0 => 0x100000000000000000000000000000000
    case 1 => 0xfffcb000000000000000000000000000
    case 2 => 0xfff62000000000000000000000000000
    case 3 => 0xffe90000000000000000000000000000
    case 4 => 0xffcec000000000000000000000000000
    case 5 => 0xff9a6000000000000000000000000000
    case 6 => 0xff31c000000000000000000000000000
    case 7 => 0xfe610000000000000000000000000000
    case 8 => 0xfcc19000000000000000000000000000
    case 9 => 0xf98aa000000000000000000000000000
    case 10 => 0xf33c1000000000000000000000000000
    case 11 => 0xe7185000000000000000000000000000
    case 12 => 0xd09a6000000000000000000000000000
    case 13 => 0xa9f93000000000000000000000000000
    case 14 => 0x70d9a800000000000000000000000000
    case 15 => 0x31be9c00000000000000000000000000
    case 16 => 0x9aa6b00000000000000000000000000
    case _ => 0x5d6bf8000000000000000000000000
  }

  lemma LowFloorStep(i: nat)
    requires i < 17
    ensures LowFloor(i + 1) <= LowFloor(i) <= Q128
    ensures LowFloor(i + 1) <= Scale(LowFloor(i), FACTORS[i])
  {
    match i
    case 0 =>
    case 1 =>
    case 2 =>
    case 3 =>
    case 4 =>
    case 5 =>
    case 6 =>
    case 7 =>
    case 8 =>
    case 9 =>
    case 10 =>
    case 11 =>
    case 12 =>
    case 13 =>
    case 14 =>
    case 15 =>
    case 16 =>
  }

  // The ratio of MAX_TICK, bit by bit.
  function MaxTickRun(n: nat): nat
    requires n <= STEPS
  {
    match n
    case 0 => 0x100000000000000000000000000000000
    case 1 => 0x100000000000000000000000000000000
    case 2 => 0x100000000000000000000000000000000
    case 3 => 0x100000000000000000000000000000000
    case 4 => 0xffe5caca7e10e4e61c3624eaa0941cd0
    case 5 => 0xffe5caca7e10e4e61c3624eaa0941cd0
    case 6 => 0xff7d10c63a977157da4140deb6f31a7b
    case 7 => 0xfeac1d4052f7714818b490c1138ea058
    case 8 => 0xfd0c3654da9e033741d1a9f93707f6f6
    case 9 => 0xf9d459c5817dbafa9e376ae84dcfeb8b
    case 10 => 0xf9d459c5817dbafa9e376ae84dcfeb8b
    case 11 => 0xf9d459c5817dbafa9e376ae84dcfeb8b
    case 12 => 0xe183ac4e25d5949966242a64e9c80e2f
    case 13 => 0xe183ac4e25d5949966242a64e9c80e2f
    case 14 => 0xe183ac4e25d5949966242a64e9c80e2f
    case 15 => 0xe183ac4e25d5949966242a64e9c80e2f
    case 16 => 0x2bd1a4c5d2a1181aca1ef15e64c2e3cf
    case 17 => 0x1a785cbbdc050483e3be5812760be73
    case 18 => 0x1a785cbbdc050483e3be5812760be73
    case 19 => 0x3865a6455d07d2bc87c5956d2e
    case _ => 0x1000276a221a17501
  }

  predicate MaxTickBit(i: nat) {
    i in {3, 5, 6, 7, 8, 11, 15, 16, 18, 19}
  }

  function PowerTable(i: nat): (p: nat)
    requires i < STEPS
    ensures p > 0
  {
    match i
    case 0 => 0x1
    case 1 => 0x2
    case 2 => 0x4
    case 3 => 0x8
    case 4 => 0x10
    case 5 => 0x20
    case 6 => 0x40
    case 7 => 0x80
    case 8 => 0x100
    case 9 => 0x200
    case 10 => 0x400
    case 11 => 0x800
    case 12 => 0x1000
    case 13 => 0x2000
    case 14 => 0x4000
    case 15 => 0x8000
    case 16 => 0x10000
    case 17 => 0x20000
    case 18 => 0x40000
    case _ => 0x80000
  }

  lemma {:induction false} Powers(i: nat)
    requires i < STEPS
    ensures Pow2(i) == PowerTable(i)
  {
    if i > 0 {
      Powers(i - 1);
    }
  }

  lemma MaxTickQuotient(i: nat)
    requires i < STEPS
    ensures (887_272 / PowerTable(i)) % 2 == (if MaxTickBit(i) then 1 else 0)
  {
    match i
    case 0 =>
    case 1 =>
    case 2 =>
    case 3 =>
    case 4 =>
    case 5 =>
    case 6 =>
    case 7 =>
    case 8 =>
    case 9 =>
    case 10 =>
    case 11 =>
    case 12 =>
    case 13 =>
    case 14 =>
    case 15 =>
    case 16 =>
    case 17 =>
    case 18 =>
    case 19 =>
  }

  lemma MaxTickBits(i: nat)
    requires i < STEPS
    ensures Bit(887_272, i) == MaxTickBit(i)
  {
    MaxTickQuotient(i);
    Powers(i);
  }

  lemma MaxTickStep(i: nat)
    requires i < STEPS
    ensures MaxTickRun(i) <= Q128
    ensures MaxTickRun(i + 1) == if MaxTickBit(i) then Scale(MaxTickRun(i), FACTORS[i]) else MaxTickRun(i)
  {
    match i
    case 0 =>
    case 1 =>
    case 2 =>
    case 3 =>
    case 4 =>
    case 5 =>
    case 6 =>
    case 7 =>
    case 8 =>
    case 9 =>
    case 10 =>
    case 11 =>
    case 12 =>
    case 13 =>
    case 14 =>
    case 15 =>
    case 16 =>
    case 17 =>
    case 18 =>
    case 19 =>
  }

  lemma OneMoreBit(x: nat, n: nat, isSet: bool, before: nat, after: nat)
    requires 1 <= n <= STEPS && Bit(x, n - 1) == isSet
    requires before == Ratio(FACTORS, x, n - 1)
    requires after == if isSet then Scale(before, FACTORS[n - 1]) else before
    ensures Ratio(FACTORS, x, n) == after
  {
  }

  lemma {:induction false} MaxTickRatio(x: nat, n: nat)
    requires x == 887_272 && n <= STEPS
    ensures Ratio(FACTORS, x, n) == MaxTickRun(n)
  {
    if n > 0 {
      var i := n - 1;
      MaxTickRatio(x, i);
      MaxTickBits(i);
      MaxTickStep(i);
      OneMoreBit(x, n, MaxTickBit(i), MaxTickRun(i), MaxTickRun(n));
    }
  }

  // The ratio of tick 983040, past the range: only its four highest bits are set.
  function PastRun(n: nat): nat
    requires n <= STEPS
  {
    if n <= 16 then Q128
    else if n == 17 then 12847376061809297530290974190478138313
    else if n == 18 then 18313207669592788483525107928687526
    else if n == 19 then 37210404178044959411283692537
    else 153625858005456828
  }

  lemma PastBits(i: nat)
    requires i < STEPS
    ensures Bit(983_040, i) <==> i >= 16
  {
    PastQuotient(i);
    Powers(i);
  }

  lemma PastQuotient(i: nat)
    requires i < STEPS
    ensures (983_040 / PowerTable(i)) % 2 == (if i >= 16 then 1 else 0)
  {
    match i
    case 0 =>
    case 1 =>
    case 2 =>
    case 3 =>
    case 4 =>
    case 5 =>
    case 6 =>
    case 7 =>
    case 8 =>
    case 9 =>
    case 10 =>
    case 11 =>
    case 12 =>
    case 13 =>
    case 14 =>
    case 15 =>
    case 16 =>
    case 17 =>
    case 18 =>
    case 19 =>
  }

  lemma PastStep(i: nat)
    requires i < STEPS
    ensures PastRun(i) <= Q128
    ensures PastRun(i + 1) == if i >= 16 then Scale(PastRun(i), FACTORS[i]) else PastRun(i)
  {
  }

  lemma {:induction false} PastRatio(x: nat, n: nat)
    requires x == 983_040 && n <= STEPS
    ensures Ratio(FACTORS, x, n) == PastRun(n)
  {
    if n > 0 {
      var i := n - 1;
      PastRatio(x, i);
      PastBits(i);
      PastStep(i);
      OneMoreBit(x, n, i >= 16, PastRun(i), PastRun(n));
    }
  }

  lemma {:induction false} LowBits(x: nat, n: nat)
    requires n <= 17
    ensures LowFloor(n) <= Ratio(FACTORS, x, n)
  {
    if n > 0 {
      LowBits(x, n - 1);
      LowFloorStep(n - 1);
      if Bit(x, n - 1) {
        ScaleMonotone(LowFloor(n - 1), Ratio(FACTORS, x, n - 1), FACTORS[n - 1]);
      }
    }
  }

  lemma TopBits(x: nat)
    requires x <= MAX_TICK
    ensures !(Bit(x, 17) && Bit(x, 18) && Bit(x, 19))
  {
    Powers(17);
    Powers(18);
    Powers(19);
  }

  const SMALLEST: nat := 0x2000_0000_0000_0000

  // Inside the tick range the ratio stays far above zero. The range check is what
  // keeps the three top bits from being set together.
  lemma RatioStaysUp(x: nat)
    requires x <= MAX_TICK
    ensures Ratio(FACTORS, x, STEPS) >= SMALLEST
  {
    TopBits(x);
    LowBits(x, 17);
    var r17, r18, r19 := Ratio(FACTORS, x, 17), Ratio(FACTORS, x, 18), Ratio(FACTORS, x, 19);
    TopSteps(r17, Bit(x, 17), Bit(x, 18), Bit(x, 19));
  }

  function Maybe(r: nat, bit: bool, i: nat): (s: nat)
    requires r <= Q128 && i < STEPS
    ensures s <= Q128
  {
    if bit then Scale(r, FACTORS[i]) else r
  }

  lemma TopSteps(r: nat, b17: bool, b18: bool, b19: bool)
    requires LowFloor(17) <= r <= Q128 && !(b17 && b18 && b19)
    ensures Maybe(Maybe(Maybe(r, b17, 17), b18, 18), b19, 19) >= SMALLEST
  {
    var low := LowFloor(17);
    if b17 { ScaleMonotone(low, r, FACTORS[17]); }
    var l18, r18 := Maybe(low, b17, 17), Maybe(r, b17, 17);
    if b18 { ScaleMonotone(l18, r18, FACTORS[18]); }
    var l19, r19 := Maybe(l18, b18, 18), Maybe(r18, b18, 18);
    if b19 { ScaleMonotone(l19, r19, FACTORS[19]); }
  }

  // g is the square of f, as fractions of Q128, to within two units in the last place.
  ghost predicate NearSquare(f: nat, g: nat) {
    -2 * Q128 <= g * Q128 - f * f <= 2 * Q128
  }

  lemma LowFactorSquares(k: nat)
    requires 1 <= k < 8
    ensures Squares(FACTORS[k - 1], FACTORS[k]) && NearSquare(FACTORS[k - 1], FACTORS[k])
  {
    match k
    case 1 =>
    case 2 =>
    case 3 =>
    case 4 =>
    case 5 =>
    case 6 =>
    case 7 =>
  }

  lemma MidFactorSquares(k: nat)
    requires 8 <= k < 14
    ensures Squares(FACTORS[k - 1], FACTORS[k]) && NearSquare(FACTORS[k - 1], FACTORS[k])
  {
    match k
    case 8 =>
    case 9 =>
    case 10 =>
    case 11 =>
    case 12 =>
    case 13 =>
  }

  lemma HighFactorSquares(k: nat)
    requires 14 <= k < 20
    ensures Squares(FACTORS[k - 1], FACTORS[k]) && NearSquare(FACTORS[k - 1], FACTORS[k])
  {
    match k
    case 14 =>
    case 15 =>
    case 16 =>
    case 17 =>
    case 18 =>
    case 19 =>
  }

  // The first factor is 1 / sqrt(1.0001) to within one unit, and every other the square of the
  // one before to within two, both ways; so the table has no step that falls too little.
  lemma FactorsFollowSquareLaw()
    ensures -10_001 * Q128 <= FACTORS[0] * FACTORS[0] * 10_001 - Q128 * Q128 * 10_000 <= 10_001 * Q128
    ensures forall k | 1 <= k < STEPS :: NearSquare(FACTORS[k - 1], FACTORS[k])
    ensures SquareLaw(FACTORS)
  {
    forall k | 1 <= k < STEPS
      ensures Squares(FACTORS[k - 1], FACTORS[k]) && NearSquare(FACTORS[k - 1], FACTORS[k])
    {
      if k < 8 {
        LowFactorSquares(k);
      } else if k < 14 {
        MidFactorSquares(k);
      } else {
        HighFactorSquares(k);
      }
    }
  }
}
