/**
 * `formatNavPct` of `apps/replay-ui/lib/format.ts`: a NAV as a signed percentage of a
 * baseline, in exact integers. A reader of signed decimals, written without looking at the
 * printer, gets back the true percentage rounded half away from zero.
 */
module FormatPct {
  import opened Arith
  import opened Wrappers

  function Abs(n: int): nat {
    if n < 0 then -n else n
  }

  function Pow10(k: nat): (p: nat)
    ensures p >= 1
  {
    if k == 0 then 1 else 10 * Pow10(k - 1)
  }

  // ---------------------------------------------------------------- rounding

  /** Divide, rounding halves away from zero. */
  function DivRound(numerator: int, denominator: int): int
    requires denominator != 0
  {
    var negative := (numerator < 0) != (denominator < 0);
    var a, d := Abs(numerator), Abs(denominator);
    var q: int := (2 * a + d) / (2 * d);
    if negative then -q else q
  }

  // The multiple p of d is within half of d of n, and on a tie not nearer to zero than n.
  predicate Rounds(p: int, n: int, d: nat) {
    2 * Abs(n - p) <= d && (2 * Abs(n - p) == d ==> Abs(p) >= Abs(n))
  }

  // q is n / d rounded half away from zero.
  predicate HalfAway(q: int, n: int, d: int) {
    Rounds(q * d, n, Abs(d))
  }

  lemma TwiceTheProduct(x: nat, q: nat, d: nat, e: nat, rest: nat)
    requires x == q * e + rest && e == 2 * d
    ensures x == 2 * (q * d) + rest && q * d >= 0
  {
    assert q * e == 2 * (q * d);
  }

  lemma RoundsWhen(p: nat, a: nat, d: nat, rest: nat)
    requires 2 * a + d == 2 * p + rest && rest < 2 * d
    ensures Rounds(p, a, d)
  {
  }

  lemma QuotientRounds(a: nat, d: nat, x: nat, e: nat)
    requires d > 0 && x == 2 * a + d && e == 2 * d
    ensures Rounds(Quotient(x, e) * d, a, d)
  {
    var q, rest := Quotient(x, e), Remainder(x, e);
    QuotientAndRemainder(x, e);
    TwiceTheProduct(x, q, d, e, rest);
    RoundsWhen(q * d, a, d, rest);
  }

  lemma DivRoundIsHalfAway(n: int, d: int)
    requires d != 0
    ensures HalfAway(DivRound(n, d), n, d)
  {
    var a, e := Abs(n), Abs(d);
    var q: int := Quotient(2 * a + e, 2 * e);
    QuotientAsWritten(2 * a + e, 2 * e);
    QuotientRounds(a, e, 2 * a + e, 2 * e);
    SignedProduct(q, d, n < 0);
  }

  lemma SignedProduct(q: int, d: int, negative: bool)
    ensures (if negative != (d < 0) then -q else q) * d == if negative then -(q * Abs(d)) else q * Abs(d)
  {
    assert (-q) * d == -(q * d);
    assert q * (-d) == -(q * d);
  }

  // No other integer is that close, so the rounding says which one is printed.
  lemma HalfAwayIsUnique(q: int, r: int, n: int, d: int)
    requires d != 0 && HalfAway(q, n, d) && HalfAway(r, n, d)
    ensures q == r
  {
    assert (-q) * (-d) == q * d && (-r) * (-d) == r * d;
    if d < 0 {
      OneMultipleRounds(-q, -r, n, -d);
    } else {
      OneMultipleRounds(q, r, n, d);
    }
  }

  lemma OneMultipleRounds(q: int, r: int, n: int, d: nat)
    requires d > 0 && Rounds(q * d, n, d) && Rounds(r * d, n, d)
    ensures q == r
  {
    if q < r {
      NoTwoMultiples(q, r, n, d);
    } else if r < q {
      NoTwoMultiples(r, q, n, d);
    }
  }

  lemma NoTwoMultiples(q: int, r: int, n: int, d: nat)
    requires d > 0 && Rounds(q * d, n, d) && Rounds(r * d, n, d)
    ensures r <= q
  {
    MulOrder(q + 1, r, d);
    MulOrder(q + 2, r, d);
    MulOrder(0, q, d);
    MulOrder(r, 0, d);
    assert (q + 1) * d == q * d + d && (q + 2) * d == q * d + 2 * d;
  }

  // ---------------------------------------------------------------- printing

  function Digit(n: nat): char
    requires n < 10
  {
    '0' + n as char
  }

  function Decimal(n: nat): string {
    if n < 10 then [Digit(n)] else Decimal(n / 10) + [Digit(n % 10)]
  }

  function Zeros(k: nat): string {
    seq(k, _ => '0')
  }

  function PadStart(s: string, width: nat): string {
    if |s| >= width then s else Zeros(width - |s|) + s
  }

  datatype RangeError = ZeroBaseline

  /** What is printed; the last step of the text is the percent sign. */
  function FormatNavPct(nav: int, baseline: int, decimals: int): Result<string, RangeError> {
    if baseline == 0 then Failure(ZeroBaseline)
    else
      var places := if decimals > 0 then decimals else 0;
      Success(Print(DivRound((nav - baseline) * 100 * Pow10(places), baseline), places))
  }

  function Print(scaled: int, places: nat): string {
    SignOf(scaled) + Body(Abs(scaled), places) + "%"
  }

  function SignOf(scaled: int): string {
    if scaled > 0 then "+" else if scaled < 0 then "-" else ""
  }

  // Whole part and fraction digits.
  function Body(magnitude: nat, places: nat): string {
    var scale := Pow10(places);
    QuotientAsWritten(magnitude, scale);
    Joined(Decimal(magnitude / scale), FractionDigits(magnitude % scale, places))
  }

  function FractionDigits(n: nat, places: nat): string {
    if places == 0 then "" else PadStart(Decimal(n), places)
  }

  function Joined(whole: string, fraction: string): string {
    if fraction == "" then whole else whole + "." + fraction
  }

  // ---------------------------------------------------------------- reading

  predicate IsDigit(c: char) {
    '0' <= c <= '9'
  }

  predicate AllDigits(s: string) {
    forall i | 0 <= i < |s| :: IsDigit(s[i])
  }

  function DigitValue(c: char): nat {
    if IsDigit(c) then (c - '0') as nat else 0
  }

  function Value(s: string): nat {
    if s == [] then 0 else Value(s[..|s| - 1]) * 10 + DigitValue(s[|s| - 1])
  }

  function Signed(negative: bool, magnitude: nat): int {
    if negative then -(magnitude as int) else magnitude
  }

  function IndexOf(s: string, c: char): nat {
    if s == [] || s[0] == c then 0 else 1 + IndexOf(s[1..], c)
  }

  // units / 10^places
  datatype Percent = Percent(units: int, places: nat)

  datatype Parts = Parts(whole: string, dotted: bool, fraction: string)

  function Split(body: string): Parts {
    var dot := IndexOf(body, '.');
    if dot >= |body| then Parts(body, false, "") else Parts(body[..dot], true, body[dot + 1..])
  }

  function ReadParts(parts: Parts, negative: bool): Option<Percent> {
    if parts.whole == "" || (parts.dotted && parts.fraction == "")
       || !AllDigits(parts.whole) || !AllDigits(parts.fraction) then None
    else Some(Percent(Signed(negative, Value(parts.whole + parts.fraction)), |parts.fraction|))
  }

  function ReadDigits(body: string, negative: bool): Option<Percent> {
    ReadParts(Split(body), negative)
  }

  function ReadPct(text: string): Option<Percent> {
    if text == "" || text[|text| - 1] != '%' then None
    else
      var body := text[..|text| - 1];
      if body != "" && body[0] == '+' then ReadDigits(body[1..], false)
      else if body != "" && body[0] == '-' then ReadDigits(body[1..], true)
      else ReadDigits(body, false)
  }

  // ---------------------------------------------------------------- the round trip

  lemma {:induction false} DecimalReadsBack(n: nat)
    ensures AllDigits(Decimal(n)) && Decimal(n) != "" && Value(Decimal(n)) == n
  {
    if n >= 10 {
      DecimalReadsBack(n / 10);
      var s := Decimal(n);
      assert s[..|s| - 1] == Decimal(n / 10);
    }
  }

  lemma {:induction false} DecimalFits(n: nat, places: nat)
    requires places >= 1 && n < Pow10(places)
    ensures |Decimal(n)| <= places
  {
    if n >= 10 {
      DecimalFits(n / 10, places - 1);
    }
  }

  lemma OneMoreDigit(v: nat, p: nat, w: nat, digit: nat)
    ensures (v * p + w) * 10 + digit == v * (10 * p) + (w * 10 + digit)
  {
    assert v * (10 * p) == (v * p) * 10;
  }

  lemma {:induction false} ValueOfConcat(a: string, b: string)
    ensures Value(a + b) == Value(a) * Pow10(|b|) + Value(b)
    decreases |b|
  {
    if b == "" {
      assert a + b == a;
    } else {
      var n := |b| - 1;
      ValueOfConcat(a, b[..n]);
      assert (a + b)[..|a + b| - 1] == a + b[..n];
      OneMoreDigit(Value(a), Pow10(n), Value(b[..n]), DigitValue(b[n]));
    }
  }

  lemma {:induction false} LeadingZeros(k: nat, s: string)
    ensures Value(Zeros(k) + s) == Value(s)
    decreases |s|, k
  {
    var t := Zeros(k) + s;
    if s != "" {
      assert t[..|t| - 1] == Zeros(k) + s[..|s| - 1];
      LeadingZeros(k, s[..|s| - 1]);
    } else if k > 0 {
      assert t == Zeros(k) && t[..k - 1] == Zeros(k - 1) + "";
      LeadingZeros(k - 1, "");
    } else {
      assert t == "";
    }
  }

  lemma PadKeeps(s: string, width: nat)
    requires |s| <= width && AllDigits(s)
    ensures var t := PadStart(s, width); |t| == width && AllDigits(t) && Value(t) == Value(s)
  {
    LeadingZeros(width - |s|, s);
  }

  lemma FractionReadsBack(n: nat, places: nat)
    requires n < Pow10(places)
    ensures var s := FractionDigits(n, places); |s| == places && AllDigits(s) && Value(s) == n
  {
    if places > 0 {
      DecimalFits(n, places);
      DecimalReadsBack(n);
      PadKeeps(Decimal(n), places);
    }
  }

  lemma {:induction false} DotComesAfter(digits: string, rest: string)
    requires AllDigits(digits) && (rest == "" || rest[0] == '.')
    ensures IndexOf(digits + rest, '.') == |digits|
    decreases |digits|
  {
    if digits == "" {
      assert digits + rest == rest;
    } else {
      assert (digits + rest)[1..] == digits[1..] + rest;
      DotComesAfter(digits[1..], rest);
    }
  }

  lemma SplitJoined(whole: string, fraction: string)
    requires AllDigits(whole)
    ensures Split(Joined(whole, fraction)) == Parts(whole, fraction != "", fraction)
  {
    if fraction == "" {
      DotComesAfter(whole, "");
      assert whole + "" == whole;
    } else {
      var body := whole + "." + fraction;
      DotComesAfter(whole, "." + fraction);
      assert body == whole + ("." + fraction);
      assert body[..|whole|] == whole && body[|whole| + 1..] == fraction;
    }
  }

  lemma JoinedReads(whole: string, fraction: string, negative: bool)
    requires whole != "" && AllDigits(whole) && AllDigits(fraction)
    ensures ReadDigits(Joined(whole, fraction), negative)
            == Some(Percent(Signed(negative, Value(whole + fraction)), |fraction|))
  {
    SplitJoined(whole, fraction);
  }

  lemma Reassembled(whole: string, fraction: string, q: nat, scale: nat, r: nat)
    requires Value(whole) == q && Value(fraction) == r
    requires scale == Pow10(|fraction|)
    ensures Value(whole + fraction) == q * scale + r
  {
    ValueOfConcat(whole, fraction);
  }

  lemma TextReadsBack(whole: string, fraction: string, q: nat, scale: nat, r: nat, negative: bool)
    requires whole != "" && AllDigits(whole) && AllDigits(fraction) && Value(whole) == q && Value(fraction) == r
    requires scale == Pow10(|fraction|)
    ensures ReadDigits(Joined(whole, fraction), negative) == Some(Percent(Signed(negative, q * scale + r), |fraction|))
  {
    JoinedReads(whole, fraction, negative);
    Reassembled(whole, fraction, q, scale, r);
  }

  lemma BodyReadsBack(magnitude: nat, places: nat, negative: bool)
    ensures ReadDigits(Body(magnitude, places), negative) == Some(Percent(Signed(negative, magnitude), places))
  {
    var scale := Pow10(places);
    var q, r := Quotient(magnitude, scale), Remainder(magnitude, scale);
    DecimalReadsBack(q);
    FractionReadsBack(r, places);
    TextReadsBack(Decimal(q), FractionDigits(r, places), q, scale, r, negative);
    QuotientAndRemainder(magnitude, scale);
    QuotientAsWritten(magnitude, scale);
  }

  lemma BodyStartsWithDigit(magnitude: nat, places: nat)
    ensures Body(magnitude, places) != "" && IsDigit(Body(magnitude, places)[0])
  {
    QuotientAsWritten(magnitude, Pow10(places));
    DecimalReadsBack(Quotient(magnitude, Pow10(places)));
  }

  lemma SignReads(sign: string, body: string, negative: bool)
    requires body != "" && IsDigit(body[0])
    requires if negative then sign == "-" else sign == "+" || sign == ""
    ensures ReadPct(sign + body + "%") == ReadDigits(body, negative)
  {
    var text := sign + body + "%";
    assert text[..|text| - 1] == sign + body;
    if sign == "" {
      assert sign + body == body;
    } else {
      assert (sign + body)[1..] == body;
    }
  }

  lemma PrintReadsBack(scaled: int, places: nat)
    ensures ReadPct(Print(scaled, places)) == Some(Percent(scaled, places))
    ensures (Print(scaled, places)[0] == '+' <==> scaled > 0) && (Print(scaled, places)[0] == '-' <==> scaled < 0)
  {
    var body := Body(Abs(scaled), places);
    BodyReadsBack(Abs(scaled), places, scaled < 0);
    BodyStartsWithDigit(Abs(scaled), places);
    SignReads(SignOf(scaled), body, scaled < 0);
  }

  // The sign is that of the number, with none for zero, and no zero leads the digits.
  ghost predicate Canonical(text: string, units: int) {
    var start := if units == 0 then 0 else 1;
    && |text| > start + 1
    && (units > 0 ==> text[0] == '+') && (units < 0 ==> text[0] == '-')
    && IsDigit(text[start]) && (text[start] == '0' ==> text[start + 1] in ".%")
  }

  lemma {:induction false} NoLeadingZero(n: nat)
    ensures Decimal(n) != "" && IsDigit(Decimal(n)[0])
    ensures Decimal(n)[0] == '0' ==> |Decimal(n)| == 1
    ensures n > 0 ==> Decimal(n)[0] != '0'
  {
    if n >= 10 {
      NoLeadingZero(n / 10);
    }
  }

  lemma PrintIsCanonical(scaled: int, places: nat)
    ensures Canonical(Print(scaled, places), scaled)
  {
    var scale := Pow10(places);
    QuotientAsWritten(Abs(scaled), scale);
    NoLeadingZero(Abs(scaled) / scale);
    var body := Body(Abs(scaled), places);
    assert Print(scaled, places) == SignOf(scaled) + (body + "%");
  }

  // Every printed percentage reads back as the true one, 100 (nav - baseline) / baseline,
  // rounded half away from zero at the digits shown, with its sign and without leading zeros;
  // only a zero baseline prints nothing.
  lemma PercentagesReadBack(nav: int, baseline: int, decimals: int)
    ensures FormatNavPct(nav, baseline, decimals).Failure? <==> baseline == 0
    ensures baseline != 0 ==>
              var text := FormatNavPct(nav, baseline, decimals).value;
              var places := if decimals > 0 then decimals else 0;
              && ReadPct(text).Some? && ReadPct(text).value.places == places
              && HalfAway(ReadPct(text).value.units, (nav - baseline) * 100 * Pow10(places), baseline)
              && Canonical(text, ReadPct(text).value.units)
  {
    if baseline != 0 {
      var places := if decimals > 0 then decimals else 0;
      var n := (nav - baseline) * 100 * Pow10(places);
      DivRoundIsHalfAway(n, baseline);
      PrintReadsBack(DivRound(n, baseline), places);
      PrintIsCanonical(DivRound(n, baseline), places);
    }
  }
}
