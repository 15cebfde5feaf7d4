/** Provider prices as decimal texts, and the exact microdollar ceiling built from them. */
module Money {
  import opened Base
  import opened Decimal
  import opened JsonValue

  // ----- scaled_decimal (openrouter_transport.rs) -----

  const MAX_SHIFT := 38

  function ParseI32(text: string): Option<int> {
    var signed := text != "" && (text[0] == '+' || text[0] == '-');
    var digits := if signed then text[1..] else text;
    if digits == "" || !AllDigits(digits) then None
    else if signed && text[0] == '-' then
      if Value(digits) > 0x8000_0000 then None else Some(0 - Value(digits))
    else
      if Value(digits) > 0x7FFF_FFFF then None else Some(Value(digits))
  }

  function DivCeil(n: nat, d: nat): nat
    requires d > 0
  {
    n / d + if n % d == 0 then 0 else 1
  }

  function ScaledDecimal(value: Json, scale: u32): Result<u64, RuntimeError> {
    match value
    case Str(text) => ScaledText(text, scale)
    case Number(text) => ScaledText(text, scale)
    case _ => Err(Protocol)
  }

  function ScaledText(text: string, scale: u32): Result<u64, RuntimeError> {
    var parts := Split(text, {'e', 'E'});
    :- Guard(0 < |text| <= 64, Protocol);
    :- Guard(|parts| <= 2, Protocol);
    var exponent := if |parts| == 2 then ParseI32(parts[1]) else Some(0);
    :- Guard(exponent.Some? && -MAX_SHIFT <= exponent.value <= MAX_SHIFT, Protocol);
    var decimal := Split(parts[0], {'.'});
    :- Guard(|decimal| <= 2 && forall i :: 0 <= i < |decimal| ==> decimal[i] != "" && AllDigits(decimal[i]), Protocol);
    var fraction := if |decimal| == 2 then decimal[1] else "";
    var coefficient := Value(decimal[0] + fraction);
    ScaledAmount(coefficient, exponent.value + scale - |fraction|)
  }

  /** The amount `coefficient * 10^shift`, rounded up, when the 128-bit arithmetic fits. */
  function ScaledAmount(coefficient: nat, shift: int): Result<u64, RuntimeError> {
    if coefficient > U128_MAX then Err(Protocol)
    else if coefficient == 0 then Ok(0)
    else
      :- Guard(-MAX_SHIFT <= shift <= MAX_SHIFT, Protocol);
      var amount := Scaled(coefficient, shift);
      :- Guard(amount <= U64_MAX, Protocol);
      Ok(amount)
  }

  function Scaled(coefficient: nat, shift: int): nat {
    if shift >= 0 then coefficient * Pow10(shift) else DivCeil(coefficient, Pow10(-shift))
  }

  // ----- what a price text means -----

  /** A decimal numeral: digits, optionally a point and digits, optionally an exponent. */
  datatype Numeral = Numeral(whole: string, fraction: Option<string>, exponent: Option<Exponent>)
  datatype Exponent = Exponent(mark: char, sign: string, digits: string)

  predicate Sign(s: string) {
    s == "" || s == "+" || s == "-"
  }

  predicate WellFormed(n: Numeral) {
    && n.whole != "" && AllDigits(n.whole)
    && (n.fraction.Some? ==> n.fraction.value != "" && AllDigits(n.fraction.value))
    && (n.exponent.Some? ==>
          && n.exponent.value.mark in {'e', 'E'} && Sign(n.exponent.value.sign)
          && n.exponent.value.digits != "" && AllDigits(n.exponent.value.digits))
  }

  function Render(n: Numeral): string {
    n.whole
    + (if n.fraction.Some? then "." + n.fraction.value else "")
    + (if n.exponent.Some? then [n.exponent.value.mark] + n.exponent.value.sign + n.exponent.value.digits else "")
  }

  function FractionDigits(n: Numeral): string {
    if n.fraction.Some? then n.fraction.value else ""
  }

  function Coefficient(n: Numeral): nat
    requires WellFormed(n)
  {
    ValueConcat(n.whole, FractionDigits(n));
    Value(n.whole + FractionDigits(n))
  }

  function Power(n: Numeral): int
    requires WellFormed(n)
  {
    if n.exponent.None? then 0
    else if n.exponent.value.sign == "-" then 0 - Value(n.exponent.value.digits)
    else Value(n.exponent.value.digits)
  }

  /** 10 to an integer power. */
  function TenTo(k: int): (x: real)
    ensures x > 0.0
    decreases if k < 0 then -k else k
  {
    if k == 0 then 1.0 else if k > 0 then 10.0 * TenTo(k - 1) else TenTo(k + 1) / 10.0
  }

  /** The number a numeral stands for. */
  function Meaning(n: Numeral): real
    requires WellFormed(n)
  {
    Coefficient(n) as real * TenTo(Power(n) - |FractionDigits(n)|)
  }

  /** `n` is the least integer that is not below `x`. */
  predicate IsCeiling(n: nat, x: real) {
    x <= n as real < x + 1.0
  }

  lemma TenToStep(k: int)
    ensures TenTo(k + 1) == 10.0 * TenTo(k)
    ensures TenTo(k) == TenTo(k + 1) / 10.0 && TenTo(0) == 1.0
  {
  }

  lemma TensCommute(x: real, y: real)
    ensures x * (10.0 * y) == 10.0 * (x * y) && x * (y / 10.0) == x * y / 10.0
  {
  }

  lemma {:induction false} TenToAdd(a: int, b: int)
    ensures TenTo(a + b) == TenTo(a) * TenTo(b)
    decreases if b < 0 then -b else b
  {
    hide TenTo;
    TenToStep(0);
    if b > 0 {
      TenToAdd(a, b - 1);
      TenToStep(a + b - 1);
      TenToStep(b - 1);
      TensCommute(TenTo(a), TenTo(b - 1));
    } else if b < 0 {
      TenToAdd(a, b + 1);
      TenToStep(a + b);
      TenToStep(b);
      TensCommute(TenTo(a), TenTo(b + 1));
    }
  }

  lemma {:induction false} TenToPow10(k: nat)
    ensures TenTo(k) == Pow10(k) as real
  {
    if k > 0 {
      TenToPow10(k - 1);
    }
  }

  // ----- an accepted price is exactly the ceiling of the number written -----

  function Mantissa(n: Numeral): string {
    n.whole + (if n.fraction.Some? then "." + n.fraction.value else "")
  }

  lemma NumeralSplits(n: Numeral)
    requires WellFormed(n)
    ensures Split(Render(n), {'e', 'E'}) ==
              if n.exponent.None? then [Mantissa(n)]
              else [Mantissa(n), n.exponent.value.sign + n.exponent.value.digits]
    ensures Split(Mantissa(n), {'.'}) == if n.fraction.None? then [n.whole] else [n.whole, n.fraction.value]
  {
    var marks := {'e', 'E'};
    if n.exponent.Some? {
      var e := n.exponent.value;
      assert Render(n) == Mantissa(n) + [e.mark] + (e.sign + e.digits);
      SplitOnce(Mantissa(n), e.mark, e.sign + e.digits, marks);
    } else {
      assert Render(n) == Mantissa(n);
      SplitOnce(Mantissa(n), 'e', "", marks);
    }
    if n.fraction.Some? {
      assert Mantissa(n) == n.whole + ['.'] + n.fraction.value;
      SplitOnce(n.whole, '.', n.fraction.value, {'.'});
    } else {
      assert Mantissa(n) == n.whole;
      SplitOnce(n.whole, '.', "", {'.'});
    }
  }

  lemma SignedParses(sign: string, digits: string)
    requires Sign(sign) && digits != "" && AllDigits(digits)
    ensures var parsed := ParseI32(sign + digits);
            var k := if sign == "-" then 0 - Value(digits) else Value(digits);
            if -MAX_SHIFT <= k <= MAX_SHIFT then parsed == Some(k)
            else parsed.None? || !(-MAX_SHIFT <= parsed.value <= MAX_SHIFT)
  {
    if sign == "" {
      assert sign + digits == digits && IsDigit(digits[0]);
    } else {
      assert (sign + digits)[1..] == digits;
    }
  }

  function Shift(n: Numeral, scale: nat): int
    requires WellFormed(n)
  {
    Power(n) + scale - |FractionDigits(n)|
  }

  /** Which numerals are accepted, and with what amount. */
  predicate Accepted(n: Numeral, scale: nat, amount: nat)
    requires WellFormed(n)
  {
    && |Render(n)| <= 64
    && -MAX_SHIFT <= Power(n) <= MAX_SHIFT
    && Coefficient(n) <= U128_MAX
    && (Coefficient(n) == 0 || -MAX_SHIFT <= Shift(n, scale) <= MAX_SHIFT)
    && amount <= U64_MAX
    && IsCeiling(amount, Meaning(n) * TenTo(scale))
  }

  lemma DivCeilIsCeiling(a: nat, d: nat, x: real)
    requires d > 0 && x * d as real == a as real
    ensures IsCeiling(DivCeil(a, d), x)
  {
    var q, r := a / d, a % d;
    var gap := x - q as real;
    assert (q * d) as real == q as real * d as real;
    assert gap * d as real == r as real;
    RatioBelowOne(gap, d as real, r as real);
  }

  lemma RatioBelowOne(gap: real, d: real, r: real)
    requires d > 0.0 && gap * d == r && 0.0 <= r < d
    ensures 0.0 <= gap < 1.0 && (gap == 0.0 <==> r == 0.0)
  {
    Divide(gap, d, r);
    if r > 0.0 {
      Divide(1.0 - gap, d, d - r);
    }
  }

  lemma Divide(gap: real, d: real, r: real)
    requires d > 0.0 && gap * d == r
    ensures r > 0.0 ==> gap > 0.0
    ensures r == 0.0 ==> gap == 0.0
  {
  }

  lemma CeilingUnique(a: nat, b: nat, x: real)
    requires IsCeiling(a, x)
    ensures IsCeiling(b, x) <==> a == b
  {
  }

  lemma TenToInverse(k: nat)
    ensures TenTo(0 - k) * Pow10(k) as real == 1.0
  {
    TenToAdd(0 - k, k);
    TenToPow10(k);
    assert TenTo(0) == 1.0;
  }

  lemma ScaledIsCeiling(c: nat, shift: int)
    ensures IsCeiling(Scaled(c, shift), c as real * TenTo(shift))
  {
    hide Pow10;
    var t := TenTo(shift);
    if shift >= 0 {
      TenToPow10(shift);
      ScaledUp(c, Pow10(shift));
      assert IsCeiling(Scaled(c, shift), c as real * t);
    } else {
      TenToInverse(-shift);
      ScaledDown(c, Pow10(-shift), t);
      assert IsCeiling(Scaled(c, shift), c as real * t);
    }
  }

  lemma ScaledUp(c: nat, p: nat)
    ensures IsCeiling(c * p, c as real * p as real)
  {
    assert (c * p) as real == c as real * p as real;
  }

  lemma ScaledDown(c: nat, d: nat, t: real)
    requires d > 0 && t * d as real == 1.0
    ensures IsCeiling(DivCeil(c, d), c as real * t)
  {
    Reassociate(c as real, t, d as real);
    DivCeilIsCeiling(c, d, c as real * t);
  }

  lemma Reassociate(x: real, y: real, z: real)
    ensures x * y * z == x * (y * z)
  {
  }

  lemma MeaningProduct(n: Numeral, scale: nat)
    requires WellFormed(n)
    ensures Meaning(n) * TenTo(scale) == Coefficient(n) as real * TenTo(Shift(n, scale))
  {
    hide TenTo, Coefficient, FractionDigits, Power;
    var base := Power(n) - |FractionDigits(n)|;
    TenToAdd(base, scale);
    Reassociate(Coefficient(n) as real, TenTo(base), TenTo(scale));
  }

  lemma MeaningScaled(n: Numeral, scale: nat)
    requires WellFormed(n)
    ensures IsCeiling(Scaled(Coefficient(n), Shift(n, scale)), Meaning(n) * TenTo(scale))
    ensures Coefficient(n) == 0 ==> Meaning(n) * TenTo(scale) == 0.0
  {
    hide TenTo, Scaled, Meaning, Coefficient, Shift;
    MeaningProduct(n, scale);
    var c, t, x := Coefficient(n), TenTo(Shift(n, scale)), Meaning(n) * TenTo(scale);
    ScaledIsCeiling(c, Shift(n, scale));
    SameProduct(Scaled(c, Shift(n, scale)), c, t, x);
  }

  lemma SameProduct(amount: nat, c: nat, t: real, x: real)
    requires IsCeiling(amount, c as real * t) && x == c as real * t
    ensures IsCeiling(amount, x) && (c == 0 ==> x == 0.0)
  {
  }

  lemma AmountExact(c: nat, shift: int, x: real, amount: nat)
    requires IsCeiling(Scaled(c, shift), x) && (c == 0 ==> x == 0.0)
    ensures ScaledAmount(c, shift) == Ok(amount) <==>
            && c <= U128_MAX && (c == 0 || -MAX_SHIFT <= shift <= MAX_SHIFT)
            && amount <= U64_MAX && IsCeiling(amount, x)
  {
    hide Scaled;
    CeilingUnique(Scaled(c, shift), amount, x);
    CeilingUnique(Scaled(c, shift), 0, x);
  }

  lemma ScaledAmountAccepted(n: Numeral, scale: nat, amount: nat)
    requires WellFormed(n) && |Render(n)| <= 64 && -MAX_SHIFT <= Power(n) <= MAX_SHIFT
    ensures ScaledAmount(Coefficient(n), Shift(n, scale)) == Ok(amount) <==> Accepted(n, scale, amount)
  {
    hide ScaledAmount, Scaled, TenTo, Meaning, Coefficient, Shift;
    MeaningScaled(n, scale);
    AmountExact(Coefficient(n), Shift(n, scale), Meaning(n) * TenTo(scale), amount);
  }

  /** Reading back a numeral gives its coefficient, exponent and fraction length. */
  lemma NumeralRead(n: Numeral, scale: u32)
    requires WellFormed(n)
    ensures ScaledText(Render(n), scale) ==
              if |Render(n)| <= 64 && -MAX_SHIFT <= Power(n) <= MAX_SHIFT
              then ScaledAmount(Coefficient(n), Shift(n, scale)) else Err(Protocol)
  {
    hide ScaledAmount, Value, Pow10;
    NumeralSplits(n);
    assert n.whole + "" == n.whole;
    if n.exponent.Some? {
      SignedParses(n.exponent.value.sign, n.exponent.value.digits);
    }
  }

  lemma SignedDigits(text: string) returns (sign: string, digits: string)
    requires ParseI32(text).Some?
    ensures text == sign + digits && Sign(sign) && digits != "" && AllDigits(digits)
  {
    if text[0] == '+' || text[0] == '-' {
      sign, digits := [text[0]], text[1..];
    } else {
      sign, digits := "", text;
    }
  }

  lemma MantissaOf(text: string) returns (whole: string, fraction: Option<string>)
    requires var decimal := Split(text, {'.'});
             |decimal| <= 2 && forall i :: 0 <= i < |decimal| ==> decimal[i] != "" && AllDigits(decimal[i])
    ensures whole != "" && AllDigits(whole)
    ensures fraction.Some? ==> fraction.value != "" && AllDigits(fraction.value)
    ensures text == whole + (if fraction.Some? then "." + fraction.value else "")
  {
    SplitInverse(text, {'.'});
    var decimal := Split(text, {'.'});
    whole, fraction := decimal[0], if |decimal| == 2 then Some(decimal[1]) else None;
    assert |decimal| == 2 ==> text == decimal[0] + ("." + decimal[1]);
  }

  /** The parts that an accepted text is cut into. */
  predicate Shaped(text: string) {
    var parts := Split(text, {'e', 'E'});
    var decimal := Split(parts[0], {'.'});
    && |parts| <= 2 && (|parts| == 2 ==> ParseI32(parts[1]).Some?)
    && |decimal| <= 2 && forall i :: 0 <= i < |decimal| ==> decimal[i] != "" && AllDigits(decimal[i])
  }

  lemma AcceptedShape(text: string, scale: u32)
    requires ScaledText(text, scale).Ok?
    ensures Shaped(text)
  {
  }

  lemma ShapedIsNumeral(text: string) returns (n: Numeral)
    requires Shaped(text)
    ensures WellFormed(n) && Render(n) == text
  {
    hide ParseI32, Value;
    var parts := Split(text, {'e', 'E'});
    SplitInverse(text, {'e', 'E'});
    var whole, fraction := MantissaOf(parts[0]);
    if |parts| == 2 {
      var sign, digits := SignedDigits(parts[1]);
      var mark := text[|parts[0]|];
      n := Numeral(whole, fraction, Some(Exponent(mark, sign, digits)));
      assert Render(n) == parts[0] + ([mark] + sign + digits);
      assert text == parts[0] + ([mark] + parts[1]);
    } else {
      n := Numeral(whole, fraction, None);
      assert Render(n) == parts[0];
    }
  }

  /** A price text is accepted with an amount exactly when it is a numeral in range and the
      amount is the ceiling of the number written times ten to the scale: nothing is ever
      rounded down, and no text is accepted with two meanings. */
  lemma ScaledDecimalExact(text: string, scale: u32, amount: nat)
    ensures ScaledText(text, scale) == Ok(amount) <==>
            exists n :: WellFormed(n) && Render(n) == text && Accepted(n, scale, amount)
  {
    if ScaledText(text, scale).Ok? {
      AcceptedShape(text, scale);
      var n := ShapedIsNumeral(text);
      NumeralRead(n, scale);
      ScaledAmountAccepted(n, scale, amount);
    }
    forall n | WellFormed(n) && Render(n) == text && Accepted(n, scale, amount)
      ensures ScaledText(text, scale) == Ok(amount)
    {
      NumeralRead(n, scale);
      ScaledAmountAccepted(n, scale, amount);
    }
  }

  // ----- million_token_price (openrouter_request.rs) -----

  function TrimZeros(s: string): string {
    if s != "" && s[|s| - 1] == '0' then TrimZeros(s[..|s| - 1]) else s
  }

  function Padded3(n: nat): string
    requires n < 1000
  {
    [ '0' + (n / 100) as char, '0' + (n / 10 % 10) as char, '0' + (n % 10) as char ]
  }

  function MillionTokenPrice(nanodollars: nat): string {
    var whole, fraction := nanodollars / 1000, nanodollars % 1000;
    if fraction == 0 then Print(whole) else TrimZeros(Print(whole) + "." + Padded3(fraction))
  }

  /** Trimming zeros behind a point keeps the text before it and the thousandths it says. */
  lemma {:induction false} TrimmedThousandths(head: string, digits: string)
    requires AllDigits(digits) && |digits| <= 3 && Value(digits) > 0
    ensures exists kept :: && AllDigits(kept) && 0 < |kept| <= |digits|
                           && TrimZeros(head + "." + digits) == head + "." + kept
                           && Value(kept) * Pow10(|digits| - |kept|) == Value(digits)
    decreases |digits|
  {
    var text := head + "." + digits;
    if digits[|digits| - 1] == '0' {
      var shorter := digits[..|digits| - 1];
      assert text[..|text| - 1] == head + "." + shorter;
      TrimmedThousandths(head, shorter);
      var kept :| && AllDigits(kept) && 0 < |kept| <= |shorter|
                  && TrimZeros(head + "." + shorter) == head + "." + kept
                  && Value(kept) * Pow10(|shorter| - |kept|) == Value(shorter);
      assert Value(kept) * (10 * Pow10(|shorter| - |kept|)) == 10 * (Value(kept) * Pow10(|shorter| - |kept|));
    } else {
      assert Value(digits) * Pow10(0) == Value(digits);
    }
  }

  lemma Padded3Value(n: nat)
    requires n < 1000
    ensures AllDigits(Padded3(n)) && Value(Padded3(n)) == n
  {
    var s := Padded3(n);
    assert s[..2] == [s[0], s[1]] && [s[0], s[1]][..1] == [s[0]];
    assert Value([s[0]]) == n / 100;
    assert Value([s[0], s[1]]) == n / 10;
  }

  lemma {:induction false} PrintLength(n: nat, k: nat)
    requires n < Pow10(k) && k > 0
    ensures |Print(n)| <= k
    decreases k
  {
    if n >= 10 {
      PrintLength(n / 10, k - 1);
    }
  }

  /** The numeral that a rate is printed as. */
  lemma PriceNumeral(rate: u64) returns (n: Numeral)
    ensures WellFormed(n) && Render(n) == MillionTokenPrice(rate) && Power(n) == 0 && |FractionDigits(n)| <= 3
    ensures Coefficient(n) * Pow10(3 - |FractionDigits(n)|) == rate
    ensures |Render(n)| <= |Print(rate / 1000)| + 4
  {
    var whole, fraction := rate / 1000, rate % 1000;
    if fraction == 0 {
      n := Numeral(Print(whole), None, None);
      assert Print(whole) + "" == Print(whole);
      PrintDenotes(whole);
      Pow10Three();
    } else {
      n := FractionNumeral(whole, fraction);
    }
  }

  lemma FractionNumeral(whole: nat, fraction: nat) returns (n: Numeral)
    requires 0 < fraction < 1000
    ensures WellFormed(n) && Render(n) == TrimZeros(Print(whole) + "." + Padded3(fraction))
    ensures Power(n) == 0 && 0 < |FractionDigits(n)| <= 3
    ensures Coefficient(n) * Pow10(3 - |FractionDigits(n)|) == 1000 * whole + fraction
    ensures |Render(n)| <= |Print(whole)| + 4
  {
    hide Print, TrimZeros, Value;
    Padded3Value(fraction);
    TrimmedThousandths(Print(whole), Padded3(fraction));
    var kept :| && AllDigits(kept) && 0 < |kept| <= 3
                && TrimZeros(Print(whole) + "." + Padded3(fraction)) == Print(whole) + "." + kept
                && Value(kept) * Pow10(3 - |kept|) == fraction;
    n := Numeral(Print(whole), Some(kept), None);
    assert Render(n) == Print(whole) + "." + kept;
    PrintDenotes(whole);
    ValueConcat(Print(whole), kept);
    Pow10Add(|kept|, 3 - |kept|);
    Pow10Three();
    Thousandths(whole, Value(kept), Pow10(|kept|), Pow10(3 - |kept|));
  }

  lemma Thousandths(whole: nat, kept: nat, p: nat, q: nat)
    requires p * q == 1000
    ensures (whole * p + kept) * q == 1000 * whole + kept * q
  {
    assert (whole * p) * q == whole * (p * q);
  }

  lemma Pow10Three()
    ensures Pow10(3) == 1000
  {
    assert Pow10(1) == 10;
  }

  lemma Pow10Twenty()
    ensures Pow10(20) == 100_000_000_000_000_000_000
  {
    assert Pow10(5) == 100_000;
    Pow10Add(5, 5);
    Pow10Add(10, 10);
  }

  lemma WholePrinted(rate: u64)
    ensures |Print(rate / 1000)| <= 20
  {
    hide Print;
    Pow10Twenty();
    PrintLength(rate / 1000, 20);
  }

  lemma AmountFits(c: nat, shift: nat, rate: u64)
    requires c * Pow10(shift) == rate && shift <= 3
    ensures ScaledAmount(c, shift) == Ok(rate)
  {
    hide Pow10;
    assert c <= c * Pow10(shift);
  }

  /** Printing a rate as a price per million tokens and reading it back gives the rate, so
      the trimming of zeros never changes the price ceiling sent to the provider. */
  lemma PriceRoundTrip(rate: u64)
    ensures ScaledDecimal(Str(MillionTokenPrice(rate)), 3) == Ok(rate)
  {
    hide ScaledAmount, Pow10, ScaledText, Print, MillionTokenPrice;
    var n := PriceNumeral(rate);
    WholePrinted(rate);
    NumeralRead(n, 3);
    AmountFits(Coefficient(n), Shift(n, 3), rate);
  }
}
