/** Decimal amounts in text form, counted in units of 10^-18. */
module Decimal {
  import opened Common

  const SCALE := 18

  const UNIT: nat := 1000000000000000000

  predicate AllDigits(s: string) {
    forall i :: 0 <= i < |s| ==> IsDigit(s[i])
  }

  function DigitOf(c: char): nat {
    if IsDigit(c) then c as int - '0' as int else 0
  }

  function CharOf(d: nat): char
    requires d < 10
  {
    ('0' as int + d) as char
  }

  function ToNat(s: string): nat {
    if s == "" then 0 else 10 * ToNat(s[..|s| - 1]) + DigitOf(s[|s| - 1])
  }

  function Zeros(n: nat): string {
    if n == 0 then "" else Zeros(n - 1) + "0"
  }

  /** The part of the text before the first point, or all of it. */
  function Whole(s: string): string {
    if s == "" || s[0] == '.' then "" else [s[0]] + Whole(s[1..])
  }

  // ----- Reading -----

  /** The text before the first point, and the text after it if there is one. */
  function Split(raw: string): (string, Option<string>) {
    var integer := Whole(raw);
    (integer, if |integer| >= |raw| then None else Some(raw[|integer| + 1..]))
  }

  function Places(fraction: string): nat
    requires |fraction| <= SCALE
  {
    ToNat(fraction + Zeros(SCALE - |fraction|))
  }

  function ParseParts(integer: string, fraction: Option<string>): Option<nat> {
    if integer == "" || !AllDigits(integer) then None
    else match fraction
      case None => Some(ToNat(integer) * UNIT)
      case Some(f) =>
        if 1 <= |f| <= SCALE && AllDigits(f) then Some(ToNat(integer) * UNIT + Places(f)) else None
  }

  /** The pattern `\d+(\.\d{1,18})?`. */
  function ParsePlain(raw: string): Option<nat> {
    var (integer, fraction) := Split(raw);
    ParseParts(integer, fraction)
  }

  function ParseUnits(value: string): Option<nat> {
    ParsePlain(Trim(value))
  }

  function SignedUnits(value: string): Option<int> {
    var raw := Trim(value);
    if raw != "" && raw[0] == '-' then
      match ParsePlain(raw[1..])
      case None => None
      case Some(units) => Some(-(units as int))
    else
      match ParsePlain(raw)
      case None => None
      case Some(units) => Some(units)
  }

  // ----- Writing -----

  function Digits(n: nat): string {
    if n < 10 then [CharOf(n)] else Digits(n / 10) + [CharOf(n % 10)]
  }

  function PadStart(s: string, width: nat): string
    decreases width - |s|
  {
    if |s| >= width then s else PadStart("0" + s, width)
  }

  function StripZeros(s: string): string {
    if s != "" && s[|s| - 1] == '0' then StripZeros(s[..|s| - 1]) else s
  }

  /** The places after the point, without trailing zeros. */
  function Fraction(n: nat): string {
    StripZeros(PadStart(Digits(n), SCALE))
  }

  function WriteParts(integer: nat, fraction: nat): string {
    if Fraction(fraction) != "" then Digits(integer) + "." + Fraction(fraction) else Digits(integer)
  }

  function ToDecimal(units: nat): string {
    WriteParts(units / UNIT, units % UNIT)
  }

  function SignedText(units: int): string {
    if units < 0 then "-" + ToDecimal(-units) else ToDecimal(units)
  }

  // ----- Reading what was written -----

  lemma {:induction false} DigitsRead(n: nat)
    ensures ToNat(Digits(n)) == n && AllDigits(Digits(n)) && Digits(n) != ""
  {
    if n < 10 {
      assert [CharOf(n)][..0] == "";
    } else {
      var front := Digits(n / 10);
      DigitsRead(n / 10);
      assert (front + [CharOf(n % 10)])[..|front|] == front;
    }
  }

  lemma {:induction false} DigitsShort(n: nat, width: nat, bound: nat)
    requires 1 <= width && n < bound && bound == Power10(width)
    ensures |Digits(n)| <= width
    decreases width
  {
    assert Power10(1) == 10;
    if n >= 10 {
      DigitsShort(n / 10, width - 1, Power10(width - 1));
    }
  }

  function Power10(n: nat): nat {
    if n == 0 then 1 else 10 * Power10(n - 1)
  }

  lemma UnitIsPower()
    ensures UNIT == Power10(SCALE)
  {
    assert Power10(6) == 1000000;
    assert Power10(12) == 1000000000000 by {
      assert Power10(9) == 1000 * Power10(6);
      assert Power10(12) == 1000 * Power10(9);
    }
    assert Power10(15) == 1000 * Power10(12);
    assert Power10(18) == 1000 * Power10(15);
  }

  lemma {:induction false} LeadingZero(s: string)
    ensures ToNat("0" + s) == ToNat(s)
  {
    if s == "" {
      assert ("0" + s)[..0] == "";
    } else {
      assert ("0" + s)[..|s|] == "0" + s[..|s| - 1];
      LeadingZero(s[..|s| - 1]);
    }
  }

  lemma {:induction false} PadKeepsValue(s: string, width: nat)
    requires AllDigits(s)
    ensures ToNat(PadStart(s, width)) == ToNat(s) && AllDigits(PadStart(s, width))
    ensures |s| <= width ==> |PadStart(s, width)| == width
    decreases width - |s|
  {
    if |s| < width {
      LeadingZero(s);
      PadKeepsValue("0" + s, width);
    }
  }

  /** Zeros taken off the end and put back. */
  lemma {:induction false} StripRestores(s: string)
    ensures |StripZeros(s)| <= |s| && StripZeros(s) + Zeros(|s| - |StripZeros(s)|) == s
    ensures AllDigits(s) ==> AllDigits(StripZeros(s))
  {
    if s != "" && s[|s| - 1] == '0' {
      var front := s[..|s| - 1];
      StripRestores(front);
      var t := StripZeros(front);
      assert Zeros(|s| - |t|) == Zeros(|front| - |t|) + "0";
      assert t + (Zeros(|front| - |t|) + "0") == (t + Zeros(|front| - |t|)) + "0" == s;
    } else {
      assert Zeros(0) == "" && s + "" == s;
    }
  }

  lemma {:induction false} WholeStops(digits: string, rest: string)
    requires AllDigits(digits) && (rest == "" || rest[0] == '.')
    ensures Whole(digits + rest) == digits
  {
    if digits == "" {
      assert digits + rest == rest;
    } else {
      assert (digits + rest)[1..] == digits[1..] + rest;
      WholeStops(digits[1..], rest);
      assert digits == [digits[0]] + digits[1..];
    }
  }

  lemma SplitWhole(integer: string)
    requires AllDigits(integer)
    ensures Split(integer) == (integer, None)
  {
    WholeStops(integer, "");
    assert integer + "" == integer;
  }

  lemma SplitBoth(integer: string, fraction: string)
    requires AllDigits(integer)
    ensures Split(integer + "." + fraction) == (integer, Some(fraction))
  {
    var raw := integer + "." + fraction;
    assert raw == integer + ("." + fraction);
    WholeStops(integer, "." + fraction);
    assert raw[|integer| + 1..] == fraction;
  }

  lemma FractionReads(n: nat)
    requires n < UNIT
    ensures |Fraction(n)| <= SCALE && AllDigits(Fraction(n))
    ensures Places(Fraction(n)) == n
    ensures Fraction(n) == "" ==> n == 0
  {
    var padded := PadStart(Digits(n), SCALE);
    DigitsRead(n);
    UnitIsPower();
    DigitsShort(n, SCALE, UNIT);
    PadKeepsValue(Digits(n), SCALE);
    StripRestores(padded);
    if Fraction(n) == "" {
      assert padded == Zeros(SCALE);
      ZerosAreZero(SCALE);
    }
  }

  lemma PartsRead(integer: nat, fraction: nat)
    requires fraction < UNIT
    ensures ParsePlain(WriteParts(integer, fraction)) == Some(integer * UNIT + fraction)
  {
    DigitsRead(integer);
    FractionReads(fraction);
    if Fraction(fraction) == "" {
      SplitWhole(Digits(integer));
    } else {
      SplitBoth(Digits(integer), Fraction(fraction));
    }
  }

  /** Reading back what was written gives the same number of units. */
  lemma PlainRoundTrip(units: nat)
    ensures ParsePlain(ToDecimal(units)) == Some(units)
  {
    PartsRead(units / UNIT, units % UNIT);
  }

  lemma WrittenEnds(units: nat)
    ensures ToDecimal(units) != ""
    ensures IsDigit(ToDecimal(units)[0]) && IsDigit(ToDecimal(units)[|ToDecimal(units)| - 1])
  {
    var integer, fraction := Digits(units / UNIT), Fraction(units % UNIT);
    DigitsRead(units / UNIT);
    FractionReads(units % UNIT);
    if fraction != "" {
      var text := integer + "." + fraction;
      assert text[0] == integer[0] && text[|text| - 1] == fraction[|fraction| - 1];
    }
  }

  lemma {:induction false} ZerosAreZero(n: nat)
    ensures ToNat(Zeros(n)) == 0
  {
    if n > 0 {
      assert Zeros(n)[..|Zeros(n)| - 1] == Zeros(n - 1);
      ZerosAreZero(n - 1);
    }
  }

  lemma UnitsRoundTrip(units: nat)
    ensures ParseUnits(ToDecimal(units)) == Some(units)
  {
    PlainRoundTrip(units);
    WrittenEnds(units);
    NothingToTrim(ToDecimal(units));
  }

  lemma AfterSign(digits: string)
    ensures ("-" + digits)[1..] == digits
  {
  }

  lemma NegativeTrims(digits: string)
    requires digits != "" && IsDigit(digits[|digits| - 1])
    ensures Trim("-" + digits) == "-" + digits
  {
    var text := "-" + digits;
    assert text[0] == '-' && text[|text| - 1] == digits[|digits| - 1];
    NothingToTrim(text);
  }

  lemma NegativeRoundTrip(units: nat)
    ensures SignedUnits("-" + ToDecimal(units)) == Some(-(units as int))
  {
    hide ToDecimal, ParsePlain;
    PlainRoundTrip(units);
    WrittenEnds(units);
    NegativeTrims(ToDecimal(units));
    AfterSign(ToDecimal(units));
  }

  lemma PositiveRoundTrip(units: nat)
    ensures SignedUnits(ToDecimal(units)) == Some(units)
  {
    hide ToDecimal, ParsePlain;
    PlainRoundTrip(units);
    WrittenEnds(units);
    NothingToTrim(ToDecimal(units));
  }

  lemma SignedRoundTrip(units: int)
    ensures SignedUnits(SignedText(units)) == Some(units)
  {
    hide SignedUnits, ToDecimal;
    if units < 0 {
      NegativeRoundTrip(-units);
    } else {
      PositiveRoundTrip(units);
    }
  }

  /** The normal form of a readable amount; another text is its own. */
  function Normalize(value: string): string {
    match ParseUnits(value)
    case None => value
    case Some(units) => ToDecimal(units)
  }

  /** Two readable amounts have the same normal form exactly when they are the same number. */
  lemma NormalFormDecidesAmount(a: string, b: string)
    requires ParseUnits(a).Some? && ParseUnits(b).Some?
    ensures Normalize(a) == Normalize(b) <==> ParseUnits(a) == ParseUnits(b)
    ensures Normalize(Normalize(a)) == Normalize(a)
  {
    UnitsRoundTrip(ParseUnits(a).value);
    UnitsRoundTrip(ParseUnits(b).value);
  }

  lemma SignedTextDecidesAmount(a: int, b: int)
    ensures SignedText(a) == SignedText(b) <==> a == b
  {
    SignedRoundTrip(a);
    SignedRoundTrip(b);
  }
}
