/** Which texts are amounts, and which amount a text is. */
module DecimalLaws {
  import opened Common
  import opened Decimal

  /** One digit or more. */
  predicate IsNumeral(s: string) {
    s != "" && AllDigits(s)
  }

  /** Digits, and perhaps a point and one to 18 digits. */
  predicate IsAmountText(s: string) {
    || IsNumeral(s)
    || exists i ::
         0 <= i < |s| && s[i] == '.' && IsNumeral(s[..i]) && IsNumeral(s[i + 1..]) && |s| - (i + 1) <= SCALE
  }

  lemma {:induction false} WholeIs(s: string)
    ensures |Whole(s)| <= |s| && Whole(s) == s[..|Whole(s)|] && '.' !in Whole(s)
    ensures |Whole(s)| < |s| ==> s[|Whole(s)|] == '.'
  {
    if s != "" && s[0] != '.' {
      WholeIs(s[1..]);
      assert s == [s[0]] + s[1..];
    }
  }

  lemma AmountIsRead(raw: string)
    requires IsAmountText(raw)
    ensures ParsePlain(raw).Some?
  {
    hide ParsePlain, IsNumeral;
    if IsNumeral(raw) {
      WholeCounts(raw);
    } else {
      var i :| 0 <= i < |raw| && raw[i] == '.' && IsNumeral(raw[..i]) && IsNumeral(raw[i + 1..])
        && |raw| - (i + 1) <= SCALE;
      assert raw == raw[..i] + "." + raw[i + 1..];
      PointReads(raw[..i], raw[i + 1..]);
    }
  }

  lemma ReadIsAmount(raw: string)
    requires ParsePlain(raw).Some?
    ensures IsAmountText(raw)
  {
    hide AllDigits, ToNat, Places;
    WholeIs(raw);
    var n := |Whole(raw)|;
    assert n == |raw| ==> raw[..n] == raw;
    assert IsNumeral(raw[..n]);
  }

  lemma PlainIff(raw: string)
    ensures ParsePlain(raw).Some? <==> IsAmountText(raw)
  {
    hide ParsePlain, IsAmountText;
    if IsAmountText(raw) {
      AmountIsRead(raw);
    }
    if ParsePlain(raw).Some? {
      ReadIsAmount(raw);
    }
  }

  // ----- The value -----

  lemma Shift(x: nat, p: nat, t: nat, d: nat)
    ensures 10 * (x * p + t) + d == x * (10 * p) + (10 * t + d)
  {
    assert x * (10 * p) == 10 * (x * p);
  }

  lemma {:induction false} NumberAppend(a: string, b: string)
    ensures ToNat(a + b) == ToNat(a) * Power10(|b|) + ToNat(b)
  {
    if b == "" {
      assert a + b == a;
    } else {
      NumberAppendOne(a, b);
      NumberAppend(a, b[..|b| - 1]);
      hide ToNat;
      Shift(ToNat(a), Power10(|b| - 1), ToNat(b[..|b| - 1]), DigitOf(b[|b| - 1]));
    }
  }

  lemma NumberAppendOne(a: string, b: string)
    requires b != ""
    ensures ToNat(a + b) == 10 * ToNat(a + b[..|b| - 1]) + DigitOf(b[|b| - 1])
    ensures ToNat(b) == 10 * ToNat(b[..|b| - 1]) + DigitOf(b[|b| - 1])
  {
    assert (a + b)[..|a + b| - 1] == a + b[..|b| - 1];
  }

  lemma {:induction false} PowersAdd(a: nat, b: nat)
    ensures Power10(a + b) == Power10(a) * Power10(b)
  {
    if a > 0 {
      PowersAdd(a - 1, b);
    }
  }

  lemma {:induction false} ZerosLength(n: nat)
    ensures |Zeros(n)| == n
  {
    if n > 0 {
      ZerosLength(n - 1);
    }
  }

  lemma PaddedCounts(fraction: string, scale: nat)
    requires |fraction| <= scale
    ensures ToNat(fraction + Zeros(scale - |fraction|)) * Power10(|fraction|) == ToNat(fraction) * Power10(scale)
  {
    hide ToNat, Power10, Zeros;
    var k := scale - |fraction|;
    ZerosLength(k);
    ZerosAreZero(k);
    NumberAppend(fraction, Zeros(k));
    PowersAdd(k, |fraction|);
    Regroup(ToNat(fraction), Power10(k), Power10(|fraction|));
  }

  /** The places after the point are so many units. */
  lemma PlacesCount(fraction: string)
    requires |fraction| <= SCALE
    ensures Places(fraction) * Power10(|fraction|) == ToNat(fraction) * UNIT
  {
    hide ToNat, Power10, Zeros;
    PaddedCounts(fraction, SCALE);
    UnitIsPower();
  }

  lemma Regroup(a: nat, b: nat, c: nat)
    ensures (a * b) * c == a * (b * c)
  {
  }

  lemma Gather(a: nat, f: nat, p: nat, places: nat, unit: nat)
    requires places * p == f * unit
    ensures (a * unit + places) * p == (a * p + f) * unit
  {
    assert (a * unit) * p == (a * p) * unit;
    assert (a * unit + places) * p == (a * unit) * p + places * p;
    assert (a * p + f) * unit == (a * p) * unit + f * unit;
  }

  /** A number without a point is so many whole units. */
  lemma WholeCounts(integer: string)
    requires IsNumeral(integer)
    ensures ParsePlain(integer) == Some(ToNat(integer) * UNIT)
  {
    SplitWhole(integer);
  }

  lemma PointReads(integer: string, fraction: string)
    requires IsNumeral(integer) && IsNumeral(fraction) && |fraction| <= SCALE
    ensures ParsePlain(integer + "." + fraction) == Some(ToNat(integer) * UNIT + Places(fraction))
  {
    hide ToNat, Places;
    SplitBoth(integer, fraction);
  }

  /** A number with a point is the number its digits make without it, divided by ten for each place. */
  lemma PointCounts(integer: string, fraction: string)
    requires IsNumeral(integer) && IsNumeral(fraction) && |fraction| <= SCALE
    ensures ParsePlain(integer + "." + fraction).Some?
    ensures ParsePlain(integer + "." + fraction).value * Power10(|fraction|) == ToNat(integer + fraction) * UNIT
  {
    hide ToNat, Power10, Places, ParsePlain, IsNumeral;
    PointReads(integer, fraction);
    PlacesCount(fraction);
    NumberAppend(integer, fraction);
    Gather(ToNat(integer), ToNat(fraction), Power10(|fraction|), Places(fraction), UNIT);
  }

  lemma AmountStart(raw: string)
    requires IsAmountText(raw)
    ensures raw != "" && IsDigit(raw[0])
  {
    if !IsNumeral(raw) {
      var i :| 0 <= i < |raw| && raw[i] == '.' && IsNumeral(raw[..i]);
      assert raw[..i][0] == raw[0];
    }
  }

  /** Signed amounts are amounts with or without a minus sign, which turns them round. */
  lemma SignedIff(raw: string)
    requires Trimmed(raw)
    ensures SignedUnits(raw).Some? <==> IsAmountText(raw) || (raw != "" && raw[0] == '-' && IsAmountText(raw[1..]))
    ensures IsAmountText(raw) ==> SignedUnits(raw) == ParseUnits(raw)
    ensures raw != "" && raw[0] == '-' && IsAmountText(raw[1..]) ==>
      ParsePlain(raw[1..]).Some? && SignedUnits(raw) == Some(-(ParsePlain(raw[1..]).value as int))
  {
    NothingToTrim(raw);
    PlainIff(raw);
    if raw != "" && raw[0] == '-' {
      PlainIff(raw[1..]);
    }
    if IsAmountText(raw) {
      AmountStart(raw);
    }
    hide Trim, ParsePlain, IsAmountText;
  }
}
