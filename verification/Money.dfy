/**
 Exact amounts: canonical decimal texts of 256-bit integers, and the conversion
 between them and decimals with a fixed number of fraction digits.
 */
module Money {
  import opened Prelude

  datatype MoneyError = NonCanonicalAmount | AmountOverflow | InvalidPrecision | InvalidDecimal | ExcessPrecision

  /** 2 to the power 256, minus one. */
  const MAX_INTEGER: int := 0xffff_ffff_ffff_ffff_ffff_ffff_ffff_ffff_ffff_ffff_ffff_ffff_ffff_ffff_ffff_ffff

  const MAX_DIGITS := 78
  const MAX_DECIMALS := 36
  const MAX_TEXT := 115

  // ---- digit texts ----------------------------------------------------------

  predicate IsDigit(c: char) { '0' <= c <= '9' }

  predicate Digits(s: string) { forall c <- s :: IsDigit(c) }

  function DigitValue(c: char): nat
    requires IsDigit(c)
  {
    c as int - '0' as int
  }

  function DigitChar(n: nat): char
    requires n < 10
  {
    ('0' as int + n) as char
  }

  function Pow10(n: nat): nat { if n == 0 then 1 else 10 * Pow10(n - 1) }

  /** BigInt of a digit text; the empty text counts as zero. */
  function Value(s: string): nat
    requires Digits(s)
  {
    if s == [] then 0 else 10 * Value(s[..|s| - 1]) + DigitValue(s[|s| - 1])
  }

  /** The decimal text of an integer. */
  function ToText(n: nat): string {
    if n < 10 then [DigitChar(n)] else ToText(n / 10) + [DigitChar(n % 10)]
  }

  /** No digits but the single zero start with zero. */
  predicate Canonical(s: string) {
    s != [] && Digits(s) && (s[0] == '0' ==> |s| == 1)
  }

  function Zeros(n: nat): string { seq(n, _ => '0') }

  function PadStart(s: string, n: nat): string { if |s| < n then Zeros(n - |s|) + s else s }

  function PadEnd(s: string, n: nat): string { if |s| < n then s + Zeros(n - |s|) else s }

  lemma {:induction false} TextOfValue(n: nat)
    ensures Canonical(ToText(n)) && Value(ToText(n)) == n
    ensures n > 0 ==> ToText(n)[0] != '0'
  {
    if n >= 10 {
      TextOfValue(n / 10);
      assert ToText(n)[..|ToText(n)| - 1] == ToText(n / 10);
    }
  }

  lemma Shift(x: nat, p: nat, y: nat, d: nat)
    ensures 10 * (x * p + y) + d == x * (10 * p) + (10 * y + d)
  {}

  lemma {:induction false} ValueConcat(a: string, b: string)
    requires Digits(a) && Digits(b)
    ensures Digits(a + b) && Value(a + b) == Value(a) * Pow10(|b|) + Value(b)
  {
    if b == [] {
      assert a + b == a;
    } else {
      var n := |b| - 1;
      ValueConcat(a, b[..n]);
      assert (a + b)[..|a + b| - 1] == a + b[..n];
      Shift(Value(a), Pow10(n), Value(b[..n]), DigitValue(b[n]));
    }
  }

  lemma {:induction false} ValueBound(s: string)
    requires Digits(s)
    ensures Value(s) < Pow10(|s|)
  {
    if s != [] {
      var n := |s| - 1;
      ValueBound(s[..n]);
      assert Pow10(|s|) == 10 * Pow10(n) && DigitValue(s[n]) < 10;
    }
  }

  /** Texts of the same length with the same value are the same. */
  lemma {:induction false} ValueInjective(a: string, b: string)
    requires Digits(a) && Digits(b) && |a| == |b| && Value(a) == Value(b)
    ensures a == b
  {
    if a != [] {
      var n := |a| - 1;
      assert DigitValue(a[n]) < 10 && DigitValue(b[n]) < 10;
      assert 10 * Value(a[..n]) + DigitValue(a[n]) == 10 * Value(b[..n]) + DigitValue(b[n]);
      ValueInjective(a[..n], b[..n]);
      assert a == a[..n] + [a[n]] && b == b[..n] + [b[n]];
    }
  }

  lemma {:induction false} ZerosValue(n: nat)
    ensures Digits(Zeros(n)) && Value(Zeros(n)) == 0
  {
    if n > 0 {
      ZerosValue(n - 1);
      assert Zeros(n)[..n - 1] == Zeros(n - 1);
    }
  }

  lemma PadStartValue(s: string, n: nat)
    requires Digits(s)
    ensures Digits(PadStart(s, n)) && Value(PadStart(s, n)) == Value(s) && |PadStart(s, n)| == if |s| < n then n else |s|
  {
    if |s| < n {
      ZerosValue(n - |s|);
      ValueConcat(Zeros(n - |s|), s);
    }
  }

  /** A value below 10^n prints in at most n digits. */
  lemma {:induction false} TextLength(n: nat, k: nat)
    requires 1 <= k && n < Pow10(k)
    ensures |ToText(n)| <= k
  {
    if n >= 10 {
      assert k > 1;
      TextLength(n / 10, k - 1);
    }
  }

  /** A text without a leading zero is the text of its value. */
  lemma {:induction false} CanonicalText(s: string)
    requires Canonical(s)
    ensures ToText(Value(s)) == s
  {
    var n := |s| - 1;
    if n == 0 {
      assert s[..0] == [];
      assert s == [s[0]];
    } else {
      assert Canonical(s[..n]) && s == s[..n] + [s[n]];
      CanonicalText(s[..n]);
      TextOfValue(Value(s[..n]));
      NonZero(s[..n]);
      var v, d := Value(s[..n]), DigitValue(s[n]);
      assert Value(s) == 10 * v + d && (10 * v + d) / 10 == v && (10 * v + d) % 10 == d;
      assert DigitChar(d) == s[n];
    }
  }

  lemma {:induction false} NonZero(s: string)
    requires Digits(s) && s != [] && s[0] != '0'
    ensures Value(s) > 0
  {
    if |s| > 1 {
      NonZero(s[..|s| - 1]);
    } else {
      assert s[..0] == [];
    }
  }

  // ---- amounts --------------------------------------------------------------

  function Unsigned(s: string): Result<nat, MoneyError> {
    if !Canonical(s) || |s| > MAX_DIGITS then Err(NonCanonicalAmount)
    else if Value(s) > MAX_INTEGER then Err(AmountOverflow)
    else Ok(Value(s))
  }

  function Signed(s: string): Result<int, MoneyError> {
    var negative := s != [] && s[0] == '-';
    var digits := if negative then s[1..] else s;
    if !Canonical(digits) || |digits| > MAX_DIGITS || (negative && digits == "0") then Err(NonCanonicalAmount)
    else if Value(digits) > MAX_INTEGER then Err(AmountOverflow)
    else
      var magnitude: int := Value(digits);
      Ok(if negative then -magnitude else magnitude)
  }

  lemma MaxFits()
    ensures MAX_INTEGER < Pow10(MAX_DIGITS)
  {
    assert Pow10(3) == 1000 && Pow10(5) == 1_00000;
    PowSum(5, 3);
    PowSum(5, 5);
    assert Pow10(10) == 1_00000_00000;
    PowSum(10, 8);
    PowSum(10, 10);
    PowSum(20, 18);
    PowSum(20, 20);
    PowSum(40, 38);
  }

  lemma {:induction false} PowSum(a: nat, b: nat)
    ensures Pow10(a + b) == Pow10(a) * Pow10(b)
  {
    if a > 0 {
      PowSum(a - 1, b);
      assert 10 * Pow10(a - 1) * Pow10(b) == 10 * (Pow10(a - 1) * Pow10(b));
    }
  }

  /** Unsigned and toString are inverse: each accepted text is the text of its value, and each value has one. */
  lemma UnsignedRoundTrip(s: string, n: nat)
    ensures n <= MAX_INTEGER ==> Unsigned(ToText(n)) == Ok(n)
    ensures Unsigned(s).Ok? ==> ToText(Unsigned(s).value) == s && Unsigned(s).value <= MAX_INTEGER
  {
    if n <= MAX_INTEGER {
      MaxFits();
      TextOfValue(n);
      TextLength(n, MAX_DIGITS);
    }
    if Unsigned(s).Ok? { CanonicalText(s); }
  }

  /** The decimal text of a signed integer. */
  function SignedText(n: int): string { if n < 0 then "-" + ToText(-n) else ToText(n) }

  /** The same for signed amounts; there is no negative zero. */
  lemma SignedRoundTrip(s: string, n: int)
    ensures -MAX_INTEGER <= n <= MAX_INTEGER ==> Signed(SignedText(n)) == Ok(n)
    ensures Signed(s).Ok? ==> SignedText(Signed(s).value) == s && -MAX_INTEGER <= Signed(s).value <= MAX_INTEGER
  {
    if -MAX_INTEGER <= n <= MAX_INTEGER { SignedOfText(n); }
    if Signed(s).Ok? { TextOfSigned(s); }
  }

  lemma SignedOfText(n: int)
    requires -MAX_INTEGER <= n <= MAX_INTEGER
    ensures Signed(SignedText(n)) == Ok(n)
  {
    var m: nat := if n < 0 then -n else n;
    MaxFits();
    TextOfValue(m);
    TextLength(m, MAX_DIGITS);
    hide Value, ToText, Pow10;
    if n < 0 {
      assert SignedText(n)[1..] == ToText(m);
    } else {
      assert IsDigit(ToText(m)[0]);
    }
  }

  lemma TextOfSigned(s: string)
    requires Signed(s).Ok?
    ensures SignedText(Signed(s).value) == s && -MAX_INTEGER <= Signed(s).value <= MAX_INTEGER
  {
    if s[0] == '-' {
      CanonicalText(s[1..]);
      MinusIsNegative(s);
    } else {
      CanonicalText(s);
    }
  }

  lemma MinusIsNegative(s: string)
    requires s != [] && s[0] == '-' && Canonical(s[1..]) && s[1..] != "0"
    ensures Value(s[1..]) > 0 && s == "-" + s[1..]
  {
    var digits := s[1..];
    assert |digits| > 1 || digits == [digits[0]];
    NonZero(digits);
  }

  // ---- fixed decimals -------------------------------------------------------

  function DotIndex(s: string): (i: nat)
    ensures i <= |s| && (forall j :: 0 <= j < i ==> s[j] != '.') && (i < |s| ==> s[i] == '.')
  {
    if s == [] || s[0] == '.' then 0 else 1 + DotIndex(s[1..])
  }

  function Whole(s: string): string { s[..DotIndex(s)] }

  function Fraction(s: string): string { if DotIndex(s) < |s| then s[DotIndex(s) + 1..] else [] }

  predicate IsDecimal(s: string) {
    Canonical(Whole(s)) && Digits(Fraction(s)) && (DotIndex(s) < |s| ==> Fraction(s) != [])
  }

  predicate ValidDecimals(d: int) { 0 <= d <= MAX_DECIMALS }

  lemma PadEndDigits(s: string, n: nat)
    requires Digits(s)
    ensures Digits(PadEnd(s, n))
  {
    if |s| < n { ZerosValue(n - |s|); }
  }

  function ParseUnits(s: string, d: int): Result<string, MoneyError> {
    if !ValidDecimals(d) then Err(InvalidPrecision)
    else if |s| > MAX_TEXT || !IsDecimal(s) then Err(InvalidDecimal)
    else if |Fraction(s)| > d then Err(ExcessPrecision)
    else
      PadEndDigits(Fraction(s), d);
      var text := ToText(Value(Whole(s)) * Pow10(d) + Value(PadEnd(Fraction(s), d)));
      if Unsigned(text).Ok? then Ok(ToText(Unsigned(text).value)) else Err(Unsigned(text).error)
  }

  function FormatUnits(s: string, d: int): Result<string, MoneyError> {
    if Unsigned(s).Err? then Err(Unsigned(s).error)
    else if !ValidDecimals(d) then Err(InvalidPrecision)
    else
      var text := ToText(Unsigned(s).value);
      if d == 0 then Ok(text)
      else
        var padded := PadStart(text, d + 1);
        Ok(padded[..|padded| - d] + "." + padded[|padded| - d..])
  }

  lemma DotAt(a: string, b: string)
    requires Digits(a)
    ensures DotIndex(a + "." + b) == |a| && Whole(a + "." + b) == a && Fraction(a + "." + b) == b
  {
    var s := a + "." + b;
    assert forall j :: 0 <= j < |a| ==> s[j] == a[j] && IsDigit(a[j]);
    assert s[|a|] == '.';
  }

  lemma NoDot(a: string)
    requires Digits(a)
    ensures DotIndex(a) == |a| && Whole(a) == a && Fraction(a) == []
  {
    assert a[..|a|] == a;
    assert forall j :: 0 <= j < |a| ==> IsDigit(a[j]);
  }

  /** The padded text splits into a canonical whole part and d fraction digits. */
  lemma PaddedSplit(n: nat, d: nat)
    requires 1 <= d
    ensures var p := PadStart(ToText(n), d + 1);
            |p| >= d + 1 && Digits(p) && Value(p) == n
            && Canonical(p[..|p| - d]) && Digits(p[|p| - d..])
  {
    var t, p := ToText(n), PadStart(ToText(n), d + 1);
    TextOfValue(n);
    PadStartValue(t, d + 1);
    assert p[0] == '0' ==> |p| == d + 1;
  }

  /** Parsing a whole part and exactly d fraction digits gives the text of the joined digits. */
  lemma ParseJoined(whole: string, fraction: string, d: int)
    requires ValidDecimals(d) && 1 <= d == |fraction| && Canonical(whole) && Digits(fraction)
    requires |whole| + 1 + d <= MAX_TEXT && Value(whole + fraction) <= MAX_INTEGER
    ensures ParseUnits(whole + "." + fraction, d) == Ok(ToText(Value(whole + fraction)))
  {
    hide Value, Pow10, ToText, Unsigned, DotIndex;
    DotAt(whole, fraction);
    assert PadEnd(fraction, d) == fraction;
    ValueConcat(whole, fraction);
    UnsignedRoundTrip([], Value(whole + fraction));
  }

  lemma ParseWhole(s: string)
    requires Unsigned(s).Ok?
    ensures ParseUnits(s, 0) == Ok(s)
  {
    NoDot(s);
    assert PadEnd([], 0) == [];
    UnsignedRoundTrip(s, Value(s));
    assert Value(s) * Pow10(0) + Value([]) == Value(s);
  }

  /** The two parts formatting makes. */
  lemma FormatParts(s: string, d: int) returns (whole: string, fraction: string)
    requires Unsigned(s).Ok? && ValidDecimals(d) && 1 <= d
    ensures |fraction| == d && Canonical(whole) && Digits(fraction) && |whole| + 1 + d <= MAX_TEXT
    ensures FormatUnits(s, d) == Ok(whole + "." + fraction)
    ensures Digits(whole + fraction) && Value(whole + fraction) <= MAX_INTEGER && ToText(Value(whole + fraction)) == s
  {
    var n := Unsigned(s).value;
    UnsignedRoundTrip(s, n);
    hide Value, Pow10, ToText;
    var p := PadStart(s, d + 1);
    PaddedSplit(n, d);
    whole, fraction := p[..|p| - d], p[|p| - d..];
    assert whole + fraction == p;
  }

  /** Every canonical amount survives formatting and parsing. */
  lemma ParseAfterFormat(s: string, d: int)
    requires Unsigned(s).Ok? && ValidDecimals(d)
    ensures FormatUnits(s, d).Ok? && ParseUnits(FormatUnits(s, d).value, d) == Ok(s)
  {
    if d == 0 {
      UnsignedRoundTrip(s, Unsigned(s).value);
      ParseWhole(s);
    } else {
      hide Value, Pow10, ToText, ParseUnits, FormatUnits, Unsigned;
      var whole, fraction := FormatParts(s, d);
      ParseJoined(whole, fraction, d);
    }
  }

  /** What formatting makes of an accepted decimal: its fraction padded on the right. */
  function Normalized(s: string, d: nat): string {
    if d == 0 then Whole(s) else Whole(s) + "." + PadEnd(Fraction(s), d)
  }

  lemma PaddedText(whole: string, fraction: string, d: nat)
    requires 1 <= d == |fraction| && Canonical(whole) && Digits(fraction)
    ensures Digits(whole + fraction) && PadStart(ToText(Value(whole + fraction)), d + 1) == whole + fraction
  {
    var t := whole + fraction;
    if whole[0] == '0' {
      ValueConcat(whole, fraction);
      assert whole == "0";
      assert whole[..0] == [] && Value(whole) == 0;
      ValueBound(fraction);
      TextLength(Value(t), d);
      TextOfValue(Value(t));
      PadStartValue(ToText(Value(t)), d + 1);
      ValueInjective(PadStart(ToText(Value(t)), d + 1), t);
    } else {
      assert Canonical(t);
      CanonicalText(t);
    }
  }

  lemma FormatJoined(whole: string, fraction: string, d: int)
    requires ValidDecimals(d) && 1 <= d == |fraction| && Canonical(whole) && Digits(fraction)
    requires Digits(whole + fraction) && Value(whole + fraction) <= MAX_INTEGER
    ensures FormatUnits(ToText(Value(whole + fraction)), d) == Ok(whole + "." + fraction)
  {
    hide Value, Pow10, ToText, Unsigned;
    var p := whole + fraction;
    UnsignedRoundTrip([], Value(p));
    PaddedText(whole, fraction, d);
    assert p[..|p| - d] == whole && p[|p| - d..] == fraction;
  }

  lemma FormatWhole(whole: string)
    requires Canonical(whole) && Value(whole) <= MAX_INTEGER
    ensures FormatUnits(whole, 0) == Ok(whole)
  {
    UnsignedRoundTrip(whole, Value(whole));
    CanonicalText(whole);
  }

  /** What an accepted decimal parses to. */
  lemma ParsedAs(s: string, d: int)
    requires ParseUnits(s, d).Ok?
    ensures var whole, fraction := Whole(s), PadEnd(Fraction(s), d);
            Canonical(whole) && Digits(fraction) && |fraction| == d && Digits(whole + fraction)
            && Value(whole + fraction) <= MAX_INTEGER
            && ParseUnits(s, d) == Ok(ToText(Value(whole + fraction)))
  {
    var whole, fraction := Whole(s), PadEnd(Fraction(s), d);
    hide Value, Pow10, ToText, DotIndex;
    PadEndDigits(Fraction(s), d);
    ValueConcat(whole, fraction);
    var n := Value(whole + fraction);
    TextOfValue(n);
  }

  /** Every accepted decimal comes back with its fraction right-padded to d digits. */
  lemma FormatAfterParse(s: string, d: int)
    requires ParseUnits(s, d).Ok?
    ensures FormatUnits(ParseUnits(s, d).value, d) == Ok(Normalized(s, d))
  {
    var whole, fraction := Whole(s), PadEnd(Fraction(s), d);
    ParsedAs(s, d);
    hide Value, Pow10, ToText, ParseUnits, FormatUnits, Whole, Fraction, PadEnd, Unsigned;
    if d == 0 {
      assert whole + fraction == whole;
      CanonicalText(whole);
      FormatWhole(whole);
    } else {
      FormatJoined(whole, fraction, d);
    }
  }

  /** The amount a decimal parses to is the decimal, scaled: digits times 10^d over 10^(fraction digits). */
  lemma ParsedAmountIsScaled(s: string, d: int)
    requires ParseUnits(s, d).Ok?
    ensures Digits(Whole(s) + Fraction(s)) && |Fraction(s)| <= d
    ensures Unsigned(ParseUnits(s, d).value).Ok?
            && Unsigned(ParseUnits(s, d).value).value * Pow10(|Fraction(s)|) == Value(Whole(s) + Fraction(s)) * Pow10(d)
  {
    hide Pow10, ToText, DotIndex, Unsigned, ParseUnits, Value, Canonical, Whole, Fraction;
    var whole, fraction := Whole(s), Fraction(s);
    ParsedAs(s, d);
    FractionFits(s, d);
    var zeros := Zeros(d - |fraction|);
    ZerosValue(d - |fraction|);
    assert PadEnd(fraction, d) == fraction + zeros;
    assert whole + PadEnd(fraction, d) == (whole + fraction) + zeros;
    ValueConcat(whole + fraction, zeros);
    var n := Value(whole + PadEnd(fraction, d));
    UnsignedRoundTrip([], n);
    PowSum(d - |fraction|, |fraction|);
    Scaled(Value(whole + fraction), Pow10(d - |fraction|), Pow10(|fraction|), n, Pow10(d));
  }

  lemma FractionFits(s: string, d: int)
    requires ParseUnits(s, d).Ok?
    ensures |Fraction(s)| <= d && Digits(Whole(s) + Fraction(s))
  {
    hide Pow10, ToText, Value, Unsigned;
  }

  lemma Scaled(a: nat, x: nat, y: nat, v: nat, p: nat)
    requires v == a * x && p == x * y
    ensures v * y == a * p
  {
    assert a * x * y == a * (x * y);
  }
}
