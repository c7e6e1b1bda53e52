/**
 * The parts of the Java library that the quiz code relies on, on an ASCII model of
 * `char`: `String.trim`, the regex class `\s`, `String.toLowerCase`,
 * `Integer.parseInt`, `String.valueOf(int)`, `String.join`, the decimal forms of
 * `Double.parseDouble` and `String.format(Locale.US, "%.2f", x)`.
 */
module JavaLang {
  import opened Wrappers

  const MinInt: int := -0x8000_0000
  const MaxInt: int := 0x7fff_ffff

  // ---------------------------------------------------------------------------
  // String.trim
  // ---------------------------------------------------------------------------

  /** `String.trim` removes every char whose code is at most U+0020. */
  predicate IsBlank(c: char) {
    c <= ' '
  }

  function TrimStart(s: string): (r: string)
    ensures |r| <= |s| && r == s[|s| - |r|..]
    ensures r == [] || !IsBlank(r[0])
    ensures forall i :: 0 <= i < |s| - |r| ==> IsBlank(s[i])
  {
    if s != [] && IsBlank(s[0]) then TrimStart(s[1..]) else s
  }

  function TrimEnd(s: string): (r: string)
    ensures |r| <= |s| && r == s[..|r|]
    ensures r == [] || !IsBlank(r[|r| - 1])
    ensures forall i :: |r| <= i < |s| ==> IsBlank(s[i])
  {
    if s != [] && IsBlank(s[|s| - 1]) then TrimEnd(s[..|s| - 1]) else s
  }

  /** `String.trim`: drops the blank chars at both ends and keeps the rest. */
  function Trim(s: string): (r: string)
    ensures r == [] || (!IsBlank(r[0]) && !IsBlank(r[|r| - 1]))
    ensures s == [] || (!IsBlank(s[0]) && !IsBlank(s[|s| - 1])) ==> r == s
  {
    var t := TrimStart(s);
    var r := TrimEnd(t);
    assert r != [] ==> r[0] == t[0];
    r
  }

  /** `s.trim().isEmpty()` holds exactly when every char of `s` is blank. */
  lemma {:induction false} TrimEmptyIff(s: string)
    ensures Trim(s) == [] <==> forall i :: 0 <= i < |s| ==> IsBlank(s[i])
  {
    var t := TrimStart(s);
    if t != [] {
      assert !IsBlank(s[|s| - |t|]);
      assert TrimEnd(t) != [];
    }
  }

  predicate AllBlank(s: string) {
    forall i :: 0 <= i < |s| ==> IsBlank(s[i])
  }

  lemma {:induction false} TrimStartBlankPrefix(b: string, m: string)
    requires AllBlank(b) && (m == [] || !IsBlank(m[0]))
    ensures TrimStart(b + m) == m
    decreases |b|
  {
    if b != [] {
      assert (b + m)[1..] == b[1..] + m;
      TrimStartBlankPrefix(b[1..], m);
    } else {
      assert b + m == m;
    }
  }

  lemma {:induction false} TrimEndBlankSuffix(m: string, b: string)
    requires AllBlank(b) && (m == [] || !IsBlank(m[|m| - 1]))
    ensures TrimEnd(m + b) == m
    decreases |b|
  {
    if b != [] {
      assert (m + b)[..|m + b| - 1] == m + b[..|b| - 1];
      TrimEndBlankSuffix(m, b[..|b| - 1]);
    } else {
      assert m + b == m;
    }
  }

  /** Trimming strips exactly the blank runs around a text with non-blank ends. */
  lemma {:induction false} TrimAround(b1: string, m: string, b2: string)
    requires AllBlank(b1) && AllBlank(b2)
    requires m != [] && !IsBlank(m[0]) && !IsBlank(m[|m| - 1])
    ensures Trim(b1 + m + b2) == m
  {
    assert b1 + m + b2 == b1 + (m + b2);
    TrimStartBlankPrefix(b1, m + b2);
    TrimEndBlankSuffix(m, b2);
  }

  // ---------------------------------------------------------------------------
  // Regex \s and toLowerCase
  // ---------------------------------------------------------------------------

  /** The regex class `\s`: space, tab, newline, vertical tab, form feed, carriage return. */
  predicate IsSpace(c: char) {
    c == ' ' || '\t' <= c <= '\r'
  }

  /** Every char of `s` is a `\s` char. */
  predicate AllSpace(s: string) {
    s == [] || (IsSpace(s[0]) && AllSpace(s[1..]))
  }

  predicate IsUpper(c: char) {
    'A' <= c <= 'Z'
  }

  function LowerChar(c: char): (r: char)
    ensures !IsUpper(r)
    ensures IsSpace(r) <==> IsSpace(c)
    ensures IsBlank(r) <==> IsBlank(c)
  {
    if IsUpper(c) then (c as int + 32) as char else c
  }

  /** `String.toLowerCase`, ASCII letters only. */
  function Lower(s: string): (r: string)
    ensures |r| == |s|
    ensures forall i :: 0 <= i < |s| ==> r[i] == LowerChar(s[i])
  {
    seq(|s|, i requires 0 <= i < |s| => LowerChar(s[i]))
  }

  // ---------------------------------------------------------------------------
  // Decimal digits, String.valueOf(int), Integer.parseInt
  // ---------------------------------------------------------------------------

  predicate IsDigit(c: char) {
    '0' <= c <= '9'
  }

  predicate IsDigits(s: string) {
    forall i :: 0 <= i < |s| ==> IsDigit(s[i])
  }

  function DigitChar(d: nat): (c: char)
    requires d < 10
    ensures IsDigit(c) && DigitValue(c) == d
  {
    ('0' as int + d) as char
  }

  function DigitValue(c: char): nat
    requires IsDigit(c)
  {
    c as int - '0' as int
  }

  /** The number a run of decimal digits denotes (leading zeros allowed). */
  function DigitsValue(s: string): nat
    requires IsDigits(s)
  {
    if s == [] then 0 else DigitsValue(s[..|s| - 1]) * 10 + DigitValue(s[|s| - 1])
  }

  /** The decimal digits of `n`, without leading zeros. */
  function NatToDigits(n: nat): (r: string)
    ensures r != [] && IsDigits(r)
    ensures DigitsValue(r) == n
    ensures r[0] == '0' ==> n == 0
  {
    if n < 10 then
      [DigitChar(n)]
    else
      var r := NatToDigits(n / 10) + [DigitChar(n % 10)];
      assert r[..|r| - 1] == NatToDigits(n / 10);
      r
  }

  /** `String.valueOf(int)` / `Long.toString`: a minus sign for negatives, then the digits. */
  function IntToString(n: int): (r: string)
    ensures r != [] && ',' !in r
    ensures forall i :: 0 <= i < |r| ==> !IsBlank(r[i]) && !IsUpper(r[i])
    ensures IsDigit(r[|r| - 1])
  {
    if n < 0 then "-" + NatToDigits(-n) else NatToDigits(n)
  }

  /**
   * `Integer.parseInt(s)`: an optional `+` or `-`, then at least one decimal digit, and the
   * value within 32 bits. None stands for the NumberFormatException Java throws otherwise;
   * no blank is accepted anywhere.
   */
  function ParseInt(s: string): (r: Option<int>)
    ensures r.Some? ==> MinInt <= r.value <= MaxInt
    ensures r.Some? ==> s != [] && forall i :: 0 <= i < |s| ==> !IsBlank(s[i])
  {
    if s == [] then None
    else
      var body := if s[0] == '-' || s[0] == '+' then s[1..] else s;
      if body == [] || !IsDigits(body) then None
      else
        var v := if s[0] == '-' then -(DigitsValue(body) as int) else DigitsValue(body);
        if MinInt <= v <= MaxInt then Some(v) else None
  }

  /** `Integer.parseInt` reads back what `String.valueOf` writes. */
  lemma {:induction false} ParseIntOfIntToString(n: int)
    requires MinInt <= n <= MaxInt
    ensures ParseInt(IntToString(n)) == Some(n)
  {
    if n < 0 {
      assert IntToString(n)[1..] == NatToDigits(-n);
    }
  }

  // ---------------------------------------------------------------------------
  // String.join
  // ---------------------------------------------------------------------------

  /** `String.join(sep, parts)`. */
  function Join(sep: string, parts: seq<string>): string
  {
    if |parts| == 0 then ""
    else if |parts| == 1 then parts[0]
    else parts[0] + sep + Join(sep, parts[1..])
  }

  // ---------------------------------------------------------------------------
  // Double.parseDouble, decimal notation, as an exact real
  // ---------------------------------------------------------------------------

  function Pow10(n: nat): (r: real)
    ensures r >= 1.0
  {
    if n == 0 then 1.0 else 10.0 * Pow10(n - 1)
  }

  /** The first index of `s` holding a char of `cs`, or `|s|` when there is none. */
  function IndexOfAny(s: string, cs: set<char>): (i: nat)
    ensures i <= |s|
    ensures forall k :: 0 <= k < i ==> s[k] !in cs
    ensures i < |s| ==> s[i] in cs
  {
    if s == [] || s[0] in cs then 0 else 1 + IndexOfAny(s[1..], cs)
  }

  /** The exponent after `e`: an optional sign and at least one digit. */
  function ParseExponent(s: string): Option<int>
  {
    var digits := if s != [] && (s[0] == '-' || s[0] == '+') then s[1..] else s;
    if digits == [] || !IsDigits(digits) then None
    else if s[0] == '-' then Some(-(DigitsValue(digits) as int))
    else Some(DigitsValue(digits))
  }

  /** The value of `whole.fraction` where the fraction has `places` digits, times ten to `e`. */
  function DecimalValue(whole: nat, fraction: nat, places: nat, e: int): real
  {
    ScaleBy10(whole as real + fraction as real / Pow10(places), e)
  }

  function ScaleBy10(v: real, e: int): real
  {
    if e >= 0 then v * Pow10(e) else v / Pow10(-e)
  }

  /** Digits with at most one point and at least one digit, then an optional exponent. */
  function ParseUnsignedDecimal(s: string): Option<real>
  {
    var e := IndexOfAny(s, {'e', 'E'});
    var mantissa := s[..e];
    var exponent := if e == |s| then Some(0) else ParseExponent(s[e + 1..]);
    var p := IndexOfAny(mantissa, {'.'});
    var whole := mantissa[..p];
    var fraction := if p < |mantissa| then mantissa[p + 1..] else "";
    if exponent.None? || !IsDigits(whole) || !IsDigits(fraction) || |whole| + |fraction| == 0 then
      None
    else
      Some(DecimalValue(DigitsValue(whole), DigitsValue(fraction), |fraction|, exponent.value))
  }

  function DropSign(t: string): string
  {
    if t != [] && (t[0] == '-' || t[0] == '+') then t[1..] else t
  }

  function DropSuffix(b: string): string
  {
    if b != [] && b[|b| - 1] in {'f', 'F', 'd', 'D'} then b[..|b| - 1] else b
  }

  /**
   * `Double.parseDouble(s)` for decimal notation: trimmed, an optional sign, the unsigned
   * decimal, an optional `f`/`F`/`d`/`D` suffix. None stands for NumberFormatException.
   */
  function ParseDouble(s: string): (r: Option<real>)
    ensures r.Some? ==> Trim(s) != []
  {
    SignedDecimal(Trim(s))
  }

  /** An optional sign, the unsigned decimal, an optional type suffix. */
  function SignedDecimal(t: string): Option<real>
  {
    match ParseUnsignedDecimal(DropSuffix(DropSign(t)))
    case None => None
    case Some(v) => if t != [] && t[0] == '-' then Some(-v) else Some(v)
  }

  /** Digits alone parse as their whole value. */
  lemma {:induction false} ParseUnsignedDigits(s: string)
    requires s != [] && IsDigits(s)
    ensures ParseUnsignedDecimal(s) == Some(DigitsValue(s) as real)
  {
    assert DecimalValue(DigitsValue(s), 0, 0, 0) == DigitsValue(s) as real;
    var e := IndexOfAny(s, {'e', 'E'});
    assert s[..e] == s;
    var p := IndexOfAny(s, {'.'});
    assert s[..p] == s;
  }

  /** Digits, a point and digits parse as the whole part plus the fraction. */
  lemma {:induction false} ParseUnsignedPoint(w: string, f: string)
    requires IsDigits(w) && IsDigits(f) && |w| + |f| > 0
    ensures ParseUnsignedDecimal(w + "." + f) == Some(DecimalValue(DigitsValue(w), DigitsValue(f), |f|, 0))
  {
    var s := w + "." + f;
    var e := IndexOfAny(s, {'e', 'E'});
    assert forall k | 0 <= k < |s| :: s[k] == '.' || IsDigit(s[k]);
    assert s[..e] == s;
    var p := IndexOfAny(s, {'.'});
    assert s[|w|] == '.';
    assert forall k | 0 <= k < |w| :: s[k] == w[k] && IsDigit(w[k]);
    assert p == |w|;
    assert s[..p] == w;
    assert s[p + 1..] == f;
  }

  /** The signed stage reads back unsigned digits. */
  lemma {:induction false} SignedDecimalOfDigits(d: string)
    requires d != [] && IsDigits(d)
    ensures SignedDecimal(d) == Some(DigitsValue(d) as real)
  {
    assert DropSign(d) == d by {
      assert IsDigit(d[0]);
    }
    assert DropSuffix(d) == d by {
      assert IsDigit(d[|d| - 1]);
    }
    ParseUnsignedDigits(d);
  }

  /** The signed stage reads back digits after a minus sign as a negative number. */
  lemma {:induction false} SignedDecimalOfNegative(d: string)
    requires d != [] && IsDigits(d)
    ensures SignedDecimal("-" + d) == Some(-(DigitsValue(d) as real))
  {
    var t := "-" + d;
    assert DropSign(t) == d by {
      assert t[1..] == d;
    }
    assert DropSuffix(d) == d by {
      assert IsDigit(d[|d| - 1]);
    }
    ParseUnsignedDigits(d);
  }

  /** The signed stage reads back the decimal text of any integer. */
  lemma {:induction false} SignedDecimalOfIntToString(n: int)
    ensures SignedDecimal(IntToString(n)) == Some(n as real)
  {
    if n < 0 {
      SignedDecimalOfNegative(NatToDigits(-n));
    } else {
      SignedDecimalOfDigits(NatToDigits(n));
    }
  }

  /** `Double.parseDouble` reads back the decimal text of any integer. */
  lemma {:induction false} ParseDoubleOfIntToString(n: int)
    ensures ParseDouble(IntToString(n)) == Some(n as real)
  {
    var s := IntToString(n);
    assert Trim(s) == s by {
      assert !IsBlank(s[0]) && !IsBlank(s[|s| - 1]);
    }
    SignedDecimalOfIntToString(n);
  }

  // ---------------------------------------------------------------------------
  // String.format(Locale.US, "%.2f", x)
  // ---------------------------------------------------------------------------

  /** `x` rounded half up to hundredths, as a count of hundredths. */
  function Hundredths(x: real): (h: nat)
    requires x >= 0.0
    ensures x * 100.0 - 0.5 < h as real <= x * 100.0 + 0.5
  {
    (x * 100.0 + 0.5).Floor
  }

  /** `String.format(Locale.US, "%.2f", x)` for a non-negative `x`: whole part, point, two digits. */
  function FormatFixed2(x: real): (r: string)
    requires x >= 0.0
    ensures ',' !in r
  {
    HundredthsText(Hundredths(x))
  }

  /** `h` hundredths written with a point before the last two digits. */
  function HundredthsText(h: nat): (r: string)
    ensures ',' !in r
  {
    var cents := h % 100;
    NatToDigits(h / 100) + "." + [DigitChar(cents / 10), DigitChar(cents % 10)]
  }

  /** A zero fraction adds nothing to the whole part. */
  lemma {:induction false} DecimalValueWhole(w: nat, places: nat)
    ensures DecimalValue(w, 0, places, 0) == w as real
  {
    var p := Pow10(places);
    assert p >= 1.0;
    assert 0 as real / p == 0.0;
    assert Pow10(0) == 1.0;
  }

  /** A point number with digits on both sides parses as its decimal value. */
  lemma {:induction false} ParseDoubleOfPoint(w: string, f: string)
    requires w != [] && f != [] && IsDigits(w) && IsDigits(f)
    ensures ParseDouble(w + "." + f) == Some(DecimalValue(DigitsValue(w), DigitsValue(f), |f|, 0))
  {
    var r := w + "." + f;
    assert IsDigit(r[0]) && IsDigit(r[|r| - 1]);
    assert Trim(r) == r;
    assert DropSign(r) == r;
    assert DropSuffix(r) == r;
    ParseUnsignedPoint(w, f);
    assert SignedDecimal(r) == Some(DecimalValue(DigitsValue(w), DigitsValue(f), |f|, 0));
  }

  lemma {:induction false} HundredthsSplit(h: nat)
    ensures DecimalValue(h / 100, h % 100, 2, 0) == h as real / 100.0
  {
    assert Pow10(2) == 100.0;
    var q, m := h / 100, h % 100;
    assert h == 100 * q + m;
    assert (q as real + m as real / 100.0) * 1.0 == h as real / 100.0;
  }

  lemma {:induction false} TwoDigits(d: nat)
    requires d < 100
    ensures DigitsValue([DigitChar(d / 10), DigitChar(d % 10)]) == d
  {
    var a, b := DigitChar(d / 10), DigitChar(d % 10);
    var f := [a, b];
    assert f[..|f| - 1] == [a];
    assert [a][..0] == [];
    assert DigitsValue([a]) == d / 10;
    assert DigitsValue(f) == DigitsValue([a]) * 10 + d % 10;
  }

  lemma {:induction false} HundredthsClose(x: real, h: nat)
    requires x >= 0.0 && h == Hundredths(x)
    ensures x - 0.005 < h as real / 100.0 <= x + 0.005
  {
    assert x * 100.0 - 0.5 < h as real <= x * 100.0 + 0.5;
  }

  lemma {:induction false} HundredthsTextDigits(h: nat)
    ensures ParseDouble(HundredthsText(h)) == Some(DecimalValue(h / 100, h % 100, 2, 0))
  {
    var cents := h % 100;
    var w, f := NatToDigits(h / 100), [DigitChar(cents / 10), DigitChar(cents % 10)];
    assert HundredthsText(h) == w + "." + f;
    TwoDigits(cents);
    ParseDoubleOfPoint(w, f);
  }

  /** The text of `h` hundredths parses back as `h / 100`. */
  lemma {:induction false} HundredthsTextValue(h: nat)
    ensures ParseDouble(HundredthsText(h)) == Some(h as real / 100.0)
  {
    var d := DecimalValue(h / 100, h % 100, 2, 0);
    calc {
      ParseDouble(HundredthsText(h));
      { HundredthsTextDigits(h); }
      Some(d);
      { HundredthsSplit(h); }
      Some(h as real / 100.0);
    }
  }

  /** The text of `x` parses back as its count of hundredths over a hundred. */
  lemma {:induction false} FormatFixed2Hundredths(x: real, h: nat)
    requires x >= 0.0 && h == Hundredths(x)
    ensures ParseDouble(FormatFixed2(x)) == Some(h as real / 100.0)
  {
    HundredthsTextValue(h);
  }

  /**
   * The two-decimal text reads back as `x` rounded half up to hundredths: a value
   * within half a hundredth of `x`, a hundredth times `Hundredths(x)`.
   */
  lemma {:induction false} FormatFixed2Value(x: real)
    requires x >= 0.0
    ensures ParseDouble(FormatFixed2(x)).Some?
    ensures var v := ParseDouble(FormatFixed2(x)).value;
      x - 0.005 < v <= x + 0.005 && v * 100.0 == Hundredths(x) as real
  {
    var h := Hundredths(x);
    FormatFixed2Hundredths(x, h);
    HundredthsClose(x, h);
  }
}
