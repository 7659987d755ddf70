/** The two pieces of the .NET base library that the Employee class leans on:
    white-space classification of characters and strings, and the decimal
    text of an `int` as string interpolation writes it. */
module DotNet {
  import opened Wrappers

  // ---------------------------------------------------------------------
  // char.IsWhiteSpace and string.IsNullOrWhiteSpace
  // ---------------------------------------------------------------------

  /** char.IsWhiteSpace: the Unicode space, line and paragraph separators
      (categories Zs, Zl, Zp) together with U+0009..U+000D and U+0085. */
  predicate IsWhiteSpace(c: char) {
    var n := c as int;
    || (0x09 <= n <= 0x0D)
    || n == 0x20 || n == 0x85 || n == 0xA0 || n == 0x1680
    || (0x2000 <= n <= 0x200A)
    || n == 0x2028 || n == 0x2029 || n == 0x202F || n == 0x205F || n == 0x3000
  }

  /** string.IsNullOrWhiteSpace: the string is null, empty, or made only of
      white-space characters. */
  predicate IsNullOrWhiteSpace(s: Option<string>) {
    match s
    case None => true
    case Some(t) => forall i | 0 <= i < |t| :: IsWhiteSpace(t[i])
  }

  /** One visible character is enough for a string not to be blank. */
  lemma VisibleCharNotBlank(t: string, i: nat)
    requires i < |t| && !IsWhiteSpace(t[i])
    ensures !IsNullOrWhiteSpace(Some(t))
  {
  }

  // ---------------------------------------------------------------------
  // Decimal text of an int
  // ---------------------------------------------------------------------

  predicate IsDigit(c: char) {
    '0' <= c <= '9'
  }

  predicate AllDigits(s: string) {
    forall i | 0 <= i < |s| :: IsDigit(s[i])
  }

  /** The shortest decimal text of a natural number: one or more digits,
      with a leading zero only in "0" itself. */
  predicate IsCanonicalNat(d: string) {
    |d| >= 1 && AllDigits(d) && (d[0] == '0' ==> d == "0")
  }

  /** The text `{i}` writes: a canonical magnitude, preceded by '-' exactly
      when the value is negative (so never "-0"). */
  predicate IsCanonicalInt(s: string) {
    if |s| >= 1 && s[0] == '-' then IsCanonicalNat(s[1..]) && s[1..] != "0"
    else IsCanonicalNat(s)
  }

  function DigitChar(d: nat): (c: char)
    requires d < 10
    ensures IsDigit(c) && c as int - '0' as int == d
  {
    ('0' as int + d) as char
  }

  /** The decimal text of `n`: canonical, and starting with '0' exactly when
      `n` is zero. */
  function NatToDecimal(n: nat): (s: string)
    ensures IsCanonicalNat(s)
    ensures s[0] == '0' <==> n == 0
    decreases n
  {
    if n < 10 then [DigitChar(n)] else NatToDecimal(n / 10) + [DigitChar(n % 10)]
  }

  /** The number a string of decimal digits denotes (the reading direction
      that `NatToDecimal` is proved against). */
  function DecimalValue(s: string): nat
    requires AllDigits(s)
  {
    if s == [] then 0 else DecimalValue(s[..|s| - 1]) * 10 + (s[|s| - 1] as int - '0' as int)
  }

  lemma {:induction false} NatDecimalRoundTrip(n: nat)
    ensures DecimalValue(NatToDecimal(n)) == n
    decreases n
  {
    if n >= 10 {
      var s := NatToDecimal(n);
      assert s[..|s| - 1] == NatToDecimal(n / 10);
      NatDecimalRoundTrip(n / 10);
    }
  }

  /** `{i}` in an interpolated string: an optional minus sign, then the
      decimal digits of the magnitude. (The source's `int` is 32 bits wide;
      the value is only formatted here, so no wrap-around is modelled.) */
  function IntToDecimal(i: int): (s: string)
    ensures IsCanonicalInt(s)
    ensures s[0] == '-' <==> i < 0
    ensures AllDigits(if i < 0 then s[1..] else s)
  {
    if i < 0 then "-" + NatToDecimal(-i) else NatToDecimal(i)
  }

  /** The text of an int holds only digits and the sign, so no separator
      character written after it can be mistaken for part of it. */
  lemma IntTextCharacters(i: int)
    ensures forall k | 0 <= k < |IntToDecimal(i)| :: IntToDecimal(i)[k] == '-' || IsDigit(IntToDecimal(i)[k])
  {
    var s := IntToDecimal(i);
    if i < 0 {
      forall k | 1 <= k < |s| ensures IsDigit(s[k]) {
        assert s[k] == s[1..][k - 1];
      }
    }
  }

  /** Reads back an optional minus sign followed by at least one digit. */
  function ParseInt(s: string): Option<int> {
    if |s| >= 2 && s[0] == '-' && AllDigits(s[1..]) then Some(0 - DecimalValue(s[1..]) as int)
    else if |s| >= 1 && AllDigits(s) then Some(DecimalValue(s))
    else None
  }

  /** The decimal text of an int determines the int. */
  lemma {:induction false} IntDecimalRoundTrip(i: int)
    ensures ParseInt(IntToDecimal(i)) == Some(i)
  {
    if i < 0 {
      var s := IntToDecimal(i);
      assert s[1..] == NatToDecimal(-i);
      NatDecimalRoundTrip(-i);
    } else {
      NatDecimalRoundTrip(i);
    }
  }

  /** A decimal string of digits that denotes a positive number has no
      leading zero to strip: its value is at least one. */
  lemma {:induction false} LeadingDigitPositive(d: string)
    requires |d| >= 1 && AllDigits(d) && d[0] != '0'
    ensures DecimalValue(d) >= 1
    decreases |d|
  {
    if |d| > 1 {
      LeadingDigitPositive(d[..|d| - 1]);
    }
  }

  /** Canonical digit strings are exactly the texts NatToDecimal writes. */
  lemma {:induction false} CanonicalNatUnique(d: string)
    requires IsCanonicalNat(d)
    ensures NatToDecimal(DecimalValue(d)) == d
    decreases |d|
  {
    if |d| > 1 {
      var prefix := d[..|d| - 1];
      assert prefix[0] == d[0];
      LeadingDigitPositive(prefix);
      CanonicalNatUnique(prefix);
      var n := DecimalValue(d);
      var digit := d[|d| - 1] as int - '0' as int;
      assert n / 10 == DecimalValue(prefix) && n % 10 == digit;
      assert d == prefix + [d[|d| - 1]];
    }
  }

  /** ParseInt reads leading zeros too, but among canonical texts the one
      that denotes `i` is unique, and it is IntToDecimal(i). */
  lemma {:induction false} CanonicalIntUnique(s: string, i: int)
    requires IsCanonicalInt(s) && ParseInt(s) == Some(i)
    ensures s == IntToDecimal(i)
  {
    if |s| >= 1 && s[0] == '-' {
      var d := s[1..];
      CanonicalNatUnique(d);
      LeadingDigitPositive(d);
      assert s == "-" + d;
    } else {
      CanonicalNatUnique(s);
    }
  }
}
