/**
 * The reading of amount, reserve, balance and rate arguments. The chaincode
 * calls strconv.ParseFloat and ignores its error, so a string that does not
 * parse is read as 0. The model parses plain decimal numerals: an optional
 * sign, digits, and an optional fraction, with at least one digit in all.
 */
module Decimal {
  import opened Wrappers

  predicate IsDigit(c: char) { '0' <= c <= '9' }

  predicate AllDigits(s: string) { forall i :: 0 <= i < |s| ==> IsDigit(s[i]) }

  /** The natural number a digit string denotes (0 for the empty string). */
  function DigitsValue(s: string): nat
    requires AllDigits(s)
  {
    if s == [] then 0 else DigitsValue(s[..|s| - 1]) * 10 + (s[|s| - 1] as int - '0' as int)
  }

  function Pow10(n: nat): (p: nat)
    ensures p >= 1
  {
    if n == 0 then 1 else 10 * Pow10(n - 1)
  }

  /** The index of the first '.', or |s| when there is none. */
  function DotIndex(s: string): (i: nat)
    ensures i <= |s|
    ensures i < |s| ==> s[i] == '.'
    ensures forall j :: 0 <= j < i ==> s[j] != '.'
  {
    if s == [] then 0 else if s[0] == '.' then 0 else 1 + DotIndex(s[1..])
  }

  /** An unsigned numeral "ddd", "ddd.ddd", ".ddd" or "ddd." with at least one digit. */
  function ParseUnsigned(s: string): Option<real>
  {
    var p := DotIndex(s);
    var whole := s[..p];
    var frac := if p < |s| then s[p + 1..] else "";
    if |whole| + |frac| == 0 || !AllDigits(whole) || !AllDigits(frac) then None
    else Some(DigitsValue(whole) as real + DigitsValue(frac) as real / Pow10(|frac|) as real)
  }

  /** strconv.ParseFloat restricted to decimal numerals: None is a parse error. */
  function ParseFloat(s: string): Option<real>
  {
    if |s| > 0 && (s[0] == '+' || s[0] == '-') then
      match ParseUnsigned(s[1..])
      case None => None
      case Some(x) => Some(if s[0] == '-' then -x else x)
    else ParseUnsigned(s)
  }

  /** `x, _ := strconv.ParseFloat(s, 64)`: a parse error leaves x at 0. */
  function ParseAmount(s: string): real
  {
    match ParseFloat(s)
    case Some(x) => x
    case None => 0.0
  }

  /** The decimal numeral of a natural number, without sign or leading zeros. */
  function FormatNat(n: nat): (s: string)
    ensures |s| > 0 && AllDigits(s)
  {
    if n < 10 then ['0' + n as char] else FormatNat(n / 10) + ['0' + (n % 10) as char]
  }

  lemma {:induction false} DigitsOfFormat(n: nat)
    ensures DigitsValue(FormatNat(n)) == n
  {
    var s := FormatNat(n);
    if n >= 10 {
      DigitsOfFormat(n / 10);
      assert s[..|s| - 1] == FormatNat(n / 10);
    }
  }

  /** Parsing the numeral of n gives back n. */
  lemma ParseFormatNat(n: nat)
    ensures ParseFloat(FormatNat(n)) == Some(n as real)
    ensures ParseAmount(FormatNat(n)) == n as real
  {
    var s := FormatNat(n);
    assert DotIndex(s) == |s| by {
      forall j | 0 <= j < |s| ensures s[j] != '.' { assert IsDigit(s[j]); }
      DotNotFound(s);
    }
    assert s[..|s|] == s;
    DigitsOfFormat(n);
  }

  lemma {:induction false} DotNotFound(s: string)
    requires forall j :: 0 <= j < |s| ==> s[j] != '.'
    ensures DotIndex(s) == |s|
  {
    if s != [] { DotNotFound(s[1..]); }
  }

  /** A negative numeral parses to the negation of its unsigned part. */
  lemma ParseNegated(n: nat)
    ensures ParseFloat("-" + FormatNat(n)) == Some(-(n as real))
  {
    var s := "-" + FormatNat(n);
    assert s[1..] == FormatNat(n);
    ParseFormatNat(n);
  }

  /** Text that is no decimal numeral reads as amount 0. */
  lemma NonNumeralsReadAsZero()
    ensures ParseAmount("") == 0.0
    ensures ParseAmount("-") == 0.0
    ensures ParseAmount(".") == 0.0
    ensures ParseAmount("abc") == 0.0
  {
    assert DotIndex(".") == 0;
    assert !AllDigits("abc") by { assert !IsDigit("abc"[0]); }
  }

  /** A signed numeral with a fraction. */
  lemma ParseSignedFraction()
    ensures ParseAmount("-12.25") == -12.25
  {
    var u := "12.25";
    assert "-12.25"[1..] == u;
    assert DotIndex(u) == 2 by { assert DotIndex(u[2..]) == 0; }
    assert u[..2] == "12" && u[3..] == "25";
    assert DigitsValue("12") == 12 by { assert "12"[..1] == "1"; }
    assert DigitsValue("25") == 25 by { assert "25"[..1] == "2"; }
  }

  /** Whole numerals parse to their value. */
  lemma ParseWholeNumerals()
    ensures ParseAmount("100") == 100.0
    ensures ParseAmount("1000") == 1000.0
  {
    assert FormatNat(100) == "100";
    ParseFormatNat(100);
    assert FormatNat(1000) == "1000";
    ParseFormatNat(1000);
  }

  /** The amount of the over-large payment reads as its value. */
  lemma ParseLargeNumeral()
    ensures ParseAmount("999999") == 999999.0
  {
    assert FormatNat(999999) == "999999";
    ParseFormatNat(999999);
  }
}
