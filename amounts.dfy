/**
 * Amount parsing.  Python's float(...) and pandas' to_numeric(...) are
 * modelled by one parser of plain decimal notation (an optional sign, digits,
 * an optional point and more digits) that yields the exact rational value;
 * a string it rejects is what float() raises on and to_numeric coerces to NaN.
 */
module Amounts {

  import opened Wrappers

  predicate IsDigit(c: char) {
    '0' <= c <= '9'
  }

  predicate AllDigits(s: string) {
    forall i :: 0 <= i < |s| ==> IsDigit(s[i])
  }

  /** The value of a string of decimal digits, most significant first. */
  function DigitsValue(s: string): nat
    requires AllDigits(s)
  {
    if s == [] then 0 else DigitsValue(s[..|s| - 1]) * 10 + (s[|s| - 1] as int - '0' as int)
  }

  function Pow10(k: nat): (p: nat)
    ensures p >= 1
  {
    if k == 0 then 1 else 10 * Pow10(k - 1)
  }

  /** Position of the first '.', or |s| when there is none. */
  function DotIndex(s: string): (k: nat)
    ensures k <= |s|
    ensures k < |s| ==> s[k] == '.'
    ensures forall i :: 0 <= i < k ==> s[i] != '.'
  {
    if s == [] then 0 else if s[0] == '.' then 0 else 1 + DotIndex(s[1..])
  }

  /** Digits, optionally a point and more digits, with at least one digit in all. */
  function ParseUnsigned(s: string): Option<real> {
    var k := DotIndex(s);
    var whole := s[..k];
    var frac := if k < |s| then s[k + 1..] else "";
    if AllDigits(whole) && AllDigits(frac) && |whole| + |frac| > 0 then
      Some(DigitsValue(whole) as real + DigitsValue(frac) as real / Pow10(|frac|) as real)
    else
      None
  }

  /** float(s) for plain decimal notation; None where float(s) raises. */
  function ParseDecimal(s: string): Option<real> {
    if |s| > 0 && (s[0] == '-' || s[0] == '+') then
      match ParseUnsigned(s[1..])
      case Some(v) => Some(if s[0] == '-' then -v else v)
      case None => None
    else
      ParseUnsigned(s)
  }

  /** A string `whole.frac` of digits parses to its exact decimal value. */
  lemma {:induction false} PlainDecimal(whole: string, frac: string)
    requires AllDigits(whole) && AllDigits(frac) && |whole| > 0
    ensures ParseDecimal(whole + "." + frac)
         == Some(DigitsValue(whole) as real + DigitsValue(frac) as real / Pow10(|frac|) as real)
  {
    var s := whole + "." + frac;
    assert s[0] == whole[0];
    assert IsDigit(whole[0]);
    DotIndexAt(s, |whole|);
    assert s[..|whole|] == whole;
    assert s[|whole| + 1..] == frac;
    assert ParseDecimal(s) == ParseUnsigned(s);
  }

  /** A string of digits alone parses to its integer value. */
  lemma {:induction false} PlainInteger(whole: string)
    requires AllDigits(whole) && |whole| > 0
    ensures ParseDecimal(whole) == Some(DigitsValue(whole) as real)
  {
    assert IsDigit(whole[0]);
    DotIndexAt(whole, |whole|);
    assert whole[..|whole|] == whole;
    assert AllDigits("");
    assert DigitsValue("") == 0;
    assert ParseDecimal(whole) == ParseUnsigned(whole);
  }

  lemma {:induction false} DotIndexAt(s: string, k: nat)
    requires k <= |s|
    requires k < |s| ==> s[k] == '.'
    requires forall i :: 0 <= i < k ==> s[i] != '.'
    ensures DotIndex(s) == k
  {
    if k > 0 {
      DotIndexAt(s[1..], k - 1);
    }
  }

  /** The value of two digits. */
  lemma TwoDigits(a: char, b: char)
    requires IsDigit(a) && IsDigit(b)
    ensures DigitsValue([a, b]) == 10 * (a as int - '0' as int) + (b as int - '0' as int)
  {
    assert [a, b][..1] == [a];
    assert [a][..0] == [];
    assert DigitsValue([a]) == a as int - '0' as int;
  }

  /** The value of three digits. */
  lemma ThreeDigits(a: char, b: char, c: char)
    requires IsDigit(a) && IsDigit(b) && IsDigit(c)
    ensures DigitsValue([a, b, c]) == 100 * (a as int - '0' as int) + 10 * (b as int - '0' as int) + (c as int - '0' as int)
  {
    assert [a, b, c][..2] == [a, b];
    TwoDigits(a, b);
  }

  // ---------------------------------------------------------------------
  // Amounts as they appear in the invoices

  lemma HundredPieces()
    ensures ParseDecimal("100" + "." + "00") == Some(100.0)
  {
    ThreeDigits('1', '0', '0');
    TwoDigits('0', '0');
    assert "100" == ['1', '0', '0'] && "00" == ['0', '0'];
    PlainDecimal("100", "00");
  }

  lemma HundredParses()
    ensures ParseDecimal("100.00") == Some(100.0)
  {
    HundredPieces();
    assert "100" + "." + "00" == "100.00";
  }

  lemma FiftyPieces()
    ensures ParseDecimal("50" + "." + "00") == Some(50.0)
  {
    TwoDigits('5', '0');
    TwoDigits('0', '0');
    assert "50" == ['5', '0'] && "00" == ['0', '0'];
    PlainDecimal("50", "00");
  }

  lemma FiftyParses()
    ensures ParseDecimal("50.00") == Some(50.0)
  {
    FiftyPieces();
    assert "50" + "." + "00" == "50.00";
  }

  lemma HundredSixtyPieces()
    ensures ParseDecimal("160" + "." + "00") == Some(160.0)
  {
    ThreeDigits('1', '6', '0');
    TwoDigits('0', '0');
    assert "160" == ['1', '6', '0'] && "00" == ['0', '0'];
    PlainDecimal("160", "00");
  }

  lemma HundredSixtyParses()
    ensures ParseDecimal("160.00") == Some(160.0)
  {
    HundredSixtyPieces();
    assert "160" + "." + "00" == "160.00";
  }
}
