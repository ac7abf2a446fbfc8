/**
 * The few pieces of PHP semantics the dispatch core depends on: decimal digits
 * as produced by `strval(rand(0, 9))`, and how `array_key_exists` treats a
 * string key when the array is a list (keys 0 .. n-1).
 *
 * PHP normalises an array key that is a canonical decimal integer string
 * ("0", "17", but not "017", "+1", "1.0" or "12-GB") and fits in a 64-bit
 * signed integer into that integer; every other string stays a string key.
 * A list built with `$a[] = ...` has exactly the integer keys 0 .. count-1,
 * so a string is a key of such a list exactly when it normalises to one of
 * those integers. Negative canonical strings ("-3") normalise to negative
 * integers and are never list keys, so only the non-negative form matters.
 */
module Php {

  /** PHP_INT_MAX on a 64-bit build. */
  const PhpIntMax: nat := 0x7FFF_FFFF_FFFF_FFFF

  predicate IsDigit(c: char) {
    '0' <= c <= '9'
  }

  predicate AllDigits(s: string) {
    forall i :: 0 <= i < |s| ==> IsDigit(s[i])
  }

  /** `strval($d)` for a single decimal digit. */
  function DigitChar(d: int): (c: char)
    requires 0 <= d <= 9
    ensures IsDigit(c)
    ensures c as int - '0' as int == d
  {
    ('0' as int + d) as char
  }

  /** A string that PHP would normalise to a non-negative integer key. */
  predicate IsCanonicalNat(s: string) {
    && |s| > 0
    && AllDigits(s)
    && (s[0] == '0' ==> |s| == 1)
  }

  /** The value of a string of decimal digits. */
  function DecimalValue(s: string): nat
    requires AllDigits(s)
  {
    if s == [] then 0
    else DecimalValue(s[..|s| - 1]) * 10 + (s[|s| - 1] as int - '0' as int)
  }

  function Pow10(n: nat): nat {
    if n == 0 then 1 else 10 * Pow10(n - 1)
  }

  /**
   * `array_key_exists($key, $list)` where `$list` is a list of `len`
   * elements: the key must normalise to an integer index below `len`.
   */
  predicate IsListIndexKey(key: string, len: nat) {
    && IsCanonicalNat(key)
    && DecimalValue(key) <= PhpIntMax
    && DecimalValue(key) < len
  }

  /** `strval($n)` for a non-negative integer: its decimal spelling. */
  function NatString(n: nat): string
  {
    if n < 10 then [DigitChar(n)] else NatString(n / 10) + [DigitChar(n % 10)]
  }

  /** The spelling of n is a canonical key whose value is n. */
  lemma {:induction false} NatStringCanonical(n: nat)
    ensures IsCanonicalNat(NatString(n)) && DecimalValue(NatString(n)) == n
  {
    if n >= 10 {
      var init := NatString(n / 10);
      NatStringCanonical(n / 10);
      var s := init + [DigitChar(n % 10)];
      assert s[..|s| - 1] == init;
      assert s[0] == init[0];
    }
  }

  /** A canonical key is the spelling of its value. */
  lemma {:induction false} CanonicalIsNatString(s: string)
    requires IsCanonicalNat(s)
    ensures NatString(DecimalValue(s)) == s
    decreases |s|
  {
    if |s| == 1 {
      assert s[..0] == [];
    } else {
      var init := s[..|s| - 1];
      assert init[0] == s[0];
      CanonicalIsNatString(init);
      DecimalValueLowerBound(init);
      assert s == init + [s[|s| - 1]];
    }
  }

  /**
   * The list-index test holds exactly when the key is the decimal spelling
   * of an index of the list (one that fits in a PHP integer).
   */
  lemma ListIndexKeyIsIndexSpelling(key: string, len: nat)
    ensures IsListIndexKey(key, len) <==> exists i: nat :: i < len && i <= PhpIntMax && key == NatString(i)
  {
    if IsListIndexKey(key, len) {
      CanonicalIsNatString(key);
    }
    forall i: nat | i < len && i <= PhpIntMax && key == NatString(i)
      ensures IsListIndexKey(key, len)
    {
      NatStringCanonical(i);
    }
  }

  /** A digit string with a non-zero first digit is at least 10^(|s|-1). */
  lemma {:induction false} DecimalValueLowerBound(s: string)
    requires AllDigits(s) && |s| > 0 && s[0] != '0'
    ensures DecimalValue(s) >= Pow10(|s| - 1)
  {
    if |s| > 1 {
      var init := s[..|s| - 1];
      assert init[0] == s[0];
      DecimalValueLowerBound(init);
    }
  }
}
