/**
 * Decimal numerals: JavaScript's `toString()` on a non-negative integer and
 * `Number(s)` on a string, restricted to integer values.
 */
module Decimal {
  import opened Wrappers

  predicate IsDigit(c: char) {
    '0' <= c <= '9'
  }

  predicate AllDigits(s: string) {
    forall i :: 0 <= i < |s| ==> IsDigit(s[i])
  }

  function DigitChar(d: nat): (c: char)
    requires d < 10
    ensures IsDigit(c)
  {
    (('0' as int) + d) as char
  }

  function DigitValue(c: char): nat
    requires IsDigit(c)
  {
    (c as int) - ('0' as int)
  }

  function Pow10(k: nat): (p: nat)
    ensures p >= 1
  {
    if k == 0 then 1 else 10 * Pow10(k - 1)
  }

  /** `n.toString()` for a non-negative integer: the shortest decimal numeral. */
  function NatToString(n: nat): (s: string)
    ensures |s| >= 1 && AllDigits(s)
    ensures n >= 1 ==> s[0] != '0'
    decreases n
  {
    if n < 10 then [DigitChar(n)] else NatToString(n / 10) + [DigitChar(n % 10)]
  }

  /** The value of a string of decimal digits (the empty string reads as 0). */
  function ParseDigits(s: string): nat
    requires AllDigits(s)
    decreases |s|
  {
    if s == [] then 0 else 10 * ParseDigits(s[..|s| - 1]) + DigitValue(s[|s| - 1])
  }

  /** Reading back a printed numeral gives the number printed. */
  lemma {:induction false} ParsePrinted(n: nat)
    ensures ParseDigits(NatToString(n)) == n
    decreases n
  {
    var s := NatToString(n);
    if n >= 10 {
      ParsePrinted(n / 10);
      assert s[..|s| - 1] == NatToString(n / 10);
      assert DigitValue(s[|s| - 1]) == n % 10;
    } else {
      assert s[..|s| - 1] == [];
    }
  }

  /** A number with exactly k decimal digits prints as k characters. */
  lemma {:induction false} PrintedLength(n: nat, k: nat)
    requires 1 <= k
    requires (if k == 1 then 0 else Pow10(k - 1)) <= n < Pow10(k)
    ensures |NatToString(n)| == k
    decreases k
  {
    if k > 1 {
      assert Pow10(k - 1) == 10 * Pow10(k - 2);
      assert n >= 10;
      PrintedLength(n / 10, k - 1);
    }
  }

  /**
   * `Number(s)` for a string holding an optionally signed decimal integer; the
   * empty string converts to 0. None stands for every other string (NaN, or a
   * value this model does not represent).
   */
  function ParseInteger(s: string): Option<int>
  {
    if s == "" then Some(0)
    else if |s| > 1 && s[0] == '-' && AllDigits(s[1..]) then Some(0 - ParseDigits(s[1..]))
    else if |s| > 1 && s[0] == '+' && AllDigits(s[1..]) then Some(ParseDigits(s[1..]))
    else if AllDigits(s) then Some(ParseDigits(s))
    else None
  }

  /** `Number(n.toString()) == n` for a non-negative integer. */
  lemma ParseIntegerPrinted(n: nat)
    ensures ParseInteger(NatToString(n)) == Some(n)
  {
    ParsePrinted(n);
  }
}
