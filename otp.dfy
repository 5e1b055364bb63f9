/**
 * What the two user schemas share about one-time passcodes: the code format
 * and the ten-minute lifetime.
 */
module Otp {
  import Decimal
  import opened Wrappers
  import opened JsValues

  /** `10 * 60 * 1000`: a code's lifetime in milliseconds. */
  const OtpLifetimeMs: int := 600000
  /** The smallest code. */
  const OtpMin: nat := 100000
  /** The number of distinct codes. */
  const OtpSpan: nat := 900000

  /**
   * `Math.floor(100000 + Math.random() * 900000).toString()`, where `offset`
   * is the floor of the random draw times 900000.
   */
  function OtpCode(offset: nat): (code: string)
    requires offset < OtpSpan
    ensures |code| == 6 && Decimal.AllDigits(code) && code[0] != '0'
    ensures Decimal.ParseDigits(code) == OtpMin + offset
    ensures OtpMin <= Decimal.ParseDigits(code) <= 999999
  {
    assert Decimal.Pow10(5) == 100000;
    assert Decimal.Pow10(6) == 1000000;
    Decimal.PrintedLength(OtpMin + offset, 6);
    Decimal.ParsePrinted(OtpMin + offset);
    Decimal.NatToString(OtpMin + offset)
  }

  /**
   * When both user schemas accept an entered code: a non-empty code and an
   * expiry are stored, the entry is that very string (`===`, so a number
   * never matches), and the expiry is not before `now`.
   */
  predicate Accepts(otp: Option<string>, expires: Option<int>, entered: JsValue, now: int) {
    otp.Some? && otp.value != "" && expires.Some? && entered == Str(otp.value) && !(expires.value < now)
  }

  /** A freshly generated code is accepted up to and including its expiry instant, and not a millisecond later. */
  lemma FreshCodeLifetime(offset: nat, issued: int, now: int)
    requires offset < OtpSpan
    ensures Accepts(Some(OtpCode(offset)), Some(issued + OtpLifetimeMs), Str(OtpCode(offset)), now) <==>
            now <= issued + OtpLifetimeMs
  {
  }
}
