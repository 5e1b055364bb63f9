/**
 * The second user schema, defined in `models/orderModel.js`, and its OTP
 * methods: this copy also records when a code was sent, checks expiry before
 * the code, and answers with an object instead of a boolean.
 */
module OrderModel {
  import opened Wrappers
  import opened JsValues
  import Otp

  const NotSetMessage: string := "OTP not set or expired"
  const ExpiredMessage: string := "OTP has expired"
  const VerifiedMessage: string := "OTP verified successfully"
  const InvalidMessage: string := "Invalid OTP"

  /** `{ isValid, message, isExpired }`; `isExpired` is None where the object has no such field. */
  datatype OtpResult = OtpResult(isValid: bool, message: string, isExpired: Option<bool>)

  class User {
    var name: string
    var email: string
    var password: string
    var cartData: map<string, map<string, int>>
    var isVerified: bool
    var otp: Option<string>
    var otpExpiry: Option<int>
    var otpSentAt: Option<int>

    constructor (name: string, email: string, password: string)
      ensures this.name == name && this.email == email && this.password == password
      ensures cartData == map[] && !isVerified && otp.None? && otpExpiry.None? && otpSentAt.None?
    {
      this.name := name;
      this.email := email;
      this.password := password;
      cartData := map[];
      isVerified := false;
      otp := None;
      otpExpiry := None;
      otpSentAt := None;
    }

    /** No usable code is stored: `!this.otp || !this.otpExpiry`. */
    predicate NotSet()
      reads this
    {
      otp.None? || otp.value == "" || otpExpiry.None?
    }

    /**
     * generateOTP (lines 46-53), with `offset` standing for the random draw;
     * both clock readings of the source are `now`.
     */
    method GenerateOTP(now: int, offset: nat) returns (code: string)
      requires offset < Otp.OtpSpan
      modifies this
      ensures code == Otp.OtpCode(offset)
      ensures otp == Some(code) && otpExpiry == Some(now + Otp.OtpLifetimeMs) && otpSentAt == Some(now)
      ensures name == old(name) && email == old(email) && password == old(password)
      ensures cartData == old(cartData) && isVerified == old(isVerified)
      ensures Otp.Accepts(otp, otpExpiry, Str(code), now + Otp.OtpLifetimeMs)
      ensures !Otp.Accepts(otp, otpExpiry, Str(code), now + Otp.OtpLifetimeMs + 1)
    {
      code := Otp.OtpCode(offset);
      otp := Some(code);
      otpExpiry := Some(now + Otp.OtpLifetimeMs);
      otpSentAt := Some(now);
      Otp.FreshCodeLifetime(offset, now, now + Otp.OtpLifetimeMs);
      Otp.FreshCodeLifetime(offset, now, now + Otp.OtpLifetimeMs + 1);
    }

    /**
     * verifyOTP (lines 56-74). It accepts exactly the entries the boolean
     * copy accepts; the checks differ only in order, which decides the
     * message: an expired code is reported as expired even when it matches.
     */
    method VerifyOTP(entered: JsValue, now: int) returns (res: OtpResult)
      modifies this
      ensures res.isValid == Otp.Accepts(old(otp), old(otpExpiry), entered, now)
      ensures old(NotSet()) ==> res == OtpResult(false, NotSetMessage, Some(true))
      ensures !old(NotSet()) && old(otpExpiry).value < now ==> res == OtpResult(false, ExpiredMessage, Some(true))
      ensures !old(NotSet()) && !(old(otpExpiry).value < now) ==>
        res == (if entered == Str(old(otp).value) then OtpResult(true, VerifiedMessage, None)
                else OtpResult(false, InvalidMessage, None))
      ensures res.isExpired == Some(true) <==> old(NotSet()) || old(otpExpiry).value < now
      ensures !res.isValid ==> unchanged(this)
      ensures res.isValid ==> isVerified && otp.None? && otpExpiry.None?
      ensures otpSentAt == old(otpSentAt)
      ensures name == old(name) && email == old(email) && password == old(password) && cartData == old(cartData)
    {
      if NotSet() {
        return OtpResult(false, NotSetMessage, Some(true));
      }
      if otpExpiry.value < now {
        return OtpResult(false, ExpiredMessage, Some(true));
      }
      var isValid := entered == Str(otp.value);
      if isValid {
        isVerified := true;
        otp := None;
        otpExpiry := None;
      }
      res := OtpResult(isValid, if isValid then VerifiedMessage else InvalidMessage, None);
    }
  }
}
