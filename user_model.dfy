/**
 * The user document of `models/userModel.js` and its two OTP methods. The
 * password-hashing save hook and `comparePassword` are not part of this
 * model; the handlers receive the password comparison as a parameter.
 */
module UserModel {
  import opened Wrappers
  import opened JsValues
  import Otp

  class UserAccount {
    var name: string
    var email: string
    var password: string
    /** Item id to size to quantity. */
    var cartData: map<string, map<string, int>>
    var isVerified: bool
    /** `null` and `undefined` are both None. */
    var otp: Option<string>
    var otpExpires: Option<int>

    /** `new userModel({ name, email, password })` with the schema defaults; an empty string is an absent field. */
    constructor (name: string, email: string, password: string)
      ensures this.name == name && this.email == email && this.password == password
      ensures cartData == map[] && !isVerified && otp.None? && otpExpires.None?
    {
      this.name := name;
      this.email := email;
      this.password := password;
      cartData := map[];
      isVerified := false;
      otp := None;
      otpExpires := None;
    }

    /** The `required` checks `save()` runs: name, email and password are present. */
    predicate HasRequiredFields()
      reads this
    {
      name != "" && email != "" && password != ""
    }

    /** Whether `verifyOTP(entered)` would accept at `now`. */
    predicate WouldAccept(entered: JsValue, now: int)
      reads this
    {
      Otp.Accepts(otp, otpExpires, entered, now)
    }

    /**
     * generateOTP (lines 64-69), with `offset` standing for the random draw:
     * stores and returns a six-digit code that expires ten minutes from `now`.
     */
    method GenerateOTP(now: int, offset: nat) returns (code: string)
      requires offset < Otp.OtpSpan
      modifies this
      ensures code == Otp.OtpCode(offset) && |code| == 6
      ensures otp == Some(code) && otpExpires == Some(now + Otp.OtpLifetimeMs)
      ensures name == old(name) && email == old(email) && password == old(password)
      ensures cartData == old(cartData) && isVerified == old(isVerified)
      ensures WouldAccept(Str(code), now + Otp.OtpLifetimeMs) && !WouldAccept(Str(code), now + Otp.OtpLifetimeMs + 1)
    {
      code := Otp.OtpCode(offset);
      otp := Some(code);
      otpExpires := Some(now + Otp.OtpLifetimeMs);
      Otp.FreshCodeLifetime(offset, now, now + Otp.OtpLifetimeMs);
      Otp.FreshCodeLifetime(offset, now, now + Otp.OtpLifetimeMs + 1);
    }

    /**
     * verifyOTP (lines 72-82): false without any change when no code or
     * expiry is stored, when the entry differs, or when the code has expired;
     * otherwise the user becomes verified and the code is spent.
     */
    method VerifyOTP(entered: JsValue, now: int) returns (ok: bool)
      modifies this
      ensures ok == old(WouldAccept(entered, now))
      ensures !ok ==> unchanged(this)
      ensures ok ==> isVerified && otp.None? && otpExpires.None?
      ensures ok ==> forall e, t :: !WouldAccept(e, t)
      ensures name == old(name) && email == old(email) && password == old(password) && cartData == old(cartData)
    {
      if otp.None? || otp.value == "" || otpExpires.None? {
        return false;
      }
      if entered != Str(otp.value) {
        return false;
      }
      if otpExpires.value < now {
        return false;
      }
      isVerified := true;
      otp := None;
      otpExpires := None;
      ok := true;
    }
  }
}
