/**
 * The account handlers over the user collection of `models/userModel.js`.
 * Password comparison (bcrypt), email-address validation (`validator.isEmail`)
 * and the outcome of sending mail are parameters; tokens are represented by
 * the account they are issued for.
 */
module UserController {
  import opened Wrappers
  import opened JsValues
  import Otp
  import opened UserModel

  datatype UserError =
    | MissingFields
    | InvalidEmail
    | PasswordTooShort
    | UserExists
    | UserNotFound
    | InvalidCredentials
    | InvalidOtp
    | ServerError

  /** A successful answer: a code was mailed (`requiresOTP`), or a token was issued for the account. */
  datatype UserOutcome = OtpSent | Token(email: string, name: string, isVerified: bool)

  /** `password.length < 8`. */
  const MinPasswordLength: nat := 8

  /**
   * `length` of a JavaScript string: UTF-16 code units, two for a character
   * outside the Basic Multilingual Plane (above U+FFFF), one otherwise.
   */
  function Utf16Length(s: string): (n: nat)
    ensures |s| <= n <= 2 * |s|
    ensures (forall i :: 0 <= i < |s| ==> s[i] as int <= 0xFFFF) ==> n == |s|
  {
    if s == [] then 0
    else
      assert forall i :: 0 <= i < |s[1..]| ==> s[1..][i] == s[i + 1];
      (if s[0] as int > 0xFFFF then 2 else 1) + Utf16Length(s[1..])
  }

  /** Four emoji are four characters but eight UTF-16 units, so `password.length < 8` lets them through. */
  lemma AstralPasswordLength()
    ensures |"\U{1F600}\U{1F600}\U{1F600}\U{1F600}"| == 4
    ensures Utf16Length("\U{1F600}\U{1F600}\U{1F600}\U{1F600}") == MinPasswordLength
  {
    var e := "\U{1F600}\U{1F600}\U{1F600}\U{1F600}";
    assert e[1..][1..][1..][1..] == [];
  }

  class UserStore {
    /** The user collection, keyed by the unique email. */
    var users: map<string, UserAccount>

    /** Each document sits under its own email (so no two keys share a document) and passed the schema's checks. */
    ghost predicate Valid()
      reads this, users.Values
    {
      forall e :: e in users ==> users[e].email == e && users[e].HasRequiredFields()
    }

    constructor ()
      ensures Valid() && users == map[]
    {
      users := map[];
    }

    /**
     * loginUser (lines 118-177). Without an OTP a fresh code is stored and
     * mailed; a mail failure is a server error after the code was saved.
     * With an OTP, a valid code verifies the account and yields a token.
     */
    method LoginUser(email: string, password: string, otp: JsValue, now: int, offset: nat,
                     passwordMatches: (string, string) -> bool, mailSent: bool)
      returns (r: Result<UserOutcome, UserError>)
      requires Valid()
      requires offset < Otp.OtpSpan
      modifies users.Values
      ensures Valid() && users == old(users)
      ensures forall e :: e in users && e != email ==> unchanged(users[e])
      ensures email !in users ==> r == Err(UserNotFound)
      ensures email in users && !passwordMatches(password, old(users[email].password)) ==>
        r == Err(InvalidCredentials) && unchanged(users[email])
      ensures email in users && passwordMatches(password, old(users[email].password)) && Truthy(otp) ==>
        var u := users[email];
        if old(u.WouldAccept(otp, now)) then
          && r == Ok(Token(email, u.name, true))
          && u.isVerified && u.otp.None? && u.otpExpires.None?
        else
          r == Err(InvalidOtp) && unchanged(u)
      ensures email in users && passwordMatches(password, old(users[email].password)) && !Truthy(otp) ==>
        var u := users[email];
        && r == (if mailSent then Ok(OtpSent) else Err(ServerError))
        && u.otp == Some(Otp.OtpCode(offset))
        && u.otpExpires == Some(now + Otp.OtpLifetimeMs)
        && u.isVerified == old(u.isVerified)
      ensures email in users ==>
        var u := users[email];
        u.name == old(u.name) && u.email == old(u.email) && u.password == old(u.password) &&
        u.cartData == old(u.cartData)
      ensures r.Ok? && r.value.Token? ==> email in users && users[email].isVerified
    {
      if email !in users {
        return Err(UserNotFound);
      }
      var user := users[email];
      if !passwordMatches(password, user.password) {
        return Err(InvalidCredentials);
      }
      if Truthy(otp) {
        var ok := user.VerifyOTP(otp, now);
        if !ok {
          return Err(InvalidOtp);
        }
        r := Ok(Token(email, user.name, user.isVerified));
      } else {
        var code := user.GenerateOTP(now, offset);
        if !mailSent {
          return Err(ServerError);
        }
        r := Ok(OtpSent);
      }
    }

    /**
     * registerUser (lines 180-260). The checks run in order: missing field,
     * invalid email, short password, existing email. With an OTP the
     * temporary document holds the empty code, which `verifyOTP` never
     * accepts, so the branch that creates the account (lines 234-251) is
     * unreachable; without one a code is mailed and nothing is stored.
     */
    method RegisterUser(name: string, email: string, password: string, otp: JsValue, now: int, offset: nat,
                        isEmail: string -> bool, mailSent: bool)
      returns (r: Result<UserOutcome, UserError>)
      requires offset < Otp.OtpSpan
      ensures name == "" || email == "" || password == "" ==> r == Err(MissingFields)
      ensures name != "" && email != "" && password != "" && !isEmail(email) ==> r == Err(InvalidEmail)
      ensures name != "" && email != "" && password != "" && isEmail(email) && Utf16Length(password) < MinPasswordLength ==>
        r == Err(PasswordTooShort)
      ensures name != "" && email != "" && isEmail(email) && Utf16Length(password) >= MinPasswordLength && email in users ==>
        r == Err(UserExists)
      ensures name != "" && email != "" && isEmail(email) && Utf16Length(password) >= MinPasswordLength && email !in users ==>
        r == (if Truthy(otp) then Err(InvalidOtp) else if mailSent then Ok(OtpSent) else Err(ServerError))
      ensures r.Ok? ==> r.value == OtpSent
    {
      if name == "" || email == "" || password == "" {
        return Err(MissingFields);
      }
      if !isEmail(email) {
        return Err(InvalidEmail);
      }
      if Utf16Length(password) < MinPasswordLength {
        return Err(PasswordTooShort);
      }
      if email in users {
        return Err(UserExists);
      }
      if Truthy(otp) {
        var tempUser := new UserAccount("", email, "");
        tempUser.otp := Some("");
        var ok := tempUser.VerifyOTP(otp, now);
        assert !ok;
        return Err(InvalidOtp);
      }
      var tempUser := new UserAccount("", email, "");
      var code := tempUser.GenerateOTP(now, offset);
      if !mailSent {
        return Err(ServerError);
      }
      r := Ok(OtpSent);
    }

    /**
     * sendOTP (lines 81-115). `isEmail` throws on an absent email, which the
     * handler reports as a server error. For an unknown email the new
     * document has neither name nor password, so its save fails and nothing
     * is stored.
     */
    method SendOTP(email: Option<string>, now: int, offset: nat, isEmail: string -> bool, mailSent: bool)
      returns (r: Result<UserOutcome, UserError>)
      requires Valid()
      requires offset < Otp.OtpSpan
      modifies users.Values
      ensures Valid() && users == old(users)
      ensures email.None? ==> r == Err(ServerError)
      ensures email.Some? && !isEmail(email.value) ==> r == Err(InvalidEmail)
      ensures email.Some? && isEmail(email.value) && email.value !in users ==> r == Err(ServerError)
      ensures email.Some? && isEmail(email.value) && email.value in users ==>
        var u := users[email.value];
        && r == (if mailSent then Ok(OtpSent) else Err(ServerError))
        && u.otp == Some(Otp.OtpCode(offset))
        && u.otpExpires == Some(now + Otp.OtpLifetimeMs)
        && u.isVerified == old(u.isVerified)
        && u.name == old(u.name) && u.email == old(u.email) && u.password == old(u.password)
        && u.cartData == old(u.cartData)
      ensures forall e :: e in users && Some(e) != email ==> unchanged(users[e])
      ensures r.Ok? ==> r.value == OtpSent
    {
      if email.None? {
        return Err(ServerError);
      }
      if !isEmail(email.value) {
        return Err(InvalidEmail);
      }
      if email.value !in users {
        var newUser := new UserAccount("", email.value, "");
        var code := newUser.GenerateOTP(now, offset);
        assert !newUser.HasRequiredFields();
        return Err(ServerError);
      }
      var user := users[email.value];
      var code := user.GenerateOTP(now, offset);
      if !mailSent {
        return Err(ServerError);
      }
      r := Ok(OtpSent);
    }

    /** verifyOTP, the handler (lines 44-78). */
    method VerifyOtp(email: string, otp: JsValue, now: int) returns (r: Result<(), UserError>)
      requires Valid()
      modifies users.Values
      ensures Valid() && users == old(users)
      ensures forall e :: e in users && e != email ==> unchanged(users[e])
      ensures email !in users ==> r == Err(UserNotFound)
      ensures email in users ==>
        var u := users[email];
        && (r.Ok? <==> old(u.WouldAccept(otp, now)))
        && (r.Err? ==> r == Err(InvalidOtp) && unchanged(u))
        && (r.Ok? ==> u.isVerified && u.otp.None? && u.otpExpires.None?)
        && u.name == old(u.name) && u.email == old(u.email) && u.password == old(u.password)
        && u.cartData == old(u.cartData)
    {
      if email !in users {
        return Err(UserNotFound);
      }
      var user := users[email];
      var ok := user.VerifyOTP(otp, now);
      if !ok {
        return Err(InvalidOtp);
      }
      r := Ok(());
    }
  }

  /**
   * adminLogin (lines 263-277): strict equality with the configured
   * credentials, where an unset environment variable and an absent body
   * field are both `undefined`.
   */
  function AdminLogin(email: Option<string>, password: Option<string>,
                      adminEmail: Option<string>, adminPassword: Option<string>): bool
  {
    email == adminEmail && password == adminPassword
  }

  /**
   * A body without email and password is admitted exactly when neither
   * admin credential is configured: configuring either one closes that door.
   */
  lemma AdminLoginNoCredentials(adminEmail: Option<string>, adminPassword: Option<string>)
    ensures AdminLogin(None, None, adminEmail, adminPassword) <==> adminEmail.None? && adminPassword.None?
  {
  }
}
