/**
  Registration, login and e-mail verification.  A registered user starts
  inactive and unverified with a six-digit code; `VerifyOTPView` checks the
  user, the code record, the code and its age in that order; `ResendOTPView`
  issues a new code to an unverified user.

  Users and their code records are maps keyed by e-mail address (the address is
  unique, and a user has at most one code record).  The random code, the clock
  and the outcome of sending mail are parameters.
*/
module Accounts {
  import opened Wrappers
  import opened Text
  import Catalog

  // ---------------------------------------------------------------------------
  // Registration checks
  // ---------------------------------------------------------------------------

  /**
    `validate_phone`: digits only (so not empty), then at most eleven of them;
    the digit test comes first and decides the message.
  */
  function ValidatePhone(value: string): (r: Result<string, string>)
    ensures r.Ok? <==> value != "" && AllDigits(value) && |value| <= 11
    ensures r.Ok? ==> r.value == value
    ensures (value == "" || !AllDigits(value)) ==> r == Err("Phone number must contain only digits.")
    ensures value != "" && AllDigits(value) && |value| > 11 ==> r == Err("Phone number must not be more than 11 digits.")
  {
    if value == "" || !AllDigits(value) then Err("Phone number must contain only digits.")
    else if |value| > 11 then Err("Phone number must not be more than 11 digits.")
    else Ok(value)
  }

  /** `validate`: the two password fields must be equal. */
  function ValidatePasswords(password: string, password2: string): (r: Result<(), string>)
    ensures r.Ok? <==> password == password2
  {
    if password != password2 then Err("Password fields didn't match.") else Ok(())
  }

  datatype User = User(email: string, username: string, phone: string, role: string, isVerified: bool, isActive: bool)

  datatype Otp = Otp(code: string, createdAt: int)

  /** The validated registration data handed to `create`. */
  datatype Registration = Registration(email: string, username: string, phone: string, role: Option<string>)

  /** The user `create` stores: role defaulting to "user", neither verified nor active. */
  function NewUser(data: Registration): (u: User)
    ensures !u.isVerified && !u.isActive
    ensures u.email == data.email && u.phone == data.phone && u.username == data.username
    ensures u.role == data.role.GetOr("user")
  {
    User(data.email, data.username, data.phone, data.role.GetOr("user"), false, false)
  }

  /** `str(random.randint(100000, 999999))`: always six decimal digits. */
  lemma {:induction false} OtpCodeShape(draw: nat)
    requires 100000 <= draw <= 999999
    ensures |NatToString(draw)| == 6 && AllDigits(NatToString(draw))
    ensures ParseDigits(NatToString(draw)) == draw
  {
    assert Pow10(1) == 10 && Pow10(2) == 100 && Pow10(3) == 1000;
    assert Pow10(4) == 10000 && Pow10(5) == 100000 && Pow10(6) == 1000000;
    NatToStringLength(draw, 6);
    NatToStringRoundTrip(draw);
  }

  /**
    Login: the token endpoint first authenticates, which refuses a wrong
    password and an inactive user alike; an active user who has not verified
    the email address is refused after that.
  */
  function LoginCheck(passwordOk: bool, user: User): (r: Result<User, string>)
    ensures r.Ok? <==> passwordOk && user.isActive && user.isVerified
    ensures r.Ok? ==> r.value == user
    ensures !(passwordOk && user.isActive) ==> r == Err("No active account found with the given credentials")
    ensures passwordOk && user.isActive && !user.isVerified ==>
      r == Err("Please verify your email via OTP before logging in.")
  {
    if !(passwordOk && user.isActive) then Err("No active account found with the given credentials")
    else if !user.isVerified then Err("Please verify your email via OTP before logging in.")
    else Ok(user)
  }

  /** A freshly registered account is inactive, so it cannot log in before the OTP is verified. */
  lemma NewUserCannotLogIn(data: Registration, passwordOk: bool)
    ensures LoginCheck(passwordOk, NewUser(data)) == Err("No active account found with the given credentials")
  {
  }

  // ---------------------------------------------------------------------------
  // The verification views
  // ---------------------------------------------------------------------------

  datatype Response = Response(status: int, message: string)

  datatype VerifyOutcome = UserNotFound | OtpNotFound | InvalidOtp | OtpExpired | Verified

  /** The guard chain of `VerifyOTPView.post`. */
  function VerifyDecision(user: Option<User>, otp: Option<Otp>, submitted: Option<string>, now: int): (o: VerifyOutcome)
    ensures o == UserNotFound <==> user.None?
    ensures o == OtpNotFound <==> user.Some? && otp.None?
    ensures o == InvalidOtp <==> user.Some? && otp.Some? && submitted != Some(otp.value.code)
    ensures o == OtpExpired <==> (user.Some? && otp.Some? && submitted == Some(otp.value.code)
      && Catalog.IsExpired(now, otp.value.createdAt))
    ensures o == Verified <==> (user.Some? && otp.Some? && submitted == Some(otp.value.code)
      && !Catalog.IsExpired(now, otp.value.createdAt))
  {
    if user.None? then UserNotFound
    else if otp.None? then OtpNotFound
    else if submitted != Some(otp.value.code) then InvalidOtp
    else if Catalog.IsExpired(now, otp.value.createdAt) then OtpExpired
    else Verified
  }

  /** A wrong code is reported as invalid even when the stored code has long expired. */
  lemma MismatchBeforeExpiry(user: User, otp: Otp, submitted: string, now: int)
    requires submitted != otp.code && Catalog.IsExpired(now, otp.createdAt)
    ensures VerifyDecision(Some(user), Some(otp), Some(submitted), now) == InvalidOtp
  {
  }

  function VerifyResponse(o: VerifyOutcome): (r: Response)
    ensures r.status == 200 <==> o == Verified
    ensures o in {UserNotFound, OtpNotFound} <==> r.status == 404
  {
    match o
    case UserNotFound => Response(404, "User not found")
    case OtpNotFound => Response(404, "OTP not found")
    case InvalidOtp => Response(400, "Invalid OTP")
    case OtpExpired => Response(400, "OTP has expired")
    case Verified => Response(200, "User verified successfully")
  }

  datatype ResendOutcome = EmailMissing | NoSuchUser | AlreadyVerified | Resend

  /** The guard chain of `ResendOTPView.post`. */
  function ResendDecision(email: Option<string>, user: Option<User>): (o: ResendOutcome)
    ensures o == EmailMissing <==> email.None? || email.value == ""
    ensures o == NoSuchUser <==> email.Some? && email.value != "" && user.None?
    ensures o == AlreadyVerified <==> email.Some? && email.value != "" && user.Some? && user.value.isVerified
    ensures o == Resend <==> email.Some? && email.value != "" && user.Some? && !user.value.isVerified
  {
    if email.None? || email.value == "" then EmailMissing
    else if user.None? then NoSuchUser
    else if user.value.isVerified then AlreadyVerified
    else Resend
  }

  function ResendGuardResponse(o: ResendOutcome): (r: Response)
    requires o != Resend
    ensures o == NoSuchUser <==> r.status == 404
    ensures o != NoSuchUser <==> r.status == 400
  {
    match o
    case EmailMissing => Response(400, "Email is required.")
    case NoSuchUser => Response(404, "User with this email does not exist.")
    case AlreadyVerified => Response(400, "User is already verified.")
  }

  function Lookup<V>(m: map<string, V>, key: Option<string>): (r: Option<V>)
    ensures r.Some? <==> key.Some? && key.value in m
    ensures r.Some? ==> r.value == m[key.value]
  {
    if key.Some? && key.value in m then Some(m[key.value]) else None
  }

  class AuthStore {
    var users: map<string, User>
    var otps: map<string, Otp>

    /**
      Every code record belongs to a stored, still unverified user, and every
      user is stored under their own address.
    */
    ghost predicate Valid()
      reads this
    {
      (forall e :: e in users ==> users[e].email == e)
      && (forall e :: e in otps ==> e in users && !users[e].isVerified)
    }

    constructor ()
      ensures Valid() && users == map[] && otps == map[]
    {
      users := map[];
      otps := map[];
    }

    /**
      `UserRegistrationSerializer.create` on validated data: store the new user
      and a code record `created_at = now`, then send the code.  A mail failure
      is reported as an error after both rows were stored.
    */
    method Register(data: Registration, draw: nat, now: int, mailOk: bool) returns (r: Result<User, string>)
      requires Valid() && data.email !in users
      requires 100000 <= draw <= 999999
      modifies this
      ensures Valid()
      ensures users == old(users)[data.email := NewUser(data)]
      ensures otps == old(otps)[data.email := Otp(NatToString(draw), now)]
      ensures r.Ok? <==> mailOk
      ensures r.Ok? ==> r.value == NewUser(data)
    {
      var user := NewUser(data);
      users := users[data.email := user];
      otps := otps[data.email := Otp(NatToString(draw), now)];
      if !mailOk {
        return Err("Failed to send OTP");
      }
      return Ok(user);
    }

    /**
      `VerifyOTPView.post`.  Only an expired matching code is deleted without
      verifying; a matching live code verifies and activates the user and is
      deleted.  Every refusal before that changes nothing.
    */
    method VerifyOtp(email: Option<string>, submitted: Option<string>, now: int) returns (resp: Response)
      requires Valid()
      modifies this
      ensures Valid()
      ensures var o := VerifyDecision(Lookup(old(users), email), Lookup(old(otps), email), submitted, now);
        resp == VerifyResponse(o)
        && (o in {UserNotFound, OtpNotFound, InvalidOtp} ==> users == old(users) && otps == old(otps))
        && (o == OtpExpired ==> users == old(users) && otps == old(otps) - {email.value})
        && (o == Verified ==> users == old(users)[email.value := old(users)[email.value].(isVerified := true, isActive := true)]
                              && otps == old(otps) - {email.value})
    {
      if email.None? || email.value !in users {
        return Response(404, "User not found");
      }
      var e := email.value;
      if e !in otps {
        return Response(404, "OTP not found");
      }
      var otp := otps[e];
      if submitted != Some(otp.code) {
        return Response(400, "Invalid OTP");
      }
      if Catalog.IsExpired(now, otp.createdAt) {
        otps := otps - {e};
        return Response(400, "OTP has expired");
      }
      users := users[e := users[e].(isVerified := true, isActive := true)];
      otps := otps - {e};
      return Response(200, "User verified successfully");
    }

    /**
      `ResendOTPView.post` as written.  Past the guards, building the
      `update_or_create` defaults calls `now()` on the standard library's
      `datetime.timezone` class, which has no such method, and the default key
      `otp` names no field of the code record; the uncaught error ends the
      request with a server error before any row changes.
    */
    method ResendOtpAsWritten(email: Option<string>, draw: nat, now: int) returns (resp: Response)
      requires Valid()
      modifies this
      ensures users == old(users) && otps == old(otps)
      ensures var o := ResendDecision(email, Lookup(old(users), email));
        (o != Resend ==> resp == ResendGuardResponse(o))
        && (o == Resend ==> resp.status == 500)
    {
      var o := ResendDecision(email, Lookup(users, email));
      if o != Resend {
        return ResendGuardResponse(o);
      }
      // `timezone.now()` raises AttributeError here
      return Response(500, "Internal Server Error");
    }

    /**
      `ResendOTPView.post` as intended: store the new code with
      `created_at = now`, replacing any earlier record, then send it.  A mail
      failure is not caught and ends in a server error after the update.
    */
    method ResendOtp(email: Option<string>, draw: nat, now: int, mailOk: bool) returns (resp: Response)
      requires Valid()
      requires 100000 <= draw <= 999999
      modifies this
      ensures Valid() && users == old(users)
      ensures var o := ResendDecision(email, Lookup(old(users), email));
        (o != Resend ==> resp == ResendGuardResponse(o) && otps == old(otps))
        && (o == Resend ==> (otps == old(otps)[email.value := Otp(NatToString(draw), now)]
            && resp.status == (if mailOk then 200 else 500)))
    {
      var o := ResendDecision(email, Lookup(users, email));
      if o != Resend {
        return ResendGuardResponse(o);
      }
      otps := otps[email.value := Otp(NatToString(draw), now)];
      if !mailOk {
        return Response(500, "Internal Server Error");
      }
      return Response(200, "OTP resent successfully.");
    }
  }

  /**
    After a resend the user can verify with the new code for five minutes:
    the decision on the fresh record is `Verified` up to and including
    `now + 5 min`.
  */
  lemma ResentCodeVerifies(user: User, draw: nat, now: int, at: int)
    requires !user.isVerified && now <= at <= now + Catalog.OtpLifetime
    ensures VerifyDecision(Some(user), Some(Otp(NatToString(draw), now)), Some(NatToString(draw)), at) == Verified
  {
  }
}
