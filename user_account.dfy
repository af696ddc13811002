/** UserAccountController: registration, email OTP issue and verification,
    login with refresh tokens, and the password-reset token. Each action is
    one atomic step on the shared Database. */
module UserAccount {
  import opened Query
  import opened Text
  import opened Http
  import opened Store

  /** IPasswordService: the hash and its check are left uninterpreted: any functions. */
  datatype PasswordService = PasswordService(hash: string -> string, verify: (string, string) -> bool)

  datatype RegisterRequest = RegisterRequest(
    name: string, email: string, password: string, confirmPassword: string, phone: int)
  {
    /** The first guard: IsNullOrEmpty on the four string fields. (The fifth
        test, on PhoneNumber.ToString(), cannot hold for a number.) */
    predicate HasEmptyField() {
      IsNullOrEmpty(email) || IsNullOrEmpty(password) || IsNullOrEmpty(confirmPassword) || IsNullOrEmpty(name)
    }

    /** The second guard. */
    predicate PasswordsDiffer() {
      IsNullOrEmpty(password) || password != confirmPassword
    }

    /** The third guard: the placeholder value, or a negative phone number. */
    predicate HasPlaceholder() {
      email == Placeholder || password == Placeholder || confirmPassword == Placeholder
      || phone < 0 || name == Placeholder
    }

    predicate PassesInputChecks() {
      !HasEmptyField() && !PasswordsDiffer() && !HasPlaceholder()
    }
  }

  datatype LoginResult = LoginResult(token: string, name: string, refreshToken: string, message: string)

  datatype TokenPair = TokenPair(token: string, refreshToken: string)

  /** Where a storage failure may strike inside Register's transaction. */
  datatype Fault = NoFault | UserInsertFails | RoleInsertFails

  const Pending := "Pending"
  const DefaultRole := "Guest"           // RoleType.Guest.ToString()
  const RefreshLifetime := 60            // minutes
  const ResetLifetime := 60              // AddHours(1), in minutes

  const MsgFieldsEmpty := "Fields cannot be empty, Please provide the valid input data"
  const MsgPasswordsMustMatch := "Password fields cannot be empty and must match."
  const MsgInvalidInput := "Invalid input data"
  const MsgAccountExists := "User with the provided email or phone number already exists."
  const MsgRegistered := "User account is created successfully. Please verify your email  complete registration successfully."
  const MsgInvalidUser := "Invalid user."
  const MsgInvalidOtp := "Invalid or expired OTP code."
  const MsgRegistrationCompleted := "User registration completed successfully."
  const MsgAlreadyVerified := "Email is already verified."
  const MsgNewOtpSent := "New OTP sent to your email."
  const MsgEmailRequired := "Email address is required."
  const MsgUserNotFound := "User not found."
  const MsgOtpSent := "OTP sent to email. Please verify your email."
  const MsgCredentialsRequired := "Email and password are required."
  const MsgBadCredentials := "Invalid email or password."
  const MsgLoggedIn := "Login successful."
  const MsgRefreshInvalid := "Refresh token data is not valid."
  const MsgRefreshExpired := "Invalid or expired refresh token."
  const MsgNoSuchAccount := "User with the provided email does not exist."
  const MsgResetLinkSent := "Password reset link has been sent to your email."
  const MsgPasswordsDoNotMatch := "Passwords do not match."
  const MsgResetExpired := "Invalid or expired reset token."
  const MsgPasswordReset := "Password has been reset successfully."

  /** The row Register inserts for a request, under the given id and hash. */
  function NewUser(id: int, dto: RegisterRequest, hashed: string): (u: User)
    ensures u.id == id && u.name == dto.name && u.email == dto.email && u.phone == dto.phone
    ensures u.password == hashed && u.status == Pending
    ensures !u.emailVerified && !u.phoneVerified
    ensures EmailIs(dto.email)(u) && EmailOrPhoneIs(dto.email, dto.phone)(u)
    ensures forall token, now :: !HoldsRefreshToken(token, now)(u) && !HoldsResetToken(token, now)(u)
  {
    User(id, dto.name, dto.email, dto.phone, hashed, false, false, Pending, None, None, None, None)
  }

  /** The user row after a login or a refresh has pointed it at a new token. */
  function WithRefreshToken(u: User, token: string, now: int): (v: User)
    ensures v.refreshToken == Some(token) && v.refreshExpiry == Some(now + RefreshLifetime)
    ensures v.(refreshToken := u.refreshToken, refreshExpiry := u.refreshExpiry) == u
  {
    u.(refreshToken := Some(token), refreshExpiry := Some(now + RefreshLifetime))
  }

  /** The refresh-token table after rotation away from `token`: the first
      record carrying it, if any, is marked revoked. */
  function RevokeFirst(records: seq<RefreshRecord>, token: string): (r: seq<RefreshRecord>)
    ensures |r| == |records|
    ensures First(records, RecordTokenIs(token)).None? ==> r == records
    ensures First(records, RecordTokenIs(token)).Some? ==>
      var i := First(records, RecordTokenIs(token)).value;
      r[i].revoked && r[i].(revoked := false) == records[i].(revoked := false)
      && forall j :: 0 <= j < |records| && j != i ==> r[j] == records[j]
  {
    match First(records, RecordTokenIs(token))
    case None => records
    case Some(i) => records[i := records[i].(revoked := true)]
  }

  /** Registering a user under the next id, with contacts no user has, and
      giving it a role keeps the directory invariant. */
  lemma RegisterKeepsDirectory(users: seq<User>, nextUserId: int, roles: seq<UserRole>,
                               subscriptions: seq<Subscription>, u: User, role: string)
    requires Directory(users, nextUserId, roles, subscriptions)
    requires u.id == nextUserId
    requires forall x :: x in users ==> x.email != u.email && x.phone != u.phone
    ensures Directory(users + [u], nextUserId + 1, roles + [UserRole(u.id, role)], subscriptions)
  {
  }

  /** After a rotation away from `token` the old token authorizes no further
      refresh, at any time, provided the generator produced a different token
      and no other user held the old one. */
  lemma RotatedTokenRejected(users: seq<User>, k: nat, token: string, newToken: string, now: int, later: int)
    requires k < |users|
    requires forall j :: 0 <= j < |users| && j != k ==> users[j].refreshToken != Some(token)
    requires newToken != token
    ensures First(users[k := WithRefreshToken(users[k], newToken, now)], HoldsRefreshToken(token, later)).None?
  {
  }

  /** The rotated token itself does authorize a refresh until it expires,
      provided no earlier user holds it. */
  lemma RotatedTokenAccepted(users: seq<User>, k: nat, newToken: string, now: int, later: int)
    requires k < |users|
    requires forall j :: 0 <= j < k ==> users[j].refreshToken != Some(newToken)
    requires later < now + RefreshLifetime
    ensures First(users[k := WithRefreshToken(users[k], newToken, now)], HoldsRefreshToken(newToken, later)) == Some(k)
  {
    var after := users[k := WithRefreshToken(users[k], newToken, now)];
    assert HoldsRefreshToken(newToken, later)(after[k]);
    forall j | 0 <= j < k ensures !HoldsRefreshToken(newToken, later)(after[j]) {
      assert after[j] == users[j];
    }
  }

  /** After a reset clears the token, the same token resets no password
      again, provided no other user held it. */
  lemma ResetTokenSingleUse(users: seq<User>, k: nat, token: string, hashed: string, later: int)
    requires k < |users|
    requires forall j :: 0 <= j < |users| && j != k ==> users[j].resetToken != Some(token)
    ensures First(users[k := users[k].(password := hashed, resetToken := None, resetExpiry := None)],
                  HoldsResetToken(token, later)).None?
  {
  }

  /** Once the only record matching a verification has been consumed, the same
      verification fails at that time and at every later one. */
  lemma ConsumedOtpRejected(otps: seq<Otp>, i: nat, userId: int, code: string, kind: OtpKind, now: int, later: int)
    requires i < |otps|
    requires forall j :: 0 <= j < |otps| && j != i ==> !OtpFor(userId, code, kind, now)(otps[j])
    requires now <= later
    ensures First(otps[i := otps[i].(used := true)], OtpFor(userId, code, kind, later)).None?
  {
  }

  class UserAccountController {
    const db: Database
    const passwords: PasswordService
    /** Ijwtservice.GenerateJwtToken: the signed access token issued for a user. */
    const jwt: User -> string

    constructor (db: Database, passwords: PasswordService, jwt: User -> string)
      ensures this.db == db && this.passwords == passwords && this.jwt == jwt
    {
      this.db, this.passwords, this.jwt := db, passwords, jwt;
    }

    /** Creates a Pending user and its Guest role in one transaction. */
    method Register(dto: RegisterRequest, fault: Fault) returns (r: Reply<string>)
      requires db.AccountsValid()
      modifies db`users, db`nextUserId, db`roles
      ensures db.AccountsValid()
      ensures dto.HasEmptyField() ==> r == BadRequest(MsgFieldsEmpty) && unchanged(db)
      ensures !dto.HasEmptyField() && dto.PasswordsDiffer() ==>
                r == BadRequest(MsgPasswordsMustMatch) && unchanged(db)
      ensures !dto.HasEmptyField() && !dto.PasswordsDiffer() && dto.HasPlaceholder() ==>
                r == BadRequest(MsgInvalidInput) && unchanged(db)
      ensures dto.PassesInputChecks() && (exists u :: u in old(db.users) && (u.email == dto.email || u.phone == dto.phone)) ==>
                r == BadRequest(MsgAccountExists) && unchanged(db)
      ensures dto.PassesInputChecks() && (forall u :: u in old(db.users) ==> u.email != dto.email && u.phone != dto.phone) ==>
                && (fault != NoFault ==> r == InternalError && unchanged(db))
                && (fault == NoFault ==>
                      && r == Ok(MsgRegistered)
                      && db.users == old(db.users) + [NewUser(old(db.nextUserId), dto, passwords.hash(dto.password))]
                      && db.roles == old(db.roles) + [UserRole(old(db.nextUserId), DefaultRole)]
                      && db.nextUserId == old(db.nextUserId) + 1)
      // The user row and its role row are written together or not at all.
      ensures || (db.users == old(db.users) && db.roles == old(db.roles))
              || (&& |db.users| == |old(db.users)| + 1 && db.users[..|old(db.users)|] == old(db.users)
                  && db.roles == old(db.roles) + [UserRole(db.users[|old(db.users)|].id, DefaultRole)])
    {
      if IsNullOrEmpty(dto.email) || IsNullOrEmpty(dto.password) || IsNullOrEmpty(dto.confirmPassword)
         || IsNullOrEmpty(dto.name) {
        return BadRequest(MsgFieldsEmpty);
      }
      if IsNullOrEmpty(dto.password) || dto.password != dto.confirmPassword {
        return BadRequest(MsgPasswordsMustMatch);
      }
      if dto.email == Placeholder || dto.password == Placeholder || dto.confirmPassword == Placeholder
         || dto.phone < 0 || dto.name == Placeholder {
        return BadRequest(MsgInvalidInput);
      }

      // BeginTransaction: remember the state a rollback returns to.
      var users0, roles0, next0 := db.users, db.roles, db.nextUserId;

      var existing := First(db.users, EmailOrPhoneIs(dto.email, dto.phone));
      if existing.Some? {
        assert EmailOrPhoneIs(dto.email, dto.phone)(db.users[existing.value]);
        return BadRequest(MsgAccountExists);
      }
      assert forall i :: 0 <= i < |db.users| ==> !EmailOrPhoneIs(dto.email, dto.phone)(db.users[i]);

      var hashed := passwords.hash(dto.password);
      var user := NewUser(db.nextUserId, dto, hashed);
      RegisterKeepsDirectory(db.users, db.nextUserId, db.roles, db.subscriptions, user, DefaultRole);
      db.users := db.users + [user];
      db.nextUserId := db.nextUserId + 1;
      if fault == UserInsertFails {
        db.users, db.roles, db.nextUserId := users0, roles0, next0;
        return InternalError;
      }

      db.roles := db.roles + [UserRole(user.id, DefaultRole)];
      if fault == RoleInsertFails {
        db.users, db.roles, db.nextUserId := users0, roles0, next0;
        return InternalError;
      }

      // CommitAsync
      r := Ok(MsgRegistered);
    }

    /** Consumes a matching email OTP of the user with this email and marks
        the email verified. */
    method VerifyEmail(email: string, code: string, now: int) returns (r: Reply<string>)
      requires db.AccountsValid()
      modifies db`users, db`otps
      ensures db.AccountsValid()
      ensures OtpHistory(old(db.otps), db.otps)
      ensures First(old(db.users), EmailIs(email)).None? ==> r == BadRequest(MsgInvalidUser) && unchanged(db)
      ensures First(old(db.users), EmailIs(email)).Some? ==>
        var k := First(old(db.users), EmailIs(email)).value;
        var o := First(old(db.otps), OtpFor(old(db.users)[k].id, code, EmailVerification, now));
        && (o.None? ==> r == BadRequest(MsgInvalidOtp) && unchanged(db))
        && (o.Some? ==>
              && r == Ok(MsgRegistrationCompleted)
              && db.otps == old(db.otps)[o.value := old(db.otps)[o.value].(used := true)]
              && db.users == old(db.users)[k := old(db.users)[k].(emailVerified := true)])
      // Success exactly when some unused, unexpired email OTP of that user carries the code.
      ensures r.Ok? <==> exists u, o :: u in old(db.users) && o in old(db.otps) && u.email == email
                                       && OtpFor(u.id, code, EmailVerification, now)(o)
    {
      var k := First(db.users, EmailIs(email));
      if k.None? {
        return BadRequest(MsgInvalidUser);
      }
      var user := db.users[k.value];
      var o := First(db.otps, OtpFor(user.id, code, EmailVerification, now));
      if o.None? {
        forall u, otp | u in db.users && otp in db.otps && u.email == email
          ensures !OtpFor(u.id, code, EmailVerification, now)(otp)
        {
          var j :| 0 <= j < |db.users| && db.users[j] == u;
          assert EmailIs(email)(db.users[j]);
          assert j == k.value;
        }
        return BadRequest(MsgInvalidOtp);
      }
      assert OtpFor(user.id, code, EmailVerification, now)(db.otps[o.value]);
      assert db.otps[o.value] in db.otps;

      ghost var users0 := db.users;
      db.otps := db.otps[o.value := db.otps[o.value].(used := true)];
      db.users := db.users[k.value := user.(emailVerified := true)];
      SameKeysKeepDirectory(users0, db.users, db.nextUserId, db.roles, db.subscriptions);
      r := Ok(MsgRegistrationCompleted);
    }

    /** ResendEmailOtp: issues one more email OTP to an unverified user. */
    method ResendEmailOtp(email: string, code: string, expiry: int) returns (r: Reply<string>)
      requires db.AccountsValid()
      modifies db`otps
      ensures db.AccountsValid()
      ensures OtpHistory(old(db.otps), db.otps)
      ensures First(db.users, EmailIs(email)).None? ==> r == BadRequest(MsgInvalidUser) && unchanged(db)
      ensures First(db.users, EmailIs(email)).Some? ==>
        var u := db.users[First(db.users, EmailIs(email)).value];
        && (u.emailVerified ==> r == BadRequest(MsgAlreadyVerified) && unchanged(db))
        && (!u.emailVerified ==>
              r == Ok(MsgNewOtpSent) && db.otps == old(db.otps) + [Otp(u.id, code, EmailVerification, expiry, false)])
    {
      var k := First(db.users, EmailIs(email));
      if k.None? {
        return BadRequest(MsgInvalidUser);
      }
      var user := db.users[k.value];
      if user.emailVerified {
        return BadRequest(MsgAlreadyVerified);
      }
      db.SaveOtp(user.id, code, EmailVerification, expiry);
      // SendOtpEmailAsync: delivery is outside the model.
      r := Ok(MsgNewOtpSent);
    }

    /** SendEmailOtp: as ResendEmailOtp, after checking that an email was given. */
    method SendEmailOtp(email: string, code: string, expiry: int) returns (r: Reply<string>)
      requires db.AccountsValid()
      modifies db`otps
      ensures db.AccountsValid()
      ensures OtpHistory(old(db.otps), db.otps)
      ensures IsNullOrEmpty(email) ==> r == BadRequest(MsgEmailRequired) && unchanged(db)
      ensures !IsNullOrEmpty(email) && First(db.users, EmailIs(email)).None? ==>
                r == BadRequest(MsgUserNotFound) && unchanged(db)
      ensures !IsNullOrEmpty(email) && First(db.users, EmailIs(email)).Some? ==>
        var u := db.users[First(db.users, EmailIs(email)).value];
        && (u.emailVerified ==> r == BadRequest(MsgAlreadyVerified) && unchanged(db))
        && (!u.emailVerified ==>
              r == Ok(MsgOtpSent) && db.otps == old(db.otps) + [Otp(u.id, code, EmailVerification, expiry, false)])
    {
      if IsNullOrEmpty(email) {
        return BadRequest(MsgEmailRequired);
      }
      var k := First(db.users, EmailIs(email));
      if k.None? {
        return BadRequest(MsgUserNotFound);
      }
      var user := db.users[k.value];
      if user.emailVerified {
        return BadRequest(MsgAlreadyVerified);
      }
      db.SaveOtp(user.id, code, EmailVerification, expiry);
      r := Ok(MsgOtpSent);
    }

    /** LoginAsync: checks the credentials, then points the user at the new
        refresh token (issued by the caller) and records it. */
    method Login(email: string, password: string, now: int, newToken: string) returns (r: Reply<LoginResult>)
      requires db.AccountsValid()
      modifies db`users, db`refreshTokens
      ensures db.AccountsValid()
      ensures (IsNullOrEmpty(email) || IsNullOrEmpty(password)) ==> r == BadRequest(MsgCredentialsRequired) && unchanged(db)
      ensures !IsNullOrEmpty(email) && !IsNullOrEmpty(password) ==>
        var k := First(old(db.users), EmailIs(email));
        && (k.None? || !passwords.verify(password, old(db.users)[k.value].password) ==>
              r == Unauthorized(MsgBadCredentials) && unchanged(db))
        && (k.Some? && passwords.verify(password, old(db.users)[k.value].password) ==>
              var u := old(db.users)[k.value];
              && r == Ok(LoginResult(jwt(u), u.name, newToken, MsgLoggedIn))
              && db.users == old(db.users)[k.value := WithRefreshToken(u, newToken, now)]
              && db.refreshTokens == old(db.refreshTokens) + [RefreshRecord(u.id, newToken, now + RefreshLifetime, false)])
      // An unknown email and a wrong password give the very same reply.
      ensures r.Unauthorized? <==>
        !IsNullOrEmpty(email) && !IsNullOrEmpty(password)
        && forall u :: u in old(db.users) && u.email == email ==> !passwords.verify(password, u.password)
      ensures r.Unauthorized? ==> r == Unauthorized(MsgBadCredentials)
    {
      if IsNullOrEmpty(email) || IsNullOrEmpty(password) {
        return BadRequest(MsgCredentialsRequired);
      }
      var k := First(db.users, EmailIs(email));
      if k.None? || !passwords.verify(password, db.users[k.value].password) {
        forall u | u in db.users && u.email == email
          ensures !passwords.verify(password, u.password)
        {
          var j :| 0 <= j < |db.users| && db.users[j] == u;
          assert EmailIs(email)(db.users[j]);
          assert k.Some? && j == k.value;
        }
        return Unauthorized(MsgBadCredentials);
      }
      var user := db.users[k.value];
      assert user in db.users && EmailIs(email)(user);
      var token := jwt(user);

      ghost var users0 := db.users;
      db.users := db.users[k.value := WithRefreshToken(user, newToken, now)];
      SameKeysKeepDirectory(users0, db.users, db.nextUserId, db.roles, db.subscriptions);
      db.refreshTokens := db.refreshTokens + [RefreshRecord(user.id, newToken, now + RefreshLifetime, false)];
      r := Ok(LoginResult(token, user.name, newToken, MsgLoggedIn));
    }

    /** RefreshToken: exchanges the user's current, unexpired refresh token
        for a new one (issued by the caller), revoking the old record. */
    method RefreshToken(token: string, now: int, newToken: string) returns (r: Reply<TokenPair>)
      requires db.AccountsValid()
      modifies db`users, db`refreshTokens
      ensures db.AccountsValid()
      ensures IsNullOrEmpty(token) ==> r == BadRequest(MsgRefreshInvalid) && unchanged(db)
      ensures !IsNullOrEmpty(token) ==>
        var k := First(old(db.users), HoldsRefreshToken(token, now));
        && (k.None? ==> r == BadRequest(MsgRefreshExpired) && unchanged(db))
        && (k.Some? ==>
              var u := old(db.users)[k.value];
              && r == Ok(TokenPair(jwt(u), newToken))
              && db.users == old(db.users)[k.value := WithRefreshToken(u, newToken, now)]
              && db.refreshTokens == RevokeFirst(old(db.refreshTokens), token)
                                     + [RefreshRecord(u.id, newToken, now + RefreshLifetime, false)])
    {
      if IsNullOrEmpty(token) {
        return BadRequest(MsgRefreshInvalid);
      }
      var k := First(db.users, HoldsRefreshToken(token, now));
      if k.None? {
        return BadRequest(MsgRefreshExpired);
      }
      var user := db.users[k.value];
      var access := jwt(user);

      ghost var users0 := db.users;
      db.users := db.users[k.value := WithRefreshToken(user, newToken, now)];
      SameKeysKeepDirectory(users0, db.users, db.nextUserId, db.roles, db.subscriptions);

      var previous := First(db.refreshTokens, RecordTokenIs(token));
      if previous.Some? {
        db.refreshTokens := db.refreshTokens[previous.value := db.refreshTokens[previous.value].(revoked := true)];
      }
      db.refreshTokens := db.refreshTokens + [RefreshRecord(user.id, newToken, now + RefreshLifetime, false)];
      r := Ok(TokenPair(access, newToken));
    }

    /** ForgotPassword: gives the user a new reset token (issued by the
        caller), valid for one hour, replacing any earlier one. */
    method ForgotPassword(email: string, resetToken: string, now: int) returns (r: Reply<string>)
      requires db.AccountsValid()
      modifies db`users
      ensures db.AccountsValid()
      ensures First(old(db.users), EmailIs(email)).None? ==> r == BadRequest(MsgNoSuchAccount) && unchanged(db)
      ensures First(old(db.users), EmailIs(email)).Some? ==>
        var k := First(old(db.users), EmailIs(email)).value;
        && r == Ok(MsgResetLinkSent)
        && db.users == old(db.users)[k := old(db.users)[k].(resetToken := Some(resetToken),
                                                             resetExpiry := Some(now + ResetLifetime))]
    {
      var k := First(db.users, EmailIs(email));
      if k.None? {
        return BadRequest(MsgNoSuchAccount);
      }
      ghost var users0 := db.users;
      var user := db.users[k.value];
      db.users := db.users[k.value := user.(resetToken := Some(resetToken), resetExpiry := Some(now + ResetLifetime))];
      SameKeysKeepDirectory(users0, db.users, db.nextUserId, db.roles, db.subscriptions);
      // SendPasswordResetLinkAsync: delivery is outside the model.
      r := Ok(MsgResetLinkSent);
    }

    /** ResetPassword: with a live reset token, stores the new password's
        hash and clears the token, so it cannot be used twice. */
    method ResetPassword(token: string, newPassword: string, confirmPassword: string, now: int) returns (r: Reply<string>)
      requires db.AccountsValid()
      modifies db`users
      ensures db.AccountsValid()
      ensures newPassword != confirmPassword ==> r == BadRequest(MsgPasswordsDoNotMatch) && unchanged(db)
      ensures newPassword == confirmPassword ==>
        var k := First(old(db.users), HoldsResetToken(token, now));
        && (k.None? ==> r == BadRequest(MsgResetExpired) && unchanged(db))
        && (k.Some? ==>
              && r == Ok(MsgPasswordReset)
              && db.users == old(db.users)[k.value := old(db.users)[k.value].(
                   password := passwords.hash(newPassword), resetToken := None, resetExpiry := None)])
    {
      if newPassword != confirmPassword {
        return BadRequest(MsgPasswordsDoNotMatch);
      }
      var k := First(db.users, HoldsResetToken(token, now));
      if k.None? {
        return BadRequest(MsgResetExpired);
      }
      ghost var users0 := db.users;
      var user := db.users[k.value];
      var hashed := passwords.hash(newPassword);
      db.users := db.users[k.value := user.(password := hashed, resetToken := None, resetExpiry := None)];
      SameKeysKeepDirectory(users0, db.users, db.nextUserId, db.roles, db.subscriptions);
      r := Ok(MsgPasswordReset);
    }
  }
}
