/** The account flows played step by step on a fresh, empty database, each
    stating what every step answers. */
module Scenarios {
  import opened Query
  import opened Text
  import opened Store
  import opened Http
  import opened UserAccount
  import opened Subscriptions
  import opened UserRoles
  import opened Languages

  /** The directory after one successful registration on an empty database. */
  method RegisterFirst(passwords: PasswordService, jwt: User -> string, dto: RegisterRequest)
    returns (db: Database, accounts: UserAccountController, registered: Reply<string>)
    requires dto.PassesInputChecks()
    ensures fresh(db) && accounts.db == db && accounts.passwords == passwords && accounts.jwt == jwt
    ensures registered == Ok(UserAccount.MsgRegistered)
    ensures db.AccountsValid()
    ensures db.users == [NewUser(1, dto, passwords.hash(dto.password))]
    ensures db.roles == [UserRole(1, DefaultRole)]
    ensures db.otps == [] && db.refreshTokens == [] && db.subscriptions == []
  {
    db := new Database();
    accounts := new UserAccountController(db, passwords, jwt);
    registered := accounts.Register(dto, NoFault);
  }

  /** Register, send an email OTP, verify with it, then verify again with the
      same code: the second verification fails because the OTP is consumed. */
  method VerifyEmailOnce(passwords: PasswordService, jwt: User -> string, dto: RegisterRequest,
                         code: string, now: int, expiry: int)
    returns (registered: Reply<string>, sent: Reply<string>, first: Reply<string>, second: Reply<string>)
    requires dto.PassesInputChecks()
    requires now < expiry
    ensures registered == Ok(UserAccount.MsgRegistered)
    ensures sent == Ok(MsgOtpSent)
    ensures first == Ok(MsgRegistrationCompleted)
    ensures second == BadRequest(UserAccount.MsgInvalidOtp)
  {
    var db, accounts;
    db, accounts, registered := RegisterFirst(passwords, jwt, dto);
    assert First(db.users, EmailIs(dto.email)) == Some(0);
    assert !db.users[0].emailVerified && db.users[0].id == 1;
    sent := accounts.SendEmailOtp(dto.email, code, expiry);
    assert db.otps == [Otp(1, code, EmailVerification, expiry, false)];
    assert First(db.otps, OtpFor(1, code, EmailVerification, now)) == Some(0);
    first := accounts.VerifyEmail(dto.email, code, now);
    assert db.otps == [Otp(1, code, EmailVerification, expiry, true)];
    assert First(db.users, EmailIs(dto.email)) == Some(0) && db.users[0].id == 1;
    assert First(db.otps, OtpFor(1, code, EmailVerification, now)).None?;
    second := accounts.VerifyEmail(dto.email, code, now);
  }

  /** Registering the same request twice: the second is refused and the
      directory keeps the one account. */
  method RegisterTwice(passwords: PasswordService, jwt: User -> string, dto: RegisterRequest)
    returns (first: Reply<string>, second: Reply<string>, accounts: nat)
    requires dto.PassesInputChecks()
    ensures first == Ok(UserAccount.MsgRegistered)
    ensures second == BadRequest(MsgAccountExists)
    ensures accounts == 1
  {
    var db, controller;
    db, controller, first := RegisterFirst(passwords, jwt, dto);
    assert db.users[0] in db.users;
    second := controller.Register(dto, NoFault);
    accounts := |db.users|;
  }

  /** A failure inside Register's transaction leaves neither a user nor a role. */
  method RegisterRolledBack(passwords: PasswordService, jwt: User -> string, dto: RegisterRequest, fault: Fault)
    returns (r: Reply<string>, users: nat, roles: nat)
    requires dto.PassesInputChecks() && fault != NoFault
    ensures r == InternalError && users == 0 && roles == 0
  {
    var db := new Database();
    var controller := new UserAccountController(db, passwords, jwt);
    r := controller.Register(dto, fault);
    users, roles := |db.users|, |db.roles|;
  }

  /** Log in, rotate the refresh token, then present the old token again:
      it is refused, while the new one still works. */
  method RotateRefreshToken(passwords: PasswordService, jwt: User -> string, dto: RegisterRequest,
                            now: int, t1: string, t2: string, t3: string)
    returns (login: Reply<LoginResult>, rotated: Reply<TokenPair>, reused: Reply<TokenPair>, renewed: Reply<TokenPair>)
    requires dto.PassesInputChecks()
    requires passwords.verify(dto.password, passwords.hash(dto.password))
    requires t1 != "" && t2 != "" && t1 != t2
    ensures login.Ok? && login.value.refreshToken == t1
    ensures rotated.Ok? && rotated.value.refreshToken == t2
    ensures reused == BadRequest(MsgRefreshExpired)
    ensures renewed.Ok? && renewed.value.refreshToken == t3
  {
    var db, controller, registered := RegisterFirst(passwords, jwt, dto);
    assert |db.users| == 1 && db.users[0].email == dto.email;
    assert db.users[0].password == passwords.hash(dto.password);
    assert First(db.users, EmailIs(dto.email)) == Some(0);
    login := controller.Login(dto.email, dto.password, now, t1);
    assert |db.users| == 1 && HoldsRefreshToken(t1, now)(db.users[0]);
    assert First(db.users, HoldsRefreshToken(t1, now)) == Some(0);
    ghost var before := db.users;
    rotated := controller.RefreshToken(t1, now, t2);
    RotatedTokenRejected(before, 0, t1, t2, now, now);
    RotatedTokenAccepted(before, 0, t2, now, now);
    reused := controller.RefreshToken(t1, now, t3);
    renewed := controller.RefreshToken(t2, now, t3);
  }

  /** Ask for a reset token, reset the password with it, then try the same
      token again: the second reset is refused. */
  method ResetOnce(passwords: PasswordService, jwt: User -> string, dto: RegisterRequest,
                   now: int, token: string, newPassword: string)
    returns (requested: Reply<string>, first: Reply<string>, second: Reply<string>)
    requires dto.PassesInputChecks()
    ensures requested == Ok(MsgResetLinkSent)
    ensures first == Ok(MsgPasswordReset)
    ensures second == BadRequest(MsgResetExpired)
  {
    var db, controller, registered := RegisterFirst(passwords, jwt, dto);
    assert First(db.users, EmailIs(dto.email)) == Some(0);
    requested := controller.ForgotPassword(dto.email, token, now);
    assert |db.users| == 1 && HoldsResetToken(token, now)(db.users[0]);
    assert First(db.users, HoldsResetToken(token, now)) == Some(0);
    ghost var before := db.users;
    first := controller.ResetPassword(token, newPassword, newPassword, now);
    ResetTokenSingleUse(before, 0, token, passwords.hash(newPassword), now);
    second := controller.ResetPassword(token, newPassword, newPassword, now);
  }

  /** The directory after a registration and a subscription for that user. */
  method SubscribeFirst(passwords: PasswordService, jwt: User -> string, dto: RegisterRequest,
                        phone: string, code: string, expiry: int)
    returns (db: Database, subscriptions: SubscribeController, created: Reply<string>)
    requires dto.PassesInputChecks() && phone != ""
    ensures fresh(db) && subscriptions.db == db
    ensures created == Ok(MsgSubscriptionCreated)
    ensures db.AccountsValid()
    ensures db.subscriptions == [Subscription(1, phone, false, false)]
    ensures db.otps == [Otp(1, code, PhoneNumberVerification, expiry, false)]
  {
    var accounts, registered;
    db, accounts, registered := RegisterFirst(passwords, jwt, dto);
    subscriptions := new SubscribeController(db);
    assert First(db.users, EmailIs(dto.email)) == Some(0) && db.users[0].id == 1;
    created := subscriptions.CreateSubscription(phone, dto.email, code, expiry);
  }

  /** Create a subscription, verify it with the phone OTP, then use the same
      code again: the repeat is refused. */
  method VerifySubscriptionOnce(passwords: PasswordService, jwt: User -> string, dto: RegisterRequest,
                                phone: string, code: string, now: int, expiry: int)
    returns (created: Reply<string>, first: Reply<string>, second: Reply<string>, verified: bool)
    requires dto.PassesInputChecks()
    requires phone != "" && code != "" && now < expiry
    ensures created == Ok(MsgSubscriptionCreated)
    ensures first == Ok(MsgSubscriptionVerified)
    ensures second == BadRequest(Subscriptions.MsgInvalidOtp)
    ensures verified
  {
    var db, subscriptions;
    db, subscriptions, created := SubscribeFirst(passwords, jwt, dto, phone, code, expiry);
    assert First(db.otps, OtpWithCode(code, PhoneNumberVerification, now)) == Some(0);
    assert First(db.subscriptions, SubscriptionOf(1)) == Some(0);
    first := subscriptions.VerifySubscription(code, now);
    verified := db.subscriptions[0].verified && db.subscriptions[0].paid;
    assert db.otps == [Otp(1, code, PhoneNumberVerification, expiry, true)];
    assert First(db.otps, OtpWithCode(code, PhoneNumberVerification, now)).None?;
    second := subscriptions.VerifySubscription(code, now);
  }

  /** A registered user already holds the Guest role, so assigning any other
      role is refused and names the role held. */
  method NoSecondRole(passwords: PasswordService, jwt: User -> string, dto: RegisterRequest, role: string)
    returns (r: Reply<string>)
    requires dto.PassesInputChecks()
    requires !IsNullOrWhiteSpace(role) && role != Placeholder && role != DefaultRole
    ensures r == BadRequest(MsgHasRoles + DefaultRole)
  {
    var db, accounts, registered := RegisterFirst(passwords, jwt, dto);
    var roles := new UserRolesController(db);
    assert First(db.users, IdIs(1)) == Some(0);
    assert db.roles == [UserRole(1, DefaultRole)];
    assert RolesOf(db.roles, 1) == [DefaultRole];
    r := roles.AssignRole(1, role);
  }

  /** Language names clash ignoring case, and the clash is reported even for
      an id that does not exist. */
  method LanguageNamesIgnoreCase() returns (created: Reply<string>, repeated: Reply<string>, renamed: Reply<string>)
    ensures created == Created(1)
    ensures repeated == Conflict(MsgLanguageExists)
    ensures renamed == Conflict(MsgLanguageNameTaken)
  {
    var db := new Database();
    var languages := new LanguageController(db);
    assert Lower("English") == "english" && Lower("ENGLISH") == "english";
    created := languages.Post(Some(LanguageCreation(Some("English"))));
    repeated := languages.Post(Some(LanguageCreation(Some("ENGLISH"))));
    renamed := languages.UpdateLanguage(7, Some(LanguageCreation(Some("english"))));
  }
}
