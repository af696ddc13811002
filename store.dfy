/** The application database: the identity tables (Users, UserRoles, OTP,
    RefreshTokens, Subscribes) as sequences in insertion order, and the
    catalog name tables (Genres, Languages) as id-to-name maps. Every
    controller action is one atomic step on a `Database`. */
module Store {
  import opened Query
  import opened Text

  datatype OtpKind = EmailVerification | PhoneNumberVerification

  /** A row of Users. The refresh-token and reset-token columns and their
      expiry times are nullable. Times are minutes. */
  datatype User = User(
    id: int,
    name: string,
    email: string,
    phone: int,
    password: string,            // the stored hash
    emailVerified: bool,
    phoneVerified: bool,
    status: string,
    refreshToken: Option<string>,
    refreshExpiry: Option<int>,
    resetToken: Option<string>,
    resetExpiry: Option<int>)

  datatype UserRole = UserRole(userId: int, role: string)

  datatype Otp = Otp(userId: int, code: string, kind: OtpKind, expiry: int, used: bool)

  datatype RefreshRecord = RefreshRecord(userId: int, token: string, expiry: int, revoked: bool)

  datatype Subscription = Subscription(userId: int, phone: string, verified: bool, paid: bool)

  /** `t > now` on a nullable time, as the database compares: NULL is never later. */
  predicate Later(t: Option<int>, now: int) {
    t.Some? && t.value > now
  }

  // ---- The conditions the controllers' queries filter on ----

  function EmailIs(email: string): User -> bool {
    (u: User) => u.email == email
  }

  function IdIs(id: int): User -> bool {
    (u: User) => u.id == id
  }

  function EmailOrPhoneIs(email: string, phone: int): User -> bool {
    (u: User) => u.email == email || u.phone == phone
  }

  /** The user's current refresh token is `token` and has not expired at `now`. */
  function HoldsRefreshToken(token: string, now: int): User -> bool {
    (u: User) => u.refreshToken == Some(token) && Later(u.refreshExpiry, now)
  }

  /** The user's password-reset token is `token` and has not expired at `now`. */
  function HoldsResetToken(token: string, now: int): User -> bool {
    (u: User) => u.resetToken == Some(token) && Later(u.resetExpiry, now)
  }

  function RecordTokenIs(token: string): RefreshRecord -> bool {
    (rt: RefreshRecord) => rt.token == token
  }

  /** An OTP that verifies: bound to the user and purpose, with the code, unused, unexpired. */
  function OtpFor(userId: int, code: string, kind: OtpKind, now: int): Otp -> bool {
    (o: Otp) => o.userId == userId && o.code == code && o.kind == kind && !o.used && o.expiry > now
  }

  /** The same, for any user. */
  function OtpWithCode(code: string, kind: OtpKind, now: int): Otp -> bool {
    (o: Otp) => o.code == code && o.kind == kind && !o.used && o.expiry > now
  }

  function SubscriptionPhoneIs(phone: string): Subscription -> bool {
    (s: Subscription) => s.phone == phone
  }

  function SubscriptionOf(userId: int): Subscription -> bool {
    (s: Subscription) => s.userId == userId
  }

  function RoleOf(userId: int): UserRole -> bool {
    (ur: UserRole) => ur.userId == userId
  }

  function RoleNamed(role: string): UserRole -> bool {
    (ur: UserRole) => ur.role == role
  }

  // ---- Invariants of the tables ----

  /** At most one user per email and at most one per phone number. */
  ghost predicate UniqueContacts(users: seq<User>) {
    forall i, j :: 0 <= i < j < |users| ==>
      users[i].email != users[j].email && users[i].phone != users[j].phone
  }

  ghost predicate OneRolePerUser(roles: seq<UserRole>) {
    forall i, j :: 0 <= i < j < |roles| ==> roles[i].userId != roles[j].userId
  }

  ghost predicate UniqueSubscriptionPhones(subscriptions: seq<Subscription>) {
    forall i, j :: 0 <= i < j < |subscriptions| ==> subscriptions[i].phone != subscriptions[j].phone
  }

  /** The invariant of the identity tables: ids are positive, distinct and
      below the identity counter, every role row names an id already issued,
      and the uniqueness rules the controllers enforce hold. */
  ghost predicate Directory(users: seq<User>, nextUserId: int, roles: seq<UserRole>, subscriptions: seq<Subscription>) {
    && 1 <= nextUserId
    && (forall i :: 0 <= i < |users| ==> 1 <= users[i].id < nextUserId)
    && (forall i, j :: 0 <= i < j < |users| ==> users[i].id != users[j].id)
    && UniqueContacts(users)
    && (forall i :: 0 <= i < |roles| ==> roles[i].userId < nextUserId)
    && OneRolePerUser(roles)
    && UniqueSubscriptionPhones(subscriptions)
  }

  /** Two versions of the Users table with the same rows in the same order,
      differing at most in columns other than id, email and phone. */
  ghost predicate SameKeys(before: seq<User>, after: seq<User>) {
    && |before| == |after|
    && forall i :: 0 <= i < |before| ==>
         after[i].id == before[i].id && after[i].email == before[i].email && after[i].phone == before[i].phone
  }

  /** Updating columns other than the keys keeps the directory invariant. */
  lemma SameKeysKeepDirectory(users: seq<User>, users': seq<User>, nextUserId: int,
                              roles: seq<UserRole>, subscriptions: seq<Subscription>)
    requires Directory(users, nextUserId, roles, subscriptions)
    requires SameKeys(users, users')
    ensures Directory(users', nextUserId, roles, subscriptions)
  {
  }

  /** How the OTP table may evolve: records are only appended, and of an
      existing record only IsUsed may change, and only from false to true. */
  ghost predicate OtpHistory(before: seq<Otp>, after: seq<Otp>) {
    && |before| <= |after|
    && forall i :: 0 <= i < |before| ==>
         && after[i].(used := before[i].used) == before[i]
         && (before[i].used ==> after[i].used)
  }

  /** Genre names compare exactly (Genres.Name == name). */
  ghost predicate DistinctNames(names: map<int, string>) {
    forall a, b :: a in names && b in names && a != b ==> names[a] != names[b]
  }

  /** Language names compare after ToLower. */
  ghost predicate DistinctIgnoringCase(names: map<int, string>) {
    forall a, b :: a in names && b in names && a != b ==> Lower(names[a]) != Lower(names[b])
  }

  class Database {
    var users: seq<User>
    var nextUserId: int                   // the identity column's next value
    var roles: seq<UserRole>
    var otps: seq<Otp>
    var refreshTokens: seq<RefreshRecord>
    var subscriptions: seq<Subscription>
    var genres: map<int, string>
    var nextGenreId: int
    var languages: map<int, string>
    var nextLanguageId: int

    /** The invariant of the identity tables, on this database's tables. */
    ghost predicate AccountsValid()
      reads this
    {
      Directory(users, nextUserId, roles, subscriptions)
    }

    ghost predicate GenresValid()
      reads this
    {
      && 1 <= nextGenreId
      && (forall id :: id in genres ==> 1 <= id < nextGenreId)
      && DistinctNames(genres)
    }

    ghost predicate LanguagesValid()
      reads this
    {
      && 1 <= nextLanguageId
      && (forall id :: id in languages ==> 1 <= id < nextLanguageId)
      && DistinctIgnoringCase(languages)
    }

    constructor ()
      ensures AccountsValid() && GenresValid() && LanguagesValid()
      ensures users == [] && roles == [] && otps == [] && refreshTokens == [] && subscriptions == []
      ensures genres == map[] && languages == map[]
      ensures nextUserId == 1 && nextGenreId == 1 && nextLanguageId == 1
    {
      users, nextUserId := [], 1;
      roles, otps, refreshTokens, subscriptions := [], [], [], [];
      genres, nextGenreId := map[], 1;
      languages, nextLanguageId := map[], 1;
    }

    /** IOtpService.SaveOtpAsync: records a fresh, unused OTP. Its expiry time
        is chosen by the service and is a parameter here. */
    method SaveOtp(userId: int, code: string, kind: OtpKind, expiry: int)
      modifies this`otps
      ensures otps == old(otps) + [Otp(userId, code, kind, expiry, false)]
      ensures OtpHistory(old(otps), otps)
    {
      otps := otps + [Otp(userId, code, kind, expiry, false)];
    }
  }

  /** A record that is used can never verify again, whatever the user, code,
      purpose or time asked about, in any later state of the table. */
  lemma UsedOtpNeverVerifies(before: seq<Otp>, after: seq<Otp>, i: nat, userId: int, code: string, kind: OtpKind, now: int)
    requires OtpHistory(before, after)
    requires i < |before| && before[i].used
    ensures !OtpFor(userId, code, kind, now)(after[i])
    ensures !OtpWithCode(code, kind, now)(after[i])
  {
  }

  lemma OtpHistoryTransitive(a: seq<Otp>, b: seq<Otp>, c: seq<Otp>)
    requires OtpHistory(a, b) && OtpHistory(b, c)
    ensures OtpHistory(a, c)
  {
  }
}
