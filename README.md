# CineMatrix identity and catalog-name tables, in Dafny

This project models the account and verification subsystem of the CineMatrix
movie API, and the two small catalog name tables next to it:

- `UserAccountController`: register, send/resend/verify an email OTP, login,
  refresh-token rotation, forgot and reset password;
- `SubscribeController`: create and verify a phone subscription;
- `UserRolesController`: assign, update, delete and list the (user, role) rows;
- `GenresController` and `LanguageController`: create, rename, delete and read
  genre and language names. Genre names are unique exactly. Language names are
  unique ignoring case.

The application database (`Store.Database`) is one class. It holds the tables
as fields: Users, UserRoles, OTP, RefreshTokens and Subscribes are sequences
in insertion order, and Genres and Languages are id-to-name maps. Each table
with an identity column has a counter for its next id. Each controller is a
class holding the database, and each action is one method. Its `modifies`
clause names exactly the tables it writes. Its `ensures` clauses state, for
every branch of the action, the reply and the complete new state of those
tables. Error branches end in `unchanged(db)`, with one exception:
`VerifySubscription`'s "subscription not found" branch keeps the OTP it has
already consumed.

`Store.Database.AccountsValid` is the invariant of the identity tables. Ids are
distinct and issued by the counter, at most one user has a given email and at
most one a given phone number, every role row names an issued id, each user has
at most one role row, and no two subscriptions share a phone number. Every
identity action preserves it. `GenresValid` and `LanguagesValid` keep the
catalog names distinct, exactly or ignoring case.

How the environment is modelled:

- Time is an integer number of minutes, `now`, passed to each action.
  `AddMinutes(60)` and `AddHours(1)` are both `now + 60`.
- Password hashing and checking are the two functions of a `PasswordService`
  value. The JWT signer is a function from users to strings. Neither is
  interpreted.
- Refresh tokens, reset tokens and OTP codes are random, so each arrives as a
  parameter of the action.
- The OTP service's save is `Database.SaveOtp`, which appends an unused
  record. Its expiry time is a parameter.
- Email and SMS delivery do not change the state and are omitted.
- LINQ `FirstOrDefault` is `Query.First`, which returns the index of the first
  match in table order. `Where` is `Query.Filter`.
- A `null` string in a request is the empty string, except for LanguageController's
  DTO name, which is an `Option` because a null name there makes the lookup throw.
  The nullable columns (tokens and their expiry times) are `Option`s.
- The storage failure that Register's `catch` handles is a `Fault` parameter
  saying which insert fails. The rollback restores every table.

`Scenarios` states and proves, step by step, what each action answers when the
flows are played on a fresh database:
- register, send an OTP, verify twice;
- register twice;
- register with a rolled-back failure;
- log in, rotate, reuse the old token and use the new one;
- reset a password twice with one token;
- subscribe and verify twice;
- assign a second role;
- add a language name in another case.

Where the repository's description and its code differ, the model follows the
code:

- `RefreshToken` accepts a token because it is the user's current
  `RefreshToken` column and has not expired. It does not consult the
  RefreshTokens table. That table's `IsRevoked` flag is set on the first
  record carrying the old token only, and no lookup reads the flag.
- `Register`'s emptiness test on `PhoneNumber.ToString()` cannot hold for a
  number. Its only numeric guard is the negative-phone test.
- `VerifySubscription` looks the code up among all users' phone OTPs and
  consumes it before looking up a subscription.
- `VerifyEmail` sets the verified flag just before testing it, so its second
  success message is unreachable.
- `ResetPassword` does not reject an empty new password.
- `UpdateRole` has no positive-id check.
- `UpdateLanguage` checks for a name clash before checking that the id exists.

## Model

| member | source | states |
|---|---|---|
| Query.First | Controllers/UserAccountController.cs:91-92 | FirstOrDefault: the index returned satisfies the condition and no earlier row does; there is no result exactly when no row satisfies it |
| Query.Filter | Controllers/UserRolesController.cs:123-125 | Where: an element is kept exactly when it occurs and satisfies the condition |
| Query.FilterCounts | Controllers/UserRolesController.cs:132 | Where keeps each satisfying element as many times as it occurs and no other element, so RemoveRange of the complement removes exactly the failing rows |
| Text.IsWhiteSpace | Controllers/UserRolesController.cs:27 | char.IsWhiteSpace: exactly the 25 Unicode white-space characters; no ASCII letter or digit is one |
| Text.IsNullOrEmpty | Controllers/UserAccountController.cs:62-65 | string.IsNullOrEmpty: exactly the null or empty string, which is also null or white space |
| Text.IsNullOrWhiteSpace | Controllers/UserRolesController.cs:27 | string.IsNullOrWhiteSpace: exactly when the leading white space runs to the end of the string |
| Text.EqualsIgnoreCase | Controllers/UserRolesController.cs:102 | OrdinalIgnoreCase equality: same length and equal character by character after folding; equal strings are equal ignoring case |
| Text.Join | Controllers/UserRolesController.cs:49 | string.Join: empty for no strings, the string itself for one, otherwise it begins with the first string and then the separator, and its length is the strings' total plus one separator between each two |
| Text.Trim | Controllers/UserRolesController.cs:92 | string.Trim: the result is empty exactly for a null or all-white-space input, otherwise it starts and ends with a non-white-space character and is the input minus its leading and trailing white space |
| Text.Lower | Controllers/LanguageController.cs:65 | ToLower: same length, each character folded, no upper-case ASCII letter left |
| Store.Database.SaveOtp | Repository/IOtpService.cs:8 | SaveOtpAsync: appends one unused record for that user, code, purpose and expiry, and changes no earlier record |
| Store.UsedOtpNeverVerifies | Controllers/UserAccountController.cs:162-167 | under any later history of the OTP table, a record once used matches no verification query of either kind |
| Store.OtpHistoryTransitive | Controllers/UserAccountController.cs:174-176 | the OTP table's allowed evolution (append; only IsUsed may change, false to true) composes over several actions |
| Store.SameKeysKeepDirectory | Controllers/UserAccountController.cs:178-180 | updating user columns other than id, email and phone keeps the identity invariant |
| UserAccount.NewUser | Controllers/UserAccountController.cs:102-111 | the row Register inserts: the request's name, email and phone under the given id, the hashed password, Pending and unverified, and no refresh or reset token a later lookup could match |
| UserAccount.WithRefreshToken | Controllers/UserAccountController.cs:268-269 | Login and RefreshToken point the user at the new token, expiring at now + 60, and change no other column |
| UserAccount.RegisterKeepsDirectory | Controllers/UserAccountController.cs:99-125 | appending the new user under the next id together with its role row keeps the identity invariant, one role per user included |
| UserAccount.RevokeFirst | Controllers/UserAccountController.cs:337-342 | rotation revokes the first refresh record carrying the old token and changes nothing else; with no such record the table is unchanged |
| UserAccount.RotatedTokenRejected | Controllers/UserAccountController.cs:322-334 | after a rotation to a different token, the old token authorizes no refresh at any time, given that no other user held it |
| UserAccount.RotatedTokenAccepted | Controllers/UserAccountController.cs:322-334 | after a rotation the new token authorizes a refresh until now + 60, given that no earlier user holds it |
| UserAccount.ResetTokenSingleUse | Controllers/UserAccountController.cs:400-410 | once a reset clears the token, the same token resets no password again, given that no other user held it |
| UserAccount.ConsumedOtpRejected | Controllers/UserAccountController.cs:162-176 | once the only matching OTP is consumed, the same verification finds no record at that time or later |
| UserAccount.UserAccountController.Register | Controllers/UserAccountController.cs:62-135 | the three input guards in order, then the email-or-phone clash, each with no change; on success exactly one Pending, unverified user with the hashed password and one Guest role row for its id; a failure inside the transaction rolls both back; user and role rows are written together or not at all |
| UserAccount.UserAccountController.VerifyEmail | Controllers/UserAccountController.cs:153-184 | unknown email or no unused, unexpired email OTP of that user with the code gives the error and no change; otherwise exactly that OTP becomes used and the user's email verified; success exactly when such a user and OTP exist |
| UserAccount.UserAccountController.ResendEmailOtp | Controllers/UserAccountController.cs:193-212 | unknown or already verified email fails with no change; otherwise exactly one new email OTP is appended and earlier records are untouched |
| UserAccount.UserAccountController.SendEmailOtp | Controllers/UserAccountController.cs:219-246 | as ResendEmailOtp, after refusing an empty email |
| UserAccount.UserAccountController.Login | Controllers/UserAccountController.cs:254-289 | empty fields give BadRequest; unknown email and wrong password give the same Unauthorized; on success the user points at the new token expiring at now + 60 and one matching non-revoked record is appended |
| UserAccount.UserAccountController.RefreshToken | Controllers/UserAccountController.cs:317-359 | succeeds exactly for a user whose current token is the one given and unexpired; then that user points at the new token expiring at now + 60, the first old record is revoked and a new record appended |
| UserAccount.UserAccountController.ForgotPassword | Controllers/UserAccountController.cs:369-385 | unknown email fails with no change; otherwise that user's reset token is replaced, expiring at now + 60 |
| UserAccount.UserAccountController.ResetPassword | Controllers/UserAccountController.cs:395-414 | mismatched passwords, or no user with the token unexpired, fail with no change; otherwise the new hash is stored and the token and its expiry cleared |
| Subscriptions.AddKeepsDirectory | Controllers/subscribecontroller.cs:41-47 | a subscription for a number no subscription has can be appended without two sharing a number |
| Subscriptions.UpdateKeepsDirectory | Controllers/subscribecontroller.cs:114-116 | setting the flags of a subscription keeps subscription numbers distinct |
| Subscriptions.SubscribeController.CreateSubscription | Controllers/subscribecontroller.cs:35-74 | empty or already subscribed number, or unknown email, fail with no change; otherwise one unverified, unpaid subscription for that user is appended, then one phone OTP for the same user |
| Subscriptions.SubscribeController.VerifySubscription | Controllers/subscribecontroller.cs:83-119 | empty code or no matching phone OTP of any user fails with no change; otherwise that OTP is consumed first, and the OTP owner's first subscription becomes verified and paid, or the call fails with the OTP still consumed |
| UserRoles.RolesOf | Controllers/UserRolesController.cs:45 | the roles of the user's rows: empty exactly when no row names the user, and a role is listed exactly when the (user, role) row exists |
| UserRoles.OneRoleEach | Controllers/UserRolesController.cs:45-51 | under one row per user, a user has at most one role |
| UserRoles.ConsKeepsOneRole | Controllers/UserRolesController.cs:132 | a row for a user no other row names can lead the table without breaking one row per user |
| UserRoles.FilterKeepsOneRole | Controllers/UserRolesController.cs:132 | removing rows never gives a user a second role |
| UserRoles.FilterKeepsBound | Controllers/UserRolesController.cs:161 | removing rows keeps every remaining row's user id an issued one |
| UserRoles.UserRolesController.AssignRole | Controllers/UserRolesController.cs:27-65 | blank or placeholder role, non-positive id, unknown user, the same row existing, or any role already held, each fail with no change; otherwise exactly one row is appended; a user who has a role is never given another |
| UserRoles.UserRolesController.UpdateRole | Controllers/UserRolesController.cs:87-111 | blank role fails; no row for the user gives NotFound; a trimmed name equal ignoring case fails with no change; otherwise only the user's first row gets the trimmed name |
| UserRoles.UserRolesController.DeleteRoleByUserId | Controllers/UserRolesController.cs:119-136 | non-positive id fails; no rows gives NotFound; otherwise exactly the user's rows are removed and every other row keeps its multiplicity |
| UserRoles.UserRolesController.DeleteRoleByRoleName | Controllers/UserRolesController.cs:148-165 | blank name fails; no row with exactly that role gives NotFound; otherwise exactly the rows with that role are removed, case-sensitively, and the others keep their multiplicity |
| UserRoles.UserRolesController.GetRoles | Controllers/UserRolesController.cs:174-185 | unknown user gives NotFound; otherwise the roles listed are exactly the user's rows' roles, at most one |
| Genres.AddKeepsDistinct | Controllers/GenresController.cs:78-93 | adding a name no genre has under a new id keeps genre names distinct |
| Genres.RenameKeepsDistinct | Controllers/GenresController.cs:124-140 | renaming a genre to a name no other genre has, its own name included, keeps names distinct |
| Genres.RemoveKeepsDistinct | Controllers/GenresController.cs:179-182 | removing a genre keeps names distinct |
| Genres.GenresController.GetByID | Controllers/GenresController.cs:55-67 | a bare NotFound exactly for an absent id; otherwise that id's genre |
| Genres.GenresController.Post | Controllers/GenresController.cs:78-103 | a name some genre has exactly gives Conflict with no change; otherwise exactly one genre with that name is added under the next id |
| Genres.GenresController.Put | Controllers/GenresController.cs:115-159 | absent id gives NotFound first; then a name held by a different genre gives Conflict; otherwise only that genre's name changes |
| Genres.GenresController.Delete | Controllers/GenresController.cs:170-185 | absent id gives a bare NotFound; otherwise only that id is removed |
| Languages.StoreKeepsDistinct | Controllers/LanguageController.cs:64-80 | storing a name that clashes, ignoring case, with no other language keeps language names distinct ignoring case |
| Languages.RemoveKeepsDistinct | Controllers/LanguageController.cs:150-151 | removing a language keeps names distinct ignoring case |
| Languages.NameClash | Controllers/LanguageController.cs:64-66 | the ToLower uniqueness query: an exact match held by another language is a clash, and every clash is a language other than the excepted one whose name is equal ignoring case |
| Languages.StoredNameClashesOnlyWithItself | Controllers/LanguageController.cs:104-110 | under the invariant, every case variant of a language's stored name clashes with no other language, so renaming a language to any case variant of its own name is allowed |
| Languages.LanguageController.GetById | Controllers/LanguageController.cs:43-48 | a bare NotFound exactly for an absent id; otherwise that id's language |
| Languages.LanguageController.Post | Controllers/LanguageController.cs:56-94 | a missing body gives BadRequest; a null name makes the lookup throw and gives the 500 reply with no change; a name equal to an existing one ignoring case gives Conflict with no change; otherwise exactly one language is added under the next id |
| Languages.LanguageController.UpdateLanguage | Controllers/LanguageController.cs:102-133 | a missing body or a null name makes the lookup throw and gives the 500 reply with no change; a clash with a different language ignoring case gives Conflict even for an absent id; then an absent id gives NotFound; otherwise only that language's name changes |
| Languages.LanguageController.DeleteLanguage | Controllers/LanguageController.cs:143-153 | absent id gives a bare NotFound; otherwise only that id is removed |
| Scenarios.VerifyEmailOnce | Controllers/UserAccountController.cs:155-184 | register, send OTP, verify: all succeed; verifying again with the same code fails |
| Scenarios.RegisterTwice | Controllers/UserAccountController.cs:91-97 | a second registration with the same request is refused and one account remains |
| Scenarios.RegisterRolledBack | Controllers/UserAccountController.cs:130-135 | a failure inside the transaction leaves neither a user nor a role row |
| Scenarios.RotateRefreshToken | Controllers/UserAccountController.cs:317-359 | login, then refresh: the old token is refused afterwards and the new one works |
| Scenarios.ResetOnce | Controllers/UserAccountController.cs:369-414 | forgot, then reset: succeeds once; the same token fails the second time |
| Scenarios.VerifySubscriptionOnce | Controllers/subscribecontroller.cs:83-119 | subscribe, then verify: the subscription becomes verified and paid; the same code fails the second time |
| Scenarios.NoSecondRole | Controllers/UserRolesController.cs:45-51 | a registered user holds Guest, so assigning another role is refused, naming Guest |
| Scenarios.LanguageNamesIgnoreCase | Controllers/LanguageController.cs:64-110 | a name in another case conflicts on Post, and on UpdateLanguage even for an absent id |

## Left out

- Null request bodies, other than LanguageController's: each action's `dto == null` guard is omitted. This covers Register, VerifyEmail, Login, RefreshToken, AssignRole, UpdateRole, DeleteRoleByRoleName, CreateSubscription and VerifySubscription. ResendEmailOtp, SendEmailOtp, ForgotPassword, ResetPassword, and GenresController's Post and Put dereference the body without a guard.
- Exceptions and 500 replies: the model keeps Register's rollback on a failing insert, and the 500 that LanguageController's Post and UpdateLanguage give when a missing body or a null name makes the name lookup throw. It omits Login's and AssignRole's catch blocks, the database failures that LanguageController's `try` blocks also catch (each wraps the whole action body), and GenresController.Put's concurrency-exception branch. These replies depend on database failures that the model does not represent.
- Ijwtservice.GenerateRefreshToken may return null. Tokens here are always strings supplied by the caller.
- Email and SMS delivery (SendOtpEmailAsync, SendPasswordResetLinkAsync, SendOtpSmsAsync): external I/O with no effect on the tables.
- Concurrency, async/await and transaction isolation: each action is one atomic step.
- Storage-level uniqueness constraints: the model has only the application-level checks the code performs.
- Identity gaps after a rollback: a rolled-back Register restores the user id counter.
- Database string equality is modelled as exact comparison, as the C# `==` in the queries reads. Under SQL Server's default case-insensitive collation, emails, genre names and role names would compare ignoring case, so a second account whose email differs from an existing one only in case would be refused where the model accepts it.
- Case folding: `Text.Lower`, `Text.EqualsIgnoreCase` and `Languages.NameClash` fold ASCII letters only. UpdateRole's OrdinalIgnoreCase comparison also equates non-ASCII letters such as "É" and "é", and the language name lookups lower-case the stored column with SQL `LOWER()` and the request name with .NET's culture-aware ToLower; the model folds both sides the same ASCII-only way.
- Query order: FirstOrDefault without OrderBy is taken to return the first row in insertion order.
- GenresController.Get: a read-only list of every genre, mapped to DTOs through AutoMapper, with no rule to verify.
- LanguageController.Get: a paginated read-only list that depends on pagination helpers that are not part of this model.
- GenresController's AutoMapper mapping: a genre is only its id and name.
- The Created replies carry the new id only, not the body message.
- FluentValidation rules (Validations/*.cs): they run before the actions and depend on library semantics.
- The other controllers (movies, actors, reviews, movie-by-genre and movie-by-language queries, support tickets) are not part of this model.
- UserAccount.RotatedTokenRejected and UserAccount.ResetTokenSingleUse: they assume no other user holds the same token, because uniqueness of random tokens is not something the code enforces.
- UserAccount.ConsumedOtpRejected: this assumes the consumed record was the only match, because a resend may issue a second record with the same code.
