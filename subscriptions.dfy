/** SubscribeController: a subscription is created unverified for a phone
    number, a phone OTP is issued for its owner, and consuming that OTP marks
    the owner's subscription verified and paid. */
module Subscriptions {
  import opened Query
  import opened Text
  import opened Http
  import opened Store

  const MsgSubscriptionInvalid := "Subscription data is not valid."
  const MsgSubscriptionExists := "Subscription already exists with this phone number."
  const MsgNoUser := "User not found with the provided username."
  const MsgSubscriptionCreated := "Subscription created. Please verify your phone number."
  const MsgVerificationInvalid := "Verification data is not valid."
  const MsgInvalidOtp := "Invalid or expired OTP code."
  const MsgSubscriptionNotFound := "Subscription not found."
  const MsgSubscriptionVerified := "Subscription verified and payment status is successfull."

  /** A subscription for a phone number no subscription has can be added
      without two subscriptions sharing a number. */
  lemma AddKeepsDirectory(users: seq<User>, nextUserId: int, roles: seq<UserRole>,
                          subscriptions: seq<Subscription>, s: Subscription)
    requires Directory(users, nextUserId, roles, subscriptions)
    requires forall other :: other in subscriptions ==> other.phone != s.phone
    ensures Directory(users, nextUserId, roles, subscriptions + [s])
  {
  }

  /** Flags can change on a subscription without two sharing a number. */
  lemma UpdateKeepsDirectory(users: seq<User>, nextUserId: int, roles: seq<UserRole>,
                             subscriptions: seq<Subscription>, k: nat, s: Subscription)
    requires Directory(users, nextUserId, roles, subscriptions)
    requires k < |subscriptions| && s.phone == subscriptions[k].phone
    ensures Directory(users, nextUserId, roles, subscriptions[k := s])
  {
  }

  class SubscribeController {
    const db: Database

    constructor (db: Database)
      ensures this.db == db
    {
      this.db := db;
    }

    /** Creates an unverified subscription for the user with this email and
        issues a phone OTP (code from the caller, expiry from the OTP service). */
    method CreateSubscription(phone: string, email: string, code: string, expiry: int) returns (r: Reply<string>)
      requires db.AccountsValid()
      modifies db`subscriptions, db`otps
      ensures db.AccountsValid()
      ensures OtpHistory(old(db.otps), db.otps)
      ensures IsNullOrEmpty(phone) ==> r == BadRequest(MsgSubscriptionInvalid) && unchanged(db)
      ensures !IsNullOrEmpty(phone) && (exists s :: s in old(db.subscriptions) && s.phone == phone) ==>
                r == BadRequest(MsgSubscriptionExists) && unchanged(db)
      ensures !IsNullOrEmpty(phone) && (forall s :: s in old(db.subscriptions) ==> s.phone != phone) ==>
        var k := First(db.users, EmailIs(email));
        && (k.None? ==> r == BadRequest(MsgNoUser) && unchanged(db))
        && (k.Some? ==>
              && r == Ok(MsgSubscriptionCreated)
              && db.subscriptions == old(db.subscriptions) + [Subscription(db.users[k.value].id, phone, false, false)]
              && db.otps == old(db.otps) + [Otp(db.users[k.value].id, code, PhoneNumberVerification, expiry, false)])
    {
      if IsNullOrEmpty(phone) {
        return BadRequest(MsgSubscriptionInvalid);
      }
      var existing := First(db.subscriptions, SubscriptionPhoneIs(phone));
      if existing.Some? {
        assert db.subscriptions[existing.value] in db.subscriptions;
        return BadRequest(MsgSubscriptionExists);
      }
      assert forall s :: s in db.subscriptions ==> s.phone != phone by {
        forall s | s in db.subscriptions ensures s.phone != phone {
          var j :| 0 <= j < |db.subscriptions| && db.subscriptions[j] == s;
          assert !SubscriptionPhoneIs(phone)(db.subscriptions[j]);
        }
      }
      var k := First(db.users, EmailIs(email));
      if k.None? {
        return BadRequest(MsgNoUser);
      }
      var user := db.users[k.value];
      AddKeepsDirectory(db.users, db.nextUserId, db.roles, db.subscriptions, Subscription(user.id, phone, false, false));
      db.subscriptions := db.subscriptions + [Subscription(user.id, phone, false, false)];
      // SaveChangesAsync: the subscription is stored before the OTP is issued.
      db.SaveOtp(user.id, code, PhoneNumberVerification, expiry);
      // SendOtpSmsAsync: delivery is outside the model.
      r := Ok(MsgSubscriptionCreated);
    }

    /** Consumes the first live phone OTP with this code, whoever it belongs
        to, then marks its owner's first subscription verified and paid. The
        OTP stays consumed even when the owner has no subscription. */
    method VerifySubscription(code: string, now: int) returns (r: Reply<string>)
      requires db.AccountsValid()
      modifies db`otps, db`subscriptions
      ensures db.AccountsValid()
      ensures OtpHistory(old(db.otps), db.otps)
      ensures IsNullOrEmpty(code) ==> r == BadRequest(MsgVerificationInvalid) && unchanged(db)
      ensures !IsNullOrEmpty(code) ==>
        var o := First(old(db.otps), OtpWithCode(code, PhoneNumberVerification, now));
        && (o.None? ==> r == BadRequest(MsgInvalidOtp) && unchanged(db))
        && (o.Some? ==>
              var owner := old(db.otps)[o.value].userId;
              var s := First(old(db.subscriptions), SubscriptionOf(owner));
              && db.otps == old(db.otps)[o.value := old(db.otps)[o.value].(used := true)]
              && (s.None? ==> r == BadRequest(MsgSubscriptionNotFound) && db.subscriptions == old(db.subscriptions))
              && (s.Some? ==>
                    && r == Ok(MsgSubscriptionVerified)
                    && db.subscriptions == old(db.subscriptions)[s.value :=
                         old(db.subscriptions)[s.value].(verified := true, paid := true)]))
    {
      if IsNullOrEmpty(code) {
        return BadRequest(MsgVerificationInvalid);
      }
      var o := First(db.otps, OtpWithCode(code, PhoneNumberVerification, now));
      if o.None? {
        return BadRequest(MsgInvalidOtp);
      }
      var otp := db.otps[o.value];
      db.otps := db.otps[o.value := otp.(used := true)];
      // SaveChangesAsync: the consumption is stored before the subscription is looked up.

      var s := First(db.subscriptions, SubscriptionOf(otp.userId));
      if s.None? {
        return BadRequest(MsgSubscriptionNotFound);
      }
      var updated := db.subscriptions[s.value].(verified := true, paid := true);
      UpdateKeepsDirectory(db.users, db.nextUserId, db.roles, db.subscriptions, s.value, updated);
      db.subscriptions := db.subscriptions[s.value := updated];
      r := Ok(MsgSubscriptionVerified);
    }
  }
}
