/** The forms of the user application that hold logic of their own: the
    login form's choice between "inactive" and "invalid login", and the
    two-phase e-mail change (a challenge stages the new address in
    `email_temp`, a verified token promotes it to `email`). */
module Forms {
  import opened Models

  // ---------------------------------------------------------------------
  // Login

  datatype LoginError = LoginOk | Inactive | InvalidLogin

  /** The accounts `objects.get(phone=p)` would consider. */
  function PhoneMatches(users: map<UserId, User>, p: Phone): set<UserId> {
    set id | id in users && users[id].phone == p
  }

  /** `objects.get(phone=p)` returned an account (it raises unless exactly
      one row matches, and the handler turns that into None) and that
      account is inactive. */
  function FoundInactive(users: map<UserId, User>, p: Phone): (b: bool)
    ensures b <==> exists id | id in users && users[id].phone == p ::
      !users[id].isActive && forall o | o in users && users[o].phone == p :: o == id
  {
    var ids := PhoneMatches(users, p);
    SingleMatch(users, p);
    |ids| == 1 && forall id | id in ids :: !users[id].isActive
  }

  /** Exactly one row matches `p` when some row matches and every match is
      that row. */
  lemma SingleMatch(users: map<UserId, User>, p: Phone)
    ensures (|PhoneMatches(users, p)| == 1 && forall id | id in PhoneMatches(users, p) :: !users[id].isActive) <==>
      exists id | id in users && users[id].phone == p ::
        !users[id].isActive && forall o | o in users && users[o].phone == p :: o == id
  {
    var ids := PhoneMatches(users, p);
    if |ids| == 1 && forall id | id in ids :: !users[id].isActive {
      var id :| id in ids;
      assert |ids - {id}| == 0;
      assert ids == {id};
      assert forall o | o in users && users[o].phone == p :: o in ids;
    }
    if exists id | id in users && users[id].phone == p ::
        !users[id].isActive && forall o | o in users && users[o].phone == p :: o == id {
      var id :| id in users && users[id].phone == p &&
        !users[id].isActive && forall o | o in users && users[o].phone == p :: o == id;
      assert ids == {id};
    }
  }

  /** `CustomizededAuthenticationForm.clean`: `username` is the submitted
      phone (None when the field did not validate), `authenticated` whether
      `authenticate` returned an account.  An error is raised exactly when
      both fields are present and authentication failed. */
  function CleanLogin(users: map<UserId, User>, username: Option<Phone>, password: string, authenticated: bool): (e: LoginError)
    ensures e != LoginOk <==> username.Some? && password != "" && !authenticated
  {
    if username.Some? && password != "" then
      if authenticated then LoginOk
      else if FoundInactive(users, username.value) then Inactive
      else InvalidLogin
    else LoginOk
  }

  /** With phones unique the "inactive" error is reported exactly when
      authentication of a submitted phone and password failed and the
      account holding that phone is inactive; every other failure is the
      invalid-login error. */
  lemma {:induction false} CleanLoginInactiveIff(users: map<UserId, User>, username: Option<Phone>, password: string, authenticated: bool)
    requires PhonesUnique(users)
    ensures CleanLogin(users, username, password, authenticated) == Inactive <==>
      username.Some? && password != "" && !authenticated &&
      exists id | id in users :: users[id].phone == username.value && !users[id].isActive
    ensures CleanLogin(users, username, password, authenticated) == InvalidLogin <==>
      username.Some? && password != "" && !authenticated &&
      !exists id | id in users :: users[id].phone == username.value && !users[id].isActive
  {
    if username.Some? {
      var p := username.value;
      var ids := PhoneMatches(users, p);
      if id :| id in users && users[id].phone == p {
        assert ids == {id} by {
          forall o | o in ids ensures o == id {
            assert users[o].phone == users[id].phone;
          }
        }
      } else {
        assert ids == {};
      }
      if FoundInactive(users, p) {
        var id :| id in ids;
        assert users[id].phone == p && !users[id].isActive;
      }
    }
  }

  // ---------------------------------------------------------------------
  // E-mail change

  /** The cleaned form data of the e-mail change form. */
  datatype OtpForm = OtpForm(
    device: Option<DeviceId>,   // the device `_chosen_device` returned
    newEmail: Email,
    challenge: bool,            // the 'Send OTP' button was pressed
    token: string)              // the submitted token, "" when absent

  /** What the outside world answers during one request. */
  datatype Oracle = Oracle(
    code: string,               // the random token `generate_token` draws
    mailSent: bool,             // `send_mail` returned normally
    allowed: bool,              // `verify_is_allowed()`
    tokenOk: bool)              // the library's own token check

  datatype OtpOutcome =
    | NoUser                    // `clean_otp(None)`: nothing happens
    | AddressTaken              // challenge refused: an account already has the address
    | ChallengeFailed           // challenge_exception: no device, or the mail failed
    | ChallengeSent(message: string)  // challenge_message: the token went out
    | TokenRequired
    | VerificationNotAllowed
    | InvalidToken
    | EmailChanged
    | RolledBack                // IntegrityError on promotion: the atomic block is undone

  predicate IsChallengeOutcome(out: OtpOutcome) {
    out.AddressTaken? || out.ChallengeFailed? || out.ChallengeSent?
  }

  /** What `_chosen_device` guarantees: a chosen device belongs to the user. */
  predicate OwnedBy(t: Tables, uid: UserId, device: Option<DeviceId>) {
    device.Some? ==> device.value in t.devices && t.devices[device.value].owner == uid
  }

  /** `EmailChangeForm._handle_challenge`.  It always ends in an error, so a
      challenge never verifies anything; when the token went out, the new
      address is staged in `email_temp` and the device's override address is
      cleared again. */
  function ChallengeSpec(t: Tables, uid: UserId, device: Option<DeviceId>, newEmail: Email, o: Oracle): (r: Step<OtpOutcome>)
    requires WellFormed(t) && uid in t.users && OwnedBy(t, uid, device)
    ensures WellFormed(r.next) && Evolves(t, r.next)
    ensures IsChallengeOutcome(r.out)
    ensures r.out == AddressTaken <==> EmailInUse(t.users, newEmail)
    ensures r.out.ChallengeSent? <==> !EmailInUse(t.users, newEmail) && device.Some? && o.mailSent
    ensures r.out == AddressTaken || device.None? ==> r.next == t
    ensures r.next.nextUser == t.nextUser && r.next.nextDevice == t.nextDevice
    ensures r.out.ChallengeSent? ==>
      && r.next.users == t.users[uid := t.users[uid].(emailTemp := Some(newEmail))]
      && r.next.devices == t.devices[device.value := t.devices[device.value].(email := None, token := Some(o.code))]
    ensures r.out.ChallengeSent? ==> var to := OrElse(Some(newEmail), t.users[uid].email);
      |r.out.message| > |to| && r.out.message[|r.out.message| - |to|..] == to
    ensures r.out == ChallengeFailed && device.Some? ==>
      && r.next.users == t.users
      && r.next.devices == t.devices[device.value := t.devices[device.value].(email := Some(newEmail), token := Some(o.code))]
  {
    EvolvesReflexive(t);
    if EmailInUse(t.users, newEmail) then Step(t, AddressTaken)
    else if device.None? then Step(t, ChallengeFailed)
    else
      var did := device.value;
      var d := t.devices[did].(email := Some(newEmail));
      var g := GenerateChallengeSpec(t, did, d, o.code, o.mailSent);
      if g.out.None? then Step(g.next, ChallengeFailed)
      else
        StagedChallenge(t, uid, did, newEmail, o.code);
        Step(Staged(t, uid, did, newEmail, o.code), ChallengeSent(g.out.value))
  }

  /** The tables after a challenge whose mail went out: `email_temp` holds
      the new address, and the device keeps the new token with its override
      address cleared. */
  function Staged(t: Tables, uid: UserId, did: DeviceId, newEmail: Email, code: string): Tables
    requires uid in t.users && did in t.devices
  {
    t.(users := t.users[uid := t.users[uid].(emailTemp := Some(newEmail))],
       devices := t.devices[did := t.devices[did].(email := None, token := Some(code))])
  }

  /** Staging a free address keeps the tables well formed and evolving; it
      is the device save followed by the user save. */
  lemma StagedChallenge(t: Tables, uid: UserId, did: DeviceId, newEmail: Email, code: string)
    requires WellFormed(t) && uid in t.users && did in t.devices && t.devices[did].owner == uid
    ensures var g := GenerateChallengeSpec(t, did, t.devices[did].(email := Some(newEmail)), code, true).next;
      var t2 := Staged(t, uid, did, newEmail, code);
      && t2 == PutDevice(g, did, t.devices[did].(email := None, token := Some(code))).(users := t2.users)
      && WellFormed(t2) && Evolves(t, t2)
  {
    var d := t.devices[did].(email := Some(newEmail));
    var g := GenerateChallengeSpec(t, did, d, code, true).next;
    var t1 := PutDevice(g, did, d.(token := Some(code), email := None));
    assert t1.devices == t.devices[did := t.devices[did].(email := None, token := Some(code))];
    var u := t.users[uid].(emailTemp := Some(newEmail));
    NoSelfClash(t1.users, uid, u);
    var t2 := PutUser(t1, uid, u);
    EvolvesTransitive(t, g, t1);
    EvolvesTransitive(t, t1, t2);
    assert t2 == Staged(t, uid, did, newEmail, code);
  }

  method HandleChallenge(store: AccountStore, uid: UserId, device: Option<DeviceId>, newEmail: Email, o: Oracle) returns (out: OtpOutcome)
    requires store.Valid() && uid in store.users && OwnedBy(store.State(), uid, device)
    modifies store
    ensures store.Valid()
    ensures Step(store.State(), out) == ChallengeSpec(old(store.State()), uid, device, newEmail, o)
  {
    if EmailInUse(store.users, newEmail) {
      return AddressTaken;
    }
    if device.None? {
      // `device.email = ...` fails on None; the handler reports challenge_exception.
      return ChallengeFailed;
    }
    var did := device.value;
    var d := store.devices[did].(email := Some(newEmail));
    var message := store.GenerateChallenge(did, d, o.code, o.mailSent);
    if message.None? {
      return ChallengeFailed;
    }
    // The message is never empty, so the `not_interactive` branch cannot be taken.
    var u := store.users[uid].(emailTemp := d.email);
    store.SaveDevice(did, d.(token := Some(o.code), email := None));
    NoSelfClash(store.users, uid, u);
    var saved := store.Save(uid, u);
    out := ChallengeSent(message.value);
  }

  /** The promotion at the end of a verified `clean_otp`: the request's
      user object `u` (read before the token was verified) gets
      `email := email_temp` and is saved whole; then the device is renamed.
      If the save clashes, the atomic block is rolled back to `before`. */
  function PromoteSpec(before: Tables, t: Tables, uid: UserId, did: DeviceId, u: User): (r: Step<OtpOutcome>)
    requires WellFormed(before) && WellFormed(t) && uid in t.users && did in t.devices
    requires t.devices[did].owner == uid && u.emailTemp.Some? && u.phone == t.users[uid].phone
    ensures WellFormed(r.next)
    ensures r.out == RolledBack || r.out == EmailChanged
    ensures r.out == RolledBack <==> EmailHeldByOther(t.users, uid, u.emailTemp.value)
    ensures r.out == RolledBack ==> r.next == before
    ensures r.out == EmailChanged ==>
      && r.next.users == t.users[uid := u.(email := u.emailTemp.value, emailTemp := None)]
      && r.next.devices == t.devices[did := t.devices[did].(name := u.emailTemp.value)]
      && r.next.nextUser == t.nextUser && r.next.nextDevice == t.nextDevice
    ensures r.out == EmailChanged && u.emailVerified ==> Evolves(t, r.next)
  {
    var promoted := u.(email := u.emailTemp.value, emailTemp := None);
    if Clashes(t.users, uid, promoted) then
      Step(before, RolledBack)
    else
      var t1 := PutUser(t, uid, promoted);
      var t2 := PutDevice(t1, did, t1.devices[did].(name := promoted.email));
      if u.emailVerified then
        EvolvesTransitive(t, t1, t2);
        Step(t2, EmailChanged)
      else Step(t2, EmailChanged)
  }

  /** The token branch of `clean_otp` once the submitted address is the
      staged one and a device was chosen: check the token, then promote. */
  function VerifyBranchSpec(t: Tables, uid: UserId, did: DeviceId, o: Oracle): (r: Step<OtpOutcome>)
    requires WellFormed(t) && uid in t.users && did in t.devices && t.devices[did].owner == uid
    requires t.users[uid].emailTemp.Some?
    ensures WellFormed(r.next)
    ensures t.users[uid].emailVerified ==> Evolves(t, r.next)
    ensures r.out.VerificationNotAllowed? || r.out.InvalidToken? || r.out.RolledBack? || r.out.EmailChanged?
    ensures r.out == VerificationNotAllowed <==> !o.allowed
    ensures r.out == InvalidToken <==> o.allowed && !o.tokenOk
    ensures r.out == RolledBack <==> o.allowed && o.tokenOk && EmailHeldByOther(t.users, uid, t.users[uid].emailTemp.value)
    ensures r.out.VerificationNotAllowed? || r.out.RolledBack? ==> r.next == t
    ensures r.out.InvalidToken? ==> r.next.users == t.users
    ensures r.out.EmailChanged? ==> var e := t.users[uid].emailTemp.value;
      && r.next.users == t.users[uid := t.users[uid].(email := e, emailTemp := None)]
      && r.next.devices == t.devices[did := t.devices[did].(name := e, failureCount := 0)]
  {
    var u := t.users[uid];
    EvolvesReflexive(t);
    if !o.allowed then Step(t, VerificationNotAllowed)
    else if !o.tokenOk then Step(CountFailure(t, did), InvalidToken)
    else
      PromoteAfterLatch(t, uid, did);
      PromoteSpec(t, ResetAndLatch(t, did), uid, did, u)
  }

  /** The promotion that follows a successful check, stated against the
      tables before the check. */
  lemma PromoteAfterLatch(t: Tables, uid: UserId, did: DeviceId)
    requires WellFormed(t) && uid in t.users && did in t.devices && t.devices[did].owner == uid
    requires t.users[uid].emailTemp.Some?
    ensures var u, e := t.users[uid], t.users[uid].emailTemp.value;
      var r := PromoteSpec(t, ResetAndLatch(t, did), uid, did, u);
      && (r.out == RolledBack <==> EmailHeldByOther(t.users, uid, e))
      && (u.emailVerified ==> Evolves(t, r.next))
      && (r.out == EmailChanged ==>
        && r.next.users == t.users[uid := u.(email := e, emailTemp := None)]
        && r.next.devices == t.devices[did := t.devices[did].(name := e, failureCount := 0)])
  {
    var u, e := t.users[uid], t.users[uid].emailTemp.value;
    var t1 := ResetAndLatch(t, did);
    HeldByOtherIgnoresOwnRow(t.users, uid, t1.users[uid], u.phone, e);
    assert t1.users[uid := u.(email := e, emailTemp := None)] == t.users[uid := u.(email := e, emailTemp := None)];
    assert t1.devices[did := t1.devices[did].(name := e)] == t.devices[did := t.devices[did].(name := e, failureCount := 0)];
    var r := PromoteSpec(t, t1, uid, did, u);
    EvolvesReflexive(t);
    if r.out == EmailChanged && u.emailVerified {
      EvolvesTransitive(t, t1, r.next);
    }
  }

  /** `EmailChangeForm.clean_otp`.  With a token, the token is checked only
      when the submitted address is the staged one; otherwise a new
      challenge starts.  Every validation error is caught inside the atomic
      block, so what the challenge or a failed check wrote persists. */
  function CleanOtpSpec(t: Tables, user: Option<UserId>, f: OtpForm, o: Oracle): (r: Step<OtpOutcome>)
    requires WellFormed(t) && (user.Some? ==> user.value in t.users && OwnedBy(t, user.value, f.device))
    ensures WellFormed(r.next)
    ensures user.Some? && t.users[user.value].emailVerified ==> Evolves(t, r.next)
    ensures user.None? ==> r == Step(t, NoUser)
    ensures user.Some? && f.challenge ==> r == ChallengeSpec(t, user.value, f.device, f.newEmail, o)
    ensures user.Some? && f.challenge ==> IsChallengeOutcome(r.out)
    ensures user.Some? && !f.challenge && f.token != "" && t.users[user.value].emailTemp != Some(f.newEmail) ==>
      r == ChallengeSpec(t, user.value, f.device, f.newEmail, o)
    ensures r.out == TokenRequired <==> user.Some? && !f.challenge && f.token == ""
    ensures r.out.NoUser? || r.out.TokenRequired? || r.out.VerificationNotAllowed? || r.out.RolledBack? ==> r.next == t
    ensures r.out == VerificationNotAllowed <==>
      && user.Some? && !f.challenge && f.token != ""
      && t.users[user.value].emailTemp == Some(f.newEmail)
      && f.device.Some? && !o.allowed
    ensures r.out == InvalidToken <==>
      && user.Some? && !f.challenge && f.token != ""
      && t.users[user.value].emailTemp == Some(f.newEmail)
      && (f.device.None? || (o.allowed && !o.tokenOk))
    ensures r.out == InvalidToken && f.device.None? ==> r.next == t
    ensures r.out == InvalidToken && f.device.Some? ==> var d := t.devices[f.device.value];
      r.next == t.(devices := t.devices[f.device.value := d.(failureCount := d.failureCount + 1)])
    ensures r.out == EmailChanged <==>
      && user.Some? && !f.challenge && f.token != ""
      && t.users[user.value].emailTemp == Some(f.newEmail)
      && f.device.Some? && o.allowed && o.tokenOk
      && !EmailHeldByOther(t.users, user.value, f.newEmail)
    ensures r.out == RolledBack <==>
      && user.Some? && !f.challenge && f.token != ""
      && t.users[user.value].emailTemp == Some(f.newEmail)
      && f.device.Some? && o.allowed && o.tokenOk
      && EmailHeldByOther(t.users, user.value, f.newEmail)
    ensures r.out == EmailChanged ==> var uid, did := user.value, f.device.value;
      && r.next.users == t.users[uid := t.users[uid].(email := f.newEmail, emailTemp := None)]
      && r.next.devices == t.devices[did := t.devices[did].(name := f.newEmail, failureCount := 0)]
  {
    if user.None? then Step(t, NoUser)
    else
      var uid := user.value;
      var u := t.users[uid];
      if f.challenge then ChallengeSpec(t, uid, f.device, f.newEmail, o)
      else if f.token == "" then Step(t, TokenRequired)
      else if u.emailTemp != Some(f.newEmail) then ChallengeSpec(t, uid, f.device, f.newEmail, o)
      else if f.device.None? then Step(t, InvalidToken)
      else VerifyBranchSpec(t, uid, f.device.value, o)
  }

  /** The token branch of `clean_otp` on the chosen device `did`, from the
      start of the atomic block. */
  method VerifyBranch(store: AccountStore, uid: UserId, did: DeviceId, o: Oracle) returns (out: OtpOutcome)
    requires store.Valid() && uid in store.users && did in store.devices && store.devices[did].owner == uid
    requires store.users[uid].emailTemp.Some?
    modifies store
    ensures store.Valid()
    ensures Step(store.State(), out) == VerifyBranchSpec(old(store.State()), uid, did, o)
  {
    var u := store.users[uid];     // the request's user object
    var before := store.State();   // entering transaction.atomic()
    var verified := store.VerifyToken(did, o.allowed, o.tokenOk);
    if !o.allowed {
      return VerificationNotAllowed;
    }
    if !verified {
      assert store.State() == CountFailure(before, did);
      return InvalidToken;
    }
    assert store.State() == ResetAndLatch(before, did);
    out := Promote(store, before, uid, did, u);
  }

  /** The promotion on the store: `before` is the state at the start of the
      atomic block, `u` the request's user object. */
  method Promote(store: AccountStore, before: Tables, uid: UserId, did: DeviceId, u: User) returns (out: OtpOutcome)
    requires WellFormed(before) && store.Valid() && uid in store.users && did in store.devices
    requires store.devices[did].owner == uid && u.emailTemp.Some? && u.phone == store.users[uid].phone
    modifies store
    ensures store.Valid()
    ensures Step(store.State(), out) == PromoteSpec(before, old(store.State()), uid, did, u)
  {
    var promoted := u.(email := u.emailTemp.value, emailTemp := None);
    var saved := store.Save(uid, promoted);
    if !saved {
      // The IntegrityError leaves the atomic block: everything is undone.
      store.Restore(before);
      out := RolledBack;
    } else {
      store.SaveDevice(did, store.devices[did].(name := promoted.email));
      out := EmailChanged;
    }
  }

  method CleanOtp(store: AccountStore, user: Option<UserId>, f: OtpForm, o: Oracle) returns (out: OtpOutcome)
    requires store.Valid()
    requires user.Some? ==> user.value in store.users && OwnedBy(store.State(), user.value, f.device)
    modifies store
    ensures store.Valid()
    ensures Step(store.State(), out) == CleanOtpSpec(old(store.State()), user, f, o)
  {
    if user.None? {
      return NoUser;
    }
    var uid := user.value;
    var u := store.users[uid];
    if f.challenge {
      out := HandleChallenge(store, uid, f.device, f.newEmail, o);
    } else if f.token != "" {
      if Some(f.newEmail) == u.emailTemp {
        if f.device.None? {
          out := InvalidToken;
        } else {
          out := VerifyBranch(store, uid, f.device.value, o);
        }
      } else {
        out := HandleChallenge(store, uid, f.device, f.newEmail, o);
      }
    } else {
      out := TokenRequired;
    }
  }

  /** Without the view's e-mail-verified guard the final whole-record save
      would write back the request's stale `email_verified = false` over the
      `true` that `verify_token` had just saved. */
  lemma UnguardedChangeResetsVerified()
    ensures var t := Tables(map[0 := User("+10000000000", None, "a@example.com", Some("b@example.com"), false, true)],
                            map[0 := NewDevice(0, "a@example.com")], 1, 1);
      var r := CleanOtpSpec(t, Some(0), OtpForm(Some(0), "b@example.com", false, "123456"), Oracle("", true, true, true));
      && VerifyTokenSpec(t, 0, true, true).next.users[0].emailVerified
      && r.out == EmailChanged
      && !r.next.users[0].emailVerified
  {
    var t := Tables(map[0 := User("+10000000000", None, "a@example.com", Some("b@example.com"), false, true)],
                    map[0 := NewDevice(0, "a@example.com")], 1, 1);
    assert !EmailHeldByOther(t.users, 0, "b@example.com");
  }
}
