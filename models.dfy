/** The account tables of the user application: one record per account
    (phone, e-mail, their pending replacements, activation and e-mail
    verification flags) and one record per e-mail OTP device.  Both the
    phone and the e-mail column are unique across accounts; the database
    refuses any write that would duplicate one.  The two device operations,
    sending a challenge and checking a token, live here as well. */
module Models {

  type UserId = nat
  type DeviceId = nat
  type Phone = string
  type Email = string

  datatype Option<T> = None | Some(value: T)

  /** The tables after a request, and what the request reported. */
  datatype Step<O> = Step(next: Tables, out: O)

  /** Python truthiness of a nullable text column: null and "" are false. */
  predicate Truthy(o: Option<string>) {
    o.Some? && o.value != ""
  }

  /** Python's `a or b` for a nullable text column `a`. */
  function OrElse(a: Option<string>, b: string): string {
    if Truthy(a) then a.value else b
  }

  /** One row of the account table.  Fields the core never reads or writes
      (names, gender, password hash, uuid) are not modelled. */
  datatype User = User(
    phone: Phone,
    phoneTemp: Option<Phone>,
    email: Email,
    emailTemp: Option<Email>,
    emailVerified: bool,
    isActive: bool)

  /** One row of the e-mail device table: its owner (the foreign key), its
      display name, the optional override address, the stored token and the
      count of successive failed verifications. */
  datatype EmailDevice = EmailDevice(
    owner: UserId,
    name: string,
    email: Option<Email>,
    token: Option<string>,
    failureCount: nat)

  function NewDevice(owner: UserId, name: string): EmailDevice {
    EmailDevice(owner, name, None, None, 0)
  }

  /** The whole database: both tables and the next primary key of each. */
  datatype Tables = Tables(
    users: map<UserId, User>,
    devices: map<DeviceId, EmailDevice>,
    nextUser: nat,
    nextDevice: nat)

  predicate PhonesUnique(users: map<UserId, User>) {
    forall a, b | a in users && b in users && a != b :: users[a].phone != users[b].phone
  }

  predicate EmailsUnique(users: map<UserId, User>) {
    forall a, b | a in users && b in users && a != b :: users[a].email != users[b].email
  }

  /** What the database guarantees of its contents: the unique columns are
      unique, keys are below the next key, every device has an owner. */
  predicate WellFormed(t: Tables) {
    && PhonesUnique(t.users)
    && EmailsUnique(t.users)
    && (forall id | id in t.users :: id < t.nextUser)
    && (forall d | d in t.devices :: d < t.nextDevice && t.devices[d].owner in t.users)
  }

  predicate PhoneInUse(users: map<UserId, User>, p: Phone) {
    exists o | o in users :: users[o].phone == p
  }

  predicate EmailInUse(users: map<UserId, User>, e: Email) {
    exists o | o in users :: users[o].email == e
  }

  predicate PhoneHeldByOther(users: map<UserId, User>, id: UserId, p: Phone) {
    exists o | o in users && o != id :: users[o].phone == p
  }

  predicate EmailHeldByOther(users: map<UserId, User>, id: UserId, e: Email) {
    exists o | o in users && o != id :: users[o].email == e
  }

  /** Writing `u` as row `id` would duplicate another row's phone or e-mail:
      the database answers with an IntegrityError. */
  predicate Clashes(users: map<UserId, User>, id: UserId, u: User) {
    PhoneHeldByOther(users, id, u.phone) || EmailHeldByOther(users, id, u.email)
  }

  /** How the tables may change over a request: keys of neither table are
      reused, and no account whose e-mail is verified becomes unverified. */
  predicate Evolves(t: Tables, t': Tables) {
    && t.nextUser <= t'.nextUser
    && t.nextDevice <= t'.nextDevice
    && (forall id | id in t'.users && id !in t.users :: id >= t.nextUser)
    && (forall d | d in t'.devices && d !in t.devices :: d >= t.nextDevice)
    && (forall id | id in t.users && id in t'.users && t.users[id].emailVerified :: t'.users[id].emailVerified)
  }

  /** No other account holds an account's own phone or e-mail. */
  lemma OwnKeysNotHeld(users: map<UserId, User>, id: UserId)
    requires PhonesUnique(users) && EmailsUnique(users) && id in users
    ensures !PhoneHeldByOther(users, id, users[id].phone)
    ensures !EmailHeldByOther(users, id, users[id].email)
  {
  }

  /** Rewriting a row with its own phone and e-mail never clashes. */
  lemma NoSelfClash(users: map<UserId, User>, id: UserId, u: User)
    requires PhonesUnique(users) && EmailsUnique(users) && id in users
    requires u.phone == users[id].phone && u.email == users[id].email
    ensures !Clashes(users, id, u)
  {
  }

  /** Whether another account holds a phone or an address does not depend
      on the account's own row. */
  lemma HeldByOtherIgnoresOwnRow(users: map<UserId, User>, id: UserId, v: User, p: Phone, e: Email)
    ensures PhoneHeldByOther(users[id := v], id, p) == PhoneHeldByOther(users, id, p)
    ensures EmailHeldByOther(users[id := v], id, e) == EmailHeldByOther(users, id, e)
  {
    if PhoneHeldByOther(users, id, p) {
      var o :| o in users && o != id && users[o].phone == p;
      assert users[id := v][o].phone == p;
    }
    if EmailHeldByOther(users, id, e) {
      var o :| o in users && o != id && users[o].email == e;
      assert users[id := v][o].email == e;
    }
  }

  /** Inserting an account whose phone and e-mail are free, under the next key. */
  function AddUser(t: Tables, u: User): (r: Tables)
    requires WellFormed(t) && !PhoneInUse(t.users, u.phone) && !EmailInUse(t.users, u.email)
    ensures WellFormed(r) && Evolves(t, r)
    ensures t.nextUser !in t.users
    ensures r == t.(users := t.users[t.nextUser := u], nextUser := t.nextUser + 1)
  {
    t.(users := t.users[t.nextUser := u], nextUser := t.nextUser + 1)
  }

  /** Inserting a fresh device of an existing account, under the next key. */
  function AddDevice(t: Tables, owner: UserId, name: string): (r: Tables)
    requires WellFormed(t) && owner in t.users
    ensures WellFormed(r) && Evolves(t, r)
    ensures t.nextDevice !in t.devices
    ensures r == t.(devices := t.devices[t.nextDevice := NewDevice(owner, name)], nextDevice := t.nextDevice + 1)
  {
    t.(devices := t.devices[t.nextDevice := NewDevice(owner, name)], nextDevice := t.nextDevice + 1)
  }

  /** Deleting an account and, by the cascade, its devices. */
  function RemoveUser(t: Tables, id: UserId): (r: Tables)
    requires WellFormed(t) && id in t.users
    ensures WellFormed(r) && Evolves(t, r)
    ensures r == t.(users := t.users - {id},
                    devices := map d | d in t.devices && t.devices[d].owner != id :: t.devices[d])
  {
    t.(users := t.users - {id},
       devices := map d | d in t.devices && t.devices[d].owner != id :: t.devices[d])
  }

  /** Writing account row `id` when nothing clashes: the tables stay well
      formed, and they evolve unless the write clears `email_verified`. */
  function PutUser(t: Tables, id: UserId, u: User): (r: Tables)
    requires WellFormed(t) && id in t.users && !Clashes(t.users, id, u)
    ensures WellFormed(r)
    ensures r == t.(users := t.users[id := u])
    ensures (t.users[id].emailVerified ==> u.emailVerified) ==> Evolves(t, r)
  {
    t.(users := t.users[id := u])
  }

  /** Writing device row `did` with its owner unchanged. */
  function PutDevice(t: Tables, did: DeviceId, d: EmailDevice): (r: Tables)
    requires WellFormed(t) && did in t.devices && d.owner == t.devices[did].owner
    ensures WellFormed(r) && Evolves(t, r)
    ensures r == t.(devices := t.devices[did := d])
  {
    t.(devices := t.devices[did := d])
  }

  lemma EvolvesReflexive(t: Tables)
    ensures Evolves(t, t)
  {
  }

  /** Evolves composes; the well-formedness of the first state rules out a
      key that disappears and comes back. */
  lemma EvolvesTransitive(t0: Tables, t1: Tables, t2: Tables)
    requires WellFormed(t0) && Evolves(t0, t1) && Evolves(t1, t2)
    ensures Evolves(t0, t2)
  {
  }

  /** The message `generate_challenge` returns: never empty, and it names
      the address the token went to. */
  function ChallengeMessage(to: Email): (m: string)
    ensures |m| > |to| && m[|m| - |to|..] == to
  {
    "sent to " + to
  }

  /** `generate_challenge` on the in-memory device `d` (row `did`): the new
      token is stored with the device's current fields before the mail is
      sent, so a failed send still leaves them saved.  The mail goes to the
      device's own address when set and non-empty, else to the owner's. */
  function GenerateChallengeSpec(t: Tables, did: DeviceId, d: EmailDevice, code: string, mailSent: bool): (r: Step<Option<string>>)
    requires WellFormed(t) && did in t.devices && d.owner == t.devices[did].owner
    ensures WellFormed(r.next) && Evolves(t, r.next)
    ensures r.next.users == t.users && r.next.devices.Keys == t.devices.Keys
    ensures r.next.devices[did] == d.(token := Some(code))
    ensures forall o | o in t.devices && o != did :: r.next.devices[o] == t.devices[o]
    ensures r.out.Some? <==> mailSent
    ensures r.out.Some? ==> |r.out.value| > 0
    ensures r.out.Some? && Truthy(d.email) ==> var to := d.email.value;
      |r.out.value| > |to| && r.out.value[|r.out.value| - |to|..] == to
    ensures r.out.Some? && !Truthy(d.email) ==> var to := t.users[d.owner].email;
      |r.out.value| > |to| && r.out.value[|r.out.value| - |to|..] == to
  {
    var stored := d.(token := Some(code));
    var next := PutDevice(t, did, stored);
    if mailSent then Step(next, Some(ChallengeMessage(OrElse(stored.email, t.users[d.owner].email))))
    else Step(next, None)
  }

  /** `verify_token` on device `did`: when verification is throttled nothing
      is checked and nothing changes; a correct token resets the failure
      count and latches the owner's `email_verified`; a wrong one adds one
      failure. */
  function VerifyTokenSpec(t: Tables, did: DeviceId, allowed: bool, tokenOk: bool): (r: Step<bool>)
    requires WellFormed(t) && did in t.devices
    ensures WellFormed(r.next) && Evolves(t, r.next)
    ensures r.out <==> allowed && tokenOk
    ensures !allowed ==> r.next == t
    ensures r.next.users.Keys == t.users.Keys && r.next.devices.Keys == t.devices.Keys
    ensures r.next.nextUser == t.nextUser && r.next.nextDevice == t.nextDevice
    ensures r.next.devices[did].owner == t.devices[did].owner
    ensures forall o | o in t.devices && o != did :: r.next.devices[o] == t.devices[o]
    ensures forall o | o in t.users && o != t.devices[did].owner :: r.next.users[o] == t.users[o]
    ensures var o := t.devices[did].owner;
      r.next.users[o] == t.users[o].(emailVerified := r.next.users[o].emailVerified)
    ensures var d := t.devices[did];
      r.next.devices[did] == d.(failureCount := r.next.devices[did].failureCount)
    ensures r.out ==> r.next.devices[did].failureCount == 0 && r.next.users[t.devices[did].owner].emailVerified
    ensures allowed && !tokenOk ==>
      r.next.users == t.users && r.next.devices[did].failureCount == t.devices[did].failureCount + 1
  {
    if !allowed then Step(t, false)
    else if tokenOk then
      ResetAndLatchFrame(t, did);
      Step(ResetAndLatch(t, did), true)
    else
      CountFailureFrame(t, did);
      Step(CountFailure(t, did), false)
  }

  /** What a successful check leaves alone. */
  lemma ResetAndLatchFrame(t: Tables, did: DeviceId)
    requires WellFormed(t) && did in t.devices
    ensures var r := ResetAndLatch(t, did);
      && r.users.Keys == t.users.Keys && r.devices.Keys == t.devices.Keys
      && r.nextUser == t.nextUser && r.nextDevice == t.nextDevice
      && (forall o | o in t.devices && o != did :: r.devices[o] == t.devices[o])
      && (forall o | o in t.users && o != t.devices[did].owner :: r.users[o] == t.users[o])
  {
    var d := t.devices[did];
    UpdateKeepsOthers(t.users, d.owner, t.users[d.owner].(emailVerified := true));
    UpdateKeepsOthers(t.devices, did, d.(failureCount := 0));
  }

  /** Overwriting an existing key keeps the key set and every other entry. */
  lemma UpdateKeepsOthers<K, V>(m: map<K, V>, k: K, v: V)
    requires k in m
    ensures m[k := v].Keys == m.Keys
    ensures forall o | o in m && o != k :: m[k := v][o] == m[o]
  {
  }

  /** What a failed check leaves alone. */
  lemma CountFailureFrame(t: Tables, did: DeviceId)
    requires WellFormed(t) && did in t.devices
    ensures var r := CountFailure(t, did);
      && r.users == t.users && r.devices.Keys == t.devices.Keys
      && r.nextUser == t.nextUser && r.nextDevice == t.nextDevice
      && (forall o | o in t.devices && o != did :: r.devices[o] == t.devices[o])
  {
  }

  /** `throttle_reset()` followed by setting and saving the owner's
      `email_verified` when it was still false. */
  function ResetAndLatch(t: Tables, did: DeviceId): (r: Tables)
    requires WellFormed(t) && did in t.devices
    ensures WellFormed(r) && Evolves(t, r)
    ensures var d := t.devices[did];
      r == t.(users := t.users[d.owner := t.users[d.owner].(emailVerified := true)],
              devices := t.devices[did := d.(failureCount := 0)])
  {
    var d := t.devices[did];
    var t1 := PutDevice(t, did, d.(failureCount := 0));
    var u := t1.users[d.owner];
    NoSelfClash(t1.users, d.owner, u.(emailVerified := true));
    var t2 := PutUser(t1, d.owner, u.(emailVerified := true));
    EvolvesTransitive(t, t1, t2);
    if u.emailVerified then
      assert t2 == t1 by { assert t1.users[d.owner := u.(emailVerified := true)] == t1.users; }
      t1
    else t2
  }

  /** `throttle_increment()`: one more successive failure. */
  function CountFailure(t: Tables, did: DeviceId): (r: Tables)
    requires WellFormed(t) && did in t.devices
    ensures WellFormed(r) && Evolves(t, r)
    ensures var d := t.devices[did];
      r == t.(devices := t.devices[did := d.(failureCount := d.failureCount + 1)])
  {
    var d := t.devices[did];
    PutDevice(t, did, d.(failureCount := d.failureCount + 1))
  }

  /** A successful verification repeated changes nothing more: the failure
      count stays 0 and `email_verified` stays true. */
  lemma VerifyTokenIdempotent(t: Tables, did: DeviceId)
    requires WellFormed(t) && did in t.devices
    ensures var once := VerifyTokenSpec(t, did, true, true).next;
      VerifyTokenSpec(once, did, true, true).next == once
  {
  }

  /** The database, as the views and forms see it.  Each method below is one
      database statement, or one method of the device model. */
  class AccountStore {
    var users: map<UserId, User>
    var devices: map<DeviceId, EmailDevice>
    var nextUser: nat
    var nextDevice: nat

    function State(): Tables
      reads this
    {
      Tables(users, devices, nextUser, nextDevice)
    }

    ghost predicate Valid()
      reads this
    {
      WellFormed(State())
    }

    constructor ()
      ensures Valid() && State() == Tables(map[], map[], 0, 0)
    {
      users, devices := map[], map[];
      nextUser, nextDevice := 0, 0;
    }

    /** `save()` of a whole account record: refused with no change when it
        would duplicate another account's phone or e-mail. */
    method Save(id: UserId, u: User) returns (ok: bool)
      requires Valid() && id in users
      modifies this
      ensures Valid()
      ensures ok == !Clashes(old(users), id, u)
      ensures ok ==> State() == PutUser(old(State()), id, u)
      ensures !ok ==> State() == old(State())
    {
      ok := !Clashes(users, id, u);
      if ok {
        users := users[id := u];
      }
    }

    /** INSERT of a new account whose phone and e-mail are free. */
    method Insert(u: User) returns (id: UserId)
      requires Valid() && !PhoneInUse(users, u.phone) && !EmailInUse(users, u.email)
      modifies this
      ensures Valid()
      ensures id == old(nextUser) && id !in old(users)
      ensures State() == AddUser(old(State()), u)
    {
      id := nextUser;
      users := users[id := u];
      nextUser := nextUser + 1;
    }

    /** `customizedemaildevice_set.create(user=owner, name=name)`. */
    method CreateDevice(owner: UserId, name: string) returns (did: DeviceId)
      requires Valid() && owner in users
      modifies this
      ensures Valid()
      ensures did == old(nextDevice) && did !in old(devices)
      ensures State() == AddDevice(old(State()), owner, name)
    {
      did := nextDevice;
      devices := devices[did := NewDevice(owner, name)];
      nextDevice := nextDevice + 1;
    }

    /** `save()` of a whole device record; its owner does not change. */
    method SaveDevice(did: DeviceId, d: EmailDevice)
      requires Valid() && did in devices && d.owner == devices[did].owner
      modifies this
      ensures Valid()
      ensures State() == PutDevice(old(State()), did, d)
    {
      devices := devices[did := d];
    }

    /** `delete()` of an account; its devices go with it (ON DELETE CASCADE). */
    method Delete(id: UserId)
      requires Valid() && id in users
      modifies this
      ensures Valid()
      ensures State() == RemoveUser(old(State()), id)
    {
      devices := map d | d in devices && devices[d].owner != id :: devices[d];
      users := users - {id};
    }

    /** The rollback of an atomic block: the tables return to the state `s`
        they had when the block was entered. */
    method Restore(s: Tables)
      requires WellFormed(s)
      modifies this
      ensures Valid() && State() == s
    {
      users, devices := s.users, s.devices;
      nextUser, nextDevice := s.nextUser, s.nextDevice;
    }

    /** `CustomizedEmailDevice.generate_challenge` on the in-memory device
        `d` of row `did`: store a new token (the random token is `code`),
        then mail it; `mailSent` is whether the mail went out. */
    method GenerateChallenge(did: DeviceId, d: EmailDevice, code: string, mailSent: bool) returns (message: Option<string>)
      requires Valid() && did in devices && d.owner == devices[did].owner
      modifies this
      ensures Valid()
      ensures Step(State(), message) == GenerateChallengeSpec(old(State()), did, d, code, mailSent)
    {
      SaveDevice(did, d.(token := Some(code)));
      var to := OrElse(devices[did].email, users[d.owner].email);
      if mailSent {
        message := Some(ChallengeMessage(to));
      } else {
        message := None;
      }
    }

    /** `CustomizedEmailDevice.verify_token`: `allowed` is the throttle's
        verdict and `tokenOk` the library's token check. */
    method VerifyToken(did: DeviceId, allowed: bool, tokenOk: bool) returns (verified: bool)
      requires Valid() && did in devices
      modifies this
      ensures Valid()
      ensures Step(State(), verified) == VerifyTokenSpec(old(State()), did, allowed, tokenOk)
    {
      if allowed {
        verified := tokenOk;
        var d := devices[did];
        if verified {
          SaveDevice(did, d.(failureCount := 0));
          var u := users[d.owner];
          if !u.emailVerified {
            NoSelfClash(users, d.owner, u.(emailVerified := true));
            var saved := Save(d.owner, u.(emailVerified := true));
          }
        } else {
          SaveDevice(did, d.(failureCount := d.failureCount + 1));
        }
      } else {
        verified := false;
      }
    }
  }
}
