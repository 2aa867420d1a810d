/** The account tables as a state machine over the requests that change
    them.  Whatever sequence of requests arrives, the phone and e-mail
    columns stay unique, no account or device key is reused, and no account's
    `email_verified` goes back to false. */
module Machine {
  import opened Models
  import Forms
  import Views

  /** One request that writes to the tables, with the outside world's
      answers to it. */
  datatype Request =
    | SignUp(phone: Phone, email: Email, status: string)
    | VerifyPhone(uid: UserId, status: string)
    | ChangePhone(login: Option<UserId>, newPhone: Phone, status: string)
    | DeleteAccount(login: Option<UserId>, otpVerified: bool, passwordOk: bool)
    | ChangeEmail(login: Option<UserId>, form: Forms.OtpForm, oracle: Forms.Oracle)
    | VerifyDevice(device: DeviceId, allowed: bool, tokenOk: bool)
    | ChallengeDevice(device: DeviceId, code: string, mailSent: bool)

  /** A request the framework can deliver in state `t`: a session belongs to
      a stored account, a chosen device to its user, and a device the
      other OTP forms use exists. */
  predicate Admissible(t: Tables, q: Request) {
    match q
    case SignUp(_, _, _) => true
    case VerifyPhone(_, _) => true
    case ChangePhone(login, _, _) => login.Some? ==> login.value in t.users
    case DeleteAccount(login, _, _) => login.Some? ==> login.value in t.users
    case ChangeEmail(login, f, _) => login.Some? ==> login.value in t.users && Forms.OwnedBy(t, login.value, f.device)
    case VerifyDevice(did, _, _) => did in t.devices
    case ChallengeDevice(did, _, _) => did in t.devices
  }

  /** The tables after one request. */
  function Apply(t: Tables, q: Request): (r: Tables)
    requires WellFormed(t) && Admissible(t, q)
    ensures WellFormed(r) && Evolves(t, r)
  {
    match q
    case SignUp(phone, email, status) => Views.CreateSpec(t, phone, email, status).next
    case VerifyPhone(uid, status) => Views.PhoneVerifySpec(t, uid, status).next
    case ChangePhone(login, newPhone, status) => Views.PhoneChangeSpec(t, login, newPhone, status).next
    case DeleteAccount(login, otp, password) => Views.DeleteSpec(t, login, otp, password).next
    case ChangeEmail(login, f, o) => Views.EmailChangeSpec(t, login, f, o).next
    case VerifyDevice(did, allowed, tokenOk) => VerifyTokenSpec(t, did, allowed, tokenOk).next
    case ChallengeDevice(did, code, mailSent) => GenerateChallengeSpec(t, did, t.devices[did], code, mailSent).next
  }

  /** The tables after a sequence of requests; a request the framework could
      not deliver in the state it meets is skipped. */
  function Run(t: Tables, qs: seq<Request>): (r: Tables)
    requires WellFormed(t)
    ensures WellFormed(r) && Evolves(t, r)
    decreases |qs|
  {
    if qs == [] then
      EvolvesReflexive(t);
      t
    else
      var t1 := if Admissible(t, qs[0]) then Apply(t, qs[0]) else t;
      EvolvesReflexive(t);
      var r := Run(t1, qs[1..]);
      EvolvesTransitive(t, t1, r);
      r
  }

  /** Running two sequences one after the other is running their
      concatenation. */
  lemma {:induction false} RunConcat(t: Tables, a: seq<Request>, b: seq<Request>)
    requires WellFormed(t)
    ensures Run(t, a + b) == Run(Run(t, a), b)
    decreases |a|
  {
    if a == [] {
      assert a + b == b;
    } else {
      assert (a + b)[0] == a[0];
      assert (a + b)[1..] == a[1..] + b;
      var t1 := if Admissible(t, a[0]) then Apply(t, a[0]) else t;
      RunConcat(t1, a[1..], b);
    }
  }

  /** From the empty database: an account whose e-mail is verified after
      the first `k` requests of a run is still verified at the end of the
      run, if it still exists. */
  lemma VerifiedStaysVerified(qs: seq<Request>, k: nat, id: UserId)
    requires k <= |qs|
    ensures var mid := Run(Tables(map[], map[], 0, 0), qs[..k]);
      var r := Run(Tables(map[], map[], 0, 0), qs);
      id in mid.users && id in r.users && mid.users[id].emailVerified ==> r.users[id].emailVerified
  {
    var empty := Tables(map[], map[], 0, 0);
    assert qs[..k] + qs[k..] == qs;
    RunConcat(empty, qs[..k], qs[k..]);
  }
}
