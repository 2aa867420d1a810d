/** The views of the user application that change accounts: sign-up, the
    SMS verification of a new account or of a new number, the request to
    change the number, account deletion and the guarded e-mail change.  The
    SMS service's answer is an input: its send returns "pending" and its
    check "approved" on success, anything else (including the client's own
    "got error") otherwise. */
module Views {
  import opened Models
  import Forms

  const Pending: string := "pending"
  const Approved: string := "approved"

  // ---------------------------------------------------------------------
  // Sign-up

  datatype CreateOutcome = Created(id: UserId) | DuplicateAccount | CreateSendFailed

  /** `UserCreate.form_valid`, after the model form's unique validation: an
      account is stored, inactive, only when the SMS send is pending. */
  function CreateSpec(t: Tables, phone: Phone, email: Email, status: string): (r: Step<CreateOutcome>)
    requires WellFormed(t)
    ensures WellFormed(r.next) && Evolves(t, r.next)
    ensures r.out.DuplicateAccount? <==> PhoneInUse(t.users, phone) || EmailInUse(t.users, email)
    ensures r.out.Created? <==> !PhoneInUse(t.users, phone) && !EmailInUse(t.users, email) && status == Pending
    ensures r.out.Created? ==>
      && r.out.id !in t.users
      && r.next.users == t.users[r.out.id := User(phone, None, email, None, false, false)]
      && r.next.devices == t.devices
    ensures !r.out.Created? ==> r.next == t
  {
    // The column defaults of user_app/models.py:54-69 (nothing pending,
    // e-mail unverified), with `is_active` cleared before the save.
    var u := User(phone, None, email, None, false, false);
    if PhoneInUse(t.users, phone) || EmailInUse(t.users, email) then Step(t, DuplicateAccount)
    else if status == Pending then Step(AddUser(t, u), Created(t.nextUser))
    else Step(t, CreateSendFailed)
  }

  method UserCreate(store: AccountStore, phone: Phone, email: Email, status: string) returns (out: CreateOutcome)
    requires store.Valid()
    modifies store
    ensures store.Valid()
    ensures Step(store.State(), out) == CreateSpec(old(store.State()), phone, email, status)
  {
    // The column defaults, with `is_active` cleared.
    var u := User(phone, None, email, None, false, false);
    if PhoneInUse(store.users, phone) || EmailInUse(store.users, email) {
      // The model form's unique validation refuses the data before `form_valid`.
      return DuplicateAccount;
    }
    if status == Pending {
      var id := store.Insert(u);
      out := Created(id);
    } else {
      out := CreateSendFailed;
    }
  }

  // ---------------------------------------------------------------------
  // Sending the code again

  datatype ResendOutcome = ResendUnknownUser | Resent(to: Phone) | ResendFailed(to: Phone)

  /** `TwilioTokenSendAgain.get`: the code goes to the pending number when
      one is set, else to the current one; no account changes. */
  method TokenSendAgain(store: AccountStore, uid: UserId, status: string) returns (out: ResendOutcome)
    ensures uid !in store.users <==> out.ResendUnknownUser?
    ensures out.Resent? <==> uid in store.users && status == Pending
    ensures uid in store.users ==> var u := store.users[uid];
      out.to == if Truthy(u.phoneTemp) then u.phoneTemp.value else u.phone
  {
    if uid !in store.users {
      return ResendUnknownUser;
    }
    var u := store.users[uid];
    var to := OrElse(u.phoneTemp, u.phone);
    if status == Pending {
      out := Resent(to);
    } else {
      out := ResendFailed(to);
    }
  }

  // ---------------------------------------------------------------------
  // Verifying the SMS code

  datatype PhoneVerifyOutcome =
    | VerifyUnknownUser
    | CodeRejected
    | PhoneChanged
    | Activated(device: DeviceId)
    | PhoneConflict     // IntegrityError: the pending number was taken meanwhile

  /** `UserPhoneVerify.form_valid`.  An approved code commits a pending
      number, or, when none is pending, activates the account and gives it
      an e-mail device named after its address. */
  function PhoneVerifySpec(t: Tables, uid: UserId, status: string): (r: Step<PhoneVerifyOutcome>)
    requires WellFormed(t)
    ensures WellFormed(r.next) && Evolves(t, r.next)
    ensures uid !in t.users ==> r == Step(t, VerifyUnknownUser)
    ensures uid in t.users && status != Approved ==> r == Step(t, CodeRejected)
    ensures r.out.PhoneChanged? || r.out.PhoneConflict? <==>
      uid in t.users && status == Approved && Truthy(t.users[uid].phoneTemp)
    ensures r.out.PhoneConflict? <==>
      uid in t.users && status == Approved && Truthy(t.users[uid].phoneTemp) &&
      PhoneHeldByOther(t.users, uid, t.users[uid].phoneTemp.value)
    ensures r.out.PhoneConflict? ==> r.next == t
    ensures r.out.PhoneChanged? ==> var u := t.users[uid];
      && r.next.users == t.users[uid := u.(phone := u.phoneTemp.value, phoneTemp := None)]
      && r.next.devices == t.devices
      && r.next.users[uid].isActive == u.isActive
    ensures r.out.Activated? <==> uid in t.users && status == Approved && !Truthy(t.users[uid].phoneTemp)
    ensures r.out.Activated? ==> var u := t.users[uid];
      && r.next.users == t.users[uid := u.(isActive := true)]
      && r.out.device !in t.devices
      && r.next.devices == t.devices[r.out.device := NewDevice(uid, u.email)]
  {
    if uid !in t.users then Step(t, VerifyUnknownUser)
    else
      var u := t.users[uid];
      if status != Approved then Step(t, CodeRejected)
      else if Truthy(u.phoneTemp) then
        var moved := u.(phone := u.phoneTemp.value, phoneTemp := None);
        OwnKeysNotHeld(t.users, uid);
        if Clashes(t.users, uid, moved) then Step(t, PhoneConflict)
        else Step(PutUser(t, uid, moved), PhoneChanged)
      else
        var t1 := AddDevice(t, uid, u.email);
        NoSelfClash(t1.users, uid, u.(isActive := true));
        var t2 := PutUser(t1, uid, u.(isActive := true));
        EvolvesTransitive(t, t1, t2);
        Step(t2, Activated(t.nextDevice))
  }

  method UserPhoneVerify(store: AccountStore, uid: UserId, status: string) returns (out: PhoneVerifyOutcome)
    requires store.Valid()
    modifies store
    ensures store.Valid()
    ensures Step(store.State(), out) == PhoneVerifySpec(old(store.State()), uid, status)
  {
    if uid !in store.users {
      return VerifyUnknownUser;
    }
    var u := store.users[uid];
    if status == Approved {
      if Truthy(u.phoneTemp) {
        OwnKeysNotHeld(store.users, uid);
        var saved := store.Save(uid, u.(phone := u.phoneTemp.value, phoneTemp := None));
        out := if saved then PhoneChanged else PhoneConflict;
      } else {
        var did := store.CreateDevice(uid, u.email);
        NoSelfClash(store.users, uid, u.(isActive := true));
        var saved := store.Save(uid, u.(isActive := true));
        out := Activated(did);
      }
    } else {
      out := CodeRejected;
    }
  }

  // ---------------------------------------------------------------------
  // Changing the number

  datatype PhoneChangeOutcome = ChangeNotLoggedIn | SameNumber | NumberInUse | CodeSent | ChangeSendFailed

  /** `UserPhoneChange.form_valid`: the current number never changes here;
      a free new number is staged in `phone_temp` once the SMS send is
      pending. */
  function PhoneChangeSpec(t: Tables, login: Option<UserId>, newPhone: Phone, status: string): (r: Step<PhoneChangeOutcome>)
    requires WellFormed(t) && (login.Some? ==> login.value in t.users)
    ensures WellFormed(r.next) && Evolves(t, r.next)
    ensures r.out.ChangeNotLoggedIn? <==> login.None?
    ensures r.out.SameNumber? <==> login.Some? && t.users[login.value].phone == newPhone
    ensures r.out.NumberInUse? <==>
      login.Some? && t.users[login.value].phone != newPhone && PhoneHeldByOther(t.users, login.value, newPhone)
    ensures r.out.CodeSent? <==>
      login.Some? && t.users[login.value].phone != newPhone && !PhoneHeldByOther(t.users, login.value, newPhone) &&
      status == Pending
    ensures !r.out.CodeSent? ==> r.next == t
    ensures r.out.CodeSent? ==>
      r.next == t.(users := t.users[login.value := t.users[login.value].(phoneTemp := Some(newPhone))])
    ensures r.next.users.Keys == t.users.Keys
    ensures forall id | id in t.users :: r.next.users[id].phone == t.users[id].phone
  {
    if login.None? then Step(t, ChangeNotLoggedIn)
    else
      var uid := login.value;
      var u := t.users[uid];
      if u.phone == newPhone then Step(t, SameNumber)
      else if PhoneHeldByOther(t.users, uid, newPhone) then Step(t, NumberInUse)
      else if status == Pending then
        NoSelfClash(t.users, uid, u.(phoneTemp := Some(newPhone)));
        Step(PutUser(t, uid, u.(phoneTemp := Some(newPhone))), CodeSent)
      else Step(t, ChangeSendFailed)
  }

  method UserPhoneChange(store: AccountStore, login: Option<UserId>, newPhone: Phone, status: string) returns (out: PhoneChangeOutcome)
    requires store.Valid() && (login.Some? ==> login.value in store.users)
    modifies store
    ensures store.Valid()
    ensures Step(store.State(), out) == PhoneChangeSpec(old(store.State()), login, newPhone, status)
  {
    if login.None? {
      // LoginRequiredMixin sends the visitor to the login page.
      return ChangeNotLoggedIn;
    }
    var uid := login.value;
    var u := store.users[uid];
    if u.phone == newPhone {
      return SameNumber;
    }
    // The trial save: the unique phone column refuses a number held elsewhere.
    OwnKeysNotHeld(store.users, uid);
    ghost var before := store.users;
    var free := store.Save(uid, u.(phone := newPhone));
    if !free {
      return NumberInUse;
    }
    HeldByOtherIgnoresOwnRow(before, uid, u.(phone := newPhone), u.phone, u.email);
    var restored := store.Save(uid, u);
    assert store.users == before;
    if status == Pending {
      NoSelfClash(store.users, uid, u.(phoneTemp := Some(newPhone)));
      var saved := store.Save(uid, u.(phoneTemp := Some(newPhone)));
      out := CodeSent;
    } else {
      out := ChangeSendFailed;
    }
  }

  /** After a number change reported "code sent", sending the code again
      goes to the new number. */
  lemma ResendFollowsPhoneChange(t: Tables, uid: UserId, newPhone: Phone, status: string)
    requires WellFormed(t) && uid in t.users && newPhone != ""
    ensures var r := PhoneChangeSpec(t, Some(uid), newPhone, status);
      r.out.CodeSent? ==> OrElse(r.next.users[uid].phoneTemp, r.next.users[uid].phone) == newPhone
  {
  }

  /** Once the approved code committed the pending number, sending the code
      again goes to that number, which is now the account's phone. */
  lemma ResendAfterPhoneChanged(t: Tables, uid: UserId, status: string)
    requires WellFormed(t)
    ensures var r := PhoneVerifySpec(t, uid, status);
      r.out.PhoneChanged? ==>
        var u := r.next.users[uid];
        OrElse(u.phoneTemp, u.phone) == u.phone == t.users[uid].phoneTemp.value
  {
  }

  // ---------------------------------------------------------------------
  // Deleting the account

  datatype DeleteOutcome = DeleteAnonymous | DeleteEmailUnverified | DeleteOtpRequired | Deleted | IncorrectPassword

  /** `UserDelete` behind its two guards (the e-mail guard runs first, then
      `otp_required`): the account and its devices go only when both guards
      pass and the password is right.  `Email_Verification_Required`
      (user_app/decorators.py:11) admits an account whose `email_verified`
      is true. */
  function DeleteSpec(t: Tables, login: Option<UserId>, otpVerified: bool, passwordOk: bool): (r: Step<DeleteOutcome>)
    requires WellFormed(t) && (login.Some? ==> login.value in t.users)
    ensures WellFormed(r.next) && Evolves(t, r.next)
    ensures r.out.DeleteAnonymous? <==> login.None?
    ensures r.out.DeleteEmailUnverified? <==> login.Some? && !t.users[login.value].emailVerified
    ensures r.out.DeleteOtpRequired? <==> login.Some? && t.users[login.value].emailVerified && !otpVerified
    ensures r.out.Deleted? <==>
      login.Some? && t.users[login.value].emailVerified && otpVerified && passwordOk
    ensures !r.out.Deleted? ==> r.next == t
    ensures r.out.Deleted? ==> var uid := login.value;
      && r.next.users == t.users - {uid}
      && (forall d | d in r.next.devices :: d in t.devices && t.devices[d].owner != uid && r.next.devices[d] == t.devices[d])
      && (forall d | d in t.devices && t.devices[d].owner != uid :: d in r.next.devices)
  {
    if login.None? then Step(t, DeleteAnonymous)
    else
      var u := t.users[login.value];
      if !u.emailVerified then Step(t, DeleteEmailUnverified)
      else if !otpVerified then Step(t, DeleteOtpRequired)
      else if passwordOk then Step(RemoveUser(t, login.value), Deleted)
      else Step(t, IncorrectPassword)
  }

  method UserDelete(store: AccountStore, login: Option<UserId>, otpVerified: bool, passwordOk: bool) returns (out: DeleteOutcome)
    requires store.Valid() && (login.Some? ==> login.value in store.users)
    modifies store
    ensures store.Valid()
    ensures Step(store.State(), out) == DeleteSpec(old(store.State()), login, otpVerified, passwordOk)
  {
    if login.None? {
      return DeleteAnonymous;
    }
    var uid := login.value;
    if !store.users[uid].emailVerified {
      return DeleteEmailUnverified;
    }
    if !otpVerified {
      return DeleteOtpRequired;
    }
    if passwordOk {
      store.Delete(uid);
      out := Deleted;
    } else {
      out := IncorrectPassword;
    }
  }

  // ---------------------------------------------------------------------
  // Changing the e-mail address

  datatype EmailChangeOutcome = EmailChangeAnonymous | EmailChangeUnverified | FormOutcome(otp: Forms.OtpOutcome)

  /** `UserEmailChange`: the e-mail guard (user_app/decorators.py:11, which
      admits an account whose `email_verified` is true), then the e-mail
      change form.
      Because the guard admits only verified accounts, the form's final
      whole-record save cannot clear `email_verified`. */
  function EmailChangeSpec(t: Tables, login: Option<UserId>, f: Forms.OtpForm, o: Forms.Oracle): (r: Step<EmailChangeOutcome>)
    requires WellFormed(t) && (login.Some? ==> login.value in t.users && Forms.OwnedBy(t, login.value, f.device))
    ensures WellFormed(r.next) && Evolves(t, r.next)
    ensures r.out.FormOutcome? <==> login.Some? && t.users[login.value].emailVerified
    ensures !r.out.FormOutcome? ==> r.next == t
    ensures r.out.FormOutcome? ==> Step(r.next, r.out.otp) == Forms.CleanOtpSpec(t, login, f, o)
  {
    if login.None? then Step(t, EmailChangeAnonymous)
    else if !t.users[login.value].emailVerified then Step(t, EmailChangeUnverified)
    else
      var s := Forms.CleanOtpSpec(t, login, f, o);
      Step(s.next, FormOutcome(s.out))
  }

  method UserEmailChange(store: AccountStore, login: Option<UserId>, f: Forms.OtpForm, o: Forms.Oracle) returns (out: EmailChangeOutcome)
    requires store.Valid()
    requires login.Some? ==> login.value in store.users && Forms.OwnedBy(store.State(), login.value, f.device)
    modifies store
    ensures store.Valid()
    ensures Step(store.State(), out) == EmailChangeSpec(old(store.State()), login, f, o)
  {
    if login.None? {
      return EmailChangeAnonymous;
    }
    if !store.users[login.value].emailVerified {
      return EmailChangeUnverified;
    }
    var result := Forms.CleanOtp(store, login, f, o);
    out := FormOutcome(result);
  }
}
