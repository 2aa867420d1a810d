# django_user_app: the account state machine in Dafny

The Django application `user_app` keeps user accounts. An account has a unique phone number and a unique
e-mail address. It can also have a pending number (`phone_temp`), a pending address (`email_temp`), an
`email_verified` flag and an `is_active` flag. An account owns zero or more e-mail OTP devices; sign-up
stores it with none, and the first is created when its phone number is verified. A device
keeps an optional override address, the last token it issued and a count of successive failed checks.
This project models the requests that change these tables:

- sign-up, which stores an inactive account once an SMS code goes out;
- sending the SMS code again;
- checking the SMS code, which either commits a pending number or activates the account and gives it an
  e-mail device;
- staging a new phone number;
- deleting the account behind the e-mail guard and the OTP guard;
- the two-phase e-mail change, where a challenge mails a token to the new address and stages it, and a
  verified token promotes it;
- the device's own `generate_challenge` and `verify_token`.

The answers of the outside world are parameters, never computed. These are:

- the SMS service's status string;
- whether `authenticate` and `check_password` succeeded;
- the OTP library's token check and its throttling verdict (`verify_is_allowed`);
- whether `send_mail` returned;
- the random token;
- the device `_chosen_device` picked.

Files:

- `models.dfy` (module `Models`): the tables as a value (`Tables`) and the class `AccountStore`, whose
  fields are those tables. Each database statement is a method of the class. `WellFormed` says that phones
  and e-mails are unique, that keys stay below the key counters and that every device has an owner.
  `Evolves` says that keys of either table are never reused and that `email_verified` never goes from
  true back to false.
  Each operation has a specification function over `Tables`, and a method of the class proved equal to it.
- `forms.dfy` (module `Forms`): the login form's error choice, and the e-mail change form's
  `_handle_challenge` and `clean_otp`.
- `views.dfy` (module `Views`): the views, each as a specification function and an imperative method
  that calls the store.
- `machine.dfy` (module `Machine`): every request as one datatype, and a run of any sequence of requests.
  Over the whole run, uniqueness holds and the verified flag stays latched.

Django's `save()` writes the whole in-memory record. The model follows this. So:

- the trial save in `UserPhoneChange` may fail on the unique phone column;
- a failed save (an `IntegrityError`) changes nothing, and in `clean_otp` it undoes the whole atomic block;
- the request's user object saved at the end of `clean_otp` writes back the `email_verified` value it was
  loaded with.

That last save is why the latch depends on the `Email_Verification_Required` guard of `UserEmailChange`.
`Forms.CleanOtpSpec` promises the latch only for a user who is already verified.
`Forms.UnguardedChangeResetsVerified` gives an unverified account for which the form would otherwise clear
the flag that `verify_token` has just set. The view's guard excludes that case, so this is no defect of
the application.

## Model

| member | source | states |
|---|---|---|
| Models.AccountStore.Save | user_app/models.py:48-64 | saving a whole account record succeeds exactly when no other account holds its phone or e-mail; a refused save changes nothing |
| Models.AccountStore.Insert | user_app/views.py:38 | a new account goes in under a key never used before; uniqueness is kept |
| Models.AccountStore.CreateDevice | user_app/views.py:78 | a new device of an existing account goes in under a fresh key |
| Models.AccountStore.Delete | user_app/migrations/0001_initial.py:63 | deleting an account deletes exactly the devices it owns and keeps every other row |
| Models.AccountStore.Restore | user_app/forms.py:188 | leaving `transaction.atomic()` with an exception returns the tables exactly to the state they had on entry |
| Models.AddUser | user_app/models.py:48-69 | inserting an account with a free phone and e-mail keeps the tables well formed and evolving |
| Models.AddDevice | user_app/views.py:78 | inserting a device of an existing account under the next device key keeps the tables well formed and evolving |
| Models.RemoveUser | user_app/views.py:264 | removing an account and its devices keeps every device owned by a remaining account and keeps the latch |
| Models.PutUser | user_app/models.py:48-64 | writing a row that clashes with no other row keeps uniqueness; it keeps the latch unless it clears `email_verified` |
| Models.PutDevice | user_app/forms.py:160 | writing a device row with its owner unchanged keeps the tables well formed and evolving and changes nothing else |
| Models.AccountStore.SaveDevice | user_app/forms.py:216 | `device.save()`: the device row becomes the in-memory record, the rest of the database is unchanged and stays well formed |
| Models.EvolvesTransitive | user_app/models.py:69 | the latch and the freshness of account and device keys compose over two steps |
| Models.ChallengeMessage | user_app/models.py:150-152 | the returned message is non-empty and ends with the address the token was mailed to |
| Models.GenerateChallengeSpec | user_app/models.py:128-152 | the new token is saved with the device's current fields whether or not the mail goes out; a message comes back exactly when the mail was sent, and it ends with the device's own address when that is set and non-empty, else with the owner's; nothing else changes |
| Models.AccountStore.GenerateChallenge | user_app/models.py:128-152 | the method's new state and message are those of `GenerateChallengeSpec` |
| Models.VerifyTokenSpec | user_app/models.py:154-169 | the result is true exactly when verification is allowed and the token is right; when throttled nothing changes; success resets the failure count and sets the owner's `email_verified`; failure adds one failure and leaves accounts alone |
| Models.ResetAndLatch | user_app/models.py:159-163 | `throttle_reset` and the conditional `email_verified` save: the count is zero and the owner verified afterwards, and the tables still evolve |
| Models.CountFailure | user_app/models.py:164-165 | `throttle_increment`: exactly one more failure on that device, nothing else |
| Models.AccountStore.VerifyToken | user_app/models.py:154-169 | the method's state and result are those of `VerifyTokenSpec` |
| Models.VerifyTokenIdempotent | user_app/models.py:159-163 | a second successful verification changes nothing |
| Forms.CleanLogin | user_app/forms.py:48-69 | an error is raised exactly when a username and a non-empty password were given and authentication failed |
| Forms.FoundInactive | user_app/forms.py:56-62 | the lookup by phone yields an inactive account exactly when some account with that phone is inactive and no other account has that phone (the lookup raises otherwise, and the bare `except` turns that into no account) |
| Forms.CleanLoginInactiveIff | user_app/forms.py:55-67 | with unique phones, "inactive" is reported exactly when the failed phone belongs to an inactive account, and "invalid login" exactly otherwise |
| Forms.ChallengeSpec | user_app/forms.py:148-172 | every path ends in a challenge error; it is refused exactly when an account already has the new address; the token goes out exactly when the address is free, a device exists and the mail is sent, and then `email_temp` holds the new address; uniqueness and the latch hold |
| Forms.HandleChallenge | user_app/forms.py:148-172 | the method's state and outcome are those of `ChallengeSpec` |
| Forms.PromoteSpec | user_app/forms.py:209-216 | the stale user object with `email := email_temp` is saved and the device renamed; when the new address is held by another account the atomic block is rolled back to its start |
| Forms.VerifyBranchSpec | user_app/forms.py:199-200 | throttled, wrong token, rolled back or changed, each under exactly its condition; a change sets `email` to the staged address, clears `email_temp`, renames the device and resets its failures |
| Forms.VerifyBranch | user_app/forms.py:199-200 | the method's state and outcome are those of `VerifyBranchSpec` |
| Forms.Promote | user_app/forms.py:209-216 | the method's state and outcome are those of `PromoteSpec`, the rollback to the start of the atomic block included |
| Forms.CleanOtpSpec | user_app/forms.py:174-226 | no user: nothing happens; the challenge button gives exactly `ChallengeSpec`'s state and outcome, so a staged `email_temp` survives the reported error; a token with a different address starts a new challenge; no token: token required and no change; "not allowed" exactly when the staged address and a chosen device meet a throttled device; "invalid token" exactly when no device was chosen (no change) or the token is wrong (one more failure on that device and nothing else); the e-mail changes exactly when the address is the staged one, a device was chosen, the token verifies and the address is free; the tables stay well formed, and evolve when the user was verified |
| Forms.CleanOtp | user_app/forms.py:174-226 | the method's state and outcome are those of `CleanOtpSpec`, rollback included |
| Forms.UnguardedChangeResetsVerified | user_app/forms.py:207-216 | for an unverified user, the form alone would clear the `email_verified` that `verify_token` set in the same request |
| Views.CreateSpec | user_app/views.py:33-44 | an account is stored exactly when phone and e-mail are free and the SMS send is pending; it is inactive, with no pending values and unverified; otherwise nothing changes |
| Views.UserCreate | user_app/views.py:33-44 | the method's state and outcome are those of `CreateSpec` |
| Views.TokenSendAgain | user_app/views.py:50-57 | the code goes to `phone_temp` when it is set and non-empty, else to `phone`; success exactly when the send is pending |
| Views.ResendFollowsPhoneChange | user_app/views.py:52 | after a number change reported "code sent", sending the code again goes to the new number |
| Views.ResendAfterPhoneChanged | user_app/views.py:52 | after the approved code committed the pending number, sending again goes to that number, now the account's phone |
| Views.PhoneVerifySpec | user_app/views.py:66-84 | a rejected code changes nothing; an approved code moves a pending number into `phone` (refused when another account took it), or else activates the account and adds a device named after its e-mail |
| Views.UserPhoneVerify | user_app/views.py:66-84 | the method's state and outcome are those of `PhoneVerifySpec` |
| Views.PhoneChangeSpec | user_app/views.py:93-120 | the current phone of every account is unchanged; the same number and a number held by another account are refused; a free number is staged in `phone_temp` exactly when the send is pending |
| Views.UserPhoneChange | user_app/views.py:93-120 | the trial save and its restore leave the tables as they were, so the method's state and outcome are those of `PhoneChangeSpec` |
| Views.DeleteSpec | user_app/views.py:253-269 | the account and exactly its devices go when it is logged in, verified, past OTP and the password is right; each guard's refusal changes nothing |
| Views.UserDelete | user_app/views.py:253-269 | the method's state and outcome are those of `DeleteSpec` |
| Views.EmailChangeSpec | user_app/views.py:223-226 | the form runs exactly for a logged-in, verified account; because of that guard the latch holds across the whole e-mail change |
| Views.UserEmailChange | user_app/views.py:223-226 | the method's state and outcome are those of `EmailChangeSpec` |
| Machine.Apply | user_app/decorators.py:11 | each request keeps phones and e-mails unique, account and device keys fresh and `email_verified` latched |
| Machine.Run | user_app/models.py:48-69 | any sequence of requests keeps phones and e-mails unique, account and device keys fresh and `email_verified` latched |
| Machine.RunConcat | user_app/models.py:69 | running two sequences one after the other equals running their concatenation |
| Machine.VerifiedStaysVerified | user_app/models.py:69 | from an empty database, an account verified at some point of a run is still verified at its end |

## Left out

- The SMS client (`twilio_verify.py`) is not modelled: its status string is an input. A raised exception
  there becomes `"got error"`, which the model treats like any status that is not pending or approved.
- `authenticate`, `check_password`, `otp_required`, the OTP library's token comparison, expiry,
  throttling arithmetic and `_chosen_device` are inputs (booleans or an optional device id) and are not
  modelled.
- Forms.CleanOtpSpec: when no device was chosen, the model reports an invalid token with no change. The
  source then falls back to the library's `match_token`, which runs the overridden `verify_token` on every
  device of the user. A throttled device refuses without counting (models.py:155-156, 166-167); each of
  those devices that is not throttled and rejects the token counts one more failure, and the counts
  persist because the `invalid_token` error is caught inside the atomic block. This includes the case
  where only a throttled device holds the right token. When a device that is not throttled accepts the
  token, the final `device.name = user.email` (forms.py:215) fails on `None`, the exception leaves the
  atomic block and everything is rolled back. The model states neither, because `match_token` is
  library code.
- Models.GenerateChallengeSpec, Models.VerifyTokenSpec: the device's stored token is recorded only.
  `tokenOk` is an input, not a comparison with it, and a successful check neither clears it nor sets
  `valid_until`, because the comparison and the clearing belong to the OTP library.
- Accounts are addressed by key; the `uuid_value` column and the lookup by it are not modelled separately.
- Views.TokenSendAgain, Views.PhoneVerifySpec: for an unknown `uuid_value` the source raises
  `DoesNotExist`; the model returns an "unknown user" outcome with no change.
- Views.EmailChangeSpec, Views.DeleteSpec: an anonymous visitor makes the source's guard fail with an
  `AttributeError`; the model returns an "anonymous" outcome with no change.
- Form field validation (phone and e-mail formats, password rules), the unique checks of the creation
  form beyond phone and e-mail, and the `username`, name and gender fields are not modelled.
- Messages, redirects, templates, the mail body and `_update_form` are presentation and are not modelled.
- Requests are modelled one at a time; concurrent requests and database isolation are not modelled.
