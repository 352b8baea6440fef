/** The PIN setup modal (client/src/components/PinSetupModal.tsx): it checks a
    new PIN and its confirmation and writes the PIN's hash, with no check of
    any earlier PIN. The same rules serve the "set PIN without verification"
    form of the settings page. */
module PinSetup {
  import opened Common
  import opened Hex
  import opened Store
  import PinVerify

  const MsgFormat := "PIN must be exactly 4 digits"
  const MsgMismatch := "PINs do not match"
  const MsgNotAuthenticated := "Not authenticated"
  const MsgSetFailed := "Failed to set PIN"

  /** `pin.length === 4 && /^\d{4}$/.test(pin)`: exactly four ASCII digits. */
  predicate IsFourDigits(pin: string) {
    |pin| == 4 && AllDigits(pin)
  }

  /** The two checks every new PIN goes through, in order: format, then confirmation. */
  function NewPinError(pin: string, confirm: string): (r: Option<string>)
    ensures r.None? <==> IsFourDigits(pin) && pin == confirm
    ensures !IsFourDigits(pin) ==> r == Some(MsgFormat)
    ensures IsFourDigits(pin) && pin != confirm ==> r == Some(MsgMismatch)
  {
    if |pin| != 4 || !AllDigits(pin) then Some(MsgFormat)
    else if pin != confirm then Some(MsgMismatch)
    else None
  }

  /** Setting a PIN without verifying an old one: the new `user_roles` table, or
      the error shown. */
  function SetPin(digest: Digest, roles: map<UserId, UserRoleRow>, user: Option<UserId>,
                  write: Reply, pin: string, confirm: string): (r: Result<map<UserId, UserRoleRow>>)
    // the checks on the input come before any store access
    ensures NewPinError(pin, confirm).Some? ==> r == Failure(NewPinError(pin, confirm).value)
    ensures NewPinError(pin, confirm).None? && user.None? ==> r == Failure(MsgNotAuthenticated)
    ensures NewPinError(pin, confirm).None? && user.Some? && write.Fails? ==>
      r == Failure(MessageOr(write.message, MsgSetFailed))
    // success writes the hash of the new PIN into the caller's row and nothing else
    ensures r.Success? <==> NewPinError(pin, confirm).None? && user.Some? && write.Ok?
    ensures r.Success? ==> r.value == WithPinHash(roles, user.value, HashPin(digest, pin))
  {
    match NewPinError(pin, confirm)
    case Some(m) => Failure(m)
    case None =>
      if user.None? then Failure(MsgNotAuthenticated)
      else if write.Fails? then Failure(MessageOr(write.message, MsgSetFailed))
      else Success(WithPinHash(roles, user.value, HashPin(digest, pin)))
  }

  /** After a successful setup the same PIN passes the verification modal, as
      long as the user has a `user_roles` row for the update to land in. */
  lemma SetupThenVerify(digest: Digest, roles: map<UserId, UserRoleRow>, u: UserId,
                        write: Reply, pin: string, confirm: string)
    requires u in roles
    requires SetPin(digest, roles, Some(u), write, pin, confirm).Success?
    ensures PinVerify.Verify(digest, SetPin(digest, roles, Some(u), write, pin, confirm).value,
                             Some(u), Ok, pin) == PinVerify.Verified
  {
  }

  /** Without a row the update matches nothing: setup reports success, yet no
      PIN verifies afterwards. */
  lemma SetupWithoutRowChangesNothing(digest: Digest, roles: map<UserId, UserRoleRow>, u: UserId,
                                      write: Reply, pin: string, confirm: string, later: string)
    requires u !in roles
    requires SetPin(digest, roles, Some(u), write, pin, confirm).Success?
    ensures SetPin(digest, roles, Some(u), write, pin, confirm).value == roles
    ensures PinVerify.Verify(digest, roles, Some(u), Ok, later) != PinVerify.Verified
  {
  }

  class PinSetupModal {
    const digest: Digest
    const db: Database
    /** Whether the parent passed an `onCancel` callback. */
    const hasOnCancel: bool
    var pin: string
    var confirmPin: string
    var loading: bool
    var error: string

    /** Both inputs hold only digits, at most four. */
    predicate Valid()
      reads this
    {
      AllDigits(pin) && |pin| <= 4 && AllDigits(confirmPin) && |confirmPin| <= 4
    }

    constructor (digest: Digest, db: Database, hasOnCancel: bool)
      ensures Valid()
      ensures this.digest == digest && this.db == db && this.hasOnCancel == hasOnCancel
      ensures pin == "" && confirmPin == "" && !loading && error == ""
    {
      this.digest := digest;
      this.db := db;
      this.hasOnCancel := hasOnCancel;
      pin := "";
      confirmPin := "";
      loading := false;
      error := "";
    }

    /** The Cancel button is rendered only when `onCancel` was supplied. */
    predicate ShowsCancelButton()
      reads this
    {
      hasOnCancel
    }

    method EnterPin(raw: string)
      requires Valid()
      modifies this`pin
      ensures Valid()
      ensures pin == DigitInput(raw, 4)
    {
      pin := DigitInput(raw, 4);
    }

    method EnterConfirmPin(raw: string)
      requires Valid()
      modifies this`confirmPin
      ensures Valid()
      ensures confirmPin == DigitInput(raw, 4)
    {
      confirmPin := DigitInput(raw, 4);
    }

    /** `handleSubmit`: `succeeded` is true exactly when `onSuccess` is invoked,
        which happens only after the write went through. */
    method Submit(user: Option<UserId>, write: Reply) returns (succeeded: bool)
      modifies this`loading, this`error, db`roles
      ensures var r := SetPin(digest, old(db.roles), user, write, pin, confirmPin);
        && succeeded == r.Success?
        && db.roles == (if r.Success? then r.value else old(db.roles))
        && error == (if r.Success? then "" else r.message)
      ensures NewPinError(pin, confirmPin).Some? ==> loading == old(loading)
      ensures NewPinError(pin, confirmPin).None? ==> !loading
    {
      error := "";
      succeeded := false;
      if |pin| != 4 || !AllDigits(pin) {
        error := MsgFormat;
        return;
      }
      if pin != confirmPin {
        error := MsgMismatch;
        return;
      }
      loading := true;
      if user.None? {
        error := MsgNotAuthenticated;
        loading := false;
        return;
      }
      var pinHash := HashPin(digest, pin);
      db.UpdatePinHash(user.value, pinHash, write);
      if write.Fails? {
        error := MessageOr(write.message, MsgSetFailed);
      } else {
        succeeded := true;
      }
      loading := false;
    }
  }
}
