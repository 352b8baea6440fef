/** The PIN verification modal (client/src/components/PinVerifyModal.tsx): it
    collects a PIN, hashes it, compares it with the stored hash and reports
    success to the caller through `onSuccess`. It only reads the store. */
module PinVerify {
  import opened Common
  import opened Hex
  import opened Store

  const MsgLength := "PIN must be 4 digits"
  const MsgNotAuthenticated := "Not authenticated"
  const MsgVerifyFailed := "Verification failed"
  const MsgIncorrect := "Incorrect PIN. Check browser console for debug info."

  /** The outcome of one submit: the PIN matched (and `onSuccess` runs), or an
      error is shown, and on a mismatch the input is cleared as well. */
  datatype VerifyResult = Verified | Rejected(message: string, clearsPin: bool)

  /** `handleSubmit` as a function of the store and of the backend's answers. */
  function Verify(digest: Digest, roles: map<UserId, UserRoleRow>, user: Option<UserId>,
                  read: Reply, pin: string): (r: VerifyResult)
    // a PIN of the wrong length is refused before anything is read
    ensures |pin| != 4 ==> r == Rejected(MsgLength, false)
    // success means exactly: a row, and its stored hash is the hash of this PIN
    ensures r == Verified <==>
      |pin| == 4 && user.Some? && read.Ok? && user.value in roles &&
      roles[user.value].pin_hash == Some(HashPin(digest, pin))
    // a row whose hash is missing or different is a mismatch: error and cleared input
    ensures |pin| == 4 && user.Some? && read.Ok? && user.value in roles &&
            roles[user.value].pin_hash != Some(HashPin(digest, pin)) ==>
      r == Rejected(MsgIncorrect, true)
    // no identity, or a failed read, only sets an error
    ensures |pin| == 4 && user.None? ==> r == Rejected(MsgNotAuthenticated, false)
    ensures |pin| == 4 && user.Some? && read.Fails? ==>
      r == Rejected(MessageOr(read.message, MsgVerifyFailed), false)
  {
    if |pin| != 4 then Rejected(MsgLength, false)
    else if user.None? then Rejected(MsgNotAuthenticated, false)
    else
      match SingleRole(roles, user.value, read)
      case Failure(m) => Rejected(MessageOr(m, MsgVerifyFailed), false)
      case Success(row) =>
        if Some(HashPin(digest, pin)) == row.pin_hash then Verified
        else Rejected(MsgIncorrect, true)
  }

  /** A user whose PIN was never set can never pass the modal. */
  lemma NoStoredHashNeverVerifies(digest: Digest, roles: map<UserId, UserRoleRow>, u: UserId,
                                  read: Reply, pin: string)
    requires u in roles && roles[u].pin_hash.None?
    ensures Verify(digest, roles, Some(u), read, pin) != Verified
  {
  }

  class PinVerifyModal {
    const digest: Digest
    const db: Database
    var pin: string
    var loading: bool
    var error: string

    /** The input only ever holds digits, at most four of them. */
    predicate Valid()
      reads this
    {
      AllDigits(pin) && |pin| <= 4
    }

    constructor (digest: Digest, db: Database)
      ensures Valid()
      ensures this.digest == digest && this.db == db
      ensures pin == "" && !loading && error == ""
    {
      this.digest := digest;
      this.db := db;
      pin := "";
      loading := false;
      error := "";
    }

    /** The PIN input's `onChange` with `maxLength={4}`. */
    method EnterPin(raw: string)
      modifies this`pin
      ensures Valid()
      ensures pin == DigitInput(raw, 4)
    {
      pin := DigitInput(raw, 4);
    }

    /** `handleSubmit`: `verified` is true exactly when `onSuccess` is invoked
        (once). The store is only read: `db` is not in the frame. */
    method Submit(user: Option<UserId>, read: Reply) returns (verified: bool)
      requires Valid()
      modifies this`pin, this`loading, this`error
      ensures Valid()
      ensures verified <==> Verify(digest, db.roles, user, read, old(pin)) == Verified
      ensures verified ==> error == "" && pin == old(pin) && !loading
      ensures !verified ==>
        var r := Verify(digest, db.roles, user, read, old(pin));
        error == r.message && pin == (if r.clearsPin then "" else old(pin))
      // a PIN of the wrong length leaves `loading` untouched; every other path ends with it false
      ensures |old(pin)| != 4 ==> loading == old(loading)
      ensures |old(pin)| == 4 ==> !loading
    {
      error := "";
      verified := false;
      if |pin| != 4 {
        error := MsgLength;
        return;
      }
      loading := true;
      if user.None? {
        error := MsgNotAuthenticated;
        loading := false;
        return;
      }
      var fetched := SingleRole(db.roles, user.value, read);
      if fetched.Failure? {
        error := MessageOr(fetched.message, MsgVerifyFailed);
        loading := false;
        return;
      }
      var pinHash := HashPin(digest, pin);
      if Some(pinHash) == fetched.value.pin_hash {
        verified := true;
      } else {
        error := MsgIncorrect;
        pin := "";
      }
      loading := false;
    }
  }
}
