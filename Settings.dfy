/** The settings page (client/src/pages/Settings.tsx): changing the PIN after
    verifying the current one, setting it without verification, and the
    reset-code loop (request a six-digit code, redeem it for a new PIN). */
module Settings {
  import opened Common
  import opened Hex
  import opened Store
  import opened PinSetup
  import PinVerify

  const MsgNoRoleRow := "No user role found"
  const MsgWrongCurrent := "Current PIN is incorrect"
  const MsgChangeFailed := "Failed to change PIN"
  const MsgChanged := "PIN changed successfully"
  const MsgSendFailed := "Failed to send reset code"
  const MsgSent := "Reset code sent to your email"
  const MsgInvalidCode := "Invalid or expired reset code"
  const MsgResetFailed := "Failed to reset PIN"
  const MsgReset := "PIN reset successfully"
  const MsgDirectSet := "PIN set successfully! Try using it now."
  const DemoNotice := "Reset code sent to your email. For demo purposes: "

  /** A reset code stays valid for 15 minutes. */
  const ResetCodeLifetime := 15 * 60 * 1000

  /** `handleChangePin`: the new `user_roles` table, or the error shown. */
  function ChangePinOutcome(digest: Digest, roles: map<UserId, UserRoleRow>, user: Option<UserId>,
                     read: Reply, write: Reply,
                     currentPin: string, newPin: string, confirmNewPin: string): (r: Result<map<UserId, UserRoleRow>>)
    // the new PIN is checked before any store access
    ensures NewPinError(newPin, confirmNewPin).Some? ==> r == Failure(NewPinError(newPin, confirmNewPin).value)
    // a stored hash other than the hash of the current PIN refuses the change
    ensures NewPinError(newPin, confirmNewPin).None? && user.Some? && read.Ok? && user.value in roles &&
            roles[user.value].pin_hash != Some(HashPin(digest, currentPin)) ==>
      r == Failure(MsgWrongCurrent)
    // so with no PIN stored, a change never succeeds
    ensures user.Some? && user.value in roles && roles[user.value].pin_hash.None? ==> r.Failure?
    // success: every check passed, and only the caller's hash is replaced
    ensures r.Success? <==>
      NewPinError(newPin, confirmNewPin).None? && user.Some? && read.Ok? && write.Ok? &&
      user.value in roles && roles[user.value].pin_hash == Some(HashPin(digest, currentPin))
    ensures r.Success? ==> r.value == WithPinHash(roles, user.value, HashPin(digest, newPin))
  {
    match NewPinError(newPin, confirmNewPin)
    case Some(m) => Failure(m)
    case None =>
      if user.None? then Failure(MsgNotAuthenticated)
      else
        match SingleRole(roles, user.value, read)
        case Failure(m) => Failure(MessageOr(m, MsgChangeFailed))
        case Success(row) =>
          if HashPin(digest, currentPin) != row.pin_hash.GetOr("") || row.pin_hash.None? then
            Failure(MsgWrongCurrent)
          else if write.Fails? then Failure(MessageOr(write.message, MsgChangeFailed))
          else Success(WithPinHash(roles, user.value, HashPin(digest, newPin)))
  }

  /** After a change the new PIN verifies; the old one no longer does unless
      the two PINs share a digest. */
  lemma ChangeThenVerify(digest: Digest, roles: map<UserId, UserRoleRow>, u: UserId,
                         read: Reply, write: Reply, currentPin: string, newPin: string, confirm: string)
    requires ChangePinOutcome(digest, roles, Some(u), read, write, currentPin, newPin, confirm).Success?
    ensures var after := ChangePinOutcome(digest, roles, Some(u), read, write, currentPin, newPin, confirm).value;
      && PinVerify.Verify(digest, after, Some(u), Ok, newPin) == PinVerify.Verified
      && (digest(currentPin) != digest(newPin) ==>
            PinVerify.Verify(digest, after, Some(u), Ok, currentPin) != PinVerify.Verified)
  {
    HashPinEqual(digest, currentPin, newPin);
  }

  /** A six-digit number prints as six digits that read back as it. */
  lemma SixDigits(n: nat)
    requires 100000 <= n <= 999999
    ensures |NatToString(n)| == 6 && DecimalValue(NatToString(n)) == n
  {
    assert Pow10(5) == 100000 && Pow10(6) == 1000000 by {
      assert Pow10(2) == 100;
      assert Pow10(4) == 10000;
    }
    NatToStringLength(n, 6);
    DecimalValueOfNatToString(n);
  }

  /** The record `handleRequestReset` inserts: `code` is
      `Math.floor(100000 + Math.random() * 900000)`, with `draw` standing for
      `Math.floor(Math.random() * 900000)`. */
  function NewResetCode(id: string, u: UserId, draw: nat, now: int): (c: ResetCode)
    requires draw < 900000
    ensures c.id == id && c.user_id == u && !c.used
    ensures c.expires_at == now + 900000 && c.created_at == now
    ensures |c.code| == 6 && AllDigits(c.code)
    ensures 100000 <= DecimalValue(c.code) <= 999999
  {
    var n := 100000 + draw;
    SixDigits(n);
    ResetCode(id, u, NatToString(n), now + ResetCodeLifetime, false, now)
  }

  /** `handleRequestReset`: the new `pin_reset_codes` table, or the error shown. */
  function RequestResetOutcome(codes: seq<ResetCode>, user: Option<UserId>, write: Reply,
                        newId: string, draw: nat, now: int): (r: Result<seq<ResetCode>>)
    requires draw < 900000
    ensures user.None? ==> r == Failure(MsgNotAuthenticated)
    ensures user.Some? && write.Fails? ==> r == Failure(MessageOr(write.message, MsgSendFailed))
    // success appends exactly one record and leaves the earlier ones alone
    ensures r.Success? <==> user.Some? && write.Ok?
    ensures r.Success? ==> |r.value| == |codes| + 1 && r.value[..|codes|] == codes
    ensures r.Success? ==> r.value[|codes|] == NewResetCode(newId, user.value, draw, now)
  {
    if user.None? then Failure(MsgNotAuthenticated)
    else if write.Fails? then Failure(MessageOr(write.message, MsgSendFailed))
    else
      var codes' := codes + [NewResetCode(newId, user.value, draw, now)];
      assert codes'[..|codes|] == codes;
      Success(codes')
  }

  /** The filter of the reset query: the caller's, this code, unused, unexpired. */
  predicate Redeemable(c: ResetCode, u: UserId, code: string, now: int) {
    c.user_id == u && c.code == code && !c.used && c.expires_at > now
  }

  /** `.eq('user_id').eq('code').eq('used', false).gt('expires_at', now)
      .order('created_at', { ascending: false }).limit(1)`: the index of a most
      recently created redeemable record, if there is one. */
  function NewestRedeemable(codes: seq<ResetCode>, u: UserId, code: string, now: int): (r: Option<nat>)
    ensures r.Some? ==> r.value < |codes| && Redeemable(codes[r.value], u, code, now)
    ensures r.Some? ==> forall j :: 0 <= j < |codes| && Redeemable(codes[j], u, code, now) ==>
      codes[j].created_at <= codes[r.value].created_at
    ensures r.None? <==> forall j :: 0 <= j < |codes| ==> !Redeemable(codes[j], u, code, now)
    decreases |codes|
  {
    if codes == [] then None
    else
      var tail := codes[1..];
      assert forall j :: 0 < j < |codes| ==> codes[j] == tail[j - 1];
      var rest := NewestRedeemable(tail, u, code, now);
      var shifted: Option<nat> := if rest.Some? then Some(rest.value + 1) else None;
      if !Redeemable(codes[0], u, code, now) then shifted
      else if rest.Some? && tail[rest.value].created_at >= codes[0].created_at then shifted
      else Some(0)
  }

  /** The two tables a redemption writes. */
  datatype ResetTables = ResetTables(roles: map<UserId, UserRoleRow>, codes: seq<ResetCode>)

  /** `handleVerifyReset`: the new tables, or the error shown. The marking of
      the redeemed record has its own reply, and a failure of it is ignored. */
  function VerifyResetOutcome(digest: Digest, roles: map<UserId, UserRoleRow>, codes: seq<ResetCode>,
                       user: Option<UserId>, read: Reply, write: Reply, mark: Reply,
                       resetCode: string, newPin: string, confirmNewPin: string, now: int): (r: Result<ResetTables>)
    ensures NewPinError(newPin, confirmNewPin).Some? ==> r == Failure(NewPinError(newPin, confirmNewPin).value)
    // no redeemable record: refused, and the tables stay as they are
    ensures NewPinError(newPin, confirmNewPin).None? && user.Some? && read.Ok? &&
            NewestRedeemable(codes, user.value, resetCode, now).None? ==>
      r == Failure(MsgInvalidCode)
    ensures r.Success? <==>
      NewPinError(newPin, confirmNewPin).None? && user.Some? && read.Ok? && write.Ok? &&
      NewestRedeemable(codes, user.value, resetCode, now).Some?
    // success: the new hash is stored, and the chosen record is marked used unless marking failed
    ensures r.Success? ==>
      var i := NewestRedeemable(codes, user.value, resetCode, now).value;
      && r.value.roles == WithPinHash(roles, user.value, HashPin(digest, newPin))
      && r.value.codes == (if mark.Ok? then MarkUsed(codes, codes[i].id) else codes)
  {
    match NewPinError(newPin, confirmNewPin)
    case Some(m) => Failure(m)
    case None =>
      if user.None? then Failure(MsgNotAuthenticated)
      else if read.Fails? then Failure(MessageOr(read.message, MsgResetFailed))
      else
        match NewestRedeemable(codes, user.value, resetCode, now)
        case None => Failure(MsgInvalidCode)
        case Some(i) =>
          if write.Fails? then Failure(MessageOr(write.message, MsgResetFailed))
          else
            Success(ResetTables(WithPinHash(roles, user.value, HashPin(digest, newPin)),
                                if mark.Ok? then MarkUsed(codes, codes[i].id) else codes))
  }

  /** A marked record is never redeemable again, at any time. */
  lemma MarkedCodeIsSpent(codes: seq<ResetCode>, id: string, u: UserId, code: string, later: int)
    ensures forall j :: 0 <= j < |codes| && codes[j].id == id ==>
      !Redeemable(MarkUsed(codes, id)[j], u, code, later)
  {
  }

  /** The reset loop end to end: a code just requested redeems once within its
      15 minutes, and once redeemed it is refused for good; one redeemed too
      late is refused as well. Earlier unused records of the same user must
      not carry the same code. */
  lemma RequestRedeemReplay(digest: Digest, roles: map<UserId, UserRoleRow>, codes: seq<ResetCode>,
                            u: UserId, newId: string, draw: nat, now: int, t1: int, t2: int,
                            newPin: string, pin2: string, confirm2: string)
    requires draw < 900000
    requires IsFourDigits(newPin) && IsFourDigits(pin2) && pin2 == confirm2
    requires forall j :: 0 <= j < |codes| ==>
      (codes[j].user_id == u && codes[j].code == NewResetCode(newId, u, draw, now).code ==> codes[j].used)
    requires now <= t1 < now + ResetCodeLifetime && t1 <= t2
    ensures var code := NewResetCode(newId, u, draw, now).code;
      var requested := RequestResetOutcome(codes, Some(u), Ok, newId, draw, now).value;
      var first := VerifyResetOutcome(digest, roles, requested, Some(u), Ok, Ok, Ok, code, newPin, newPin, t1);
      && first.Success?
      && first.value.roles == WithPinHash(roles, u, HashPin(digest, newPin))
      && VerifyResetOutcome(digest, first.value.roles, first.value.codes, Some(u), Ok, Ok, Ok,
                     code, pin2, confirm2, t2) == Failure(MsgInvalidCode)
      && VerifyResetOutcome(digest, roles, requested, Some(u), Ok, Ok, Ok,
                     code, newPin, newPin, now + ResetCodeLifetime) == Failure(MsgInvalidCode)
  {
    var rec := NewResetCode(newId, u, draw, now);
    var requested := codes + [rec];
    assert RequestResetOutcome(codes, Some(u), Ok, newId, draw, now).value == requested;
    assert Redeemable(requested[|codes|], u, rec.code, t1);
    assert forall j :: 0 <= j < |codes| ==> requested[j] == codes[j];
    var i := NewestRedeemable(requested, u, rec.code, t1);
    assert i.Some? && i.value == |codes|;
    var marked := MarkUsed(requested, newId);
    assert forall j :: 0 <= j < |marked| ==> !Redeemable(marked[j], u, rec.code, t2) by {
      forall j | 0 <= j < |marked| ensures !Redeemable(marked[j], u, rec.code, t2) {
        if j < |codes| { assert requested[j] == codes[j]; }
      }
    }
    assert forall j :: 0 <= j < |requested| ==> !Redeemable(requested[j], u, rec.code, now + ResetCodeLifetime) by {
      forall j | 0 <= j < |requested| ensures !Redeemable(requested[j], u, rec.code, now + ResetCodeLifetime) {
        if j < |codes| { assert requested[j] == codes[j]; }
      }
    }
  }

  /** An input value of at most `n` ASCII digits. */
  predicate DigitsAtMost(s: string, n: nat) {
    AllDigits(s) && |s| <= n
  }

  class SettingsPage {
    const digest: Digest
    const db: Database
    var currentPin: string
    var newPin: string
    var confirmNewPin: string
    var email: string
    var resetCode: string
    var loading: bool
    var error: string
    var success: string
    var showResetForm: bool
    var resetSent: bool
    var showDirectSet: bool
    var directPin: string
    var directConfirm: string

    /** What the inputs' `onChange` filters let through: the PIN fields hold
        at most four digits, the reset code at most six. */
    predicate Valid()
      reads this
    {
      && DigitsAtMost(currentPin, 4) && DigitsAtMost(newPin, 4) && DigitsAtMost(confirmNewPin, 4)
      && DigitsAtMost(directPin, 4) && DigitsAtMost(directConfirm, 4) && DigitsAtMost(resetCode, 6)
    }

    constructor (digest: Digest, db: Database)
      ensures Valid()
      ensures this.digest == digest && this.db == db
      ensures currentPin == "" && newPin == "" && confirmNewPin == "" && email == "" && resetCode == ""
      ensures !loading && error == "" && success == ""
      ensures !showResetForm && !resetSent && !showDirectSet && directPin == "" && directConfirm == ""
    {
      this.digest := digest;
      this.db := db;
      currentPin, newPin, confirmNewPin, email, resetCode := "", "", "", "", "";
      loading, error, success := false, "", "";
      showResetForm, resetSent, showDirectSet, directPin, directConfirm := false, false, false, "", "";
    }

    /** `handleChangePin` */
    method ChangePin(user: Option<UserId>, read: Reply, write: Reply)
      modifies this`loading, this`error, this`success, this`currentPin, this`newPin, this`confirmNewPin, db`roles
      ensures var r := ChangePinOutcome(digest, old(db.roles), user, read, write,
                                          old(currentPin), old(newPin), old(confirmNewPin));
        && db.roles == (if r.Success? then r.value else old(db.roles))
        && (error, success) == (if r.Success? then ("", MsgChanged) else (r.message, ""))
        // a successful change clears the three inputs; a failed one keeps them
        && (currentPin, newPin, confirmNewPin) ==
           (if r.Success? then ("", "", "") else (old(currentPin), old(newPin), old(confirmNewPin)))
      ensures NewPinError(old(newPin), old(confirmNewPin)).Some? ==> loading == old(loading)
      ensures NewPinError(old(newPin), old(confirmNewPin)).None? ==> !loading
      ensures old(Valid()) ==> Valid()
    {
      error := "";
      success := "";
      if |newPin| != 4 || !AllDigits(newPin) {
        error := MsgFormat;
        return;
      }
      if newPin != confirmNewPin {
        error := MsgMismatch;
        return;
      }
      loading := true;
      if user.None? {
        error := MsgNotAuthenticated;
        loading := false;
        return;
      }
      var fetched := SingleRole(db.roles, user.value, read);
      if fetched.Failure? {
        error := MessageOr(fetched.message, MsgChangeFailed);
        loading := false;
        return;
      }
      var currentPinHash := HashPin(digest, currentPin);
      if Some(currentPinHash) != fetched.value.pin_hash {
        error := MsgWrongCurrent;
        loading := false;
        return;
      }
      var newPinHash := HashPin(digest, newPin);
      db.UpdatePinHash(user.value, newPinHash, write);
      if write.Fails? {
        error := MessageOr(write.message, MsgChangeFailed);
        loading := false;
        return;
      }
      success := MsgChanged;
      currentPin, newPin, confirmNewPin := "", "", "";
      loading := false;
    }

    /** `handleRequestReset`: `shownCode` is the code the demo alert shows in
        place of the e-mail that would deliver it. */
    method RequestReset(user: Option<UserId>, write: Reply, newId: string, draw: nat, now: int)
      returns (shownCode: Option<string>)
      requires draw < 900000
      modifies this`loading, this`error, this`success, this`resetSent, db`resetCodes
      ensures var r := RequestResetOutcome(old(db.resetCodes), user, write, newId, draw, now);
        && db.resetCodes == (if r.Success? then r.value else old(db.resetCodes))
        && error == (if r.Success? then "" else r.message)
        && success == (if r.Success? then MsgSent else "")
        && resetSent == (r.Success? || old(resetSent))
        && shownCode == (if r.Success? then Some(NewResetCode(newId, user.value, draw, now).code) else None)
      ensures !loading
    {
      error := "";
      success := "";
      loading := true;
      shownCode := None;
      if user.None? {
        error := MsgNotAuthenticated;
        loading := false;
        return;
      }
      var record := NewResetCode(newId, user.value, draw, now);
      db.InsertResetCode(record, write);
      if write.Fails? {
        error := MessageOr(write.message, MsgSendFailed);
        loading := false;
        return;
      }
      shownCode := Some(record.code);
      resetSent := true;
      success := MsgSent;
      loading := false;
    }

    /** The backend steps of `handleVerifyReset` once the new PIN passed
        validation and a user is signed in: the record query, the hash update
        and the marking of the chosen record. */
    method Redeem(u: UserId, read: Reply, write: Reply, mark: Reply, now: int) returns (r: Result<ResetTables>)
      requires NewPinError(newPin, confirmNewPin).None?
      modifies db`roles, db`resetCodes
      ensures r == VerifyResetOutcome(digest, old(db.roles), old(db.resetCodes), Some(u), read, write, mark,
                                      resetCode, newPin, confirmNewPin, now)
      ensures db.roles == (if r.Success? then r.value.roles else old(db.roles))
      ensures db.resetCodes == (if r.Success? then r.value.codes else old(db.resetCodes))
    {
      if read.Fails? {
        return Failure(MessageOr(read.message, MsgResetFailed));
      }
      var found := NewestRedeemable(db.resetCodes, u, resetCode, now);
      if found.None? {
        return Failure(MsgInvalidCode);
      }
      var chosen := db.resetCodes[found.value];
      db.UpdatePinHash(u, HashPin(digest, newPin), write);
      if write.Fails? {
        return Failure(MessageOr(write.message, MsgResetFailed));
      }
      db.MarkResetCodeUsed(chosen.id, mark);
      r := Success(ResetTables(db.roles, db.resetCodes));
    }

    /** The checks and backend calls of `handleVerifyReset`, with its outcome. */
    method ResetAttempt(user: Option<UserId>, read: Reply, write: Reply, mark: Reply, now: int)
      returns (r: Result<ResetTables>)
      modifies this`loading, db`roles, db`resetCodes
      ensures r == VerifyResetOutcome(digest, old(db.roles), old(db.resetCodes), user, read, write, mark,
                                      resetCode, newPin, confirmNewPin, now)
      ensures db.roles == (if r.Success? then r.value.roles else old(db.roles))
      ensures db.resetCodes == (if r.Success? then r.value.codes else old(db.resetCodes))
      ensures NewPinError(newPin, confirmNewPin).Some? ==> loading == old(loading)
      ensures NewPinError(newPin, confirmNewPin).None? ==> !loading
    {
      if |newPin| != 4 || !AllDigits(newPin) {
        r := Failure(MsgFormat);
      } else if newPin != confirmNewPin {
        r := Failure(MsgMismatch);
      } else {
        loading := true;
        if user.None? {
          r := Failure(MsgNotAuthenticated);
        } else {
          r := Redeem(user.value, read, write, mark, now);
        }
        loading := false;
      }
    }

    /** What `handleVerifyReset` shows for its outcome: the message, and on
        success the closed and cleared reset form. */
    method ShowReset(r: Result<ResetTables>)
      modifies this`error, this`success, this`showResetForm, this`resetSent,
               this`resetCode, this`newPin, this`confirmNewPin, this`email
      ensures (error, success) == (if r.Success? then ("", MsgReset) else (r.message, ""))
      ensures (showResetForm, resetSent, resetCode, newPin, confirmNewPin, email) ==
              (if r.Success? then (false, false, "", "", "", "")
               else (old(showResetForm), old(resetSent), old(resetCode), old(newPin), old(confirmNewPin), old(email)))
      ensures old(Valid()) ==> Valid()
    {
      if r.Failure? {
        error, success := r.message, "";
      } else {
        error, success := "", MsgReset;
        showResetForm, resetSent := false, false;
        resetCode, newPin, confirmNewPin, email := "", "", "", "";
      }
    }

    /** `handleVerifyReset` */
    method VerifyReset(user: Option<UserId>, read: Reply, write: Reply, mark: Reply, now: int)
      modifies this`loading, this`error, this`success, this`showResetForm, this`resetSent,
               this`resetCode, this`newPin, this`confirmNewPin, this`email, db`roles, db`resetCodes
      ensures var r := VerifyResetOutcome(digest, old(db.roles), old(db.resetCodes), user, read, write, mark,
                                            old(resetCode), old(newPin), old(confirmNewPin), now);
        && db.roles == (if r.Success? then r.value.roles else old(db.roles))
        && db.resetCodes == (if r.Success? then r.value.codes else old(db.resetCodes))
        && (error, success) == (if r.Success? then ("", MsgReset) else (r.message, ""))
        // success closes the reset form and clears its inputs; a failure keeps them
        && (showResetForm, resetSent, resetCode, newPin, confirmNewPin, email) ==
           (if r.Success? then (false, false, "", "", "", "")
            else (old(showResetForm), old(resetSent), old(resetCode), old(newPin), old(confirmNewPin), old(email)))
      ensures NewPinError(old(newPin), old(confirmNewPin)).Some? ==> loading == old(loading)
      ensures NewPinError(old(newPin), old(confirmNewPin)).None? ==> !loading
      ensures old(Valid()) ==> Valid()
    {
      var r := ResetAttempt(user, read, write, mark, now);
      assert r == VerifyResetOutcome(digest, old(db.roles), old(db.resetCodes), user, read, write, mark,
                                     old(resetCode), old(newPin), old(confirmNewPin), now);
      ShowReset(r);
    }

    /** `handleDirectSetPin`: the same checks and write as the setup modal. */
    method DirectSetPin(user: Option<UserId>, write: Reply)
      modifies this`loading, this`error, this`success, this`showDirectSet, this`directPin,
               this`directConfirm, db`roles
      ensures var r := SetPin(digest, old(db.roles), user, write, old(directPin), old(directConfirm));
        && db.roles == (if r.Success? then r.value else old(db.roles))
        && error == (if r.Success? then "" else r.message)
        && success == (if r.Success? then MsgDirectSet else "")
        && (r.Success? ==> !showDirectSet && directPin == "" && directConfirm == "")
        && (r.Failure? ==> showDirectSet == old(showDirectSet) && directPin == old(directPin) &&
                           directConfirm == old(directConfirm))
      ensures NewPinError(old(directPin), old(directConfirm)).Some? ==> loading == old(loading)
      ensures NewPinError(old(directPin), old(directConfirm)).None? ==> !loading
      ensures old(Valid()) ==> Valid()
    {
      error := "";
      success := "";
      if |directPin| != 4 || !AllDigits(directPin) {
        error := MsgFormat;
        return;
      }
      if directPin != directConfirm {
        error := MsgMismatch;
        return;
      }
      loading := true;
      if user.None? {
        error := MsgNotAuthenticated;
        loading := false;
        return;
      }
      var pinHash := HashPin(digest, directPin);
      db.UpdatePinHash(user.value, pinHash, write);
      if write.Fails? {
        error := MessageOr(write.message, MsgSetFailed);
        loading := false;
        return;
      }
      success := MsgDirectSet;
      showDirectSet := false;
      directPin, directConfirm := "", "";
      loading := false;
    }

    /** The current PIN input's `onChange` with `maxLength={4}`. */
    method EnterCurrentPin(raw: string)
      modifies this`currentPin
      ensures currentPin == DigitInput(raw, 4)
      ensures old(Valid()) ==> Valid()
    {
      currentPin := DigitInput(raw, 4);
    }

    /** The new PIN input (shared by the change and reset forms)'s `onChange` with `maxLength={4}`. */
    method EnterNewPin(raw: string)
      modifies this`newPin
      ensures newPin == DigitInput(raw, 4)
      ensures old(Valid()) ==> Valid()
    {
      newPin := DigitInput(raw, 4);
    }

    /** The confirmation input (shared by the change and reset forms)'s `onChange` with `maxLength={4}`. */
    method EnterConfirmNewPin(raw: string)
      modifies this`confirmNewPin
      ensures confirmNewPin == DigitInput(raw, 4)
      ensures old(Valid()) ==> Valid()
    {
      confirmNewPin := DigitInput(raw, 4);
    }

    /** The PIN input of the direct-set form's `onChange` with `maxLength={4}`. */
    method EnterDirectPin(raw: string)
      modifies this`directPin
      ensures directPin == DigitInput(raw, 4)
      ensures old(Valid()) ==> Valid()
    {
      directPin := DigitInput(raw, 4);
    }

    /** The confirmation input of the direct-set form's `onChange` with `maxLength={4}`. */
    method EnterDirectConfirm(raw: string)
      modifies this`directConfirm
      ensures directConfirm == DigitInput(raw, 4)
      ensures old(Valid()) ==> Valid()
    {
      directConfirm := DigitInput(raw, 4);
    }

    /** The reset-code input's `onChange` with `maxLength={6}`. */
    method EnterResetCode(raw: string)
      modifies this`resetCode
      ensures resetCode == DigitInput(raw, 6)
      ensures old(Valid()) ==> Valid()
    {
      resetCode := DigitInput(raw, 6);
    }
  }
}
