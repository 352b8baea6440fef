/** The profile manager (client/src/components/ProfileManager.tsx): adding,
    editing and deleting pay-rate profiles, each behind the PIN modal when
    the user's `require_pin` flag asks for it. */
module Profiles {
  import opened Common
  import opened Store

  const MsgAddFailed := "Failed to add profile"
  const MsgUpdateFailed := "Failed to update profile"
  const MsgDeleteFailed := "Failed to delete profile"

  /** `hourly_rate.toString()` for a rate held in cents: the shortest decimal
      text of the dollar amount (no trailing zeros, no '.' for whole dollars). */
  function RateText(cents: int): (s: string)
    ensures 1 <= |s|
    ensures cents >= 0 && cents % 100 == 0 ==> s == NatToString(cents / 100)
    ensures (s[0] == '-') == (cents < 0)
  {
    var magnitude := if cents < 0 then -cents else cents;
    var frac := magnitude % 100;
    var fracText := if frac == 0 then ""
                    else if frac % 10 == 0 then "." + [DigitChar(frac / 10)]
                    else "." + [DigitChar(frac / 10), DigitChar(frac % 10)];
    var unsigned := NatToString(magnitude / 100) + fracText;
    if cents < 0 then "-" + unsigned else unsigned
  }

  /** The action waiting for the PIN. The id is optional in the source's
      slot type; an empty one is as falsy there as a missing one. */
  datatype ProfileAction = AddAction | EditAction(profileId: string) | DeleteAction(profileId: string)

  class ProfileManager {
    const db: Database
    /** `parseFloat` of the rate input, as cents. */
    const parseRate: string -> int
    var isAdding: bool
    var newProfileName: string
    var newProfileRate: string
    var loading: bool
    var editingId: Option<string>
    var editName: string
    var editRate: string
    var showPinVerify: bool
    var pendingAction: Option<ProfileAction>

    /** The slot holds an action exactly while the PIN modal is open. */
    predicate Valid()
      reads this
    {
      showPinVerify <==> pendingAction.Some?
    }

    constructor (db: Database, parseRate: string -> int)
      ensures Valid()
      ensures this.db == db && this.parseRate == parseRate
      ensures !isAdding && newProfileName == "" && newProfileRate == "" && !loading
      ensures editingId.None? && editName == "" && editRate == ""
      ensures !showPinVerify && pendingAction.None?
    {
      this.db := db;
      this.parseRate := parseRate;
      isAdding, newProfileName, newProfileRate, loading := false, "", "", false;
      editingId, editName, editRate := None, "", "";
      showPinVerify, pendingAction := false, None;
    }

    /** `handleAddClick` */
    method AddClick(pinRequired: bool)
      requires Valid()
      modifies this`pendingAction, this`showPinVerify, this`isAdding
      ensures Valid()
      // behind the gate: the action is stored, the modal opens, the form stays as it was
      ensures pinRequired ==> pendingAction == Some(AddAction) && showPinVerify && isAdding == old(isAdding)
      // without it: the form opens at once and the gate is not touched
      ensures !pinRequired ==> isAdding && pendingAction == old(pendingAction) && showPinVerify == old(showPinVerify)
    {
      if pinRequired {
        pendingAction := Some(AddAction);
        showPinVerify := true;
      } else {
        isAdding := true;
      }
    }

    /** `handleEditClick`: name and rate are pre-filled either way, but
        `editingId` is set only once the PIN is verified. */
    method EditClick(pinRequired: bool, profile: Profile)
      requires Valid()
      modifies this`pendingAction, this`showPinVerify, this`editingId, this`editName, this`editRate
      ensures Valid()
      ensures editName == profile.name && editRate == RateText(profile.hourly_rate)
      ensures pinRequired ==> pendingAction == Some(EditAction(profile.id)) && showPinVerify &&
                              editingId == old(editingId)
      ensures !pinRequired ==> editingId == Some(profile.id) && pendingAction == old(pendingAction) &&
                               showPinVerify == old(showPinVerify)
    {
      if pinRequired {
        pendingAction := Some(EditAction(profile.id));
        editName := profile.name;
        editRate := RateText(profile.hourly_rate);
        showPinVerify := true;
      } else {
        editingId := Some(profile.id);
        editName := profile.name;
        editRate := RateText(profile.hourly_rate);
      }
    }

    /** `confirmDelete`: `confirmed` is the answer to the browser's confirm
        dialog; `refreshed` says whether `onProfilesUpdate` ran. */
    method ConfirmDelete(profileId: string, confirmed: bool, reply: Reply) returns (alert: Option<string>, refreshed: bool)
      modifies db`profiles
      ensures db.profiles == if confirmed && reply.Ok? then WithoutProfile(old(db.profiles), profileId)
                             else old(db.profiles)
      ensures alert == if confirmed && reply.Fails? then Some(MsgDeleteFailed) else None
      ensures refreshed <==> confirmed && reply.Ok?
    {
      alert, refreshed := None, false;
      if !confirmed {
        return;
      }
      db.DeleteProfile(profileId, reply);
      if reply.Fails? {
        alert := Some(MsgDeleteFailed);
      } else {
        refreshed := true;
      }
    }

    /** `handleDeleteClick` */
    method DeleteClick(pinRequired: bool, profileId: string, confirmed: bool, reply: Reply)
      returns (alert: Option<string>, refreshed: bool)
      requires Valid()
      modifies this`pendingAction, this`showPinVerify, db`profiles
      ensures Valid()
      ensures pinRequired ==> pendingAction == Some(DeleteAction(profileId)) && showPinVerify &&
                              db.profiles == old(db.profiles) && alert.None? && !refreshed
      ensures !pinRequired ==>
        && pendingAction == old(pendingAction) && showPinVerify == old(showPinVerify)
        && db.profiles == (if confirmed && reply.Ok? then WithoutProfile(old(db.profiles), profileId) else old(db.profiles))
        && alert == (if confirmed && reply.Fails? then Some(MsgDeleteFailed) else None)
        && (refreshed <==> confirmed && reply.Ok?)
    {
      alert, refreshed := None, false;
      if pinRequired {
        pendingAction := Some(DeleteAction(profileId));
        showPinVerify := true;
      } else {
        alert, refreshed := ConfirmDelete(profileId, confirmed, reply);
      }
    }

    /** `handlePinSuccess`: the modal closes, the stored action runs by its
        type, and the slot empties. */
    method PinSuccess(confirmed: bool, reply: Reply) returns (alert: Option<string>, refreshed: bool)
      requires Valid()
      modifies this`showPinVerify, this`pendingAction, this`isAdding, this`editingId, db`profiles
      ensures Valid()
      ensures !showPinVerify && pendingAction.None?
      ensures isAdding == (old(pendingAction) == Some(AddAction) || old(isAdding))
      ensures editingId == if old(pendingAction).Some? && old(pendingAction).value.EditAction? &&
                              old(pendingAction).value.profileId != ""
                           then Some(old(pendingAction).value.profileId) else old(editingId)
      ensures var deleting := old(pendingAction).Some? && old(pendingAction).value.DeleteAction? &&
                              old(pendingAction).value.profileId != "";
        && db.profiles == (if deleting && confirmed && reply.Ok?
                           then WithoutProfile(old(db.profiles), old(pendingAction).value.profileId)
                           else old(db.profiles))
        && (refreshed <==> deleting && confirmed && reply.Ok?)
        && (alert.Some? <==> deleting && confirmed && reply.Fails?)
    {
      alert, refreshed := None, false;
      showPinVerify := false;
      if pendingAction.Some? {
        match pendingAction.value {
          case AddAction =>
            isAdding := true;
          case EditAction(id) =>
            if id != "" {
              editingId := Some(id);
            }
          case DeleteAction(id) =>
            if id != "" {
              alert, refreshed := ConfirmDelete(id, confirmed, reply);
            }
        }
        pendingAction := None;
      }
    }

    /** The modal's `onCancel`: nothing runs and the slot empties. */
    method PinCancel()
      modifies this`showPinVerify, this`pendingAction
      ensures Valid()
      ensures !showPinVerify && pendingAction.None?
    {
      showPinVerify := false;
      pendingAction := None;
    }

    /** `handleAddProfile`. With no signed-in user the handler returns after
        setting `loading`, which then stays true. */
    method AddProfile(user: Option<UserId>, reply: Reply, newId: string, now: Timestamp)
      returns (alert: Option<string>, refreshed: bool)
      modifies this`loading, this`newProfileName, this`newProfileRate, this`isAdding, db`profiles
      // an empty name or rate is a no-op
      ensures old(newProfileName) == "" || old(newProfileRate) == "" ==>
        db.profiles == old(db.profiles) && loading == old(loading) && alert.None? && !refreshed &&
        newProfileName == old(newProfileName) && newProfileRate == old(newProfileRate) && isAdding == old(isAdding)
      ensures old(newProfileName) != "" && old(newProfileRate) != "" ==>
        var inserted := user.Some? && reply.Ok?;
        && db.profiles == (if inserted then old(db.profiles) + [Profile(newId, user.value, old(newProfileName),
                                                                       parseRate(old(newProfileRate)), now, now)]
                           else old(db.profiles))
        && loading == user.None?
        && (refreshed <==> inserted)
        && alert == (if user.Some? && reply.Fails? then Some(MsgAddFailed) else None)
        && (inserted ==> newProfileName == "" && newProfileRate == "" && !isAdding)
        && (!inserted ==> newProfileName == old(newProfileName) && newProfileRate == old(newProfileRate) &&
                          isAdding == old(isAdding))
    {
      alert, refreshed := None, false;
      if newProfileName == "" || newProfileRate == "" {
        return;
      }
      loading := true;
      if user.None? {
        return;
      }
      db.InsertProfile(Profile(newId, user.value, newProfileName, parseRate(newProfileRate), now, now), reply);
      if reply.Fails? {
        alert := Some(MsgAddFailed);
      } else {
        newProfileName, newProfileRate := "", "";
        isAdding := false;
        refreshed := true;
      }
      loading := false;
    }

    /** `handleEditProfile(profileId)` */
    method EditProfile(profileId: string, reply: Reply) returns (alert: Option<string>, refreshed: bool)
      modifies this`loading, this`editingId, db`profiles
      // an empty name or rate is a no-op
      ensures editName == "" || editRate == "" ==>
        db.profiles == old(db.profiles) && loading == old(loading) && editingId == old(editingId) &&
        alert.None? && !refreshed
      ensures editName != "" && editRate != "" ==>
        && db.profiles == (if reply.Ok? then WithProfileFields(old(db.profiles), profileId, editName, parseRate(editRate))
                           else old(db.profiles))
        && !loading
        && editingId == (if reply.Ok? then None else old(editingId))
        && (refreshed <==> reply.Ok?)
        && alert == (if reply.Fails? then Some(MsgUpdateFailed) else None)
    {
      alert, refreshed := None, false;
      if editName == "" || editRate == "" {
        return;
      }
      loading := true;
      db.UpdateProfile(profileId, editName, parseRate(editRate), reply);
      if reply.Fails? {
        alert := Some(MsgUpdateFailed);
      } else {
        editingId := None;
        refreshed := true;
      }
      loading := false;
    }

    /** `cancelEdit` */
    method CancelEdit()
      modifies this`editingId, this`editName, this`editRate
      ensures editingId.None? && editName == "" && editRate == ""
    {
      editingId, editName, editRate := None, "", "";
    }

    /** The add form's Cancel button. */
    method CancelAdd()
      modifies this`isAdding, this`newProfileName, this`newProfileRate
      ensures !isAdding && newProfileName == "" && newProfileRate == ""
    {
      isAdding, newProfileName, newProfileRate := false, "", "";
    }
  }
}
