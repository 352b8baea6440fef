/** The list of recent time entries (client/src/components/TimeEntryList.tsx):
    the per-entry texts (profile name, duration, earnings) and the edit and
    delete actions, both of which always wait for the PIN modal. */
module TimeEntries {
  import opened Common
  import opened Store

  const MsgUpdateFailed := "Failed to update entry"
  const MsgDeleteFailed := "Failed to delete entry"

  /** `getProfileName`: `profile?.name || 'Unknown'`. */
  function ProfileName(profiles: seq<Profile>, profileId: string): (r: string)
    ensures r != ""
    ensures FindProfile(profiles, profileId).None? ==> r == "Unknown"
    ensures FindProfile(profiles, profileId).Some? ==>
      r == (if FindProfile(profiles, profileId).value.name == "" then "Unknown"
            else FindProfile(profiles, profileId).value.name)
  {
    match FindProfile(profiles, profileId)
    case Some(p) => if p.name != "" then p.name else "Unknown"
    case None => "Unknown"
  }

  /** `getProfileRate`: `profile?.hourly_rate || 0`, in cents. */
  function ProfileRate(profiles: seq<Profile>, profileId: string): (r: int)
    ensures FindProfile(profiles, profileId).None? ==> r == 0
    ensures FindProfile(profiles, profileId).Some? ==> r == FindProfile(profiles, profileId).value.hourly_rate
  {
    match FindProfile(profiles, profileId)
    case Some(p) => p.hourly_rate
    case None => 0
  }

  /** The hours and minutes `calculateDuration` shows for a difference of
      `diff` milliseconds: `Math.floor(diff / hour)` and
      `Math.floor((diff % hour) / minute)` with JavaScript's `%`. */
  function DurationParts(diff: int): (p: (int, int))
    // a forward difference splits into whole hours and the minutes left over
    ensures diff >= 0 ==> p.0 >= 0 && 0 <= p.1 < 60 && p.0 * 60 + p.1 == diff / MinuteMs
    // a backward one gives a negative hour count and minutes in [-60, 0]
    ensures diff < 0 ==> p.0 < 0 && -60 <= p.1 <= 0
  {
    var hours := diff / HourMs;
    var minutes := JsRem(diff, HourMs) / MinuteMs;
    (hours, minutes)
  }

  /** `calculateDuration(clockIn, clockOut)` */
  function CalculateDuration(clockIn: Timestamp, clockOut: Option<Timestamp>): (r: string)
    ensures r == "In progress" <==> clockOut.None?
    ensures clockOut.Some? && clockOut.value.millis >= clockIn.millis ==>
      var p := DurationParts(clockOut.value.millis - clockIn.millis);
      r == NatToString(p.0) + "h " + NatToString(p.1) + "m"
  {
    match clockOut
    case None => "In progress"
    case Some(out) =>
      var p := DurationParts(out.millis - clockIn.millis);
      var r := IntToString(p.0) + "h " + IntToString(p.1) + "m";
      assert r[|r| - 1] == 'm';
      r
  }

  /** `calculateEarnings(entry)`: hours times the profile's rate, in dollars
      with two decimals, computed on the exact value. */
  function CalculateEarnings(profiles: seq<Profile>, entry: TimeEntry): (r: string)
    ensures entry.clock_out.None? ==> r == "$0.00"
    ensures FindProfile(profiles, entry.profile_id).None? && entry.clock_out.Some? ==>
      r == "$" + Fixed2(0, EarningsScale)
    ensures entry.clock_out.Some? ==>
      r == "$" + Fixed2((entry.clock_out.value.millis - entry.clock_in.millis) * ProfileRate(profiles, entry.profile_id),
                        EarningsScale)
  {
    match entry.clock_out
    case None => "$0.00"
    case Some(out) => "$" + Fixed2((out.millis - entry.clock_in.millis) * ProfileRate(profiles, entry.profile_id), EarningsScale)
  }

  /** `isAdmin && entry.clock_out`: the Edit and Delete buttons. */
  predicate ShowsEntryActions(isAdmin: bool, entry: TimeEntry) {
    isAdmin && entry.clock_out.Some?
  }

  /** The three inputs of the edit form. */
  datatype EditForm = EditForm(clock_in: string, clock_out: string, notes: string)

  const EmptyForm := EditForm("", "", "")

  /** The form `handleEdit` pre-fills: the first 16 characters of each
      timestamp (the `datetime-local` format), '' for a missing clock-out or notes. */
  function Prefill(entry: TimeEntry): (f: EditForm)
    ensures f.clock_in == Take(entry.clock_in.iso, 16) && |f.clock_in| <= 16
    ensures f.clock_out == "" <==> entry.clock_out.None? || Take(entry.clock_out.value.iso, 16) == ""
    ensures entry.clock_out.Some? ==> f.clock_out == Take(entry.clock_out.value.iso, 16)
    ensures f.notes == entry.notes.GetOr("")
  {
    EditForm(Take(entry.clock_in.iso, 16),
             if entry.clock_out.Some? then Take(entry.clock_out.value.iso, 16) else "",
             entry.notes.GetOr(""))
  }

  /** The payload `handleSaveEdit` builds. Each `new Date(...).toISOString()`
      is evaluated before the update is sent, so an Invalid Date (an emptied
      clock-in, say) throws and there is no payload at all. An empty
      clock-out or empty notes are stored as null. */
  function EditPatch(form: EditForm, parse: DateParser, now: Timestamp): (patch: Option<EntryPatch>)
    ensures patch.None? <==>
      ParseDate(parse, form.clock_in).None? || (form.clock_out != "" && ParseDate(parse, form.clock_out).None?)
    // a cleared clock-in never reaches the backend
    ensures form.clock_in == "" ==> patch.None?
    ensures patch.Some? ==>
      && patch.value.clock_in == ParseDate(parse, form.clock_in)
      && patch.value.clock_out == Some(if form.clock_out == "" then None else ParseDate(parse, form.clock_out))
      && patch.value.notes == Some(OrNull(form.notes))
      && patch.value.updated_at == Some(now)
  {
    match ParseDate(parse, form.clock_in)
    case None => None
    case Some(clockIn) =>
      if form.clock_out == "" then
        Some(EntryPatch(Some(clockIn), Some(None), Some(OrNull(form.notes)), Some(now)))
      else
        match ParseDate(parse, form.clock_out)
        case None => None
        case Some(clockOut) =>
          Some(EntryPatch(Some(clockIn), Some(Some(clockOut)), Some(OrNull(form.notes)), Some(now)))
  }

  /** Saving an untouched form of a running entry sends a payload exactly when
      its clock-in reads back, and that payload keeps the clock-out missing,
      keeps non-empty notes and turns empty notes into missing ones. */
  lemma SaveUntouchedKeepsNulls(entry: TimeEntry, parse: DateParser, now: Timestamp)
    requires entry.clock_out.None?
    ensures var patch := EditPatch(Prefill(entry), parse, now);
      && (patch.Some? <==> ParseDate(parse, Take(entry.clock_in.iso, 16)).Some?)
      && (patch.Some? ==>
            var e := Patched(entry, patch.value);
            && e.clock_out.None?
            && (entry.notes.None? || entry.notes == Some("") ==> e.notes.None?)
            && (entry.notes.Some? && entry.notes.value != "" ==> e.notes == entry.notes))
  {
  }

  /** The action waiting for the PIN. */
  datatype EntryAction = EditEntry(entryId: string) | DeleteEntry(entryId: string)

  class TimeEntryList {
    const db: Database
    const parse: DateParser
    var editingId: Option<string>
    var showPinVerify: bool
    var pendingAction: Option<EntryAction>
    var editForm: EditForm

    /** The slot holds an action exactly while the PIN modal is open. */
    predicate Valid()
      reads this
    {
      showPinVerify <==> pendingAction.Some?
    }

    constructor (db: Database, parse: DateParser)
      ensures Valid()
      ensures this.db == db && this.parse == parse
      ensures editingId.None? && !showPinVerify && pendingAction.None? && editForm == EmptyForm
    {
      this.db := db;
      this.parse := parse;
      editingId := None;
      showPinVerify := false;
      pendingAction := None;
      editForm := EmptyForm;
    }

    /** `handleEdit`: the form is pre-filled now, but editing starts only
        after the PIN was verified. */
    method Edit(entry: TimeEntry)
      modifies this`pendingAction, this`editForm, this`showPinVerify
      ensures Valid()
      ensures pendingAction == Some(EditEntry(entry.id)) && showPinVerify
      ensures editForm == Prefill(entry)
    {
      pendingAction := Some(EditEntry(entry.id));
      editForm := Prefill(entry);
      showPinVerify := true;
    }

    /** `handleDelete` */
    method Delete(entryId: string)
      modifies this`pendingAction, this`showPinVerify
      ensures Valid()
      ensures pendingAction == Some(DeleteEntry(entryId)) && showPinVerify
    {
      pendingAction := Some(DeleteEntry(entryId));
      showPinVerify := true;
    }

    /** `confirmDelete`: `confirmed` is the answer to the browser's confirm
        dialog; `refreshed` says whether `onUpdate` ran. */
    method ConfirmDelete(entryId: string, confirmed: bool, reply: Reply) returns (alert: Option<string>, refreshed: bool)
      modifies db`timeEntries
      ensures db.timeEntries == if confirmed && reply.Ok? then WithoutEntry(old(db.timeEntries), entryId)
                                else old(db.timeEntries)
      ensures alert == if confirmed && reply.Fails? then Some(MsgDeleteFailed) else None
      ensures refreshed <==> confirmed && reply.Ok?
    {
      alert, refreshed := None, false;
      if !confirmed {
        return;
      }
      db.DeleteTimeEntry(entryId, reply);
      if reply.Fails? {
        alert := Some(MsgDeleteFailed);
      } else {
        refreshed := true;
      }
    }

    /** `handlePinSuccess`: the modal closes, the stored action runs, the slot empties. */
    method PinSuccess(confirmed: bool, reply: Reply) returns (alert: Option<string>, refreshed: bool)
      requires Valid()
      modifies this`showPinVerify, this`editingId, this`pendingAction, db`timeEntries
      ensures Valid()
      ensures !showPinVerify && pendingAction.None?
      ensures editingId == if old(pendingAction).Some? && old(pendingAction).value.EditEntry?
                           then Some(old(pendingAction).value.entryId) else old(editingId)
      ensures db.timeEntries ==
        if old(pendingAction).Some? && old(pendingAction).value.DeleteEntry? && confirmed && reply.Ok?
        then WithoutEntry(old(db.timeEntries), old(pendingAction).value.entryId)
        else old(db.timeEntries)
      ensures refreshed <==> old(pendingAction).Some? && old(pendingAction).value.DeleteEntry? && confirmed && reply.Ok?
      ensures alert.Some? <==> old(pendingAction).Some? && old(pendingAction).value.DeleteEntry? && confirmed && reply.Fails?
    {
      alert, refreshed := None, false;
      showPinVerify := false;
      if pendingAction.Some? {
        match pendingAction.value {
          case EditEntry(id) =>
            editingId := Some(id);
          case DeleteEntry(id) =>
            alert, refreshed := ConfirmDelete(id, confirmed, reply);
        }
        pendingAction := None;
      }
    }

    /** The modal's `onCancel`: nothing runs and the slot empties. */
    method PinCancel()
      modifies this`showPinVerify, this`pendingAction
      ensures Valid()
      ensures !showPinVerify && pendingAction.None?
    {
      showPinVerify := false;
      pendingAction := None;
    }

    /** `handleSaveEdit(entryId)`. Without a payload the handler throws
        before the update: nothing is written, nothing is shown, and editing
        stays open. */
    method SaveEdit(entryId: string, reply: Reply, now: Timestamp) returns (alert: Option<string>, refreshed: bool)
      modifies this`editingId, db`timeEntries
      ensures EditPatch(editForm, parse, now).None? ==>
        db.timeEntries == old(db.timeEntries) && editingId == old(editingId) && alert.None? && !refreshed
      ensures EditPatch(editForm, parse, now).Some? ==>
        && db.timeEntries == (if reply.Ok? then WithEntryPatch(old(db.timeEntries), entryId, EditPatch(editForm, parse, now).value)
                              else old(db.timeEntries))
        && editingId == (if reply.Ok? then None else old(editingId))
        && alert == (if reply.Fails? then Some(MsgUpdateFailed) else None)
        && (refreshed <==> reply.Ok?)
    {
      alert, refreshed := None, false;
      var patch := EditPatch(editForm, parse, now);
      if patch.None? {
        return;
      }
      db.UpdateTimeEntry(entryId, patch.value, reply);
      if reply.Fails? {
        alert := Some(MsgUpdateFailed);
      } else {
        editingId := None;
        refreshed := true;
      }
    }

    /** The edit form's Cancel button. */
    method CancelEdit()
      modifies this`editingId
      ensures editingId.None?
    {
      editingId := None;
    }
  }
}
