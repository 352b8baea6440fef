/** The manual time-entry form (client/src/components/ManualEntry.tsx). Its
    gate has no pending-action slot: a verified PIN can only ever open the
    form. */
module Manual {
  import opened Common
  import opened Store

  const MsgMissingFields := "Please fill in all required fields"
  const MsgAddFailed := "Failed to add manual entry"

  datatype EntryForm = EntryForm(profile_id: string, clock_in: string, clock_out: string, notes: string)

  const BlankForm := EntryForm("", "", "", "")

  /** The three fields the submit handler insists on. */
  predicate Complete(form: EntryForm) {
    form.profile_id != "" && form.clock_in != "" && form.clock_out != ""
  }

  /** The row `handleSubmit` inserts; id and creation times come from the
      backend. An Invalid Date in either time throws while the payload is
      built, so there is no row. */
  function NewEntry(form: EntryForm, u: UserId, parse: DateParser, newId: string, now: Timestamp): (e: Option<TimeEntry>)
    ensures e.None? <==> ParseDate(parse, form.clock_in).None? || ParseDate(parse, form.clock_out).None?
    ensures e.Some? ==>
      && e.value.id == newId && e.value.user_id == u && e.value.profile_id == form.profile_id
      && Some(e.value.clock_in) == ParseDate(parse, form.clock_in)
      && e.value.clock_out == ParseDate(parse, form.clock_out)
      // empty notes are stored as null
      && (e.value.notes.None? <==> form.notes == "")
      && (e.value.notes.Some? ==> e.value.notes.value == form.notes)
  {
    match (ParseDate(parse, form.clock_in), ParseDate(parse, form.clock_out))
    case (Some(clockIn), Some(clockOut)) =>
      Some(TimeEntry(newId, u, form.profile_id, clockIn, Some(clockOut), OrNull(form.notes), now, now))
    case _ => None
  }

  class ManualEntry {
    const db: Database
    const parse: DateParser
    var isOpen: bool
    var showPinVerify: bool
    var formData: EntryForm
    var loading: bool

    constructor (db: Database, parse: DateParser)
      ensures this.db == db && this.parse == parse
      ensures !isOpen && !showPinVerify && formData == BlankForm && !loading
    {
      this.db := db;
      this.parse := parse;
      isOpen, showPinVerify, formData, loading := false, false, BlankForm, false;
    }

    /** `handleOpenClick`; its button is rendered only while the form is closed. */
    method OpenClick(pinRequired: bool)
      requires !isOpen
      modifies this`showPinVerify, this`isOpen
      ensures pinRequired ==> showPinVerify && !isOpen
      ensures !pinRequired ==> isOpen && showPinVerify == old(showPinVerify)
    {
      if pinRequired {
        showPinVerify := true;
      } else {
        isOpen := true;
      }
    }

    /** `handlePinSuccess`: the modal closes and the form opens. */
    method PinSuccess()
      modifies this`showPinVerify, this`isOpen
      ensures !showPinVerify && isOpen
    {
      showPinVerify := false;
      isOpen := true;
    }

    /** The modal's `onCancel`: the form stays closed. */
    method PinCancel()
      modifies this`showPinVerify
      ensures !showPinVerify && isOpen == old(isOpen)
    {
      showPinVerify := false;
    }

    /** `handleSubmit`. The `if (!user) return` and the building of the row
        sit inside the `try`, so `loading` is reset by the `finally` on those
        paths too, and a date that throws is reported by the `catch`. */
    method Submit(user: Option<UserId>, reply: Reply, newId: string, now: Timestamp)
      returns (alert: Option<string>, refreshed: bool)
      modifies this`loading, this`formData, this`isOpen, db`timeEntries
      // an incomplete form alerts before anything else happens
      ensures !Complete(old(formData)) ==>
        alert == Some(MsgMissingFields) && !refreshed && loading == old(loading) &&
        db.timeEntries == old(db.timeEntries) && formData == old(formData) && isOpen == old(isOpen)
      ensures Complete(old(formData)) ==>
        var row := if user.Some? then NewEntry(old(formData), user.value, parse, newId, now) else None;
        var inserted := row.Some? && reply.Ok?;
        && !loading
        && db.timeEntries == (if inserted then old(db.timeEntries) + [row.value] else old(db.timeEntries))
        && (refreshed <==> inserted)
        // a failed insert and an unreadable date give the same alert
        && alert == (if user.Some? && !inserted then Some(MsgAddFailed) else None)
        // a successful insert resets and closes the form; otherwise it stays as it was
        && (inserted ==> formData == BlankForm && !isOpen)
        && (!inserted ==> formData == old(formData) && isOpen == old(isOpen))
    {
      alert, refreshed := None, false;
      if formData.profile_id == "" || formData.clock_in == "" || formData.clock_out == "" {
        alert := Some(MsgMissingFields);
        return;
      }
      loading := true;
      if user.None? {
        loading := false;
        return;
      }
      var row := NewEntry(formData, user.value, parse, newId, now);
      if row.None? {
        alert := Some(MsgAddFailed);
        loading := false;
        return;
      }
      db.InsertTimeEntry(row.value, reply);
      if reply.Fails? {
        alert := Some(MsgAddFailed);
        loading := false;
        return;
      }
      formData := BlankForm;
      isOpen := false;
      refreshed := true;
      loading := false;
    }

    /** The form's Cancel button: the form resets and closes. */
    method CancelForm()
      modifies this`isOpen, this`formData
      ensures !isOpen && formData == BlankForm
    {
      isOpen := false;
      formData := BlankForm;
    }
  }
}
