/** The clock-in/clock-out panel (client/src/components/ClockInOut.tsx): at
    most one running entry per profile is shown, clocking in inserts one,
    clocking out closes it, and a running clock shows HH:MM:SS. */
module Clock {
  import opened Common
  import opened Store

  const MsgSelectProfile := "Please select a profile first"
  const MsgClockInFailed := "Failed to clock in"
  const MsgClockOutFailed := "Failed to clock out"

  /** A running entry of this user on this profile. */
  predicate IsOpenFor(e: TimeEntry, u: UserId, profileId: string) {
    e.user_id == u && e.profile_id == profileId && e.clock_out.None?
  }

  /** The rows `.eq('user_id', u).eq('profile_id', p).is('clock_out', null)` selects, in table order. */
  function OpenEntries(entries: seq<TimeEntry>, u: UserId, profileId: string): (r: seq<TimeEntry>)
    ensures |r| <= |entries|
    ensures forall e :: e in r <==> e in entries && IsOpenFor(e, u, profileId)
    ensures r == [] <==> forall e :: e in entries ==> !IsOpenFor(e, u, profileId)
  {
    var r := Filter(entries, e => IsOpenFor(e, u, profileId));
    assert r != [] ==> r[0] in r;
    r
  }

  /** `checkActiveEntry`'s query with `.single()`: the running entry when
      there is exactly one, and `null` when there is none, several, or the read fails. */
  function OpenEntry(entries: seq<TimeEntry>, u: UserId, profileId: string, read: Reply): (r: Option<TimeEntry>)
    ensures r.Some? <==> read.Ok? && |OpenEntries(entries, u, profileId)| == 1
    ensures r.Some? ==> r.value in entries && IsOpenFor(r.value, u, profileId)
  {
    var open := OpenEntries(entries, u, profileId);
    if read.Ok? && |open| == 1 then
      assert open[0] in open;
      Some(open[0])
    else None
  }

  /** A clock-in on a profile with no running entry makes the new row the
      one `checkActiveEntry` finds. */
  lemma {:induction false} ClockInIsFound(entries: seq<TimeEntry>, e: TimeEntry)
    requires forall x :: x in entries ==> !IsOpenFor(x, e.user_id, e.profile_id)
    requires e.clock_out.None?
    ensures OpenEntry(entries + [e], e.user_id, e.profile_id, Ok) == Some(e)
  {
    assert OpenEntries(entries, e.user_id, e.profile_id) == [];
    FilterSnoc(entries, e, (x: TimeEntry) => IsOpenFor(x, e.user_id, e.profile_id));
  }

  /** The row `handleClockIn` inserts: running, and with `notes || null`. */
  function NewOpenEntry(u: UserId, profileId: string, notes: string, newId: string, now: Timestamp): (e: TimeEntry)
    ensures IsOpenFor(e, u, profileId) && e.id == newId && e.clock_in == now
    ensures e.notes.None? <==> notes == ""
    ensures e.notes.Some? ==> e.notes.value == notes
  {
    TimeEntry(newId, u, profileId, now, None, OrNull(notes), now, now)
  }

  /** The update `handleClockOut` sends: the clock-out time, and
      `notes || activeEntry.notes`. */
  function ClockOutPatch(active: TimeEntry, notes: string, now: Timestamp): (patch: EntryPatch)
    ensures Patched(active, patch).clock_out == Some(now)
    ensures notes != "" ==> Patched(active, patch).notes == Some(notes)
    ensures notes == "" ==> Patched(active, patch).notes == active.notes
    ensures Patched(active, patch).clock_in == active.clock_in
  {
    EntryPatch(None, Some(Some(now)), Some(if notes != "" then Some(notes) else active.notes), None)
  }

  /** Splitting a forward difference into hours, minutes and seconds. */
  lemma MulAtLeast(b: int, k: int)
    requires b > 0 && k >= 1
    ensures b * k >= b
    decreases k
  {
    if k > 1 {
      MulAtLeast(b, k - 1);
      assert b * k == b * (k - 1) + b;
    }
  }

  /** Euclidean quotient and remainder are the only pair of their kind. */
  lemma DivRemUnique(a: int, b: int, q: int, r: int)
    requires b > 0 && a == b * q + r && 0 <= r < b
    ensures a / b == q && a % b == r
  {
    var q', r' := a / b, a % b;
    assert b * q - b * q' == r' - r;
    if q > q' {
      MulAtLeast(b, q - q');
    } else if q < q' {
      MulAtLeast(b, q' - q);
    }
  }

  /** Hours, minutes and seconds of `getElapsedTime` for `diff` milliseconds,
      with `Math.floor` (Euclidean `/` for a positive divisor) and
      JavaScript's `%`. */
  function ElapsedParts(diff: int): (p: (int, int, int))
    ensures diff >= 0 ==> p.0 >= 0 && 0 <= p.1 < 60 && 0 <= p.2 < 60
  {
    (diff / HourMs, JsRem(diff, HourMs) / MinuteMs, JsRem(diff, MinuteMs) / SecondMs)
  }

  /** For a forward difference the parts add up to the whole seconds elapsed. */
  lemma ElapsedPartsSum(diff: int)
    requires diff >= 0
    ensures var p := ElapsedParts(diff);
      p.0 * 3600 + p.1 * 60 + p.2 == diff / SecondMs
  {
    var h, r1 := diff / 3600000, diff % 3600000;
    var m, r2 := r1 / 60000, r1 % 60000;
    var s, r3 := r2 / 1000, r2 % 1000;
    DivRemUnique(diff, 60000, 60 * h + m, r2);
    DivRemUnique(diff, 1000, 3600 * h + 60 * m + s, r3);
    assert ElapsedParts(diff) == (h, m, s);
  }

  /** `t` is a decimal text denoting `n`. */
  predicate Denotes(t: string, n: int) {
    AllDigits(t) && DecimalValue(t) == n
  }

  /** `String(n).padStart(2, '0')`: `String(n)` has at least one character,
      so only a single character gets a leading '0'. */
  function Pad2(n: int): string {
    var t := IntToString(n);
    if |t| >= 2 then t else "0" + t
  }

  lemma Pad2IsPadStart(n: int)
    ensures Pad2(n) == PadStart(IntToString(n), 2, '0')
  {
    var t := IntToString(n);
    if |t| < 2 {
      var p := PadStart(t, 2, '0');
      assert p[1..] == t && p[0] == '0';
      assert p == [p[0]] + p[1..];
    }
  }

  /** A count below 100 pads to exactly two digits; every count shows at
      least two, and the digits read back as the count. */
  lemma Pad2Digits(n: nat)
    ensures |Pad2(n)| >= 2 && Denotes(Pad2(n), n)
    ensures n < 100 ==> |Pad2(n)| == 2
  {
    DecimalValueOfNatToString(n);
    if n < 10 {
      var d := NatToString(n);
      assert d == [DigitChar(n)];
      assert Pad2(n) == ['0', DigitChar(n)];
      assert ['0', DigitChar(n)][..1] == ['0'];
    } else {
      assert NatToString(n) == NatToString(n / 10) + [DigitChar(n % 10)];
      if n < 100 {
        NatToStringLength(n, 2);
      }
    }
  }

  /** `r` is three colon-separated fields of digits that read back as `h`,
      `m` and `s`, the last two of exactly two digits and the first of at
      least two. */
  predicate ShowsClock(r: string, h: int, m: int, s: int) {
    && |r| >= 8 && r[|r| - 6] == ':' && r[|r| - 3] == ':'
    && Denotes(r[..|r| - 6], h)
    && Denotes(r[|r| - 5..|r| - 3], m)
    && Denotes(r[|r| - 2..], s)
  }

  /** Three fields of digits joined by colons show the counts they denote. */
  lemma ClockFields(ht: string, mt: string, st: string, h: int, m: int, s: int)
    requires |mt| == 2 && |st| == 2 && |ht| >= 2
    requires Denotes(ht, h) && Denotes(mt, m) && Denotes(st, s)
    ensures ShowsClock(ht + ":" + mt + ":" + st, h, m, s)
  {
    var r := ht + ":" + mt + ":" + st;
    assert r == ht + (":" + mt + ":" + st);
    assert r[..|r| - 6] == ht && r[|r| - 5..|r| - 3] == mt && r[|r| - 2..] == st;
  }

  /** `${pad(h)}:${pad(m)}:${pad(s)}` */
  function ClockText(h: int, m: int, s: int): (r: string)
    ensures h >= 0 && 0 <= m < 100 && 0 <= s < 100 ==> ShowsClock(r, h, m, s)
  {
    if h >= 0 && 0 <= m < 100 && 0 <= s < 100 then
      Pad2Digits(h);
      Pad2Digits(m);
      Pad2Digits(s);
      ClockFields(Pad2(h), Pad2(m), Pad2(s), h, m, s);
      Pad2(h) + ":" + Pad2(m) + ":" + Pad2(s)
    else Pad2(h) + ":" + Pad2(m) + ":" + Pad2(s)
  }

  /** `getElapsedTime()` at the instant `now` (milliseconds). */
  function ElapsedTime(activeEntry: Option<TimeEntry>, now: int): (r: string)
    ensures activeEntry.None? ==> r == "00:00:00"
    // a running clock: three colon-separated fields, each of at least two
    // digits, that read back as the hours, minutes and seconds elapsed
    ensures activeEntry.Some? && now >= activeEntry.value.clock_in.millis ==>
      var p := ElapsedParts(now - activeEntry.value.clock_in.millis);
      ShowsClock(r, p.0, p.1, p.2)
  {
    match activeEntry
    case None => "00:00:00"
    case Some(entry) =>
      var p := ElapsedParts(now - entry.clock_in.millis);
      ClockText(p.0, p.1, p.2)
  }

  class ClockInOut {
    const db: Database
    var activeEntry: Option<TimeEntry>
    var notes: string
    var loading: bool

    constructor (db: Database)
      ensures this.db == db && activeEntry.None? && notes == "" && !loading
    {
      this.db := db;
      activeEntry, notes, loading := None, "", false;
    }

    /** `checkActiveEntry`: nothing happens without a profile or a user. */
    method CheckActiveEntry(activeProfile: Option<Profile>, user: Option<UserId>, read: Reply)
      modifies this`activeEntry
      ensures activeEntry == if activeProfile.None? || user.None? then old(activeEntry)
                             else OpenEntry(db.timeEntries, user.value, activeProfile.value.id, read)
    {
      if activeProfile.None? || user.None? {
        return;
      }
      activeEntry := OpenEntry(db.timeEntries, user.value, activeProfile.value.id, read);
    }

    /** `handleClockIn`, followed by the `checkActiveEntry` it triggers (whose
        read is `read`). With no signed-in user the handler returns after
        setting `loading`, which then stays true. */
    method ClockIn(activeProfile: Option<Profile>, user: Option<UserId>, reply: Reply, read: Reply,
                   newId: string, now: Timestamp) returns (alert: Option<string>, refreshed: bool)
      modifies this`loading, this`notes, this`activeEntry, db`timeEntries
      // without an active profile: an alert and nothing else
      ensures activeProfile.None? ==>
        alert == Some(MsgSelectProfile) && !refreshed && db.timeEntries == old(db.timeEntries) &&
        loading == old(loading) && notes == old(notes) && activeEntry == old(activeEntry)
      ensures activeProfile.Some? ==>
        var inserted := user.Some? && reply.Ok?;
        && loading == user.None?
        && db.timeEntries == (if inserted then old(db.timeEntries) + [NewOpenEntry(user.value, activeProfile.value.id,
                                                                                    old(notes), newId, now)]
                              else old(db.timeEntries))
        && (refreshed <==> inserted)
        && alert == (if user.Some? && reply.Fails? then Some(MsgClockInFailed) else None)
        && notes == (if inserted then "" else old(notes))
        && activeEntry == (if inserted then OpenEntry(db.timeEntries, user.value, activeProfile.value.id, read)
                           else old(activeEntry))
    {
      alert, refreshed := None, false;
      if activeProfile.None? {
        alert := Some(MsgSelectProfile);
        return;
      }
      loading := true;
      if user.None? {
        return;
      }
      db.InsertTimeEntry(NewOpenEntry(user.value, activeProfile.value.id, notes, newId, now), reply);
      if reply.Fails? {
        alert := Some(MsgClockInFailed);
      } else {
        notes := "";
        CheckActiveEntry(activeProfile, user, read);
        refreshed := true;
      }
      loading := false;
    }

    /** `handleClockOut` */
    method ClockOut(reply: Reply, now: Timestamp) returns (alert: Option<string>, refreshed: bool)
      modifies this`loading, this`notes, this`activeEntry, db`timeEntries
      // nothing is running: a no-op
      ensures old(activeEntry).None? ==>
        alert.None? && !refreshed && db.timeEntries == old(db.timeEntries) && loading == old(loading) &&
        notes == old(notes) && activeEntry == old(activeEntry)
      ensures old(activeEntry).Some? ==>
        var active := old(activeEntry).value;
        && !loading
        && db.timeEntries == (if reply.Ok? then WithEntryPatch(old(db.timeEntries), active.id,
                                                                ClockOutPatch(active, old(notes), now))
                              else old(db.timeEntries))
        && (refreshed <==> reply.Ok?)
        && alert == (if reply.Fails? then Some(MsgClockOutFailed) else None)
        // success clears the notes and the running entry
        && (reply.Ok? ==> notes == "" && activeEntry.None?)
        && (reply.Fails? ==> notes == old(notes) && activeEntry == old(activeEntry))
    {
      alert, refreshed := None, false;
      if activeEntry.None? {
        return;
      }
      loading := true;
      db.UpdateTimeEntry(activeEntry.value.id, ClockOutPatch(activeEntry.value, notes, now), reply);
      if reply.Fails? {
        alert := Some(MsgClockOutFailed);
      } else {
        notes := "";
        activeEntry := None;
        refreshed := true;
      }
      loading := false;
    }
  }
}
