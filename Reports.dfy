/** The reports page (client/src/pages/Reports.tsx): the profile filter, the
    per-profile aggregation of completed entries and the CSV export. Durations
    stay in integer milliseconds and earnings in milliseconds times cents per
    hour, so every sum below is exact. */
module Reports {
  import opened Common
  import opened Store

  /** The pseudo-id of the "All Profiles" checkbox. */
  const AllProfiles := "all"

  const MsgMissingDates := "Please select both start and end dates"
  const MsgReportFailed := "Failed to generate report"

  /** The selections the page can reach: "all" alone, or a non-empty list of
      distinct profile ids. */
  predicate ValidSelection(s: seq<string>) {
    s == [AllProfiles] || (s != [] && AllProfiles !in s && Distinct(s))
  }

  /** `s.filter(y => y !== x)` */
  function Without(s: seq<string>, x: string): (r: seq<string>)
    ensures forall y :: y in r <==> y in s && y != x
    ensures x !in s ==> r == s
    ensures Distinct(s) ==> Distinct(r)
  {
    FilterDistinct(s, y => y != x);
    Filter(s, y => y != x)
  }

  /** Removing the single occurrence of a value from a list of distinct
      values keeps the others in their order. */
  lemma {:induction false} WithoutRemovesAt(s: seq<string>, k: nat)
    requires Distinct(s) && k < |s|
    ensures Without(s, s[k]) == s[..k] + s[k + 1..]
    decreases |s|
  {
    var n := |s| - 1;
    var init := s[..n];
    assert s == init + [s[n]];
    if k == n {
      assert s[k] !in init;
    } else {
      assert Distinct(init) && init[k] == s[k];
      WithoutRemovesAt(init, k);
      assert s[..k] + s[k + 1..] == (init[..k] + init[k + 1..]) + [s[n]];
    }
  }

  /** `handleProfileToggle(profileId)`: the selection it leaves behind. */
  function Toggle(selected: seq<string>, profileId: string): (r: seq<string>)
    ensures profileId == AllProfiles ==> r == [AllProfiles]
    // never empty, and "all" never sits next to a specific id
    ensures r == [AllProfiles] || (r != [] && AllProfiles !in r)
    ensures Distinct(selected) ==> Distinct(r)
  {
    if profileId == AllProfiles then [AllProfiles]
    else
      var rest := Without(selected, AllProfiles);
      if profileId in rest then
        var remaining := Without(rest, profileId);
        if |remaining| == 0 then [AllProfiles] else remaining
      else
        rest + [profileId]
  }

  lemma ToggleKeepsValid(selected: seq<string>, profileId: string)
    requires ValidSelection(selected)
    ensures ValidSelection(Toggle(selected, profileId))
  {
  }

  /** Ticking an unticked profile: it narrows "all" down to that profile,
      or joins the end of the list. */
  lemma ToggleAppends(selected: seq<string>, profileId: string)
    requires ValidSelection(selected) && profileId != AllProfiles && profileId !in selected
    ensures Toggle(selected, profileId) == if selected == [AllProfiles] then [profileId] else selected + [profileId]
  {
    if selected == [AllProfiles] {
      assert Without(selected, AllProfiles) == Without([], AllProfiles) by {
        assert selected[..0] == [];
      }
    }
  }

  /** Unticking a ticked profile removes it and keeps the others in order;
      unticking the last one selects "all" again. */
  lemma ToggleRemoves(selected: seq<string>, k: nat)
    requires ValidSelection(selected) && selected != [AllProfiles] && k < |selected|
    ensures Toggle(selected, selected[k]) ==
      if |selected| == 1 then [AllProfiles] else selected[..k] + selected[k + 1..]
  {
    WithoutRemovesAt(selected, k);
  }

  /** Ticking and then unticking the same profile restores the selection. */
  lemma ToggleTwice(selected: seq<string>, profileId: string)
    requires ValidSelection(selected) && profileId != AllProfiles && profileId !in selected
    ensures Toggle(Toggle(selected, profileId), profileId) == selected
  {
    ToggleAppends(selected, profileId);
    var once := Toggle(selected, profileId);
    assert once[|once| - 1] == profileId;
    ToggleRemoves(once, |once| - 1);
    if selected != [AllProfiles] {
      assert once[..|once| - 1] == selected;
    }
  }

  // ---------------------------------------------------------------------
  // Aggregation

  /** One line of `entriesByProfile`. `durationMs` stands for `hours` and
      `earnings` is in milliseconds times cents per hour. */
  datatype ProfileTotals = ProfileTotals(profile: Profile, durationMs: int, earnings: int, entryCount: nat)

  /** The three accumulators of the `forEach` loop; `rows` is `profileMap`
      in insertion order. */
  datatype Totals = Totals(totalMs: int, totalEarnings: int, rows: seq<ProfileTotals>)

  /** `ReportData` */
  datatype Report = Report(totalMs: int, totalEarnings: int, entries: seq<TimeEntry>, entriesByProfile: seq<ProfileTotals>)

  /** The filter test, also the test that ticks a profile's checkbox. */
  predicate Selects(selected: seq<string>, profileId: string) {
    AllProfiles in selected || profileId in selected
  }

  /** The length of a completed entry; an open one counts for nothing. */
  function Ms(e: TimeEntry): int {
    if e.clock_out.Some? then e.clock_out.value.millis - e.clock_in.millis else 0
  }

  /** The entries the loop adds up: completed, of a known profile, and selected. */
  predicate Counted(e: TimeEntry, profiles: seq<Profile>, selected: seq<string>) {
    e.clock_out.Some? && FindProfile(profiles, e.profile_id).Some? && Selects(selected, e.profile_id)
  }

  /** `profileMap.has(id)` / `profileMap.get(id)`: the position of the row
      for this profile id, or `|rows|` when there is none. */
  function IndexOf(rows: seq<ProfileTotals>, id: string): (k: nat)
    ensures k <= |rows|
    ensures k < |rows| ==> rows[k].profile.id == id
    ensures forall j :: 0 <= j < k ==> rows[j].profile.id != id
  {
    if rows == [] then 0
    else if rows[0].profile.id == id then 0
    else 1 + IndexOf(rows[1..], id)
  }

  function Bump(row: ProfileTotals, ms: int, earnings: int): ProfileTotals {
    row.(durationMs := row.durationMs + ms, earnings := row.earnings + earnings, entryCount := row.entryCount + 1)
  }

  /** A row is created empty the first time its profile is met, then bumped. */
  function AddToRow(rows: seq<ProfileTotals>, p: Profile, ms: int, earnings: int): seq<ProfileTotals> {
    var k := IndexOf(rows, p.id);
    if k < |rows| then rows[k := Bump(rows[k], ms, earnings)]
    else rows + [Bump(ProfileTotals(p, 0, 0, 0), ms, earnings)]
  }

  /** One turn of the loop. */
  function Step(t: Totals, e: TimeEntry, profiles: seq<Profile>, selected: seq<string>): Totals {
    if !Counted(e, profiles, selected) then t
    else
      var p := FindProfile(profiles, e.profile_id).value;
      var ms := Ms(e);
      Totals(t.totalMs + ms, t.totalEarnings + ms * p.hourly_rate, AddToRow(t.rows, p, ms, ms * p.hourly_rate))
  }

  /** The accumulators after the loop has seen `es`. */
  function Tally(es: seq<TimeEntry>, profiles: seq<Profile>, selected: seq<string>): Totals
    decreases |es|
  {
    if es == [] then Totals(0, 0, [])
    else Step(Tally(es[..|es| - 1], profiles, selected), es[|es| - 1], profiles, selected)
  }

  // Reference definitions the accumulators are measured against.

  /** The entries that are counted, in their order. */
  function CountedEntries(es: seq<TimeEntry>, profiles: seq<Profile>, selected: seq<string>): (r: seq<TimeEntry>)
    ensures forall e :: e in r <==> e in es && Counted(e, profiles, selected)
  {
    Filter(es, (e: TimeEntry) => Counted(e, profiles, selected))
  }

  /** The entries of one profile. */
  function ForProfile(es: seq<TimeEntry>, id: string): (r: seq<TimeEntry>)
    ensures forall e :: e in r <==> e in es && e.profile_id == id
  {
    Filter(es, (e: TimeEntry) => e.profile_id == id)
  }

  function SumMs(es: seq<TimeEntry>): int
    decreases |es|
  {
    if es == [] then 0 else SumMs(es[..|es| - 1]) + Ms(es[|es| - 1])
  }

  /** What one entry earns at its profile's rate. */
  function EarningsOf(e: TimeEntry, profiles: seq<Profile>): int {
    match FindProfile(profiles, e.profile_id)
    case Some(p) => Ms(e) * p.hourly_rate
    case None => 0
  }

  function SumEarnings(es: seq<TimeEntry>, profiles: seq<Profile>): int
    decreases |es|
  {
    if es == [] then 0 else SumEarnings(es[..|es| - 1], profiles) + EarningsOf(es[|es| - 1], profiles)
  }

  function ProfileIds(es: seq<TimeEntry>): (r: seq<string>)
    ensures |r| == |es| && forall i :: 0 <= i < |es| ==> r[i] == es[i].profile_id
    decreases |es|
  {
    if es == [] then [] else ProfileIds(es[..|es| - 1]) + [es[|es| - 1].profile_id]
  }

  /** The values of `s` in the order of their first occurrence. */
  function FirstOccurrences(s: seq<string>): (r: seq<string>)
    ensures forall x :: x in r <==> x in s
    ensures Distinct(r)
    decreases |s|
  {
    if s == [] then []
    else
      var init, last := s[..|s| - 1], s[|s| - 1];
      assert s == init + [last];
      var r := FirstOccurrences(init);
      if last in r then r else r + [last]
  }

  function Ids(rows: seq<ProfileTotals>): (r: seq<string>)
    ensures |r| == |rows|
  {
    seq(|rows|, i requires 0 <= i < |rows| => rows[i].profile.id)
  }

  /** A column total over the rows. */
  function SumCol(rows: seq<ProfileTotals>, col: ProfileTotals -> int): int
    decreases |rows|
  {
    if rows == [] then 0 else SumCol(rows[..|rows| - 1], col) + col(rows[|rows| - 1])
  }

  function CountCol(row: ProfileTotals): int { row.entryCount }
  function MsCol(row: ProfileTotals): int { row.durationMs }
  function EarningsCol(row: ProfileTotals): int { row.earnings }

  lemma {:induction false} SumColUpdate(rows: seq<ProfileTotals>, k: nat, v: ProfileTotals, col: ProfileTotals -> int)
    requires k < |rows|
    ensures SumCol(rows[k := v], col) == SumCol(rows, col) - col(rows[k]) + col(v)
    decreases |rows|
  {
    var n := |rows| - 1;
    if k == n {
      assert rows[k := v][..n] == rows[..n];
    } else {
      assert rows[k := v][..n] == rows[..n][k := v];
      SumColUpdate(rows[..n], k, v, col);
    }
  }

  lemma SumColAppend(rows: seq<ProfileTotals>, v: ProfileTotals, col: ProfileTotals -> int)
    ensures SumCol(rows + [v], col) == SumCol(rows, col) + col(v)
  {
    assert (rows + [v])[..|rows|] == rows;
  }

  /** Adding one entry to the rows adds, to a column that a bump raises by
      `delta` and that starts at zero, exactly `delta`. */
  lemma AddToRowSums(rows: seq<ProfileTotals>, p: Profile, ms: int, earnings: int,
                     col: ProfileTotals -> int, delta: int)
    requires forall row :: col(Bump(row, ms, earnings)) == col(row) + delta
    requires col(ProfileTotals(p, 0, 0, 0)) == 0
    ensures SumCol(AddToRow(rows, p, ms, earnings), col) == SumCol(rows, col) + delta
  {
    var k := IndexOf(rows, p.id);
    if k < |rows| {
      SumColUpdate(rows, k, Bump(rows[k], ms, earnings), col);
    } else {
      SumColAppend(rows, Bump(ProfileTotals(p, 0, 0, 0), ms, earnings), col);
    }
  }

  lemma ForProfileSnoc(es: seq<TimeEntry>, e: TimeEntry, id: string)
    ensures ForProfile(es + [e], id) == ForProfile(es, id) + (if e.profile_id == id then [e] else [])
  {
    assert (es + [e])[..|es|] == es;
  }

  /** The column totals agree with the running totals: the entry counts add
      up to the number of counted entries, the hours and earnings columns to
      `totalHours` and `totalEarnings`. */
  lemma {:induction false} TallyColumns(es: seq<TimeEntry>, profiles: seq<Profile>, selected: seq<string>)
    ensures var t := Tally(es, profiles, selected);
      && SumCol(t.rows, CountCol) == |CountedEntries(es, profiles, selected)|
      && SumCol(t.rows, MsCol) == t.totalMs
      && SumCol(t.rows, EarningsCol) == t.totalEarnings
    decreases |es|
  {
    if es != [] {
      var init, e := es[..|es| - 1], es[|es| - 1];
      TallyColumns(init, profiles, selected);
      if Counted(e, profiles, selected) {
        var t := Tally(init, profiles, selected);
        var p := FindProfile(profiles, e.profile_id).value;
        var ms, earnings := Ms(e), Ms(e) * p.hourly_rate;
        AddToRowSums(t.rows, p, ms, earnings, CountCol, 1);
        AddToRowSums(t.rows, p, ms, earnings, MsCol, ms);
        AddToRowSums(t.rows, p, ms, earnings, EarningsCol, earnings);
      }
    }
  }

  lemma SumsSnoc(es: seq<TimeEntry>, e: TimeEntry, profiles: seq<Profile>)
    ensures SumMs(es + [e]) == SumMs(es) + Ms(e)
    ensures SumEarnings(es + [e], profiles) == SumEarnings(es, profiles) + EarningsOf(e, profiles)
  {
    assert (es + [e])[..|es|] == es;
  }

  /** One step adds the entry's duration and earnings when it is counted. */
  lemma StepTotals(t: Totals, e: TimeEntry, profiles: seq<Profile>, selected: seq<string>)
    ensures var next := Step(t, e, profiles, selected);
      && next.totalMs == t.totalMs + (if Counted(e, profiles, selected) then Ms(e) else 0)
      && next.totalEarnings == t.totalEarnings + (if Counted(e, profiles, selected) then EarningsOf(e, profiles) else 0)
  {
  }

  /** The running totals are the sums over the counted entries. */
  lemma {:induction false} TallyTotals(es: seq<TimeEntry>, profiles: seq<Profile>, selected: seq<string>)
    ensures var t := Tally(es, profiles, selected);
      var counted := CountedEntries(es, profiles, selected);
      t.totalMs == SumMs(counted) && t.totalEarnings == SumEarnings(counted, profiles)
    decreases |es|
  {
    if es != [] {
      var init, e := es[..|es| - 1], es[|es| - 1];
      var t, counted := Tally(init, profiles, selected), CountedEntries(init, profiles, selected);
      TallyTotals(init, profiles, selected);
      StepTotals(t, e, profiles, selected);
      if Counted(e, profiles, selected) {
        SumsSnoc(counted, e, profiles);
      }
    }
  }

  lemma ProfileIdsSnoc(es: seq<TimeEntry>, e: TimeEntry)
    ensures ProfileIds(es + [e]) == ProfileIds(es) + [e.profile_id]
  {
    assert (es + [e])[..|es|] == es;
  }

  lemma FirstOccurrencesSnoc(s: seq<string>, x: string)
    ensures FirstOccurrences(s + [x]) == if x in s then FirstOccurrences(s) else FirstOccurrences(s) + [x]
  {
    assert (s + [x])[..|s|] == s;
  }

  /** A row is added exactly when the profile has none yet. */
  lemma AddToRowIds(rows: seq<ProfileTotals>, p: Profile, ms: int, earnings: int)
    ensures Ids(AddToRow(rows, p, ms, earnings)) == if p.id in Ids(rows) then Ids(rows) else Ids(rows) + [p.id]
  {
    var k := IndexOf(rows, p.id);
    var next := AddToRow(rows, p, ms, earnings);
    if k < |rows| {
      assert Ids(rows)[k] == p.id;
      assert Ids(next) == Ids(rows);
    } else {
      assert forall j :: 0 <= j < |rows| ==> Ids(rows)[j] != p.id;
      assert Ids(next) == Ids(rows) + [p.id];
    }
  }

  /** `Array.from(profileMap.values())` lists each profile once, in the
      order in which its first counted entry occurs. */
  lemma {:induction false} TallyOrder(es: seq<TimeEntry>, profiles: seq<Profile>, selected: seq<string>)
    ensures Ids(Tally(es, profiles, selected).rows) == FirstOccurrences(ProfileIds(CountedEntries(es, profiles, selected)))
    ensures Distinct(Ids(Tally(es, profiles, selected).rows))
    decreases |es|
  {
    if es != [] {
      var init, e := es[..|es| - 1], es[|es| - 1];
      TallyOrder(init, profiles, selected);
      if Counted(e, profiles, selected) {
        var rows := Tally(init, profiles, selected).rows;
        var counted := CountedEntries(init, profiles, selected);
        var p := FindProfile(profiles, e.profile_id).value;
        AddToRowIds(rows, p, Ms(e), Ms(e) * p.hourly_rate);
        ProfileIdsSnoc(counted, e);
        FirstOccurrencesSnoc(ProfileIds(counted), e.profile_id);
      }
    }
  }

  /** What a row must say about the counted entries of its profile: the
      profile looked up, their number, their total length, and earnings at
      the profile's rate. */
  predicate RowAgrees(row: ProfileTotals, counted: seq<TimeEntry>, profiles: seq<Profile>) {
    var mine := ForProfile(counted, row.profile.id);
    && FindProfile(profiles, row.profile.id) == Some(row.profile)
    && row.entryCount == |mine|
    && row.durationMs == SumMs(mine)
    && row.earnings == row.durationMs * row.profile.hourly_rate
  }

  /** Every row agrees with the counted entries, and a profile without a row
      has no counted entry. */
  ghost predicate RowsAgree(rows: seq<ProfileTotals>, counted: seq<TimeEntry>, profiles: seq<Profile>) {
    && (forall j :: 0 <= j < |rows| ==> RowAgrees(rows[j], counted, profiles))
    && (forall id :: id !in Ids(rows) ==> ForProfile(counted, id) == [])
  }

  /** A row for another profile sees the same counted entries after `e`. */
  lemma OtherRowAgrees(row: ProfileTotals, counted: seq<TimeEntry>, e: TimeEntry, profiles: seq<Profile>)
    requires row.profile.id != e.profile_id && RowAgrees(row, counted, profiles)
    ensures RowAgrees(row, counted + [e], profiles)
  {
    ForProfileSnoc(counted, e, row.profile.id);
  }

  lemma MulAddRight(a: int, b: int, c: int)
    ensures (a + b) * c == a * c + b * c
  {
  }

  /** The row of `e`'s profile, bumped by `e`, agrees with the entries up to `e`. */
  lemma BumpedRowAgrees(row: ProfileTotals, counted: seq<TimeEntry>, e: TimeEntry, profiles: seq<Profile>)
    requires row.profile.id == e.profile_id && RowAgrees(row, counted, profiles)
    ensures RowAgrees(Bump(row, Ms(e), Ms(e) * row.profile.hourly_rate), counted + [e], profiles)
  {
    var mine := ForProfile(counted, row.profile.id);
    ForProfileSnoc(counted, e, row.profile.id);
    SumsSnoc(mine, e, profiles);
    MulAddRight(row.durationMs, Ms(e), row.profile.hourly_rate);
  }

  /** The first entry of a profile gives its new row. */
  lemma FreshRowAgrees(p: Profile, counted: seq<TimeEntry>, e: TimeEntry, profiles: seq<Profile>)
    requires FindProfile(profiles, e.profile_id) == Some(p) && ForProfile(counted, e.profile_id) == []
    ensures RowAgrees(Bump(ProfileTotals(p, 0, 0, 0), Ms(e), Ms(e) * p.hourly_rate), counted + [e], profiles)
  {
    ForProfileSnoc(counted, e, p.id);
    SumsSnoc([], e, profiles);
  }

  /** Row `j` after adding `e` agrees with the counted entries up to `e`. */
  lemma AddToRowRowAgrees(rows: seq<ProfileTotals>, counted: seq<TimeEntry>, e: TimeEntry, profiles: seq<Profile>, j: nat)
    requires FindProfile(profiles, e.profile_id).Some?
    requires Distinct(Ids(rows)) && RowsAgree(rows, counted, profiles)
    requires var p := FindProfile(profiles, e.profile_id).value;
      j < |AddToRow(rows, p, Ms(e), Ms(e) * p.hourly_rate)|
    ensures var p := FindProfile(profiles, e.profile_id).value;
      RowAgrees(AddToRow(rows, p, Ms(e), Ms(e) * p.hourly_rate)[j], counted + [e], profiles)
  {
    var p := FindProfile(profiles, e.profile_id).value;
    var k := IndexOf(rows, p.id);
    if j == k {
      if k < |rows| {
        assert RowAgrees(rows[k], counted, profiles);
        BumpedRowAgrees(rows[k], counted, e, profiles);
      } else {
        assert ForProfile(counted, p.id) == [] by {
          assert forall i :: 0 <= i < |rows| ==> Ids(rows)[i] != p.id;
        }
        FreshRowAgrees(p, counted, e, profiles);
      }
    } else {
      assert RowAgrees(rows[j], counted, profiles);
      assert Ids(rows)[j] != p.id by {
        if k < |rows| { assert Ids(rows)[j] != Ids(rows)[k]; }
      }
      OtherRowAgrees(rows[j], counted, e, profiles);
    }
  }

  /** A profile still without a row after adding `e` has no counted entry. */
  lemma AddToRowMissing(rows: seq<ProfileTotals>, counted: seq<TimeEntry>, e: TimeEntry, p: Profile, id: string)
    requires p.id == e.profile_id && id !in Ids(AddToRow(rows, p, Ms(e), Ms(e) * p.hourly_rate))
    requires id !in Ids(rows) ==> ForProfile(counted, id) == []
    ensures ForProfile(counted + [e], id) == []
  {
    var next := AddToRow(rows, p, Ms(e), Ms(e) * p.hourly_rate);
    var k := IndexOf(rows, p.id);
    if k < |rows| {
      assert Ids(next) == Ids(rows);
      assert Ids(rows)[k] == p.id;
    } else {
      assert Ids(next) == Ids(rows) + [p.id];
    }
    ForProfileSnoc(counted, e, id);
  }

  lemma AddToRowAgrees(rows: seq<ProfileTotals>, counted: seq<TimeEntry>, e: TimeEntry, profiles: seq<Profile>)
    requires FindProfile(profiles, e.profile_id).Some?
    requires Distinct(Ids(rows)) && RowsAgree(rows, counted, profiles)
    ensures var p := FindProfile(profiles, e.profile_id).value;
      RowsAgree(AddToRow(rows, p, Ms(e), Ms(e) * p.hourly_rate), counted + [e], profiles)
  {
    var p := FindProfile(profiles, e.profile_id).value;
    var next := AddToRow(rows, p, Ms(e), Ms(e) * p.hourly_rate);
    forall j | 0 <= j < |next|
      ensures RowAgrees(next[j], counted + [e], profiles)
    {
      AddToRowRowAgrees(rows, counted, e, profiles, j);
    }
    forall id | id !in Ids(next)
      ensures ForProfile(counted + [e], id) == []
    {
      AddToRowMissing(rows, counted, e, p, id);
    }
  }

  /** Each row of `entriesByProfile` holds, for its profile, the number of
      counted entries, their total length and their earnings; a profile
      without a row had no counted entry. */
  lemma {:induction false} TallyRows(es: seq<TimeEntry>, profiles: seq<Profile>, selected: seq<string>)
    ensures RowsAgree(Tally(es, profiles, selected).rows, CountedEntries(es, profiles, selected), profiles)
    decreases |es|
  {
    if es != [] {
      var init, e := es[..|es| - 1], es[|es| - 1];
      TallyRows(init, profiles, selected);
      TallyOrder(init, profiles, selected);
      if Counted(e, profiles, selected) {
        AddToRowAgrees(Tally(init, profiles, selected).rows, CountedEntries(init, profiles, selected), e, profiles);
      }
    }
  }

  /** The `forEach` loop of `generateReport`; `profileMap` is kept as its
      list of rows in insertion order. */
  method Aggregate(entries: seq<TimeEntry>, profiles: seq<Profile>, selected: seq<string>) returns (t: Totals)
    ensures t == Tally(entries, profiles, selected)
  {
    var totalMs, totalEarnings := 0, 0;
    var rows: seq<ProfileTotals> := [];
    var i := 0;
    while i < |entries|
      invariant 0 <= i <= |entries|
      invariant Totals(totalMs, totalEarnings, rows) == Tally(entries[..i], profiles, selected)
    {
      var entry := entries[i];
      assert entries[..i + 1][..i] == entries[..i];
      if entry.clock_out.Some? {
        var profile := FindProfile(profiles, entry.profile_id);
        if profile.Some? && (AllProfiles in selected || entry.profile_id in selected) {
          var p := profile.value;
          var ms := entry.clock_out.value.millis - entry.clock_in.millis;
          var earnings := ms * p.hourly_rate;
          totalMs := totalMs + ms;
          totalEarnings := totalEarnings + earnings;
          var k := IndexOf(rows, p.id);
          if k == |rows| {
            rows := rows + [ProfileTotals(p, 0, 0, 0)];
          }
          rows := rows[k := Bump(rows[k], ms, earnings)];
        }
      }
      i := i + 1;
    }
    assert entries[..i] == entries;
    t := Totals(totalMs, totalEarnings, rows);
  }

  /** The report `generateReport` stores: the totals of the counted entries,
      next to the full fetched list. */
  function ReportOf(entries: seq<TimeEntry>, profiles: seq<Profile>, selected: seq<string>): Report {
    var t := Tally(entries, profiles, selected);
    Report(t.totalMs, t.totalEarnings, entries, t.rows)
  }

  // ---------------------------------------------------------------------
  // CSV export

  /** Text made of newline-terminated lines. */
  function JoinLines(ls: seq<string>): string
    decreases |ls|
  {
    if ls == [] then "" else ls[0] + "\n" + JoinLines(ls[1..])
  }

  lemma {:induction false} JoinLinesAppend(a: seq<string>, b: seq<string>)
    ensures JoinLines(a + b) == JoinLines(a) + JoinLines(b)
    decreases |a|
  {
    if a == [] {
      assert a + b == b;
    } else {
      assert (a + b)[1..] == a[1..] + b;
      JoinLinesAppend(a[1..], b);
    }
  }

  lemma JoinLinesSnoc(ls: seq<string>, line: string)
    ensures JoinLines(ls + [line]) == JoinLines(ls) + line + "\n"
  {
    JoinLinesAppend(ls, [line]);
    assert JoinLines([line]) == line + "\n" + JoinLines([]);
  }

  /** The blank line and the total line close the file. */
  lemma JoinClosingLines(total: string)
    ensures JoinLines(["", total]) == "\n" + total + "\n"
  {
    JoinLinesSnoc([""], total);
    assert JoinLines([""]) == "\n" by {
      JoinLinesSnoc([], "");
    }
  }

  /** The position of the first line break, or `|s|` when there is none. */
  function LineEnd(s: string): (k: nat)
    ensures k <= |s| && '\n' !in s[..k]
    ensures k < |s| ==> s[k] == '\n'
  {
    if s == [] || s[0] == '\n' then 0
    else
      var k := 1 + LineEnd(s[1..]);
      assert s[..k] == [s[0]] + s[1..][..k - 1];
      k
  }

  /** A text read back as its lines, the way a CSV reader splits records. */
  function Lines(s: string): seq<string>
    decreases |s|
  {
    if s == [] then []
    else
      var k := LineEnd(s);
      [s[..k]] + Lines(if k < |s| then s[k + 1..] else [])
  }

  lemma LineEndAt(line: string, rest: string)
    requires '\n' !in line
    ensures LineEnd(line + "\n" + rest) == |line|
  {
    var s := line + "\n" + rest;
    assert forall i :: 0 <= i < |line| ==> s[i] == line[i];
    assert forall j :: |line| < j <= |s| ==> s[..j][|line|] == '\n';
  }

  /** Lines without breaks, joined and read back, are the same lines. */
  lemma {:induction false} LinesOfJoin(ls: seq<string>)
    requires BreakFree(ls)
    ensures Lines(JoinLines(ls)) == ls
    decreases |ls|
  {
    if ls != [] {
      var s := JoinLines(ls);
      LineEndAt(ls[0], JoinLines(ls[1..]));
      assert s[..|ls[0]|] == ls[0];
      assert s[|ls[0]| + 1..] == JoinLines(ls[1..]);
      LinesOfJoin(ls[1..]);
    }
  }

  const CsvHeader := "Profile,Hours,Earnings,Entries"

  lemma HeaderBreakFree()
    ensures BreakFree([CsvHeader])
  {
    assert forall i :: 0 <= i < |CsvHeader| ==> CsvHeader[i] != '\n';
  }

  /** One profile's line: name, hours and dollars with two decimals, count. */
  function RowText(row: ProfileTotals): string {
    row.profile.name + "," + Fixed2(row.durationMs, HourMs) + "," + Fixed2(row.earnings, EarningsScale) + "," +
    NatToString(row.entryCount)
  }

  /** The closing line; its count is the sum of the rows' counts. */
  function TotalText(report: Report): string {
    "Total," + Fixed2(report.totalMs, HourMs) + "," + Fixed2(report.totalEarnings, EarningsScale) + "," +
    IntToString(SumCol(report.entriesByProfile, CountCol))
  }

  function RowTexts(rows: seq<ProfileTotals>): (r: seq<string>)
    ensures |r| == |rows|
  {
    seq(|rows|, i requires 0 <= i < |rows| => RowText(rows[i]))
  }

  lemma RowTextsPrefix(rows: seq<ProfileTotals>, i: nat)
    requires i < |rows|
    ensures RowTexts(rows[..i + 1]) == RowTexts(rows[..i]) + [RowText(rows[i])]
  {
    assert rows[..i + 1][..i] == rows[..i];
  }

  /** The lines `exportToCSV` writes. */
  function CsvLines(report: Report): seq<string> {
    [CsvHeader] + RowTexts(report.entriesByProfile) + ["", TotalText(report)]
  }

  function CsvText(report: Report): string {
    JoinLines(CsvLines(report))
  }

  lemma DigitsHaveNoBreak(s: string)
    requires AllDigits(s)
    ensures '\n' !in s && ',' !in s
  {
    forall c | c in s ensures IsDigit(c) {
      var i :| 0 <= i < |s| && s[i] == c;
    }
  }

  lemma NumberHasNoBreak(s: string)
    requires NumberChars(s)
    ensures '\n' !in s && ',' !in s
  {
    forall c | c in s ensures c == '-' || c == '.' || IsDigit(c) {
      var i :| 0 <= i < |s| && s[i] == c;
    }
  }

  lemma RowTextHasNoBreak(row: ProfileTotals)
    requires '\n' !in row.profile.name
    ensures '\n' !in RowText(row)
  {
    NumberHasNoBreak(Fixed2(row.durationMs, HourMs));
    NumberHasNoBreak(Fixed2(row.earnings, EarningsScale));
    DigitsHaveNoBreak(NatToString(row.entryCount));
  }

  lemma TotalTextHasNoBreak(report: Report)
    ensures '\n' !in TotalText(report)
  {
    NumberHasNoBreak(Fixed2(report.totalMs, HourMs));
    NumberHasNoBreak(Fixed2(report.totalEarnings, EarningsScale));
    var count := SumCol(report.entriesByProfile, CountCol);
    DigitsHaveNoBreak(NatToString(if count < 0 then -count else count));
  }

  /** No line holds a line break of its own. */
  predicate BreakFree(ls: seq<string>) {
    forall i :: 0 <= i < |ls| ==> '\n' !in ls[i]
  }

  lemma BreakFreeConcat(a: seq<string>, b: seq<string>)
    requires BreakFree(a) && BreakFree(b)
    ensures BreakFree(a + b)
  {
    forall i | 0 <= i < |a + b| ensures '\n' !in (a + b)[i] {
      if i >= |a| {
        assert (a + b)[i] == b[i - |a|];
      }
    }
  }

  lemma RowTextsBreakFree(rows: seq<ProfileTotals>)
    requires forall row :: row in rows ==> '\n' !in row.profile.name
    ensures BreakFree(RowTexts(rows))
  {
    forall i | 0 <= i < |rows| ensures '\n' !in RowTexts(rows)[i] {
      assert rows[i] in rows;
      RowTextHasNoBreak(rows[i]);
    }
  }

  lemma CsvLinesBreakFree(report: Report)
    requires forall row :: row in report.entriesByProfile ==> '\n' !in row.profile.name
    ensures BreakFree(CsvLines(report))
  {
    var head, body, tail := [CsvHeader], RowTexts(report.entriesByProfile), ["", TotalText(report)];
    RowTextsBreakFree(report.entriesByProfile);
    TotalTextHasNoBreak(report);
    HeaderBreakFree();
    assert BreakFree(tail);
    BreakFreeConcat(head, body);
    BreakFreeConcat(head + body, tail);
    assert CsvLines(report) == head + body + tail;
  }

  /** Read back line by line, the export is the header, one line per
      profile in `entriesByProfile` order, an empty line and the total line,
      provided no profile name holds a line break. */
  lemma CsvLayout(report: Report)
    requires forall row :: row in report.entriesByProfile ==> '\n' !in row.profile.name
    ensures var ls := Lines(CsvText(report));
      var rows := report.entriesByProfile;
      && |ls| == |rows| + 3
      && ls[0] == CsvHeader
      && (forall i :: 0 <= i < |rows| ==> ls[i + 1] == RowText(rows[i]))
      && ls[|rows| + 1] == ""
      && ls[|rows| + 2] == TotalText(report)
  {
    CsvLinesBreakFree(report);
    LinesOfJoin(CsvLines(report));
  }

  // ---------------------------------------------------------------------
  // The page

  class ReportsPage {
    var startDate: string
    var endDate: string
    var reportData: Option<Report>
    var loading: bool
    var availableProfiles: seq<Profile>
    var selectedProfiles: seq<string>

    predicate Valid()
      reads this
    {
      ValidSelection(selectedProfiles)
    }

    constructor ()
      ensures Valid()
      ensures startDate == "" && endDate == "" && reportData.None? && !loading
      ensures availableProfiles == [] && selectedProfiles == [AllProfiles]
    {
      startDate, endDate := "", "";
      reportData, loading := None, false;
      availableProfiles, selectedProfiles := [], [AllProfiles];
    }

    /** `loadProfiles`, with `data` the rows of the query (`None` for a null
        result, which leaves the list as it was). */
    method LoadProfiles(user: Option<UserId>, data: Option<seq<Profile>>)
      modifies this`availableProfiles
      ensures availableProfiles == if user.Some? && data.Some? then data.value else old(availableProfiles)
    {
      if user.Some? && data.Some? {
        availableProfiles := data.value;
      }
    }

    /** `handleProfileToggle` */
    method ProfileToggle(profileId: string)
      requires Valid()
      modifies this`selectedProfiles
      ensures Valid()
      ensures selectedProfiles == Toggle(old(selectedProfiles), profileId)
    {
      selectedProfiles := Toggle(selectedProfiles, profileId);
    }

    /** `generateReport`. `entries` and `profiles` are the rows the two
        queries return (the empty list for a null result); the entry query's
        date window, its `clock_out` filter and its ordering are the backend's. */
    method GenerateReport(user: Option<UserId>, entriesReply: Reply, entries: seq<TimeEntry>,
                          profilesReply: Reply, profiles: seq<Profile>) returns (alert: Option<string>)
      modifies this`loading, this`reportData
      // both dates are required before anything happens
      ensures startDate == "" || endDate == "" ==>
        alert == Some(MsgMissingDates) && loading == old(loading) && reportData == old(reportData)
      ensures startDate != "" && endDate != "" ==>
        var fetched := user.Some? && entriesReply.Ok? && profilesReply.Ok?;
        && !loading
        && alert == (if user.Some? && !fetched then Some(MsgReportFailed) else None)
        && reportData == (if fetched then Some(ReportOf(entries, profiles, selectedProfiles)) else old(reportData))
    {
      if startDate == "" || endDate == "" {
        alert := Some(MsgMissingDates);
        return;
      }
      alert := None;
      loading := true;
      if user.None? {
        loading := false;
        return;
      }
      if entriesReply.Fails? || profilesReply.Fails? {
        alert := Some(MsgReportFailed);
        loading := false;
        return;
      }
      var t := Aggregate(entries, profiles, selectedProfiles);
      reportData := Some(Report(t.totalMs, t.totalEarnings, entries, t.rows));
      loading := false;
    }

    /** `exportToCSV`: the file's text, or nothing without a report. */
    method ExportCsv() returns (csv: Option<string>)
      ensures reportData.None? ==> csv.None?
      ensures reportData.Some? ==> csv == Some(CsvText(reportData.value))
    {
      if reportData.None? {
        return None;
      }
      var report := reportData.value;
      var rows := report.entriesByProfile;
      var text := CsvHeader + "\n";
      assert text == JoinLines([CsvHeader] + RowTexts(rows[..0]));
      var i := 0;
      while i < |rows|
        invariant 0 <= i <= |rows|
        invariant text == JoinLines([CsvHeader] + RowTexts(rows[..i]))
      {
        var line := RowText(rows[i]);
        RowTextsPrefix(rows, i);
        JoinLinesSnoc([CsvHeader] + RowTexts(rows[..i]), line);
        assert [CsvHeader] + RowTexts(rows[..i + 1]) == ([CsvHeader] + RowTexts(rows[..i])) + [line];
        text := text + line + "\n";
        i := i + 1;
      }
      assert rows[..i] == rows;
      var total := TotalText(report);
      var closing := "\n" + total + "\n";
      JoinLinesAppend([CsvHeader] + RowTexts(rows), ["", total]);
      JoinClosingLines(total);
      text := text + closing;
      csv := Some(text);
    }
  }
}
