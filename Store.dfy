/** The hosted database as the client sees it: the rows of the four tables the
    core reads and writes, and the point queries and updates it issues. Every
    call to the backend takes a `Reply` that says whether the backend answered
    or failed, and with which message. */
module Store {
  import opened Common

  /** A `user_roles` row. `pin_hash` and `require_pin` are read and written by
      the PIN code although the client's row type omits them. */
  datatype UserRoleRow = UserRoleRow(
    id: string,
    user_id: UserId,
    role: Option<string>,
    pin_hash: Option<string>,
    require_pin: Option<bool>,
    created_at: Timestamp,
    updated_at: Timestamp)

  /** A `pin_reset_codes` row; `expires_at` and `created_at` in milliseconds. */
  datatype ResetCode = ResetCode(
    id: string,
    user_id: UserId,
    code: string,
    expires_at: int,
    used: bool,
    created_at: int)

  /** A `profiles` row; the hourly rate in whole cents. */
  datatype Profile = Profile(
    id: string,
    user_id: UserId,
    name: string,
    hourly_rate: int,
    created_at: Timestamp,
    updated_at: Timestamp)

  /** A `time_entries` row; an entry without `clock_out` is still running. */
  datatype TimeEntry = TimeEntry(
    id: string,
    user_id: UserId,
    profile_id: string,
    clock_in: Timestamp,
    clock_out: Option<Timestamp>,
    notes: Option<string>,
    created_at: Timestamp,
    updated_at: Timestamp)

  /** The backend's answer to one call: it went through, or it failed with a message. */
  datatype Reply = Ok | Fails(message: string)

  /** What the backend reports when `.single()` finds no row. */
  const NoRowMessage := "JSON object requested, multiple (or no) rows returned"

  /** `.from('user_roles').select(...).eq('user_id', u).single()`: the caller's
      row, or the failure the backend reports. */
  function SingleRole(roles: map<UserId, UserRoleRow>, u: UserId, reply: Reply): (r: Result<UserRoleRow>)
    ensures r.Success? <==> reply.Ok? && u in roles
    ensures r.Success? ==> r.value == roles[u]
    ensures reply.Fails? ==> r == Failure(reply.message)
  {
    if reply.Fails? then Failure(reply.message)
    else if u in roles then Success(roles[u])
    else Failure(NoRowMessage)
  }

  /** `profiles.find(p => p.id === id)`: the first profile with this id. */
  function FindProfile(profiles: seq<Profile>, id: string): (r: Option<Profile>)
    ensures r.Some? ==> r.value in profiles && r.value.id == id
    ensures r.None? <==> forall p :: p in profiles ==> p.id != id
  {
    if profiles == [] then None
    else if profiles[0].id == id then Some(profiles[0])
    else
      assert forall p :: p in profiles <==> p == profiles[0] || p in profiles[1..];
      FindProfile(profiles[1..], id)
  }

  /** `.update({ pin_hash: hash }).eq('user_id', u)`: a user without a row
      matches nothing and nothing changes. */
  function WithPinHash(roles: map<UserId, UserRoleRow>, u: UserId, hash: string): (r: map<UserId, UserRoleRow>)
    ensures r.Keys == roles.Keys
    ensures u in roles ==> r[u] == roles[u].(pin_hash := Some(hash))
    ensures forall v :: v in roles && v != u ==> r[v] == roles[v]
  {
    if u in roles then roles[u := roles[u].(pin_hash := Some(hash))] else roles
  }

  /** `.update({ used: true }).eq('id', id)` on `pin_reset_codes`. */
  function MarkUsed(codes: seq<ResetCode>, id: string): (r: seq<ResetCode>)
    ensures |r| == |codes|
    ensures forall i :: 0 <= i < |codes| ==>
      r[i] == if codes[i].id == id then codes[i].(used := true) else codes[i]
  {
    UpdateWhere(codes, (c: ResetCode) => c.id == id, (c: ResetCode) => c.(used := true))
  }

  /** `.from('profiles').delete().eq('id', id)` */
  function WithoutProfile(profiles: seq<Profile>, id: string): (r: seq<Profile>)
    ensures |r| <= |profiles|
    ensures forall p :: p in r <==> p in profiles && p.id != id
  {
    Filter(profiles, (p: Profile) => p.id != id)
  }

  /** `.from('profiles').update({ name, hourly_rate }).eq('id', id)` */
  function WithProfileFields(profiles: seq<Profile>, id: string, name: string, rate: int): (r: seq<Profile>)
    ensures |r| == |profiles|
    ensures forall i :: 0 <= i < |profiles| ==>
      r[i] == if profiles[i].id == id then profiles[i].(name := name, hourly_rate := rate) else profiles[i]
  {
    UpdateWhere(profiles, (p: Profile) => p.id == id, (p: Profile) => p.(name := name, hourly_rate := rate))
  }

  /** `.from('time_entries').delete().eq('id', id)` */
  function WithoutEntry(entries: seq<TimeEntry>, id: string): (r: seq<TimeEntry>)
    ensures |r| <= |entries|
    ensures forall e :: e in r <==> e in entries && e.id != id
  {
    Filter(entries, (e: TimeEntry) => e.id != id)
  }

  /** The columns an update of `time_entries` sets; `None` leaves a column as it is. */
  datatype EntryPatch = EntryPatch(
    clock_in: Option<Timestamp>,
    clock_out: Option<Option<Timestamp>>,
    notes: Option<Option<string>>,
    updated_at: Option<Timestamp>)

  function Patched(e: TimeEntry, patch: EntryPatch): TimeEntry {
    e.(clock_in := patch.clock_in.GetOr(e.clock_in),
       clock_out := patch.clock_out.GetOr(e.clock_out),
       notes := patch.notes.GetOr(e.notes),
       updated_at := patch.updated_at.GetOr(e.updated_at))
  }

  /** `.from('time_entries').update(patch).eq('id', id)` */
  function WithEntryPatch(entries: seq<TimeEntry>, id: string, patch: EntryPatch): (r: seq<TimeEntry>)
    ensures |r| == |entries|
    ensures forall i :: 0 <= i < |entries| ==>
      r[i] == if entries[i].id == id then Patched(entries[i], patch) else entries[i]
  {
    UpdateWhere(entries, (e: TimeEntry) => e.id == id, (e: TimeEntry) => Patched(e, patch))
  }

  /** The rows of the four tables. Each write applies only when its reply is `Ok`. */
  class Database {
    var roles: map<UserId, UserRoleRow>
    var resetCodes: seq<ResetCode>
    var profiles: seq<Profile>
    var timeEntries: seq<TimeEntry>

    constructor (roles: map<UserId, UserRoleRow>, resetCodes: seq<ResetCode>,
                 profiles: seq<Profile>, timeEntries: seq<TimeEntry>)
      ensures this.roles == roles && this.resetCodes == resetCodes
      ensures this.profiles == profiles && this.timeEntries == timeEntries
    {
      this.roles := roles;
      this.resetCodes := resetCodes;
      this.profiles := profiles;
      this.timeEntries := timeEntries;
    }

    method UpdatePinHash(u: UserId, hash: string, reply: Reply)
      modifies this`roles
      ensures roles == if reply.Ok? then WithPinHash(old(roles), u, hash) else old(roles)
    {
      if reply.Ok? {
        roles := WithPinHash(roles, u, hash);
      }
    }

    method InsertResetCode(code: ResetCode, reply: Reply)
      modifies this`resetCodes
      ensures resetCodes == if reply.Ok? then old(resetCodes) + [code] else old(resetCodes)
    {
      if reply.Ok? {
        resetCodes := resetCodes + [code];
      }
    }

    method MarkResetCodeUsed(id: string, reply: Reply)
      modifies this`resetCodes
      ensures resetCodes == if reply.Ok? then MarkUsed(old(resetCodes), id) else old(resetCodes)
    {
      if reply.Ok? {
        resetCodes := MarkUsed(resetCodes, id);
      }
    }

    method InsertProfile(p: Profile, reply: Reply)
      modifies this`profiles
      ensures profiles == if reply.Ok? then old(profiles) + [p] else old(profiles)
    {
      if reply.Ok? {
        profiles := profiles + [p];
      }
    }

    method UpdateProfile(id: string, name: string, rate: int, reply: Reply)
      modifies this`profiles
      ensures profiles == if reply.Ok? then WithProfileFields(old(profiles), id, name, rate) else old(profiles)
    {
      if reply.Ok? {
        profiles := WithProfileFields(profiles, id, name, rate);
      }
    }

    method DeleteProfile(id: string, reply: Reply)
      modifies this`profiles
      ensures profiles == if reply.Ok? then WithoutProfile(old(profiles), id) else old(profiles)
    {
      if reply.Ok? {
        profiles := WithoutProfile(profiles, id);
      }
    }

    method InsertTimeEntry(e: TimeEntry, reply: Reply)
      modifies this`timeEntries
      ensures timeEntries == if reply.Ok? then old(timeEntries) + [e] else old(timeEntries)
    {
      if reply.Ok? {
        timeEntries := timeEntries + [e];
      }
    }

    method UpdateTimeEntry(id: string, patch: EntryPatch, reply: Reply)
      modifies this`timeEntries
      ensures timeEntries == if reply.Ok? then WithEntryPatch(old(timeEntries), id, patch) else old(timeEntries)
    {
      if reply.Ok? {
        timeEntries := WithEntryPatch(timeEntries, id, patch);
      }
    }

    method DeleteTimeEntry(id: string, reply: Reply)
      modifies this`timeEntries
      ensures timeEntries == if reply.Ok? then WithoutEntry(old(timeEntries), id) else old(timeEntries)
    {
      if reply.Ok? {
        timeEntries := WithoutEntry(timeEntries, id);
      }
    }
  }
}
