/** The `usePinRequired` hook (client/src/hooks/usePinRequired.ts): whether the
    signed-in user's protected actions wait for the PIN modal. Every path that
    is not an explicit `require_pin = false` answers "required". */
module PinRequirement {
  import opened Common
  import opened Store

  /** `checkPinRequired`'s answer: `data?.require_pin ?? true`, where `data`
      is null when `.single()` fails; `throws` says that a call raised and
      the `catch` ran instead. */
  function ResolvePinRequired(roles: map<UserId, UserRoleRow>, user: Option<UserId>, read: Reply, throws: bool): (r: bool)
    // only an explicit false in the caller's row turns the gate off
    ensures !r <==> !throws && user.Some? && read.Ok? && user.value in roles &&
                    roles[user.value].require_pin == Some(false)
    ensures throws || user.None? ==> r
    ensures !throws && user.Some? && read.Ok? && user.value in roles && roles[user.value].require_pin.None? ==> r
  {
    if throws then true
    else if user.None? then true
    else
      match SingleRole(roles, user.value, read)
      case Failure(_) => true
      case Success(row) => row.require_pin.GetOr(true)
  }

  class PinRequiredHook {
    const db: Database
    var pinRequired: bool
    var loading: bool

    /** The initial state, before the check has answered: required, loading. */
    constructor (db: Database)
      ensures this.db == db && pinRequired && loading
    {
      this.db := db;
      pinRequired := true;
      loading := true;
    }

    /** `checkPinRequired` (also returned as `refresh`); it only reads the store. */
    method Check(user: Option<UserId>, read: Reply, throws: bool)
      modifies this`pinRequired, this`loading
      ensures pinRequired == ResolvePinRequired(db.roles, user, read, throws)
      // every path, the early return included, ends with loading false
      ensures !loading
    {
      if throws {
        pinRequired := true;
        loading := false;
        return;
      }
      if user.None? {
        pinRequired := true;
        loading := false;
        return;
      }
      var fetched := SingleRole(db.roles, user.value, read);
      pinRequired := if fetched.Success? then fetched.value.require_pin.GetOr(true) else true;
      loading := false;
    }
  }
}
