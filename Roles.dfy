/** The `useUserRole` hook (client/src/hooks/useUserRole.ts): the signed-in
    user's role, falling back to 'user' on every failure, and `isAdmin`. */
module Roles {
  import opened Common
  import opened Store

  const DefaultRole := "user"
  const AdminRole := "admin"

  /** `fetchUserRole`'s answer; `throws` says that a call raised and the
      `catch` ran instead. */
  function ResolveRole(roles: map<UserId, UserRoleRow>, user: Option<UserId>, read: Reply, throws: bool): (r: Option<string>)
    ensures throws ==> r == Some(DefaultRole)
    // no user: no role at all
    ensures !throws && user.None? ==> r.None?
    // a user always gets a non-empty role: the stored one if there is one, else 'user'
    ensures !throws && user.Some? ==> r.Some? && r.value != ""
    ensures !throws && user.Some? && read.Ok? && user.value in roles && roles[user.value].role.Some? &&
            roles[user.value].role.value != "" ==>
      r == roles[user.value].role
    ensures !throws && user.Some? && (read.Fails? || user.value !in roles || roles[user.value].role.GetOr("") == "") ==>
      r == Some(DefaultRole)
  {
    if throws then Some(DefaultRole)
    else if user.None? then None
    else
      match SingleRole(roles, user.value, read)
      case Failure(_) => Some(DefaultRole)
      case Success(row) => Some(if row.role.GetOr("") != "" then row.role.value else DefaultRole)
  }

  /** `role === 'admin'` */
  predicate IsAdmin(role: Option<string>) {
    role == Some(AdminRole)
  }

  /** Failures never grant admin: admin comes only from the caller's own row. */
  lemma AdminOnlyFromRow(roles: map<UserId, UserRoleRow>, user: Option<UserId>, read: Reply, throws: bool)
    requires IsAdmin(ResolveRole(roles, user, read, throws))
    ensures !throws && user.Some? && read.Ok? && user.value in roles && roles[user.value].role == Some(AdminRole)
  {
  }

  class UserRoleHook {
    const db: Database
    var role: Option<string>
    var loading: bool

    constructor (db: Database)
      ensures this.db == db && role.None? && loading
    {
      this.db := db;
      role := None;
      loading := true;
    }

    /** `isAdmin` as the hook returns it. */
    predicate IsAdminNow()
      reads this
    {
      IsAdmin(role)
    }

    /** `fetchUserRole`; it only reads the store. */
    method Fetch(user: Option<UserId>, read: Reply, throws: bool)
      modifies this`role, this`loading
      ensures role == ResolveRole(db.roles, user, read, throws)
      ensures !loading
    {
      if throws {
        role := Some(DefaultRole);
        loading := false;
        return;
      }
      if user.None? {
        role := None;
        loading := false;
        return;
      }
      var fetched := SingleRole(db.roles, user.value, read);
      if fetched.Failure? {
        role := Some(DefaultRole);
      } else {
        role := Some(if fetched.value.role.GetOr("") != "" then fetched.value.role.value else DefaultRole);
      }
      loading := false;
    }
  }
}
