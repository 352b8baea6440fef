/** The dashboard page (client/src/pages/Dashboard.tsx): whether the user
    still has to set a PIN, which profile is active after loading, and which
    panels are rendered. */
module Dash {
  import opened Common
  import opened Store

  /** `data.pin_hash !== null && data.pin_hash !== ''` */
  predicate PinIsSet(pinHash: Option<string>) {
    pinHash.Some? && pinHash.value != ""
  }

  class Dashboard {
    const db: Database
    var profiles: seq<Profile>
    var activeProfile: Option<Profile>
    var loading: bool
    var showPinSetup: bool
    var hasPinSet: bool

    constructor (db: Database)
      ensures this.db == db && profiles == [] && activeProfile.None?
      ensures loading && !showPinSetup && !hasPinSet
    {
      this.db := db;
      profiles, activeProfile := [], None;
      loading, showPinSetup, hasPinSet := true, false, false;
    }

    /** `checkPinStatus`: a failed or empty read changes nothing; otherwise
        `hasPinSet` follows the stored hash and a missing PIN asks for setup. */
    method CheckPinStatus(user: Option<UserId>, read: Reply)
      modifies this`hasPinSet, this`showPinSetup
      ensures user.None? || SingleRole(db.roles, user.value, read).Failure? ==>
        hasPinSet == old(hasPinSet) && showPinSetup == old(showPinSetup)
      ensures user.Some? && SingleRole(db.roles, user.value, read).Success? ==>
        var isSet := PinIsSet(db.roles[user.value].pin_hash);
        hasPinSet == isSet && showPinSetup == (!isSet || old(showPinSetup))
    {
      if user.None? {
        return;
      }
      var fetched := SingleRole(db.roles, user.value, read);
      if fetched.Success? {
        var pinIsSet := PinIsSet(fetched.value.pin_hash);
        hasPinSet := pinIsSet;
        if !pinIsSet {
          showPinSetup := true;
        }
      }
    }

    /** `loadProfiles`, with `data` the rows the ordered query returns (a null
        `data` is the empty list). With no signed-in user the handler returns
        early and `loading` stays as it was. */
    method LoadProfiles(user: Option<UserId>, reply: Reply, data: seq<Profile>)
      modifies this`profiles, this`activeProfile, this`loading
      ensures user.None? ==>
        profiles == old(profiles) && activeProfile == old(activeProfile) && loading == old(loading)
      ensures user.Some? ==> !loading
      ensures user.Some? && reply.Fails? ==> profiles == old(profiles) && activeProfile == old(activeProfile)
      // a successful load shows the rows and activates the first one, if any
      ensures user.Some? && reply.Ok? ==>
        profiles == data && activeProfile == (if |data| > 0 then Some(data[0]) else old(activeProfile))
    {
      if user.None? {
        return;
      }
      if reply.Ok? {
        profiles := data;
        if |data| > 0 {
          activeProfile := Some(data[0]);
        }
      }
      loading := false;
    }

    /** The setup modal's `onSuccess`. */
    method SetupSucceeded()
      modifies this`showPinSetup, this`hasPinSet
      ensures !showPinSetup && hasPinSet
      ensures !ShowsPinSetup(false)
    {
      showPinSetup := false;
      hasPinSet := true;
    }

    /** The setup modal is rendered once loading is over, when setup was
        asked for and no PIN is set; it has no Cancel button. */
    predicate ShowsPinSetup(roleLoading: bool)
      reads this
    {
      !loading && !roleLoading && showPinSetup && !hasPinSet
    }

    /** The manual-entry panel is rendered for admins only, once loading is over. */
    predicate ShowsManualEntry(roleLoading: bool, isAdmin: bool)
      reads this
    {
      !loading && !roleLoading && isAdmin
    }
  }
}
