/** The profile session registry of backend/src/profileManager.js: the `profiles`
    array, the `activeProfiles` map from profile id to the launched browser, and
    the operations that keep "a profile is active exactly when its id is in the
    map". The browser launch itself is an input of the launch operation. */
module ProfileManager {
  import opened Common
  import ProxyManager

  /** The `browserInstance` that launchBrowser resolves with: an opaque session
      number, and whether its browser is still connected. */
  datatype BrowserHandle = BrowserHandle(session: nat, connected: bool)

  /** What launchBrowser does for one launch request. */
  datatype LaunchOutcome = Launched(handle: BrowserHandle) | LaunchFailed(message: string)

  datatype Profile = Profile(
    id: string,
    name: string,
    userAgent: string,
    proxyId: Option<string>,      // null, or the stored value
    platform: string,
    screenResolution: string,
    language: string,
    timezone: string,
    webRTC: string,
    canvas: string,
    webGL: string,
    notes: string,
    active: bool,
    sessions: nat,
    createdAt: int,
    updatedAt: int)

  /** The `profileData` argument of createProfile; a missing (or null) property is None. */
  datatype ProfileInput = ProfileInput(
    name: string,
    userAgent: Option<string>,
    proxyId: Option<string>,
    platform: Option<string>,
    screenResolution: Option<string>,
    language: Option<string>,
    timezone: Option<string>,
    webRTC: Option<string>,
    canvas: Option<string>,
    webGL: Option<string>,
    notes: Option<string>)

  /** The `profileData` argument of updateProfile. `proxyId` may be given as null
      (Some(None)), which is a value for `!== undefined`. */
  datatype ProfilePatch = ProfilePatch(
    name: Option<string>,
    userAgent: Option<string>,
    proxyId: Option<Option<string>>,
    platform: Option<string>,
    screenResolution: Option<string>,
    language: Option<string>,
    timezone: Option<string>,
    webRTC: Option<string>,
    canvas: Option<string>,
    webGL: Option<string>,
    notes: Option<string>)

  const NotFound: string := "Profile not found"
  const ActiveUpdate: string := "Cannot update an active profile"
  const ActiveDelete: string := "Cannot delete an active profile"
  const AlreadyActive: string := "Profile is already active"
  const ProxyNotFound: string := "Proxy not found"

  /** The messages updateProfileStatus and closeProfile wrap their errors in. */
  function StatusFailure(message: string): string { "Failed to update profile status: " + message }
  function CloseFailure(message: string): string { "Failed to close profile: " + message }

  /** The record createProfile stores for a fresh id at time `now`. */
  function NewProfile(id: string, input: ProfileInput, now: int): (p: Profile)
    ensures p.id == id && p.name == input.name
    ensures p.userAgent == OrString(input.userAgent, "") && p.notes == OrString(input.notes, "")
    ensures p.proxyId == (if input.proxyId.Some? && input.proxyId.value != "" then input.proxyId else None)
    ensures p.platform == OrString(input.platform, "windows")
    ensures p.screenResolution == OrString(input.screenResolution, "1920x1080")
    ensures p.language == OrString(input.language, "en-US") && p.timezone == OrString(input.timezone, "UTC")
    ensures p.webRTC == OrString(input.webRTC, "real") && p.canvas == OrString(input.canvas, "real")
    ensures p.webGL == OrString(input.webGL, "real")
    ensures !p.active && p.sessions == 0 && p.createdAt == now && p.updatedAt == now
  {
    Profile(id, input.name, OrString(input.userAgent, ""),
            if input.proxyId.Some? && input.proxyId.value != "" then input.proxyId else None,
            OrString(input.platform, "windows"), OrString(input.screenResolution, "1920x1080"),
            OrString(input.language, "en-US"), OrString(input.timezone, "UTC"),
            OrString(input.webRTC, "real"), OrString(input.canvas, "real"), OrString(input.webGL, "real"),
            OrString(input.notes, ""), false, 0, now, now)
  }

  /** The record updateProfile stores: `userAgent`, `proxyId` and `notes` take any value
      given (`!== undefined`), the other fields only a non-empty one (`||`). */
  function MergeProfile(p: Profile, patch: ProfilePatch, now: int): (q: Profile)
    ensures q.id == p.id && q.active == p.active && q.sessions == p.sessions
    ensures q.createdAt == p.createdAt && q.updatedAt == now
    ensures q.userAgent == (if patch.userAgent.Some? then patch.userAgent.value else p.userAgent)
    ensures q.proxyId == (if patch.proxyId.Some? then patch.proxyId.value else p.proxyId)
    ensures q.notes == (if patch.notes.Some? then patch.notes.value else p.notes)
    ensures q.name == (if patch.name.Some? && patch.name.value != "" then patch.name.value else p.name)
    ensures q.platform == (if patch.platform.Some? && patch.platform.value != "" then patch.platform.value else p.platform)
    ensures q.screenResolution ==
              (if patch.screenResolution.Some? && patch.screenResolution.value != "" then patch.screenResolution.value else p.screenResolution)
    ensures q.language == (if patch.language.Some? && patch.language.value != "" then patch.language.value else p.language)
    ensures q.timezone == (if patch.timezone.Some? && patch.timezone.value != "" then patch.timezone.value else p.timezone)
    ensures q.webRTC == (if patch.webRTC.Some? && patch.webRTC.value != "" then patch.webRTC.value else p.webRTC)
    ensures q.canvas == (if patch.canvas.Some? && patch.canvas.value != "" then patch.canvas.value else p.canvas)
    ensures q.webGL == (if patch.webGL.Some? && patch.webGL.value != "" then patch.webGL.value else p.webGL)
  {
    p.(name := OrString(patch.name, p.name),
       userAgent := patch.userAgent.GetOr(p.userAgent),
       proxyId := patch.proxyId.GetOr(p.proxyId),
       platform := OrString(patch.platform, p.platform),
       screenResolution := OrString(patch.screenResolution, p.screenResolution),
       language := OrString(patch.language, p.language),
       timezone := OrString(patch.timezone, p.timezone),
       webRTC := OrString(patch.webRTC, p.webRTC),
       canvas := OrString(patch.canvas, p.canvas),
       webGL := OrString(patch.webGL, p.webGL),
       notes := patch.notes.GetOr(p.notes),
       updatedAt := now)
  }

  /** An empty string clears the user agent and the notes but leaves the `||` fields. */
  lemma MergeEmptyStrings(p: Profile, now: int)
    ensures var patch := ProfilePatch(Some(""), Some(""), Some(None), Some(""), Some(""), Some(""),
                                      Some(""), Some(""), Some(""), Some(""), Some(""));
            MergeProfile(p, patch, now) == p.(userAgent := "", proxyId := None, notes := "", updatedAt := now)
  {
  }

  /** `profiles.findIndex(profile => profile.id === id)`. */
  function IndexOfProfile(profiles: seq<Profile>, id: string): (i: int)
    ensures -1 <= i < |profiles|
    ensures i >= 0 ==> profiles[i].id == id && forall j :: 0 <= j < i ==> profiles[j].id != id
    ensures i == -1 ==> forall j :: 0 <= j < |profiles| ==> profiles[j].id != id
  {
    FindIndex(profiles, (p: Profile) => p.id == id)
  }

  /** `getProfile(id)`. */
  function FindProfile(profiles: seq<Profile>, id: string): (r: Option<Profile>)
    ensures r.None? <==> forall j :: 0 <= j < |profiles| ==> profiles[j].id != id
    ensures r.Some? ==> r.value.id == id && r.value in profiles
    ensures r.Some? ==> r.value == profiles[IndexOfProfile(profiles, id)]
  {
    var i := IndexOfProfile(profiles, id);
    if i < 0 then None else Some(profiles[i])
  }

  /** The proxy a launch hands to the browser: none unless `proxyId` is truthy, and an
      error when a truthy `proxyId` names no proxy. */
  function LaunchProxy(p: Profile, proxies: seq<ProxyManager.Proxy>): (r: Result<Option<ProxyManager.Proxy>, string>)
    ensures r.Err? <==> p.proxyId.Some? && p.proxyId.value != "" && ProxyManager.FindProxy(proxies, p.proxyId.value).None?
    ensures r.Err? ==> r.error == ProxyNotFound
    ensures r.Ok? && r.value.Some? ==> p.proxyId == Some(r.value.value.id) && r.value.value in proxies
    ensures r.Ok? && r.value.None? ==> p.proxyId.None? || p.proxyId == Some("")
  {
    match p.proxyId
    case None => Ok(None)
    case Some(pid) =>
      if pid == "" then Ok(None)
      else
        match ProxyManager.FindProxy(proxies, pid)
        case None => Err(ProxyNotFound)
        case Some(proxy) => Ok(Some(proxy))
  }

  predicate UniqueIds(profiles: seq<Profile>) {
    forall i, j :: 0 <= i < j < |profiles| ==> profiles[i].id != profiles[j].id
  }

  function IdsOf(profiles: seq<Profile>): set<string> {
    set i | 0 <= i < |profiles| :: profiles[i].id
  }

  lemma IdsOfAppend(profiles: seq<Profile>, p: Profile)
    ensures IdsOf(profiles + [p]) == IdsOf(profiles) + {p.id}
  {
    var all := profiles + [p];
    assert all[|profiles|] == p;
    forall k | k in IdsOf(all) ensures k in IdsOf(profiles) + {p.id} {
      var j :| 0 <= j < |all| && all[j].id == k;
      if j < |profiles| { assert profiles[j] == all[j]; }
    }
    forall k | k in IdsOf(profiles) ensures k in IdsOf(all) {
      var j :| 0 <= j < |profiles| && profiles[j].id == k;
      assert all[j] == profiles[j];
    }
  }

  lemma IdsOfSameIds(before: seq<Profile>, after: seq<Profile>)
    requires |before| == |after|
    requires forall j :: 0 <= j < |after| ==> after[j].id == before[j].id
    ensures IdsOf(after) == IdsOf(before)
  {
    forall k | k in IdsOf(before) ensures k in IdsOf(after) {
      var j :| 0 <= j < |before| && before[j].id == k;
      assert after[j].id == k;
    }
  }

  /** The registry invariant: a profile is active exactly when its id is in the map,
      and the map holds no id without a profile. */
  predicate Consistent(profiles: seq<Profile>, active: map<string, BrowserHandle>) {
    UniqueIds(profiles) &&
    (forall i :: 0 <= i < |profiles| ==> (profiles[i].active <==> profiles[i].id in active)) &&
    active.Keys <= IdsOf(profiles)
  }

  /** In a consistent registry the browser lookup and the `active` flag agree. */
  lemma ActiveIffTracked(profiles: seq<Profile>, active: map<string, BrowserHandle>, id: string)
    requires Consistent(profiles, active)
    ensures id in active <==> FindProfile(profiles, id).Some? && FindProfile(profiles, id).value.active
  {
    if id in active {
      var k := TrackedIndex(profiles, active, id);
    }
  }

  /** A tracked id is the id of an active record, and the lookup finds that record. */
  lemma TrackedIndex(profiles: seq<Profile>, active: map<string, BrowserHandle>, id: string) returns (k: nat)
    requires Consistent(profiles, active) && id in active
    ensures k < |profiles| && IndexOfProfile(profiles, id) == k && profiles[k].active
  {
    assert id in IdsOf(profiles);
    k :| 0 <= k < |profiles| && profiles[k].id == id;
    assert IndexOfProfile(profiles, id) == k;
  }

  /** The records after closeAllProfiles has closed every active profile whose id is no
      longer `pending`: those are inactive with the closing time, all others as they were. */
  predicate ClosedExcept(start: seq<Profile>, current: seq<Profile>, pending: set<string>, now: int) {
    |current| == |start| &&
    forall i :: 0 <= i < |current| ==>
      current[i] == if start[i].active && start[i].id !in pending
                    then start[i].(active := false, updatedAt := now)
                    else start[i]
  }

  /** One round of closeAllProfiles keeps ClosedExcept for one id fewer pending. */
  lemma CloseAllStep(start: seq<Profile>, before: seq<Profile>, pending: set<string>, id: string, k: nat, now: int)
    requires ClosedExcept(start, before, pending, now) && UniqueIds(before)
    requires id in pending && k < |before| && before[k].id == id && before[k].active
    ensures ClosedExcept(start, before[k := before[k].(active := false, updatedAt := now)], pending - {id}, now)
  {
    var after := before[k := before[k].(active := false, updatedAt := now)];
    forall i | 0 <= i < |after|
      ensures after[i] == if start[i].active && start[i].id !in pending - {id}
                          then start[i].(active := false, updatedAt := now)
                          else start[i]
    {
      if i != k {
        assert before[i].id != id;
        if start[i].active && start[i].id !in pending {
          assert before[i].id == start[i].id;
        } else {
          assert before[i] == start[i];
        }
      }
    }
  }

  /** The module state: `profiles` and `activeProfiles`. */
  class ProfileRegistry {
    var profiles: seq<Profile>
    var activeProfiles: map<string, BrowserHandle>

    predicate Valid()
      reads this
    {
      Consistent(profiles, activeProfiles)
    }

    constructor ()
      ensures Valid() && profiles == [] && activeProfiles == map[]
    {
      profiles := [];
      activeProfiles := map[];
    }

    /** createProfile, for an id no profile has (uuidv4). */
    method CreateProfile(id: string, input: ProfileInput, now: int) returns (p: Profile)
      requires Valid()
      requires id !in IdsOf(profiles)
      modifies this
      ensures Valid()
      ensures p == NewProfile(id, input, now)
      ensures profiles == old(profiles) + [p] && activeProfiles == old(activeProfiles)
    {
      p := NewProfile(id, input, now);
      IdsOfAppend(profiles, p);
      profiles := profiles + [p];
    }

    /** getProfile */
    function GetProfile(id: string): (r: Option<Profile>)
      reads this
      ensures r.Some? ==> r.value.id == id && r.value in profiles
      ensures r.None? ==> id !in IdsOf(profiles)
    {
      FindProfile(profiles, id)
    }

    /** getProfileBrowserInstance */
    function GetProfileBrowserInstance(id: string): (r: Option<BrowserHandle>)
      reads this
      requires Valid()
      ensures r.Some? <==> GetProfile(id).Some? && GetProfile(id).value.active
      ensures r.Some? ==> r.value == activeProfiles[id]
    {
      ActiveIffTracked(profiles, activeProfiles, id);
      if id in activeProfiles then Some(activeProfiles[id]) else None
    }

    /** updateProfile: refuses an unknown or an active profile, else stores the merge. */
    method UpdateProfile(id: string, patch: ProfilePatch, now: int) returns (r: Result<Profile, string>)
      requires Valid()
      modifies this
      ensures Valid() && activeProfiles == old(activeProfiles)
      ensures var i := IndexOfProfile(old(profiles), id);
              if i < 0 then r == Err("Failed to update profile: " + NotFound) && profiles == old(profiles)
              else if old(profiles)[i].active then r == Err("Failed to update profile: " + ActiveUpdate) && profiles == old(profiles)
              else r == Ok(MergeProfile(old(profiles)[i], patch, now)) && profiles == old(profiles)[i := r.value]
    {
      var i := IndexOfProfile(profiles, id);
      if i == -1 {
        return Err("Failed to update profile: " + NotFound);
      }
      if profiles[i].active {
        return Err("Failed to update profile: " + ActiveUpdate);
      }
      var q := MergeProfile(profiles[i], patch, now);
      profiles := profiles[i := q];
      IdsOfSameIds(old(profiles), profiles);
      r := Ok(q);
    }

    /** deleteProfile: refuses an unknown or an active profile, else removes exactly that record. */
    method DeleteProfile(id: string) returns (r: Result<bool, string>)
      requires Valid()
      modifies this
      ensures Valid() && activeProfiles == old(activeProfiles)
      ensures var i := IndexOfProfile(old(profiles), id);
              if i < 0 then r == Err("Failed to delete profile: " + NotFound) && profiles == old(profiles)
              else if old(profiles)[i].active then r == Err("Failed to delete profile: " + ActiveDelete) && profiles == old(profiles)
              else r == Ok(true) && profiles == Splice(old(profiles), i, 1, []) && |profiles| == |old(profiles)| - 1
    {
      var i := IndexOfProfile(profiles, id);
      if i == -1 {
        return Err("Failed to delete profile: " + NotFound);
      }
      if profiles[i].active {
        return Err("Failed to delete profile: " + ActiveDelete);
      }
      ghost var before := profiles;
      SpliceRemoveAt(profiles, i);
      profiles := Splice(profiles, i, 1, []);
      assert forall j :: 0 <= j < |profiles| ==> profiles[j] == before[if j < i then j else j + 1];
      assert activeProfiles.Keys <= IdsOf(profiles) by {
        forall k | k in activeProfiles ensures k in IdsOf(profiles) {
          var m :| 0 <= m < |before| && before[m].id == k;
          assert m != i;
          assert profiles[if m < i then m else m - 1].id == k;
        }
      }
      r := Ok(true);
    }

    /** updateProfileStatus: sets `active` and the time stamp of the first record with
        that id. On its own it does not keep Valid(); its callers restore it. */
    method UpdateProfileStatus(id: string, active: bool, now: int) returns (r: Result<Profile, string>)
      modifies this
      ensures activeProfiles == old(activeProfiles)
      ensures var i := IndexOfProfile(old(profiles), id);
              if i < 0 then r == Err(StatusFailure(NotFound)) && profiles == old(profiles)
              else r == Ok(old(profiles)[i].(active := active, updatedAt := now)) && profiles == old(profiles)[i := r.value]
    {
      var i := IndexOfProfile(profiles, id);
      if i == -1 {
        return Err(StatusFailure(NotFound));
      }
      var q := profiles[i].(active := active, updatedAt := now);
      profiles := profiles[i := q];
      r := Ok(q);
    }

    /** launchProfile. `notices` are the arguments of the status callback. On success the
        returned record is the stored one, after its session count went up. */
    method LaunchProfile(id: string, proxies: seq<ProxyManager.Proxy>, outcome: LaunchOutcome, now: int)
      returns (r: Result<Profile, string>, notices: seq<Profile>)
      requires Valid()
      modifies this
      ensures Valid()
      ensures var i := IndexOfProfile(old(profiles), id);
              if i < 0 then
                r == Err("Failed to launch profile: " + NotFound) && notices == [] &&
                profiles == old(profiles) && activeProfiles == old(activeProfiles)
              else if old(profiles)[i].active then
                r == Err("Failed to launch profile: " + AlreadyActive) && notices == [] &&
                profiles == old(profiles) && activeProfiles == old(activeProfiles)
              else if LaunchProxy(old(profiles)[i], proxies).Err? then
                r == Err("Failed to launch profile: " + ProxyNotFound) && notices == [] &&
                profiles == old(profiles) && activeProfiles == old(activeProfiles)
              else
                var marked := old(profiles)[i].(active := true, updatedAt := now);
                match outcome
                case Launched(handle) =>
                  var launched := marked.(sessions := marked.sessions + 1);
                  r == Ok(launched) && notices == [marked] &&
                  profiles == old(profiles)[i := launched] && activeProfiles == old(activeProfiles)[id := handle]
                case LaunchFailed(message) =>
                  r == Err("Failed to launch profile: " + message) &&
                  notices == [marked, marked.(active := false)] &&
                  profiles == old(profiles)[i := marked.(active := false)] && activeProfiles == old(activeProfiles)
    {
      var i := IndexOfProfile(profiles, id);
      if i == -1 {
        return Err("Failed to launch profile: " + NotFound), [];
      }
      var profile := profiles[i];
      if profile.active {
        return Err("Failed to launch profile: " + AlreadyActive), [];
      }
      var proxy := LaunchProxy(profile, proxies);
      if proxy.Err? {
        return Err("Failed to launch profile: " + ProxyNotFound), [];
      }
      var status := UpdateProfileStatus(id, true, now);
      var updated := status.value;
      notices := [updated];
      match outcome {
        case Launched(handle) =>
          activeProfiles := activeProfiles[id := handle];
          var launched := updated.(sessions := updated.sessions + 1);
          profiles := profiles[i := launched];
          r := Ok(launched);
        case LaunchFailed(message) =>
          var rollback := UpdateProfileStatus(id, false, now);
          notices := notices + [updated.(active := false)];
          r := Err("Failed to launch profile: " + message);
      }
      IdsOfSameIds(old(profiles), profiles);
    }

    /** closeProfile, also run when a launched browser disconnects. A tracked browser is
        asked to close when it is still connected (an error from it is swallowed) and its
        entry is removed; the record is then marked inactive. */
    method CloseProfile(id: string, now: int) returns (r: Result<Profile, string>, closeRequested: bool, notices: seq<Profile>)
      requires Valid()
      modifies this
      ensures Valid()
      ensures closeRequested == (id in old(activeProfiles) && old(activeProfiles)[id].connected)
      ensures activeProfiles == old(activeProfiles) - {id}
      ensures var i := IndexOfProfile(old(profiles), id);
              if i < 0 then
                r == Err(CloseFailure(StatusFailure(NotFound))) &&
                notices == [] && profiles == old(profiles)
              else
                r == Ok(old(profiles)[i].(active := false, updatedAt := now)) && notices == [r.value] &&
                profiles == old(profiles)[i := r.value]
    {
      closeRequested := false;
      if id in activeProfiles {
        closeRequested := activeProfiles[id].connected;
        activeProfiles := activeProfiles - {id};
      }
      var status := UpdateProfileStatus(id, false, now);
      if status.Err? {
        return Err(CloseFailure(status.error)), closeRequested, [];
      }
      notices := [status.value];
      r := status;
      IdsOfSameIds(old(profiles), profiles);
    }

    /** closeAllProfiles: closes every profile whose id was in the map when it started. */
    method CloseAllProfiles(now: int)
      requires Valid()
      modifies this
      ensures Valid()
      ensures activeProfiles == map[]
      ensures forall i :: 0 <= i < |profiles| ==> !profiles[i].active
      ensures ClosedExcept(old(profiles), profiles, {}, now)
    {
      var pending := activeProfiles.Keys;
      while pending != {}
        invariant Valid()
        invariant activeProfiles.Keys == pending
        invariant ClosedExcept(old(profiles), profiles, pending, now)
        decreases pending
      {
        var id :| id in pending;
        ghost var before := profiles;
        ghost var k := TrackedIndex(before, activeProfiles, id);
        var r, closeRequested, notices := CloseProfile(id, now);
        assert profiles == before[k := before[k].(active := false, updatedAt := now)];
        CloseAllStep(old(profiles), before, pending, id, k, now);
        assert activeProfiles.Keys == pending - {id};
        pending := pending - {id};
      }
    }
  }
}
