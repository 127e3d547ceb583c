/**
 * The session state of src/components/ProfileProvider.tsx: which profile is
 * active, its resume and timestamps, the list of profiles, and the operations
 * that change them together with the store. Each asynchronous operation is
 * one atomic step; `now` is the timestamp the caller would take, and the
 * browser's remembered active id (`localStorage`) is the field `activeKey`.
 */
module Provider {
  import opened Wrappers
  import opened Text
  import opened Schema
  import opened Profiles

  const DefaultProfileId := "default"
  const NameRequired := "Profile name is required."
  const AlreadyExists := "Profile already exists."

  /** `{ ok, error? }` returned by `createProfile`. */
  datatype CreateResult = CreateResult(ok: bool, error: Option<string>)

  /** The fields `loadProfile` sets, as one value. */
  datatype SessionView = SessionView(
    profileId: string,
    resume: Resume,
    updatedAt: Option<string>,
    lastSavedAt: Option<string>,
    isValid: bool)

  /** What `loadProfile` puts in the session for a `getProfile` result. */
  function Loaded(l: LoadedProfile): (v: SessionView)
    ensures v.profileId == l.profile.profileId && v.resume == l.profile.resume && v.isValid == l.isValid
    ensures v.updatedAt == v.lastSavedAt == l.profile.updatedAt
  {
    SessionView(l.profile.profileId, l.profile.resume, l.profile.updatedAt, l.profile.updatedAt, l.isValid)
  }

  /** The store after `init`'s seeding step: an empty store gets the sample resume under `"default"`. */
  function Seeded(records: map<string, StoredProfile>, now: string): (r: map<string, StoredProfile>)
    ensures records != map[] ==> r == records
    ensures records == map[] ==> r.Keys == {DefaultProfileId}
    ensures records == map[] ==> GetProfile(r, DefaultProfileId, now) == LoadedProfile(Profile(DefaultProfileId, DefaultResume, Some(now)), true)
  {
    if records == map[] then
      DefaultResumeValid();
      SaveThenGet(records, DefaultProfileId, DefaultResume, now, now);
      map[DefaultProfileId := StoredProfile(DefaultProfileId, Encode(DefaultResume), Some(now))]
    else records
  }

  /** `init`'s choice: the remembered id when it is non-empty and stored, else `"default"`. */
  function InitialActive(stored: Option<string>, records: map<string, StoredProfile>): (id: string)
    ensures id == DefaultProfileId || (id in records && stored == Some(id))
    ensures stored.Some? && stored.value != "" && stored.value in records ==> id == stored.value
    ensures stored.None? || stored.value == "" || stored.value !in records ==> id == DefaultProfileId
  {
    var fromStorage := if stored.Some? && stored.value != "" then stored.value else DefaultProfileId;
    if fromStorage in records then fromStorage else DefaultProfileId
  }

  class ProfileSession {
    const db: ProfileStore
    /** The remembered active profile id. */
    var activeKey: Option<string>
    var profiles: seq<ProfileListItem>
    var profileId: string
    var resume: Resume
    var updatedAt: Option<string>
    var lastSavedAt: Option<string>
    var isValid: bool
    var saving: bool
    var isReady: bool

    ghost function View(): SessionView
      reads this
    {
      SessionView(profileId, resume, updatedAt, lastSavedAt, isValid)
    }

    /** The profile list mirrors the store, which is keyed by `profileId`. */
    ghost predicate Synced()
      reads this, db
    {
      db.KeyPathHolds() && IsListing(db.records, profiles)
    }

    /** The initial React state, before `init` has run. */
    constructor(db: ProfileStore, activeKey: Option<string>)
      ensures this.db == db && this.activeKey == activeKey
      ensures profiles == []
      ensures View() == SessionView(DefaultProfileId, DefaultResume, None, None, true)
      ensures !saving && !isReady
    {
      this.db := db;
      this.activeKey := activeKey;
      profiles := [];
      profileId := DefaultProfileId;
      resume := DefaultResume;
      updatedAt := None;
      lastSavedAt := None;
      isValid := true;
      saving := false;
      isReady := false;
    }

    /** `refreshProfiles`. */
    method Refresh()
      modifies this
      ensures IsListing(db.records, profiles)
      ensures View() == old(View()) && activeKey == old(activeKey)
      ensures saving == old(saving) && isReady == old(isReady)
    {
      profiles := db.List();
    }

    /** `loadProfile`. */
    method LoadProfile(nextProfileId: string, now: string)
      modifies this
      ensures View() == Loaded(GetProfile(db.records, nextProfileId, now))
      ensures profileId == nextProfileId
      ensures profiles == old(profiles) && activeKey == old(activeKey)
      ensures saving == old(saving) && isReady == old(isReady)
    {
      var loaded := GetProfile(db.records, nextProfileId, now);
      profileId := loaded.profile.profileId;
      resume := loaded.profile.resume;
      updatedAt := loaded.profile.updatedAt;
      isValid := loaded.isValid;
      lastSavedAt := loaded.profile.updatedAt;
    }

    /** `setActiveProfile`: load the profile, then remember it as active. */
    method SetActiveProfile(nextProfileId: string, now: string)
      modifies this
      ensures View() == Loaded(GetProfile(db.records, nextProfileId, now))
      ensures profileId == nextProfileId && activeKey == Some(nextProfileId)
      ensures profiles == old(profiles)
      ensures saving == old(saving) && isReady == old(isReady)
    {
      LoadProfile(nextProfileId, now);
      activeKey := Some(nextProfileId);
    }

    /** The first half of the start-up effect: list the profiles, and seed `"default"` into an empty store. */
    method SeedIfEmpty(now: string)
      requires db.KeyPathHolds()
      modifies this, db
      ensures Synced()
      ensures db.records == Seeded(old(db.records), now)
      ensures View() == old(View()) && activeKey == old(activeKey)
      ensures saving == old(saving) && isReady == old(isReady)
    {
      Refresh();
      if |profiles| == 0 {
        EmptyListing(db.records, profiles);
        var _ := db.Save(DefaultProfileId, DefaultResume, now);
        Refresh();
      } else {
        assert profiles[0].profileId in db.records;
      }
    }

    /** The second half of the start-up effect: choose the active id, remember it, load it, and mark the session ready. */
    method ActivateStored(now: string)
      requires Synced()
      modifies this
      ensures profileId == InitialActive(old(activeKey), db.records)
      ensures activeKey == Some(profileId)
      ensures View() == Loaded(GetProfile(db.records, profileId, now))
      ensures profiles == old(profiles) && saving == old(saving) && isReady
    {
      isReady := true;
      var fromStorage := if activeKey.Some? && activeKey.value != "" then activeKey.value else DefaultProfileId;
      ListedIffStored(db.records, profiles, fromStorage);
      var listed := fromStorage in Ids(profiles);
      var next := if listed then fromStorage else DefaultProfileId;
      activeKey := Some(next);
      LoadProfile(next, now);
    }

    /**
     * The start-up effect: seed a `"default"` profile into an empty store,
     * choose the active id, remember it and load it.
     */
    method Init(now: string)
      requires db.KeyPathHolds()
      modifies this, db
      ensures Synced()
      ensures db.records == Seeded(old(db.records), now)
      ensures profileId == InitialActive(old(activeKey), db.records)
      ensures activeKey == Some(profileId)
      ensures View() == Loaded(GetProfile(db.records, profileId, now))
      ensures isReady && saving == old(saving)
    {
      SeedIfEmpty(now);
      ActivateStored(now);
    }

    /**
     * `createProfile`: the trimmed name must be non-empty and new; then the
     * sample resume is stored under it and it becomes the active profile.
     */
    method CreateProfile(name: string, now: string) returns (result: CreateResult)
      requires Synced()
      modifies this, db
      ensures Synced()
      ensures Trim(name) == [] ==> result == CreateResult(false, Some(NameRequired)) && unchanged(this, db)
      ensures Trim(name) != [] && Trim(name) in old(db.records) ==>
                result == CreateResult(false, Some(AlreadyExists)) && unchanged(this, db)
      ensures Trim(name) != [] && Trim(name) !in old(db.records) ==>
                && result == CreateResult(true, None)
                && db.records == old(db.records)[Trim(name) := StoredProfile(Trim(name), Encode(DefaultResume), Some(now))]
                && activeKey == Some(Trim(name))
                && View() == SessionView(Trim(name), DefaultResume, Some(now), Some(now), true)
      ensures saving == old(saving) && isReady == old(isReady)
    {
      var trimmed := Trim(name);
      if trimmed == [] {
        return CreateResult(false, Some(NameRequired));
      }
      ListedIffStored(db.records, profiles, trimmed);
      if trimmed in Ids(profiles) {
        return CreateResult(false, Some(AlreadyExists));
      }
      AddDefaultProfile(trimmed, now);
      return CreateResult(true, None);
    }

    /** The success path of `createProfile`: store the sample resume under `id`, refresh the list and activate it. */
    method AddDefaultProfile(id: string, now: string)
      requires Synced()
      modifies this, db
      ensures Synced()
      ensures db.records == old(db.records)[id := StoredProfile(id, Encode(DefaultResume), Some(now))]
      ensures activeKey == Some(id)
      ensures View() == SessionView(id, DefaultResume, Some(now), Some(now), true)
      ensures saving == old(saving) && isReady == old(isReady)
    {
      ghost var before := db.records;
      var _ := db.Save(id, DefaultResume, now);
      Refresh();
      DefaultResumeValid();
      SaveThenGet(before, id, DefaultResume, now, now);
      SetActiveProfile(id, now);
    }

    /**
     * `deleteProfile`: `"default"` is never deleted. Deleting the active
     * profile switches to `"default"` when it is listed, else to the first
     * listed profile, else stays put.
     */
    method DeleteProfile(target: string, now: string)
      requires Synced()
      modifies this, db
      ensures Synced()
      ensures target == DefaultProfileId ==> unchanged(this, db)
      ensures target != DefaultProfileId ==> db.records == old(db.records) - {target}
      ensures target != DefaultProfileId && target != old(profileId) ==>
                View() == old(View()) && activeKey == old(activeKey)
      ensures target != DefaultProfileId && target == old(profileId) && db.records != map[] ==>
                && activeKey == Some(profileId)
                && View() == Loaded(GetProfile(db.records, profileId, now))
                && (DefaultProfileId in db.records ==> profileId == DefaultProfileId)
                && (DefaultProfileId !in db.records ==>
                      profileId in db.records && forall k :: k in db.records && k != profileId ==> Less(profileId, k))
      ensures target != DefaultProfileId && target == old(profileId) && db.records == map[] ==>
                View() == old(View()) && activeKey == old(activeKey)
      ensures saving == old(saving) && isReady == old(isReady)
    {
      if target == DefaultProfileId {
        return;
      }
      db.Delete(target);
      Refresh();
      if target == profileId {
        ListedIffStored(db.records, profiles, DefaultProfileId);
        if DefaultProfileId in Ids(profiles) {
          SetActiveProfile(DefaultProfileId, now);
        } else if |profiles| > 0 {
          ListingHeadLeast(db.records, profiles);
          SetActiveProfile(profiles[0].profileId, now);
        } else {
          EmptyListing(db.records, profiles);
        }
      }
    }

    /** `resetProfile`: the active profile goes back to the sample resume, in the session and in the store. */
    method ResetProfile(now: string)
      requires Synced()
      modifies this, db
      ensures Synced()
      ensures db.records == old(db.records)[profileId := StoredProfile(profileId, Encode(DefaultResume), Some(now))]
      ensures View() == SessionView(old(profileId), DefaultResume, Some(now), Some(now), true)
      ensures activeKey == old(activeKey) && saving == old(saving) && isReady == old(isReady)
    {
      resume := DefaultResume;
      updatedAt := Some(now);
      lastSavedAt := Some(now);
      isValid := true;
      var _ := db.Save(profileId, DefaultResume, now);
      Refresh();
    }

    /** `updateResume`: the edited resume replaces the session's, unsaved. */
    method UpdateResume(next: Resume)
      modifies this
      ensures View() == old(View()).(resume := next)
      ensures profiles == old(profiles) && activeKey == old(activeKey)
      ensures saving == old(saving) && isReady == old(isReady)
    {
      resume := next;
    }

    /**
     * `saveActiveProfile`: stores the given resume, or the session's, under
     * the active id. `storeFails` stands for a rejected `db.put`; `saving` is
     * false afterwards either way, and `ok` is false when the write failed.
     */
    method SaveActiveProfile(next: Option<Resume>, now: string, storeFails: bool) returns (ok: bool)
      requires Synced()
      modifies this, db
      ensures Synced()
      ensures ok == !storeFails && !saving
      ensures storeFails ==> db.records == old(db.records) && View() == old(View())
      ensures !storeFails ==>
                && db.records == old(db.records)[profileId := StoredProfile(profileId, Encode(next.GetOr(old(resume))), Some(now))]
                && View() == old(View()).(updatedAt := Some(now), lastSavedAt := Some(now))
      ensures !storeFails && Valid(next.GetOr(old(resume))) ==>
                GetProfile(db.records, profileId, now) == LoadedProfile(Profile(profileId, next.GetOr(old(resume)), Some(now)), true)
      ensures activeKey == old(activeKey) && isReady == old(isReady)
    {
      var payload := next.GetOr(resume);
      saving := true;
      if !storeFails {
        ghost var before := db.records;
        var _ := db.Save(profileId, payload, now);
        updatedAt := Some(now);
        lastSavedAt := Some(now);
        Refresh();
        if Valid(payload) {
          SaveThenGet(before, profileId, payload, now, now);
        }
      }
      saving := false;
      ok := !storeFails;
    }
  }
}
