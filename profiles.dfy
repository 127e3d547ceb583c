/**
 * The profile store (src/lib/storage/profiles.ts over the `profiles` object
 * store of src/lib/storage/db.ts). The store is a map from `profileId`, its
 * key path, to the stored record; a record holds whatever resume JSON was
 * written, which may predate the current schema.
 */
module Profiles {
  import opened Wrappers
  import opened Json
  import opened Text
  import opened Schema

  datatype StoredProfile = StoredProfile(profileId: string, resume: Json, updatedAt: Option<string>)
  datatype Profile = Profile(profileId: string, resume: Resume, updatedAt: Option<string>)
  datatype LoadedProfile = LoadedProfile(profile: Profile, isValid: bool)
  datatype ProfileListItem = ProfileListItem(profileId: string, updatedAt: Option<string>)

  /**
   * `getProfile`: a missing record yields the sample resume, a record whose
   * resume fails the schema yields the sample resume flagged invalid, and
   * otherwise the parsed resume. `now` is the caller's current timestamp.
   */
  function GetProfile(records: map<string, StoredProfile>, profileId: string, now: string): (r: LoadedProfile)
    ensures r.profile.profileId == profileId
    ensures r.isValid <==> profileId !in records || Validate(records[profileId].resume).Some?
    ensures profileId !in records ==> r.profile == Profile(profileId, DefaultResume, Some(now))
    ensures profileId in records && !r.isValid ==>
              r.profile.resume == DefaultResume
              && r.profile.updatedAt == Some(records[profileId].updatedAt.GetOr(now))
    ensures profileId in records && r.isValid ==>
              Validate(records[profileId].resume) == Some(r.profile.resume)
              && r.profile.updatedAt == records[profileId].updatedAt
  {
    if profileId !in records then
      LoadedProfile(Profile(profileId, DefaultResume, Some(now)), true)
    else
      var record := records[profileId];
      match Validate(record.resume)
      case None => LoadedProfile(Profile(profileId, DefaultResume, Some(record.updatedAt.GetOr(now))), false)
      case Some(parsed) => LoadedProfile(Profile(profileId, parsed, record.updatedAt), true)
  }

  /** Whatever `getProfile` returns satisfies the schema: the parsed resume or the sample one. */
  lemma GetProfileValid(records: map<string, StoredProfile>, profileId: string, now: string)
    ensures Valid(GetProfile(records, profileId, now).profile.resume)
  {
    DefaultResumeValid();
  }

  /** Every record sits under its own `profileId` (the store's key path). */
  ghost predicate KeyedById(records: map<string, StoredProfile>) {
    forall k :: k in records ==> records[k].profileId == k
  }

  function ItemOf(records: map<string, StoredProfile>, k: string): ProfileListItem
    requires k in records
  {
    ProfileListItem(k, records[k].updatedAt)
  }

  /**
   * `items` is what `listProfiles` returns for `records`: one item per
   * record, carrying that record's timestamp, in ascending id order.
   */
  ghost predicate IsListing(records: map<string, StoredProfile>, items: seq<ProfileListItem>) {
    && (forall i :: 0 <= i < |items| ==> items[i].profileId in records && items[i] == ItemOf(records, items[i].profileId))
    && (forall k :: k in records ==> k in Ids(items))
    && (forall i, j :: 0 <= i < j < |items| ==> Less(items[i].profileId, items[j].profileId))
  }

  function Ids(items: seq<ProfileListItem>): (ids: seq<string>)
    ensures |ids| == |items| && forall i :: 0 <= i < |items| ==> ids[i] == items[i].profileId
  {
    seq(|items|, i requires 0 <= i < |items| => items[i].profileId)
  }

  /** A listing names each id at most once. */
  lemma ListingDistinct(records: map<string, StoredProfile>, items: seq<ProfileListItem>, i: int, j: int)
    requires IsListing(records, items)
    requires 0 <= i < |items| && 0 <= j < |items| && i != j
    ensures items[i].profileId != items[j].profileId
  {
    if i < j {
      LessIrreflexive(items[i].profileId);
    } else {
      LessIrreflexive(items[j].profileId);
    }
  }

  /** Only the empty store has an empty listing. */
  lemma EmptyListing(records: map<string, StoredProfile>, items: seq<ProfileListItem>)
    requires IsListing(records, items) && |items| == 0
    ensures records == map[]
  {
  }

  /** Two listings of one store start with the same item: the least id. */
  lemma ListingHead(records: map<string, StoredProfile>, a: seq<ProfileListItem>, b: seq<ProfileListItem>)
    requires IsListing(records, a) && IsListing(records, b) && |a| > 0
    ensures |b| > 0 && a[0] == b[0]
  {
    var ka := a[0].profileId;
    assert ka in Ids(b);
    var kb := b[0].profileId;
    if ka != kb {
      assert kb in Ids(a);
      var i :| 0 <= i < |b| && Ids(b)[i] == ka;
      var j :| 0 <= j < |a| && Ids(a)[j] == kb;
      LessAsymmetric(ka, kb);
    }
  }

  /** There is only one listing of a store: the sort is by a strict total order on ids. */
  lemma {:induction false} ListingUnique(records: map<string, StoredProfile>, a: seq<ProfileListItem>, b: seq<ProfileListItem>)
    requires IsListing(records, a) && IsListing(records, b)
    ensures a == b
    decreases |a|
  {
    if |a| == 0 {
      EmptyListing(records, a);
    } else {
      ListingHead(records, a, b);
      var rest := records - {a[0].profileId};
      RestListing(records, a, rest);
      RestListing(records, b, rest);
      ListingUnique(rest, a[1..], b[1..]);
      assert a == [a[0]] + a[1..] && b == [b[0]] + b[1..];
    }
  }

  /** An id is listed exactly when it is stored. */
  lemma ListedIffStored(records: map<string, StoredProfile>, items: seq<ProfileListItem>, k: string)
    requires IsListing(records, items)
    ensures k in Ids(items) <==> k in records
  {
    if k in Ids(items) {
      var i :| 0 <= i < |items| && Ids(items)[i] == k;
    }
  }

  /** The first item of a listing carries the least stored id. */
  lemma ListingHeadLeast(records: map<string, StoredProfile>, items: seq<ProfileListItem>)
    requires IsListing(records, items) && |items| > 0
    ensures items[0].profileId in records
    ensures forall k :: k in records && k != items[0].profileId ==> Less(items[0].profileId, k)
  {
    forall k | k in records && k != items[0].profileId
      ensures Less(items[0].profileId, k)
    {
      assert k in Ids(items);
      var j :| 0 <= j < |items| && Ids(items)[j] == k;
    }
  }

  /** Dropping the first item of a listing lists the store without its least id. */
  lemma RestListing(records: map<string, StoredProfile>, items: seq<ProfileListItem>, rest: map<string, StoredProfile>)
    requires IsListing(records, items) && |items| > 0
    requires rest == records - {items[0].profileId}
    ensures IsListing(rest, items[1..])
  {
    var t := items[1..];
    forall i | 0 <= i < |t|
      ensures t[i].profileId in rest && t[i] == ItemOf(rest, t[i].profileId)
    {
      ListingDistinct(records, items, 0, i + 1);
    }
    forall k | k in rest
      ensures k in Ids(t)
    {
      assert k in Ids(items);
      var i :| 0 <= i < |items| && Ids(items)[i] == k;
      assert Ids(t)[i - 1] == k;
    }
  }

  /** The object store: `db.put` and `db.delete` change it in place. */
  class ProfileStore {
    var records: map<string, StoredProfile>

    ghost predicate KeyPathHolds()
      reads this
    {
      KeyedById(records)
    }

    constructor(initial: map<string, StoredProfile>)
      ensures records == initial
    {
      records := initial;
    }

    /** `saveProfile`: writes the record under its id, replacing any earlier one. */
    method Save(profileId: string, resume: Resume, updatedAt: string) returns (record: StoredProfile)
      modifies this
      ensures record == StoredProfile(profileId, Encode(resume), Some(updatedAt))
      ensures records == old(records)[profileId := record]
      ensures old(KeyPathHolds()) ==> KeyPathHolds()
    {
      record := StoredProfile(profileId, Encode(resume), Some(updatedAt));
      records := records[profileId := record];
    }

    /** `deleteProfile`: removes that key, if present, and nothing else. */
    method Delete(profileId: string)
      modifies this
      ensures records == old(records) - {profileId}
      ensures old(KeyPathHolds()) ==> KeyPathHolds()
    {
      records := records - {profileId};
    }

    /**
     * `listProfiles`: one item per record, ascending by id. The sort is
     * modelled as repeated extraction of the least remaining id.
     */
    method List() returns (items: seq<ProfileListItem>)
      ensures IsListing(records, items)
    {
      var rest := records.Keys;
      items := [];
      while rest != {}
        invariant rest <= records.Keys
        invariant forall i :: 0 <= i < |items| ==>
                    items[i].profileId in records && items[i].profileId !in rest
                    && items[i] == ItemOf(records, items[i].profileId)
        invariant forall k :: k in records && k !in rest ==> k in Ids(items)
        invariant forall i, j :: 0 <= i < j < |items| ==> Less(items[i].profileId, items[j].profileId)
        invariant forall i, k :: 0 <= i < |items| && k in rest ==> Less(items[i].profileId, k)
        decreases rest
      {
        ghost var least := Least(rest);
        var m :| m in rest && forall j :: j in rest && j != m ==> Less(m, j);
        ghost var prev, prevRest := items, rest;
        items := items + [ItemOf(records, m)];
        rest := rest - {m};
        assert Ids(items) == Ids(prev) + [m];
      }
    }
  }

  /** Saving a resume that satisfies the schema and reading it back returns it, flagged valid. */
  lemma SaveThenGet(records: map<string, StoredProfile>, profileId: string, resume: Resume, updatedAt: string, now: string)
    requires Valid(resume)
    ensures GetProfile(records[profileId := StoredProfile(profileId, Encode(resume), Some(updatedAt))], profileId, now)
         == LoadedProfile(Profile(profileId, resume, Some(updatedAt)), true)
  {
    ValidateEncode(resume);
  }

  /** A saved resume that breaks the schema reads back as the sample resume flagged invalid, keeping its timestamp. */
  lemma SaveInvalidThenGet(records: map<string, StoredProfile>, profileId: string, resume: Resume, updatedAt: string, now: string)
    requires !Valid(resume)
    ensures GetProfile(records[profileId := StoredProfile(profileId, Encode(resume), Some(updatedAt))], profileId, now)
         == LoadedProfile(Profile(profileId, DefaultResume, Some(updatedAt)), false)
  {
    ValidateEncode(resume);
  }

  /** Writing or deleting one id leaves what every other id reads back unchanged. */
  lemma OtherIdsUnaffected(records: map<string, StoredProfile>, profileId: string, record: StoredProfile, other: string, now: string)
    requires other != profileId
    ensures GetProfile(records[profileId := record], other, now) == GetProfile(records, other, now)
    ensures GetProfile(records - {profileId}, other, now) == GetProfile(records, other, now)
  {
    assert (other in records[profileId := record]) == (other in records);
    assert (other in records - {profileId}) == (other in records);
  }
}
