/**
  The profile synchroniser. It keeps an in-memory list of profiles and the records of a
  Core Data context in step: a successful fetch replaces both, a failed fetch reloads the
  list from the records, and a status change is written to the first matching entry of
  each.

  The managed object context is modelled by the sequence of records a fetch on it returns.
  The fetches set no sort order; the model fixes it as insertion order. A failed
  `context.save()` leaves the changes pending in the context, where later fetches still see
  them, so it does not alter that sequence.
 */
module ViewModel {
  import opened Wrappers
  import opened UserProfileModel
  import opened MockAPIResponse

  /** Core Data's `Int16` attribute type. */
  newtype Int16 = x: int | FitsInt16(x)

  predicate FitsInt16(n: int) {
    -0x8000 <= n < 0x8000
  }

  /**
    A `UserProfileEntity` record. Its string and UUID attributes are optional; `age` is a
    scalar attribute and always present.
   */
  datatype UserProfileEntity = UserProfileEntity(
    uuid: Option<Uuid>,
    name: Option<string>,
    age: Int16,
    location: Option<string>,
    imageURL: Option<string>,
    status: Option<string>)

  /** The outcome of the API request: the decoded body, or any request or decoding error. */
  datatype Response = Success(data: APIResponse) | Failure

  // ---------------------------------------------------------------------------------------
  // Searching

  /** `firstIndex(where:)`: the least index whose element matches, if any. */
  function FirstIndex<T>(s: seq<T>, matches: T -> bool): (r: Option<nat>)
    ensures r.Some? ==> r.value < |s| && matches(s[r.value])
    ensures r.Some? ==> forall j :: 0 <= j < r.value ==> !matches(s[j])
    ensures r.None? <==> forall j :: 0 <= j < |s| ==> !matches(s[j])
  {
    if s == [] then None
    else if matches(s[0]) then Some(0)
    else match FirstIndex(s[1..], matches)
      case None => None
      case Some(i) => Some(i + 1)
  }

  /** Two searches whose predicates agree position by position stop at the same place. */
  lemma {:induction false} FirstIndexAgrees<S, T>(s: seq<S>, f: S -> bool, t: seq<T>, g: T -> bool)
    requires |s| == |t|
    requires forall j :: 0 <= j < |s| ==> f(s[j]) == g(t[j])
    ensures FirstIndex(s, f) == FirstIndex(t, g)
  {
    if s != [] && !f(s[0]) {
      FirstIndexAgrees(s[1..], f, t[1..], g);
    }
  }

  /** The position of the first profile with identifier `id`. */
  function ProfileIndex(ps: seq<UserProfile>, id: Uuid): (r: Option<nat>)
    ensures r.Some? ==> r.value < |ps| && ps[r.value].id == id
    ensures r.Some? ==> forall j :: 0 <= j < r.value ==> ps[j].id != id
    ensures r.None? <==> forall j :: 0 <= j < |ps| ==> ps[j].id != id
  {
    FirstIndex(ps, (p: UserProfile) => p.id == id)
  }

  /** The position of the first record whose `uuid` is `id` (the `uuid == %@` fetch). */
  function EntityIndex(rs: seq<UserProfileEntity>, id: Uuid): (r: Option<nat>)
    ensures r.Some? ==> r.value < |rs| && rs[r.value].uuid == Some(id)
    ensures r.Some? ==> forall j :: 0 <= j < r.value ==> rs[j].uuid != Some(id)
    ensures r.None? <==> forall j :: 0 <= j < |rs| ==> rs[j].uuid != Some(id)
  {
    FirstIndex(rs, (e: UserProfileEntity) => e.uuid == Some(id))
  }

  // ---------------------------------------------------------------------------------------
  // Conversions

  /**
    The list a successful fetch installs: one new profile per API user, in order, with a fresh
    id and status Pending. Ages are carried over, so they fit Int16 when the API's do.
   */
  function ProfilesFromAPI(results: seq<APIUser>, freshIds: seq<Uuid>): (r: seq<UserProfile>)
    requires |freshIds| >= |results|
    ensures |r| == |results|
    ensures forall i :: 0 <= i < |results| ==>
      && r[i].id == freshIds[i]
      && r[i].name == results[i].name.first + " " + results[i].name.last
      && r[i].age == results[i].dob.age
      && r[i].location == results[i].location.city
      && r[i].imageURL == results[i].picture.large
      && r[i].status == Pending
    ensures (forall u :: u in results ==> FitsInt16(u.dob.age)) ==> AgesFitInt16(r)
  {
    if results == [] then []
    else
      var u := results[0];
      [UserProfile(freshIds[0], u.name.first + " " + u.name.last, u.dob.age, u.location.city,
                   u.picture.large, Pending)]
      + ProfilesFromAPI(results[1..], freshIds[1..])
  }

  predicate AgesFitInt16(ps: seq<UserProfile>) {
    forall p :: p in ps ==> FitsInt16(p.age)
  }

  /**
    The record the cache-save loop inserts for one profile (`Int16(age)` traps outside its
    range). Whatever fresh id decoding is given, the record decodes back to the profile.
   */
  function NewEntity(p: UserProfile): (r: UserProfileEntity)
    requires FitsInt16(p.age)
    ensures forall freshId :: ConvertToUserProfile(r, freshId) == p
  {
    UserProfileEntity(Some(p.id), Some(p.name), p.age as Int16, Some(p.location),
                      Some(p.imageURL), Some(RawValue(p.status)))
  }

  /** The records inserted for a list of profiles: one per profile, in order, every field set. */
  function NewEntities(ps: seq<UserProfile>): (r: seq<UserProfileEntity>)
    requires AgesFitInt16(ps)
    ensures |r| == |ps|
    ensures forall i :: 0 <= i < |ps| ==>
      && r[i].uuid == Some(ps[i].id)
      && r[i].name == Some(ps[i].name)
      && r[i].age as int == ps[i].age
      && r[i].location == Some(ps[i].location)
      && r[i].imageURL == Some(ps[i].imageURL)
      && r[i].status == Some(RawValue(ps[i].status))
  {
    if ps == [] then [] else [NewEntity(ps[0])] + NewEntities(ps[1..])
  }

  /**
    `convertToUserProfile`: total. A missing string becomes "", a missing uuid the fresh id,
    and a missing status the lower-case "pending", which like every other string that is not
    a raw value yields Pending.
   */
  function ConvertToUserProfile(entity: UserProfileEntity, freshId: Uuid): (p: UserProfile)
    ensures p.id == if entity.uuid.Some? then entity.uuid.value else freshId
    ensures p.name == if entity.name.Some? then entity.name.value else ""
    ensures p.age == entity.age as int
    ensures p.location == if entity.location.Some? then entity.location.value else ""
    ensures p.imageURL == if entity.imageURL.Some? then entity.imageURL.value else ""
    ensures entity.status == Some("Accepted") ==> p.status == Accepted
    ensures entity.status == Some("Declined") ==> p.status == Declined
    ensures entity.status == Some("Pending") ==> p.status == Pending
    ensures entity.status.None? || FromRawValue(entity.status.value).None? ==> p.status == Pending
  {
    UserProfile(
      entity.uuid.GetOr(freshId),
      entity.name.GetOr(""),
      entity.age as int,
      entity.location.GetOr(""),
      entity.imageURL.GetOr(""),
      FromRawValue(entity.status.GetOr("pending")).GetOr(Pending))
  }

  /** The list a cache load installs: one profile per record, in the order of the records. */
  function CachedProfiles(rs: seq<UserProfileEntity>, freshIds: seq<Uuid>): (r: seq<UserProfile>)
    requires |freshIds| >= |rs|
    ensures |r| == |rs|
    ensures forall i :: 0 <= i < |rs| ==> r[i] == ConvertToUserProfile(rs[i], freshIds[i])
  {
    if rs == [] then [] else [ConvertToUserProfile(rs[0], freshIds[0])] + CachedProfiles(rs[1..], freshIds[1..])
  }

  // ---------------------------------------------------------------------------------------
  // Status updates

  /**
    The list after `profiles[index].status = status` at the first profile with `id`: every
    entry is either unchanged or that entry with the new status.
   */
  function UpdatedProfiles(ps: seq<UserProfile>, id: Uuid, status: MatchStatus): (r: seq<UserProfile>)
    ensures |r| == |ps|
    ensures forall j :: 0 <= j < |ps| ==> r[j] == ps[j] || r[j] == ps[j].WithStatus(status)
  {
    match ProfileIndex(ps, id)
    case None => ps
    case Some(i) => ps[i := ps[i].WithStatus(status)]
  }

  /**
    The records after `entityToUpdate.status = status.rawValue` at the first record with `id`:
    every record is either unchanged or that record with the new raw status.
   */
  function UpdatedEntities(rs: seq<UserProfileEntity>, id: Uuid, status: MatchStatus): (r: seq<UserProfileEntity>)
    ensures |r| == |rs|
    ensures forall j :: 0 <= j < |rs| ==> r[j] == rs[j] || r[j] == rs[j].(status := Some(RawValue(status)))
  {
    match EntityIndex(rs, id)
    case None => rs
    case Some(j) => rs[j := rs[j].(status := Some(RawValue(status)))]
  }

  // ---------------------------------------------------------------------------------------
  // The synchroniser

  class MatchViewModel {
    /** The published, in-memory list. */
    var profiles: seq<UserProfile>
    /** The records of the managed object context. */
    var context: seq<UserProfileEntity>

    /** `init(context:)`: start with an empty list, then load the cache into it. */
    constructor (context: seq<UserProfileEntity>, readFails: bool, freshIds: seq<Uuid>)
      requires |freshIds| >= |context|
      ensures this.context == context
      ensures profiles == if readFails then [] else CachedProfiles(context, freshIds)
    {
      this.context := context;
      profiles := [];
      new;
      LoadCachedProfiles(readFails, freshIds);
    }

    /**
      `fetchProfiles`, from the point where the response arrives. On success the list becomes
      the new profiles and the cache is replaced by them; on failure the list is reloaded from
      the cache, which is left as it was.
     */
    method FetchProfiles(response: Response, freshIds: seq<Uuid>, deleteFails: bool, readFails: bool)
      requires response.Success? ==> |freshIds| >= |response.data.results|
      requires response.Success? ==> forall u :: u in response.data.results ==> FitsInt16(u.dob.age)
      requires response.Failure? ==> |freshIds| >= |context|
      modifies this
      ensures response.Success? ==>
        && profiles == ProfilesFromAPI(response.data.results, freshIds)
        && context == (if deleteFails then old(context) else []) + NewEntities(profiles)
      ensures response.Failure? ==>
        && context == old(context)
        && profiles == if readFails then old(profiles) else CachedProfiles(old(context), freshIds)
    {
      match response
      case Success(data) =>
        profiles := ProfilesFromAPI(data.results, freshIds);
        SaveProfilesToCache(profiles, deleteFails);
      case Failure =>
        LoadCachedProfiles(readFails, freshIds);
    }

    /**
      `updateProfileStatus`: when a profile with the given id is in the list, set the status of
      the first such profile, then of the first record with that uuid, if the fetch for it
      succeeds and finds one. Otherwise nothing changes.
     */
    method UpdateProfileStatus(profile: UserProfile, status: MatchStatus, readFails: bool)
      modifies this
      ensures profiles == UpdatedProfiles(old(profiles), profile.id, status)
      ensures context ==
        if readFails || ProfileIndex(old(profiles), profile.id).None? then old(context)
        else UpdatedEntities(old(context), profile.id, status)
    {
      var index := ProfileIndex(profiles, profile.id);
      if index.Some? {
        profiles := profiles[index.value := profiles[index.value].WithStatus(status)];
        if !readFails {
          var entityIndex := EntityIndex(context, profile.id);
          if entityIndex.Some? {
            var j := entityIndex.value;
            context := context[j := context[j].(status := Some(RawValue(status)))];
          }
        }
      }
    }

    /** `loadCachedProfiles`: replace the list by the decoded records, unless the fetch fails. */
    method LoadCachedProfiles(readFails: bool, freshIds: seq<Uuid>)
      requires |freshIds| >= |context|
      modifies this`profiles
      ensures profiles == if readFails then old(profiles) else CachedProfiles(context, freshIds)
    {
      if !readFails {
        profiles := CachedProfiles(context, freshIds);
      }
    }

    /**
      `saveProfilesToCache`: a batch delete of every record (which may fail, leaving them in
      place), then one inserted record per profile, in order.
     */
    method SaveProfilesToCache(ps: seq<UserProfile>, deleteFails: bool)
      requires AgesFitInt16(ps)
      modifies this`context
      ensures context == (if deleteFails then old(context) else []) + NewEntities(ps)
    {
      if !deleteFails {
        context := [];
      }
      ghost var kept := context;
      var i := 0;
      while i < |ps|
        invariant 0 <= i <= |ps|
        invariant |context| == |kept| + i
        invariant context[..|kept|] == kept
        invariant forall k :: 0 <= k < i ==> context[|kept| + k] == NewEntity(ps[k])
      {
        assert ps[i] in ps;
        context := context + [NewEntity(ps[i])];
        i := i + 1;
      }
      ghost var inserted := NewEntities(ps);
      assert forall k :: 0 <= k < |ps| ==> inserted[k] == NewEntity(ps[k]);
      assert context == kept + inserted;
    }
  }

  // ---------------------------------------------------------------------------------------
  // Properties

  /** Identifiers are pairwise distinct. */
  predicate UniqueIds(ps: seq<UserProfile>) {
    forall i, j :: 0 <= i < j < |ps| ==> ps[i].id != ps[j].id
  }

  /** Given distinct fresh UUIDs, a successful fetch yields a list with unique ids. */
  lemma FetchedIdsUnique(results: seq<APIUser>, freshIds: seq<Uuid>)
    requires |freshIds| >= |results|
    requires forall i, j :: 0 <= i < j < |freshIds| ==> freshIds[i] != freshIds[j]
    ensures UniqueIds(ProfilesFromAPI(results, freshIds))
  {
    var r := ProfilesFromAPI(results, freshIds);
    forall i, j | 0 <= i < j < |r| ensures r[i].id != r[j].id {
      assert r[i].id == freshIds[i] && r[j].id == freshIds[j];
    }
  }

  /**
    After a successful fetch whose delete succeeded, the cache holds exactly one record per
    API user, in order, each with the new profile's uuid and the status string "Pending".
   */
  lemma FetchedCacheMirrorsResponse(results: seq<APIUser>, freshIds: seq<Uuid>)
    requires |freshIds| >= |results|
    requires forall u :: u in results ==> FitsInt16(u.dob.age)
    ensures var rs := NewEntities(ProfilesFromAPI(results, freshIds));
      && |rs| == |results|
      && forall i :: 0 <= i < |results| ==>
        && rs[i].uuid == Some(freshIds[i])
        && rs[i].name == Some(results[i].name.first + " " + results[i].name.last)
        && rs[i].age as int == results[i].dob.age
        && rs[i].location == Some(results[i].location.city)
        && rs[i].imageURL == Some(results[i].picture.large)
        && rs[i].status == Some("Pending")
  {
  }

  /**
    The status update changes only the status of the first profile with the id; the length,
    every other profile and every other field stay. With the id absent nothing changes.
   */
  lemma UpdateChangesFirstMatchOnly(ps: seq<UserProfile>, id: Uuid, status: MatchStatus)
    ensures var r := UpdatedProfiles(ps, id, status);
      && |r| == |ps|
      && (forall j :: 0 <= j < |ps| ==>
            r[j].id == ps[j].id && r[j].name == ps[j].name && r[j].age == ps[j].age
            && r[j].location == ps[j].location && r[j].imageURL == ps[j].imageURL)
      && ((forall j :: 0 <= j < |ps| ==> ps[j].id != id) ==> r == ps)
      && (forall i :: 0 <= i < |ps| && ps[i].id == id && (forall j :: 0 <= j < i ==> ps[j].id != id) ==>
            r[i].status == status && forall j :: 0 <= j < |ps| && j != i ==> r[j] == ps[j])
  {
    match ProfileIndex(ps, id)
    case None =>
    case Some(k) =>
      forall i | 0 <= i < |ps| && ps[i].id == id && (forall j :: 0 <= j < i ==> ps[j].id != id)
        ensures i == k
      {
      }
  }

  /**
    The store update writes the raw status into the first record with the uuid and leaves
    every other record, and every other attribute, as it was; with no such record, nothing
    changes.
   */
  lemma UpdateWritesFirstRecordOnly(rs: seq<UserProfileEntity>, id: Uuid, status: MatchStatus)
    ensures var r := UpdatedEntities(rs, id, status);
      && |r| == |rs|
      && (forall j :: 0 <= j < |rs| ==> r[j] == rs[j].(status := r[j].status))
      && ((forall j :: 0 <= j < |rs| ==> rs[j].uuid != Some(id)) ==> r == rs)
      && (forall i :: 0 <= i < |rs| && rs[i].uuid == Some(id) && (forall j :: 0 <= j < i ==> rs[j].uuid != Some(id)) ==>
            r[i].status == Some(RawValue(status)) && forall j :: 0 <= j < |rs| && j != i ==> r[j] == rs[j])
  {
    match EntityIndex(rs, id)
    case None =>
    case Some(k) =>
      forall i | 0 <= i < |rs| && rs[i].uuid == Some(id) && (forall j :: 0 <= j < i ==> rs[j].uuid != Some(id))
        ensures i == k
      {
      }
  }

  /** The i-th record saved for a list is the record saved for its i-th profile. */
  lemma NewEntitiesAt(ps: seq<UserProfile>, i: nat)
    requires AgesFitInt16(ps)
    requires i < |ps|
    ensures NewEntities(ps)[i] == NewEntity(ps[i])
  {
    assert ps[i] in ps;
  }

  /** Saving a list and loading it back gives the same list, whatever fresh ids the load has. */
  lemma SaveThenLoad(ps: seq<UserProfile>, freshIds: seq<Uuid>)
    requires AgesFitInt16(ps)
    requires |freshIds| >= |ps|
    ensures CachedProfiles(NewEntities(ps), freshIds) == ps
  {
    var r := CachedProfiles(NewEntities(ps), freshIds);
    forall i | 0 <= i < |ps| ensures r[i] == ps[i] {
      NewEntitiesAt(ps, i);
    }
  }

  /** The records written for a list find the same first position for an id as the list does. */
  lemma EntityIndexMatchesProfileIndex(ps: seq<UserProfile>, id: Uuid)
    requires AgesFitInt16(ps)
    ensures EntityIndex(NewEntities(ps), id) == ProfileIndex(ps, id)
  {
    var rs := NewEntities(ps);
    FirstIndexAgrees(rs, (e: UserProfileEntity) => e.uuid == Some(id), ps, (p: UserProfile) => p.id == id);
  }

  /** Writing one record and reloading differs from reloading only at that profile. */
  lemma CachedProfilesUpdateAt(rs: seq<UserProfileEntity>, k: nat, e: UserProfileEntity, freshIds: seq<Uuid>)
    requires k < |rs| <= |freshIds|
    ensures CachedProfiles(rs[k := e], freshIds)
            == CachedProfiles(rs, freshIds)[k := ConvertToUserProfile(e, freshIds[k])]
  {
    var a, b := CachedProfiles(rs[k := e], freshIds), CachedProfiles(rs, freshIds)[k := ConvertToUserProfile(e, freshIds[k])];
    forall i | 0 <= i < |rs| ensures a[i] == b[i] {
    }
  }

  /**
    A status update applied to a saved list and to its records, followed by a cache reload,
    gives the updated list: the reload shows the new status, not Pending.
   */
  lemma UpdateThenReload(ps: seq<UserProfile>, id: Uuid, status: MatchStatus, freshIds: seq<Uuid>)
    requires AgesFitInt16(ps)
    requires |freshIds| >= |ps|
    ensures CachedProfiles(UpdatedEntities(NewEntities(ps), id, status), freshIds)
            == UpdatedProfiles(ps, id, status)
  {
    var rs := NewEntities(ps);
    EntityIndexMatchesProfileIndex(ps, id);
    SaveThenLoad(ps, freshIds);
    match ProfileIndex(ps, id)
    case None =>
    case Some(k) =>
      var updated := ps[k].WithStatus(status);
      NewEntitiesAt(ps, k);
      assert rs[k].(status := Some(RawValue(status))) == NewEntity(updated);
      CachedProfilesUpdateAt(rs, k, NewEntity(updated), freshIds);
  }

  /**
    When every record carries a uuid, a cache load does not depend on the fresh ids, so two
    loads with no write between them give the same list. Records saved by the app all carry one.
   */
  lemma ReloadIsStable(rs: seq<UserProfileEntity>, freshIds1: seq<Uuid>, freshIds2: seq<Uuid>)
    requires |freshIds1| >= |rs| && |freshIds2| >= |rs|
    requires forall r :: r in rs ==> r.uuid.Some?
    ensures CachedProfiles(rs, freshIds1) == CachedProfiles(rs, freshIds2)
  {
    var a, b := CachedProfiles(rs, freshIds1), CachedProfiles(rs, freshIds2);
    forall i | 0 <= i < |rs| ensures a[i] == b[i] {
      assert rs[i] in rs;
    }
  }

  /**
    After a status update with the id in the list and a matching record found, the list entry
    and the record decode to the same, new, status.
   */
  lemma StatusesAgreeAfterUpdate(ps: seq<UserProfile>, rs: seq<UserProfileEntity>, id: Uuid,
                                 status: MatchStatus, freshId: Uuid)
    requires ProfileIndex(ps, id).Some? && EntityIndex(rs, id).Some?
    ensures var i, j := ProfileIndex(ps, id).value, EntityIndex(rs, id).value;
      && UpdatedProfiles(ps, id, status)[i].status == status
      && ConvertToUserProfile(UpdatedEntities(rs, id, status)[j], freshId).status == status
      && ConvertToUserProfile(UpdatedEntities(rs, id, status)[j], freshId).id == id
  {
    RawValueRoundTrip(status, status);
  }

  /** The fetch scenario with one API user. */
  lemma OneUserFetched(freshId: Uuid)
    ensures var john := APIUser(APIName("John", "Doe"), APIDob(25), APILocation("New York"),
                                APIPicture("https://example.com/image.jpg"));
      ProfilesFromAPI([john], [freshId])
      == [UserProfile(freshId, "John Doe", 25, "New York", "https://example.com/image.jpg", Pending)]
  {
    assert "John" + " " + "Doe" == "John Doe";
  }

  /**
    A failed fetch on a new view model over an empty store, whose reads succeed, leaves the
    list empty.
   */
  method FailedFetchOverEmptyStore() returns (listed: seq<UserProfile>)
    ensures listed == []
  {
    var vm := new MatchViewModel([], false, []);
    vm.FetchProfiles(Failure, [], false, false);
    listed := vm.profiles;
  }

  /** Fetch, accept, then reload from the cache: the reloaded profile is Accepted. */
  method FetchAcceptReloadScenario(freshId: Uuid, reloadId: Uuid)
  {
    var vm := new MatchViewModel([], false, []);
    var john := APIUser(APIName("John", "Doe"), APIDob(25), APILocation("New York"),
                        APIPicture("https://example.com/image.jpg"));
    vm.FetchProfiles(Success(APIResponse([john])), [freshId], false, false);
    OneUserFetched(freshId);
    assert vm.profiles == [UserProfile(freshId, "John Doe", 25, "New York", "https://example.com/image.jpg", Pending)];
    assert |vm.context| == 1;
    vm.UpdateProfileStatus(vm.profiles[0], Accepted, false);
    assert vm.profiles[0].status == Accepted;
    UpdateThenReload([UserProfile(freshId, "John Doe", 25, "New York", "https://example.com/image.jpg", Pending)],
                     freshId, Accepted, [reloadId]);
    vm.LoadCachedProfiles(false, [reloadId]);
    assert vm.profiles == [UserProfile(freshId, "John Doe", 25, "New York", "https://example.com/image.jpg", Accepted)];
  }
}
