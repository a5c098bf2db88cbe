# MatchMate profile synchroniser in Dafny

MatchMate is an iOS client. It fetches a batch of random user profiles from a public API,
caches them in Core Data, and lets the user accept or decline each one. This project models
its core, the view model `MatchViewModel`, together with the `UserProfile` value it manages.
The view model keeps two tables in step: the published in-memory list `profiles`, and the
`UserProfileEntity` records of the managed object context.

- `Wrappers.dfy`: `Option`, which stands for Swift's optionals and `??`.
- `UserProfileModel.dfy`: the `Uuid` type, `MatchStatus` with its raw strings "Accepted",
  "Declined" and "Pending", and the exact, case-sensitive inverse `FromRawValue`. It also
  holds `UserProfile`, whose one in-place change is `WithStatus`.
- `MockAPIResponse.dfy`: the shape of the decoded API body (`APIUser` with name, dob,
  location and picture).
- `MatchViewModel.dfy` (module `ViewModel`) has four parts:
  - the `UserProfileEntity` record, with optional attributes and an `Int16` age;
  - the pure conversions: API user to profile, profile to inserted record, and record to
    profile (`convertToUserProfile`, with its defaults);
  - specification functions for the two status updates;
  - the class `MatchViewModel`, whose fields `profiles` and `context` are reassigned by
    `FetchProfiles`, `UpdateProfileStatus`, `LoadCachedProfiles` and `SaveProfilesToCache`.
    Each method's `ensures` gives its whole new state in terms of those functions. Lemmas
    then prove what the app promises of them.

Environment effects become parameters:
- the network outcome is `Response = Success(APIResponse) | Failure`;
- the UUIDs that `UUID()` would generate are a `seq<Uuid>`, whose i-th element goes to
  the i-th new profile, or to the i-th record when that record has no uuid;
- a failing context fetch is the flag `readFails`;
- a failing batch delete is the flag `deleteFails`.

`context` is the sequence of records a fetch on the managed object context returns. The
fetches set no sort order; the model fixes one, insertion order (see "Left out"). Deleted
records are gone from it. Inserted and modified ones are in it, saved or not. A failed `context.save()` leaves its changes pending in the context, where later
fetches still see them, so in this model a save failure changes nothing.

Three behaviours of the code that are easy to misread:
- A record with no stored status falls back to the lower-case string "pending". That string
  is not a raw value, so the status decodes to Pending anyway (`ConvertToUserProfile`,
  `LowercaseRawValuesUnrecognised`).
- A record with no uuid gets a new id on every load. So two loads in a row give the same list
  only when every record carries a uuid (`ReloadIsStable`). Every record the app itself
  writes carries one (`NewEntities`).
- A status update stores the raw value "Accepted", capitalised. The unit test at
  MatchMate/MatchMateUnitTests/MatchViewModelTest.swift:138 expects "accepted"; the model
  does not follow the test there.

## Model

| member | source | states |
|---|---|---|
| `UserProfileModel.FromRawValue` | MatchMate/MatchMate/Model/UserProfileModel.swift:17-21 | a string decodes to a status exactly when it is one of "Accepted", "Declined", "Pending", and each of those three strings decodes to its own case and to no other |
| `UserProfileModel.RawValue` | MatchMate/MatchMate/Model/UserProfileModel.swift:18-20 | the raw string of every status decodes back to that status |
| `UserProfileModel.RawValueRoundTrip` | MatchMate/MatchMate/Model/UserProfileModel.swift:17-21 | decoding an encoded status returns it, and distinct statuses have distinct raw values |
| `UserProfileModel.LowercaseRawValuesUnrecognised` | MatchMate/MatchMate/Model/UserProfileModel.swift:18-20 | "accepted", "declined" and "pending" are not raw values of any status |
| `UserProfileModel.UserProfile.WithStatus` | MatchMate/MatchMate/Model/UserProfileModel.swift:10-15 | a status change sets the status and leaves id, name, age, location and imageURL as they were |
| `ViewModel.FirstIndex` | MatchMate/MatchMate/ViewModel/MatchViewModel.swift:52 | the result is a matching position with no match before it, and there is none exactly when no element matches |
| `ViewModel.ProfileIndex` | MatchMate/MatchMate/ViewModel/MatchViewModel.swift:52 | the result is a position holding a profile with the id and no such profile before it; there is none exactly when no profile has the id |
| `ViewModel.EntityIndex` | MatchMate/MatchMate/ViewModel/MatchViewModel.swift:56-60 | the result is a position holding a record with that uuid and no such record before it; there is none exactly when no record has the uuid |
| `ViewModel.FirstIndexAgrees` | MatchMate/MatchMate/ViewModel/MatchViewModel.swift:52-60 | two searches whose predicates agree at every position find the same first position |
| `ViewModel.ProfilesFromAPI` | MatchMate/MatchMate/ViewModel/MatchViewModel.swift:29-40 | a successful fetch yields one profile per API user, in order: its fresh id, name first + " " + last, its age, city and large picture URL, status Pending; ages that fit Int16 in the response still fit in the list |
| `ViewModel.NewEntity` | MatchMate/MatchMate/ViewModel/MatchViewModel.swift:101-107 | the record written for a profile whose age fits Int16 decodes back to exactly that profile, whatever fresh id decoding is given |
| `ViewModel.NewEntities` | MatchMate/MatchMate/ViewModel/MatchViewModel.swift:100-108 | the cache save writes one record per profile, in order, with uuid, name, age, location, imageURL and the status's raw value all set from that profile |
| `ViewModel.ConvertToUserProfile` | MatchMate/MatchMate/ViewModel/MatchViewModel.swift:119-128 | decoding is total: stored attributes are kept; a missing name, location or imageURL becomes "", a missing uuid the fresh id; "Accepted", "Declined" and "Pending" map to their cases, and a missing or unrecognised status to Pending |
| `ViewModel.CachedProfiles` | MatchMate/MatchMate/ViewModel/MatchViewModel.swift:78-80 | a cache load yields one profile per record, in the order of the records, each the decoding of its record |
| `ViewModel.UpdatedProfiles` | MatchMate/MatchMate/ViewModel/MatchViewModel.swift:52-53 | the list keeps its length, and every entry is either unchanged or the same entry with the new status |
| `ViewModel.UpdatedEntities` | MatchMate/MatchMate/ViewModel/MatchViewModel.swift:56-61 | the records keep their number, and every record is either unchanged or the same record with the new raw status |
| `ViewModel.MatchViewModel.constructor` | MatchMate/MatchMate/ViewModel/MatchViewModel.swift:18-21 | the new view model holds the given context, and its list is the cache load of it, or empty when the read fails |
| `ViewModel.MatchViewModel.FetchProfiles` | MatchMate/MatchMate/ViewModel/MatchViewModel.swift:24-48 | on success the list becomes the fetched profiles and the records become those kept by a failed delete (none otherwise) followed by one new record per profile; on failure the records stay and the list is reloaded from them, or kept when the read fails |
| `ViewModel.MatchViewModel.UpdateProfileStatus` | MatchMate/MatchMate/ViewModel/MatchViewModel.swift:51-72 | the list becomes the list with the first profile with the id updated; the records change to the store update only when that profile exists and the read succeeds |
| `ViewModel.MatchViewModel.LoadCachedProfiles` | MatchMate/MatchMate/ViewModel/MatchViewModel.swift:75-84 | the list becomes the decoding of the records, or stays when the read fails; the records do not change |
| `ViewModel.MatchViewModel.SaveProfilesToCache` | MatchMate/MatchMate/ViewModel/MatchViewModel.swift:87-116 | the records become the old ones if the delete fails, or none if it succeeds, followed by one new record per profile in order |
| `ViewModel.FetchedIdsUnique` | MatchMate/MatchMate/ViewModel/MatchViewModel.swift:31-33 | with distinct fresh UUIDs, the fetched list has pairwise distinct ids |
| `ViewModel.FetchedCacheMirrorsResponse` | MatchMate/MatchMate/ViewModel/MatchViewModel.swift:29-41 | after a successful fetch (delete succeeding) the cache holds exactly one record per API user, with its new uuid, display fields and status string "Pending" |
| `ViewModel.FailedFetchOverEmptyStore` | MatchMate/MatchMateUnitTests/MatchViewModelTest.swift:103-116 | a new view model over an empty store, whose reads succeed, holds an empty list after a failed fetch |
| `ViewModel.UpdateChangesFirstMatchOnly` | MatchMate/MatchMate/ViewModel/MatchViewModel.swift:52-53 | the update keeps the length and every display field; with the id present only the first profile with it changes, and it gets the new status; with the id absent the list is unchanged |
| `ViewModel.UpdateWritesFirstRecordOnly` | MatchMate/MatchMate/ViewModel/MatchViewModel.swift:56-64 | the store update changes only status attributes: the first record with the uuid gets the raw value, every other record stays; with no such record the store is unchanged |
| `ViewModel.NewEntitiesAt` | MatchMate/MatchMate/ViewModel/MatchViewModel.swift:100-108 | the i-th saved record is the record written for the i-th profile |
| `ViewModel.SaveThenLoad` | MatchMate/MatchMate/ViewModel/MatchViewModel.swift:100-128 | saving a list (ages within Int16) and loading it back returns the same list: ids, names, ages, locations, image URLs and statuses |
| `ViewModel.EntityIndexMatchesProfileIndex` | MatchMate/MatchMate/ViewModel/MatchViewModel.swift:52-60 | in the records saved for a list, the first record with a uuid sits where the first profile with that id does |
| `ViewModel.CachedProfilesUpdateAt` | MatchMate/MatchMate/ViewModel/MatchViewModel.swift:80 | changing one record changes the reloaded list only at that position |
| `ViewModel.UpdateThenReload` | MatchMate/MatchMate/ViewModel/MatchViewModel.swift:53-61 | updating a saved list and its records, then reloading the cache, gives the updated list, so the reload shows the new status |
| `ViewModel.ReloadIsStable` | MatchMate/MatchMate/ViewModel/MatchViewModel.swift:119-121 | when every record has a uuid, a load does not depend on the fresh UUIDs, so repeated loads give the same list |
| `ViewModel.StatusesAgreeAfterUpdate` | MatchMate/MatchMate/ViewModel/MatchViewModel.swift:53-61 | after an update that finds both entries, the list entry and the decoded record carry the new status, and the record keeps its id |
| `ViewModel.OneUserFetched` | MatchMate/MatchMateUnitTests/MatchViewModelTest.swift:77-96 | a fetch of John Doe, 25, New York gives one Pending profile "John Doe" with age 25, city New York and picture https://example.com/image.jpg |

`ViewModel.FetchAcceptReloadScenario` has no contract of its own. As a client of the class,
it fetches one user, accepts them, reloads from the cache, and asserts that the profile comes
back Accepted.

## Left out

- The HTTP request (MatchMate/MatchMate/Helper/NetworkClient.swift, Alamofire at MatchViewModel.swift:25-27): it is external I/O. The fixed batch size of 10 is its parameter and is not modelled either; every outcome is the `Response` input.
- JSON decoding of the body: library behaviour. Only the decoded shape is modelled.
- Asynchronous completion and marshalling onto the main thread: each modelled operation runs as one sequential step.
- `objectWillChange.send()` and the `@Published` notifications: UI signalling with no state of its own.
- Log messages (`print`): they have no effect on state.
- Durability of `context.save()`: the model does not separate the persistent store from the context's pending changes. So it does not say what a later launch would read after a failed save.
- `NSBatchDeleteRequest` acts on the persistent store and bypasses the context. Objects the context has already registered, and changes to them not yet saved, are not modelled apart from the records.
- Fetch order: the fetch requests at MatchViewModel.swift:76 and :89 set no sort descriptors, so Core Data returns records in an unspecified order. The model fixes that order as insertion order, with records kept by a failed delete first and new records after them. The exact-order equalities of `SaveThenLoad`, `UpdateThenReload`, `CachedProfiles` and the failed-fetch reload rest on that choice; the source promises only that each record appears once.
- The `uuid == %@` predicate compares against `uuidString`: it is modelled as UUID equality.
- Random UUID generation: the UUIDs are parameters.
- `UserProfile`'s default `id = UUID()`: both constructions in the core pass an id explicitly (MatchViewModel.swift:33, :121), so the default is never reached there.
- `Codable` conformance of `UserProfile` and `MatchStatus`: nothing in the core encodes profiles.
- Swift's `Int` is 64 bits wide. Profile ages are unbounded `int`: no arithmetic is done on them, and the API's ages arrive already decoded.
- ViewModel.MatchViewModel.SaveProfilesToCache: requires every age to fit in Int16, because `Int16(profile.age)` (MatchViewModel.swift:104) traps otherwise.
- ViewModel.MatchViewModel.FetchProfiles: on success it requires every API age to fit in Int16, for the same trap.
- Persistence bootstrap (MatchMate/MatchMate/Helper/Persistence.swift), the SwiftUI views and the app entry point: container setup and rendering, with no synchronisation logic.
- The unit tests' mock network client and in-memory store: they are written against another version of the view model's initialiser. Their scenarios appear only as `OneUserFetched`, `FailedFetchOverEmptyStore` and `FetchAcceptReloadScenario`.
