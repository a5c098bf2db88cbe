/**
  The app's profile value (`struct UserProfile`) and its decision status
  (`enum MatchStatus: String`), whose raw strings are what the cache stores.
 */
module UserProfileModel {
  import opened Wrappers

  /** A Foundation `UUID`: 128 bits, compared by value. */
  newtype Uuid = x: int | 0 <= x < 0x1_0000_0000_0000_0000_0000_0000_0000_0000

  datatype MatchStatus = Accepted | Declined | Pending

  /** The raw string a status is persisted as; decoding it gives the status back. */
  function RawValue(s: MatchStatus): (raw: string)
    ensures FromRawValue(raw) == Some(s)
  {
    match s
    case Accepted => "Accepted"
    case Declined => "Declined"
    case Pending => "Pending"
  }

  /**
    `MatchStatus(rawValue:)`: an exact, case-sensitive match against the three raw
    strings; anything else is unrecognised. It inverts `RawValue`.
   */
  function FromRawValue(raw: string): (r: Option<MatchStatus>)
    ensures r.Some? <==> raw == "Accepted" || raw == "Declined" || raw == "Pending"
    ensures r == Some(Accepted) <==> raw == "Accepted"
    ensures r == Some(Declined) <==> raw == "Declined"
    ensures r == Some(Pending) <==> raw == "Pending"
  {
    if raw == "Accepted" then Some(Accepted)
    else if raw == "Declined" then Some(Declined)
    else if raw == "Pending" then Some(Pending)
    else None
  }

  /** The three raw strings are distinct, so decoding an encoded status gives it back. */
  lemma RawValueRoundTrip(s: MatchStatus, t: MatchStatus)
    ensures FromRawValue(RawValue(s)) == Some(s)
    ensures RawValue(s) == RawValue(t) ==> s == t
  {
    match s
    case Accepted =>
    case Declined =>
    case Pending =>
  }

  /** Lower-case spellings are not raw values of any status. */
  lemma LowercaseRawValuesUnrecognised()
    ensures FromRawValue("accepted") == None
    ensures FromRawValue("declined") == None
    ensures FromRawValue("pending") == None
  {
  }

  /**
    A profile. `name`, `age`, `location` and `imageURL` are `let` constants;
    only `id` and `status` are variables.
   */
  datatype UserProfile = UserProfile(
    id: Uuid,
    name: string,
    age: int,
    location: string,
    imageURL: string,
    status: MatchStatus)
  {
    /** `profile.status = s`: the one in-place change the app makes to a profile. */
    function WithStatus(s: MatchStatus): (p: UserProfile)
      ensures p.status == s
      ensures p.id == id && p.name == name && p.age == age
      ensures p.location == location && p.imageURL == imageURL
    {
      this.(status := s)
    }
  }
}
