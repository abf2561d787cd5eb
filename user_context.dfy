/** The user-profile store shared through a React context. */
module UserContext {
  import opened Wrappers

  datatype HousingType = Room | Apartment | Studio | House
  datatype SleepSchedule = Early | Night | Flexible
  datatype GenderPreference = AnyGender | SameGender | DifferentGender

  datatype Range = Range(min: int, max: int)

  datatype Personality = Personality(
    cleanliness: int,
    socialLevel: int,
    sleepSchedule: SleepSchedule,
    pets: bool,
    smoking: bool,
    cooking: int)

  datatype Preferences = Preferences(
    genderPreference: GenderPreference,
    ageRange: Range,
    lifestyle: seq<string>)

  datatype UserProfile = UserProfile(
    id: string,
    name: string,
    age: int,
    occupation: string,
    bio: string,
    location: string,
    housingType: HousingType,
    budget: Range,
    personality: Personality,
    preferences: Preferences,
    photos: seq<string>)

  /** `Partial<UserProfile>`: each top-level field may be supplied or not. */
  datatype ProfileUpdate = ProfileUpdate(
    id: Option<string>,
    name: Option<string>,
    age: Option<int>,
    occupation: Option<string>,
    bio: Option<string>,
    location: Option<string>,
    housingType: Option<HousingType>,
    budget: Option<Range>,
    personality: Option<Personality>,
    preferences: Option<Preferences>,
    photos: Option<seq<string>>)

  /** `{}`: no field supplied. */
  const NoUpdates: ProfileUpdate :=
    ProfileUpdate(None, None, None, None, None, None, None, None, None, None, None)

  /**
   * `{ ...user, ...updates }`: a shallow merge in which the supplied fields
   * win whole and every other field keeps its old value.
   */
  function Merge(u: UserProfile, p: ProfileUpdate): (r: UserProfile)
    ensures forall f :: Get(r, f) == if Supplied(p, f).Some? then Supplied(p, f).value else Get(u, f)
  {
    UserProfile(
      p.id.GetOr(u.id), p.name.GetOr(u.name), p.age.GetOr(u.age),
      p.occupation.GetOr(u.occupation), p.bio.GetOr(u.bio), p.location.GetOr(u.location),
      p.housingType.GetOr(u.housingType), p.budget.GetOr(u.budget),
      p.personality.GetOr(u.personality), p.preferences.GetOr(u.preferences),
      p.photos.GetOr(u.photos))
  }

  /** The names of the top-level fields. */
  datatype Field = Id | Name | Age | Occupation | Bio | Location | Housing | Budget
                 | PersonalityField | PreferencesField | Photos

  /** A top-level field's value, whatever its type. */
  datatype Value =
    | Text(s: string)
    | Number(n: int)
    | HousingValue(h: HousingType)
    | RangeValue(r: Range)
    | PersonalityValue(p: Personality)
    | PreferencesValue(q: Preferences)
    | TextList(xs: seq<string>)

  function Get(u: UserProfile, f: Field): Value {
    match f
    case Id => Text(u.id)
    case Name => Text(u.name)
    case Age => Number(u.age)
    case Occupation => Text(u.occupation)
    case Bio => Text(u.bio)
    case Location => Text(u.location)
    case Housing => HousingValue(u.housingType)
    case Budget => RangeValue(u.budget)
    case PersonalityField => PersonalityValue(u.personality)
    case PreferencesField => PreferencesValue(u.preferences)
    case Photos => TextList(u.photos)
  }

  /** The value an update supplies for a field, if any. */
  function Supplied(p: ProfileUpdate, f: Field): Option<Value> {
    match f
    case Id => if p.id.Some? then Some(Text(p.id.value)) else None
    case Name => if p.name.Some? then Some(Text(p.name.value)) else None
    case Age => if p.age.Some? then Some(Number(p.age.value)) else None
    case Occupation => if p.occupation.Some? then Some(Text(p.occupation.value)) else None
    case Bio => if p.bio.Some? then Some(Text(p.bio.value)) else None
    case Location => if p.location.Some? then Some(Text(p.location.value)) else None
    case Housing => if p.housingType.Some? then Some(HousingValue(p.housingType.value)) else None
    case Budget => if p.budget.Some? then Some(RangeValue(p.budget.value)) else None
    case PersonalityField =>
      if p.personality.Some? then Some(PersonalityValue(p.personality.value)) else None
    case PreferencesField =>
      if p.preferences.Some? then Some(PreferencesValue(p.preferences.value)) else None
    case Photos => if p.photos.Some? then Some(TextList(p.photos.value)) else None
  }

  /** Two profiles that agree on every top-level field are the same profile. */
  lemma FieldsDetermineProfile(u: UserProfile, w: UserProfile)
    requires forall f :: Get(u, f) == Get(w, f)
    ensures u == w
  {
    assert Get(u, Id) == Get(w, Id) && Get(u, Name) == Get(w, Name);
    assert Get(u, Age) == Get(w, Age) && Get(u, Occupation) == Get(w, Occupation);
    assert Get(u, Bio) == Get(w, Bio) && Get(u, Location) == Get(w, Location);
    assert Get(u, Housing) == Get(w, Housing) && Get(u, Budget) == Get(w, Budget);
    assert Get(u, PersonalityField) == Get(w, PersonalityField);
    assert Get(u, PreferencesField) == Get(w, PreferencesField);
    assert Get(u, Photos) == Get(w, Photos);
  }

  /**
   * The merge overrides exactly the supplied fields and keeps every other
   * one. A supplied nested record (budget, personality, preferences) replaces
   * the old one whole: nothing of the old record survives.
   */
  lemma MergeOverrides(u: UserProfile, p: ProfileUpdate)
    ensures forall f :: Supplied(p, f).Some? ==> Get(Merge(u, p), f) == Supplied(p, f).value
    ensures forall f :: Supplied(p, f).None? ==> Get(Merge(u, p), f) == Get(u, f)
  {
    forall f ensures Get(Merge(u, p), f) == if Supplied(p, f).Some? then Supplied(p, f).value else Get(u, f) {
      match f
      case Id =>
      case Name =>
      case Age =>
      case Occupation =>
      case Bio =>
      case Location =>
      case Housing =>
      case Budget =>
      case PersonalityField =>
      case PreferencesField =>
      case Photos =>
    }
  }

  /** Merging the same updates again changes nothing more. */
  lemma MergeIdempotent(u: UserProfile, p: ProfileUpdate)
    ensures Merge(Merge(u, p), p) == Merge(u, p)
  {
  }

  /** Empty updates leave the profile as it is. */
  lemma MergeNothing(u: UserProfile)
    ensures Merge(u, NoUpdates) == u
  {
  }

  /** The store behind `UserProvider`. */
  class UserStore {
    var user: Option<UserProfile>

    /** The provider starts without a user (`useState(null)`). */
    constructor ()
      ensures user == None
    {
      user := None;
    }

    /** `setUser`: the whole profile is replaced. */
    method SetUser(u: UserProfile)
      modifies this
      ensures user == Some(u)
    {
      user := Some(u);
    }

    /** `updateUser`: merge the updates into the current user; nothing happens without one. */
    method UpdateUser(updates: ProfileUpdate)
      modifies this
      ensures old(user).None? ==> user == None
      ensures old(user).Some? ==> user == Some(Merge(old(user).value, updates))
    {
      if user.Some? {
        user := Some(Merge(user.value, updates));
      }
    }
  }

  const OutsideProviderMessage: string := "useUser must be used within a UserProvider"

  /**
   * `useUser`: the nearest provider's store, or the error it throws when the
   * component is not inside a provider (`context` absent).
   */
  function UseUser(context: Option<UserStore>): (r: Result<UserStore, string>)
    ensures r.Failure? <==> context.None?
    ensures r.Failure? ==> r.error == OutsideProviderMessage
    ensures r.Success? ==> r.value == context.value
  {
    match context
    case None => Failure(OutsideProviderMessage)
    case Some(store) => Success(store)
  }
}
