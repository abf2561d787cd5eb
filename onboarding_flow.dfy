/** The four-step onboarding wizard that builds the user's profile. */
module OnboardingFlow {
  import opened Wrappers
  import U = UserContext

  /** The step titles; `step` indexes this list. */
  const Steps: seq<string> := ["Welcome", "Basic Info", "Personality", "Preferences"]

  /** The index of the last step, `steps.length - 1`. */
  const LastStep: nat := |Steps| - 1

  /** The wizard's form: a profile without its id. */
  datatype OnboardingForm = OnboardingForm(
    name: string,
    age: int,
    occupation: string,
    bio: string,
    location: string,
    housingType: U.HousingType,
    budget: U.Range,
    personality: U.Personality,
    preferences: U.Preferences,
    photos: seq<string>)

  const InitialForm: OnboardingForm := OnboardingForm(
    "", 25, "", "", "", U.Room, U.Range(500, 1500),
    U.Personality(5, 5, U.Flexible, false, false, 5),
    U.Preferences(U.AnyGender, U.Range(20, 35), []),
    [])

  /** `{ id, ...formData }`: the profile handed to `setUser` on completion. */
  function ToProfile(f: OnboardingForm, id: string): (u: U.UserProfile)
    ensures FormOf(u) == f && u.id == id
  {
    U.UserProfile(id, f.name, f.age, f.occupation, f.bio, f.location, f.housingType,
                f.budget, f.personality, f.preferences, f.photos)
  }

  /** The form a profile was built from: everything but the id. */
  function FormOf(u: U.UserProfile): OnboardingForm {
    OnboardingForm(u.name, u.age, u.occupation, u.bio, u.location, u.housingType,
                   u.budget, u.personality, u.preferences, u.photos)
  }

  /** Adding the id loses nothing: the form and the id can be read back, and vice versa. */
  lemma ToProfileRoundTrip(f: OnboardingForm, id: string, u: U.UserProfile)
    ensures FormOf(ToProfile(f, id)) == f && ToProfile(f, id).id == id
    ensures ToProfile(FormOf(u), u.id) == u
  {
  }

  // ---------------------------------------------------------------------------
  // Input handlers

  /** Every leaf of the form, nested ones included. */
  datatype Leaf =
    | Name | Age | Occupation | Bio | Location | Housing
    | BudgetMin | BudgetMax
    | Cleanliness | SocialLevel | Sleep | Pets | Smoking | Cooking
    | Gender | AgeMin | AgeMax | Lifestyle | Photos

  /** A leaf's value, whatever its type. */
  datatype Value =
    | Text(s: string)
    | Number(n: int)
    | Flag(b: bool)
    | HousingValue(h: U.HousingType)
    | SleepValue(z: U.SleepSchedule)
    | GenderValue(g: U.GenderPreference)
    | TextList(xs: seq<string>)

  function Get(f: OnboardingForm, l: Leaf): Value {
    match l
    case Name => Text(f.name)
    case Age => Number(f.age)
    case Occupation => Text(f.occupation)
    case Bio => Text(f.bio)
    case Location => Text(f.location)
    case Housing => HousingValue(f.housingType)
    case BudgetMin => Number(f.budget.min)
    case BudgetMax => Number(f.budget.max)
    case Cleanliness => Number(f.personality.cleanliness)
    case SocialLevel => Number(f.personality.socialLevel)
    case Sleep => SleepValue(f.personality.sleepSchedule)
    case Pets => Flag(f.personality.pets)
    case Smoking => Flag(f.personality.smoking)
    case Cooking => Number(f.personality.cooking)
    case Gender => GenderValue(f.preferences.genderPreference)
    case AgeMin => Number(f.preferences.ageRange.min)
    case AgeMax => Number(f.preferences.ageRange.max)
    case Lifestyle => TextList(f.preferences.lifestyle)
    case Photos => TextList(f.photos)
  }

  lemma SameBudget(f: OnboardingForm, g: OnboardingForm)
    requires Get(f, BudgetMin) == Get(g, BudgetMin) && Get(f, BudgetMax) == Get(g, BudgetMax)
    ensures f.budget == g.budget
  {
  }

  lemma SamePersonality(f: OnboardingForm, g: OnboardingForm)
    requires Get(f, Cleanliness) == Get(g, Cleanliness) && Get(f, SocialLevel) == Get(g, SocialLevel)
    requires Get(f, Sleep) == Get(g, Sleep) && Get(f, Pets) == Get(g, Pets)
    requires Get(f, Smoking) == Get(g, Smoking) && Get(f, Cooking) == Get(g, Cooking)
    ensures f.personality == g.personality
  {
  }

  lemma SamePreferences(f: OnboardingForm, g: OnboardingForm)
    requires Get(f, Gender) == Get(g, Gender) && Get(f, AgeMin) == Get(g, AgeMin)
    requires Get(f, AgeMax) == Get(g, AgeMax) && Get(f, Lifestyle) == Get(g, Lifestyle)
    ensures f.preferences == g.preferences
  {
  }

  lemma SameTopLevel(f: OnboardingForm, g: OnboardingForm)
    requires Get(f, Name) == Get(g, Name) && Get(f, Age) == Get(g, Age)
    requires Get(f, Occupation) == Get(g, Occupation) && Get(f, Bio) == Get(g, Bio)
    requires Get(f, Location) == Get(g, Location) && Get(f, Housing) == Get(g, Housing)
    requires Get(f, Photos) == Get(g, Photos)
    requires f.budget == g.budget && f.personality == g.personality && f.preferences == g.preferences
    ensures f == g
  {
  }

  /** Two forms that agree on every leaf are the same form. */
  lemma LeavesDetermineForm(f: OnboardingForm, g: OnboardingForm)
    requires forall l :: Get(f, l) == Get(g, l)
    ensures f == g
  {
    SameBudget(f, g);
    SamePersonality(f, g);
    SamePreferences(f, g);
    SameTopLevel(f, g);
  }

  /**
   * One input changed. Age, budget and age-range inputs deliver the parsed
   * number. Lifestyle and photos have no input.
   */
  datatype FormEdit =
    | SetName(name: string)
    | SetAge(age: int)
    | SetOccupation(occupation: string)
    | SetLocation(location: string)
    | SetBio(bio: string)
    | SetHousingType(housingType: U.HousingType)
    | SetCleanliness(cleanliness: int)
    | SetSocialLevel(socialLevel: int)
    | SetCooking(cooking: int)
    | SetSleepSchedule(sleepSchedule: U.SleepSchedule)
    | SetPets(pets: bool)
    | SetSmoking(smoking: bool)
    | SetBudgetMin(budgetMin: int)
    | SetBudgetMax(budgetMax: int)
    | SetGenderPreference(genderPreference: U.GenderPreference)
    | SetAgeMin(ageMin: int)
    | SetAgeMax(ageMax: int)

  /** The leaf an edit writes and the value it writes there. */
  function Target(e: FormEdit): (Leaf, Value) {
    match e
    case SetName(x) => (Name, Text(x))
    case SetAge(x) => (Age, Number(x))
    case SetOccupation(x) => (Occupation, Text(x))
    case SetLocation(x) => (Location, Text(x))
    case SetBio(x) => (Bio, Text(x))
    case SetHousingType(x) => (Housing, HousingValue(x))
    case SetCleanliness(x) => (Cleanliness, Number(x))
    case SetSocialLevel(x) => (SocialLevel, Number(x))
    case SetCooking(x) => (Cooking, Number(x))
    case SetSleepSchedule(x) => (Sleep, SleepValue(x))
    case SetPets(x) => (Pets, Flag(x))
    case SetSmoking(x) => (Smoking, Flag(x))
    case SetBudgetMin(x) => (BudgetMin, Number(x))
    case SetBudgetMax(x) => (BudgetMax, Number(x))
    case SetGenderPreference(x) => (Gender, GenderValue(x))
    case SetAgeMin(x) => (AgeMin, Number(x))
    case SetAgeMax(x) => (AgeMax, Number(x))
  }

  /**
   * `setFormData({ ...formData, ... })` as each input writes it, nested
   * records spread level by level: the edited leaf takes the new value and
   * every other leaf, siblings in the same nested record included, keeps its own.
   */
  function ApplyEdit(f: OnboardingForm, e: FormEdit): (r: OnboardingForm)
    ensures Get(r, Target(e).0) == Target(e).1
  {
    match e
    case SetName(x) => f.(name := x)
    case SetAge(x) => f.(age := x)
    case SetOccupation(x) => f.(occupation := x)
    case SetLocation(x) => f.(location := x)
    case SetBio(x) => f.(bio := x)
    case SetHousingType(x) => f.(housingType := x)
    case SetCleanliness(x) => f.(personality := f.personality.(cleanliness := x))
    case SetSocialLevel(x) => f.(personality := f.personality.(socialLevel := x))
    case SetCooking(x) => f.(personality := f.personality.(cooking := x))
    case SetSleepSchedule(x) => f.(personality := f.personality.(sleepSchedule := x))
    case SetPets(x) => f.(personality := f.personality.(pets := x))
    case SetSmoking(x) => f.(personality := f.personality.(smoking := x))
    case SetBudgetMin(x) => f.(budget := f.budget.(min := x))
    case SetBudgetMax(x) => f.(budget := f.budget.(max := x))
    case SetGenderPreference(x) => f.(preferences := f.preferences.(genderPreference := x))
    case SetAgeMin(x) =>
      f.(preferences := f.preferences.(ageRange := f.preferences.ageRange.(min := x)))
    case SetAgeMax(x) =>
      f.(preferences := f.preferences.(ageRange := f.preferences.ageRange.(max := x)))
  }

  /** The edited leaf takes the new value; every other leaf, siblings in the same nested record included, keeps its own. */
  lemma EditTouchesOneLeaf(f: OnboardingForm, e: FormEdit, l: Leaf)
    ensures Get(ApplyEdit(f, e), Target(e).0) == Target(e).1
    ensures l != Target(e).0 ==> Get(ApplyEdit(f, e), l) == Get(f, l)
  {
  }

  /** An edit changes its own leaf and nothing else. */
  lemma EditChangesOnlyItsLeaf(f: OnboardingForm, e: FormEdit)
    ensures Get(ApplyEdit(f, e), Target(e).0) == Target(e).1
    ensures forall l :: l != Target(e).0 ==> Get(ApplyEdit(f, e), l) == Get(f, l)
  {
    forall l ensures l != Target(e).0 ==> Get(ApplyEdit(f, e), l) == Get(f, l) {
      EditTouchesOneLeaf(f, e, l);
    }
  }

  // ---------------------------------------------------------------------------
  // What the wizard shows

  /**
   * The Continue button is disabled on the Basic Info step while the name is
   * empty: a name unblocks every step, and Complete Profile is never disabled.
   */
  predicate NextDisabled(step: nat, name: string): (disabled: bool)
    ensures disabled ==> step < LastStep && name == ""
    ensures name != "" ==> !disabled
  {
    step == 1 && name == ""
  }

  /** The Back button is shown from the second step on, exactly when the step heading is. */
  predicate BackShown(step: nat): (shown: bool)
    requires step <= LastStep
    ensures shown <==> Heading(step).Some?
  {
    step > 0
  }

  /** The progress dots: dot `i` is highlighted when `i <= step`. */
  function ProgressDots(step: nat): (dots: seq<bool>)
    ensures |dots| == |Steps|
    ensures forall i :: 0 <= i < |dots| ==> (dots[i] <==> i <= step)
  {
    seq(|Steps|, i => i <= step)
  }

  function CountTrue(bs: seq<bool>): nat {
    if bs == [] then 0 else (if bs[0] then 1 else 0) + CountTrue(bs[1..])
  }

  /** A list whose first `k` entries are set and the rest clear has `k` set entries. */
  lemma {:induction false} CountPrefix(bs: seq<bool>, k: nat)
    requires k <= |bs|
    requires forall i :: 0 <= i < |bs| ==> (bs[i] <==> i < k)
    ensures CountTrue(bs) == k
  {
    if bs != [] {
      var k' := if k == 0 then 0 else k - 1;
      forall i | 0 <= i < |bs[1..]| ensures bs[1..][i] <==> i < k' {
        assert bs[1..][i] == bs[i + 1];
      }
      CountPrefix(bs[1..], k');
    }
  }

  /** Exactly `step + 1` dots are highlighted. */
  lemma HighlightedDots(step: nat)
    requires step <= LastStep
    ensures CountTrue(ProgressDots(step)) == step + 1
  {
    CountPrefix(ProgressDots(step), step + 1);
  }

  /** The main button's caption. */
  function NextCaption(step: nat): (caption: string)
    ensures caption == "Complete Profile" <==> step == LastStep
    ensures caption == "Continue" <==> step != LastStep
  {
    if step == |Steps| - 1 then "Complete Profile" else "Continue"
  }

  /** The heading over the step: its title, from the second step on. */
  function Heading(step: nat): (h: Option<string>)
    requires step <= LastStep
    ensures h.Some? <==> step > 0
    ensures h.Some? ==> h.value == Steps[step]
  {
    if step > 0 then Some(Steps[step]) else None
  }

  /** The component's state. */
  class Onboarding {
    /** The store that `useUser()` returns. */
    const users: U.UserStore
    var step: nat
    var formData: OnboardingForm

    ghost predicate Valid()
      reads this
    {
      step <= LastStep
    }

    constructor (users: U.UserStore)
      ensures Valid()
      ensures this.users == users && step == 0 && formData == InitialForm
    {
      this.users := users;
      step := 0;
      formData := InitialForm;
    }

    /** One input changed. */
    method Edit(e: FormEdit)
      modifies this
      ensures formData == ApplyEdit(old(formData), e) && step == old(step)
    {
      formData := ApplyEdit(formData, e);
    }

    /**
     * `handleNext`: advance a step, or on the last step store the profile
     * (with the random `id` the caller supplies) through `setUser` and
     * report completion, which is the `onComplete` call. The button cannot
     * be pressed while it is disabled.
     */
    method HandleNext(id: string) returns (completed: bool)
      requires Valid() && !NextDisabled(step, formData.name)
      modifies this, users
      ensures Valid() && formData == old(formData)
      ensures completed <==> old(step) == LastStep
      ensures !completed ==> step == old(step) + 1 && users.user == old(users.user)
      ensures completed ==> step == old(step) && users.user == Some(ToProfile(formData, id))
    {
      if step < |Steps| - 1 {
        step := step + 1;
        completed := false;
      } else {
        users.SetUser(ToProfile(formData, id));
        completed := true;
      }
    }

    /** The Back button, shown only from the second step on. */
    method HandleBack()
      requires Valid() && BackShown(step)
      modifies this
      ensures Valid() && formData == old(formData)
      ensures step == old(step) - 1
    {
      step := step - 1;
    }
  }
}
