/** The lifestyle questionnaire: slider scores and four multi-select lists. */
module VibeQuestionnaire {
  import opened Lists

  datatype VibeData = VibeData(
    socialStyle: int,
    partyLevel: int,
    musicTaste: seq<string>,
    movieGenres: seq<string>,
    hobbies: seq<string>,
    lifestyle: seq<string>,
    workSchedule: string,
    guestPolicy: int,
    noiseLevel: int,
    cleaningStyle: int)

  const InitialVibe: VibeData := VibeData(5, 3, [], [], [], [], "flexible", 5, 5, 5)

  /** The four multi-select fields that `handleArrayToggle` may name. */
  datatype ListField = MusicTaste | MovieGenres | Hobbies | Lifestyle

  /** The four sliders the form offers (workSchedule and cleaningStyle have no input). */
  datatype ScaleField = SocialStyle | PartyLevel | GuestPolicy | NoiseLevel

  function GetList(v: VibeData, f: ListField): seq<string> {
    match f
    case MusicTaste => v.musicTaste
    case MovieGenres => v.movieGenres
    case Hobbies => v.hobbies
    case Lifestyle => v.lifestyle
  }

  function GetScale(v: VibeData, f: ScaleField): int {
    match f
    case SocialStyle => v.socialStyle
    case PartyLevel => v.partyLevel
    case GuestPolicy => v.guestPolicy
    case NoiseLevel => v.noiseLevel
  }

  /** The fields no list update touches. */
  predicate SameScalars(v: VibeData, w: VibeData) {
    v.socialStyle == w.socialStyle && v.partyLevel == w.partyLevel &&
    v.workSchedule == w.workSchedule && v.guestPolicy == w.guestPolicy &&
    v.noiseLevel == w.noiseLevel && v.cleaningStyle == w.cleaningStyle
  }

  /** `{ ...vibeData, [field]: xs }`: only the named list changes. */
  function WithList(v: VibeData, f: ListField, xs: seq<string>): (r: VibeData)
    ensures GetList(r, f) == xs
    ensures forall g :: g != f ==> GetList(r, g) == GetList(v, g)
    ensures SameScalars(r, v)
  {
    match f
    case MusicTaste => v.(musicTaste := xs)
    case MovieGenres => v.(movieGenres := xs)
    case Hobbies => v.(hobbies := xs)
    case Lifestyle => v.(lifestyle := xs)
  }

  /** `{ ...vibeData, [field]: x }` for a slider: only the named score changes. */
  function WithScale(v: VibeData, f: ScaleField, x: int): (r: VibeData)
    ensures GetScale(r, f) == x
    ensures forall g :: g != f ==> GetScale(r, g) == GetScale(v, g)
    ensures forall g :: GetList(r, g) == GetList(v, g)
    ensures r.workSchedule == v.workSchedule && r.cleaningStyle == v.cleaningStyle
  {
    match f
    case SocialStyle => v.(socialStyle := x)
    case PartyLevel => v.(partyLevel := x)
    case GuestPolicy => v.(guestPolicy := x)
    case NoiseLevel => v.(noiseLevel := x)
  }

  /**
   * The list computed by `handleArrayToggle`: drop every occurrence of a
   * present item, append an absent one.
   */
  function Toggle(xs: seq<string>, item: string): (r: seq<string>)
    ensures item in r <==> item !in xs
    ensures forall y :: y != item ==> multiset(r)[y] == multiset(xs)[y]
  {
    if item in xs then Remove(xs, item) else xs + [item]
  }

  /** Toggling an absent item appends it: one longer, the earlier elements untouched. */
  lemma ToggleAbsent(xs: seq<string>, item: string)
    requires item !in xs
    ensures |Toggle(xs, item)| == |xs| + 1
    ensures Toggle(xs, item)[..|xs|] == xs && Toggle(xs, item)[|xs|] == item
  {
  }

  /**
   * Toggling a present item removes all its occurrences; what remains keeps
   * its order (removal distributes over any split of the list).
   */
  lemma TogglePresent(xs: seq<string>, item: string)
    requires item in xs
    ensures item !in Toggle(xs, item)
    ensures |Toggle(xs, item)| == |xs| - multiset(xs)[item]
    ensures forall a, b :: xs == a + b ==> Toggle(xs, item) == Remove(a, item) + Remove(b, item)
  {
    forall a, b | xs == a + b ensures Toggle(xs, item) == Remove(a, item) + Remove(b, item) {
      RemoveAppend(a, b, item);
    }
  }

  /** Toggling an absent item twice gives the list back. */
  lemma ToggleTwiceAbsent(xs: seq<string>, item: string)
    requires item !in xs
    ensures Toggle(Toggle(xs, item), item) == xs
  {
    RemoveAppend(xs, [item], item);
    RemoveAbsent(xs, item);
  }

  /** Toggling a present item twice moves it, once, to the end. */
  lemma ToggleTwicePresent(xs: seq<string>, item: string)
    requires item in xs
    ensures Toggle(Toggle(xs, item), item) == Remove(xs, item) + [item]
  {
  }

  /** A duplicate-free list stays duplicate-free under toggling. */
  lemma ToggleNoDuplicates(xs: seq<string>, item: string)
    requires NoDuplicates(xs)
    ensures NoDuplicates(Toggle(xs, item))
  {
    var r := Toggle(xs, item);
    forall y ensures multiset(r)[y] <= 1 {
      if y != item {
        assert multiset(r)[y] == multiset(xs)[y];
      } else if item in xs {
        assert y !in r;
      } else {
        assert multiset(xs)[y] == 0;
        assert multiset(r) == multiset(xs) + multiset{item};
      }
    }
  }

  /** The component's state. */
  class Questionnaire {
    var vibeData: VibeData

    constructor ()
      ensures vibeData == InitialVibe
    {
      vibeData := InitialVibe;
    }

    /**
     * `handleArrayToggle(array, item, field)`: the toggled `list` (the `array` argument) becomes
     * the value of `field`. Every call site passes `vibeData[field]` as it.
     */
    method HandleArrayToggle(list: seq<string>, item: string, field: ListField)
      modifies this
      ensures vibeData == WithList(old(vibeData), field, Toggle(list, item))
    {
      vibeData := WithList(vibeData, field, Toggle(list, item));
    }

    /** A slider moved. */
    method SetScale(field: ScaleField, value: int)
      modifies this
      ensures vibeData == WithScale(old(vibeData), field, value)
    {
      vibeData := WithScale(vibeData, field, value);
    }

    /** `handleSubmit`: the collected data is handed to `onComplete`. */
    method HandleSubmit() returns (data: VibeData)
      ensures data == vibeData
    {
      data := vibeData;
    }
  }
}
