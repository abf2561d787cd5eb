/** The swipe-style matching view: one roommate profile at a time, cycling through the list. */
module MatchingInterface {
  import opened Wrappers

  datatype Personality = Personality(
    cleanliness: int,
    socialLevel: int,
    sleepSchedule: string,
    pets: bool,
    smoking: bool)

  datatype RoommateProfile = RoommateProfile(
    id: string,
    name: string,
    age: int,
    occupation: string,
    bio: string,
    location: string,
    budget: int,
    compatibility: int,
    photos: seq<string>,
    personality: Personality,
    housingType: string)

  const MockProfiles: seq<RoommateProfile> := [
    RoommateProfile("1", "Sarah Chen", 26, "Software Developer",
      "Love cooking, hiking, and cozy movie nights. Looking for a clean, friendly roommate to share a beautiful apartment downtown.",
      "Downtown, Seattle", 1200, 92, ["photo-1649972904349-6e44c42644a7"],
      Personality(8, 6, "flexible", true, false), "2BR Apartment"),
    RoommateProfile("2", "Marcus Johnson", 24, "Graduate Student",
      "Quiet, studious, but enjoy good conversations. Looking for someone who appreciates a peaceful living environment.",
      "University District", 800, 87, ["photo-1721322800607-8c38375eef04"],
      Personality(9, 4, "early", false, false), "Shared House")
  ]

  /** `profiles[index]`: JavaScript gives `undefined` past the end. */
  function CurrentProfile(profiles: seq<RoommateProfile>, index: nat): (r: Option<RoommateProfile>)
    ensures r.None? <==> index >= |profiles|
    ensures r.Some? ==> index < |profiles| && r.value == profiles[index]
  {
    if index < |profiles| then Some(profiles[index]) else None
  }

  /** The empty-state view ("No more profiles") is shown exactly when there is no current profile. */
  predicate ShowsEmptyState(profiles: seq<RoommateProfile>, index: nat): (empty: bool)
    ensures empty <==> index >= |profiles|
  {
    CurrentProfile(profiles, index).None?
  }

  /** An empty list shows the empty state from the start. */
  lemma EmptyListShowsEmptyState(index: nat)
    ensures ShowsEmptyState([], index)
  {
  }

  /** The index after one swipe: advance, or go back to 0 after the last profile. */
  function NextIndex(index: nat, count: nat): (r: nat)
    requires index < count
    ensures r < count
    ensures r == (index + 1) % count
  {
    if index < count - 1 then index + 1 else 0
  }

  /** The index after `k` swipes starting at `index`. */
  function Swipes(index: nat, k: nat, count: nat): (r: nat)
    requires index < count
    ensures r < count
  {
    if k == 0 then index else NextIndex(Swipes(index, k - 1, count), count)
  }

  // ---------------------------------------------------------------------------
  // Arithmetic facts about Euclidean `%` used by `SwipesCycle`; they have no
  // counterpart in the component itself.

  lemma MulAtLeast(a: int, c: int)
    requires a >= 1 && c > 0
    ensures a * c >= c
  {
  }

  lemma Distrib(a: int, b: int, c: int)
    ensures (a - b) * c == a * c - b * c
  {
  }

  /** Euclidean division has one remainder: `q * c + r` with `0 <= r < c` leaves `r`. */
  lemma ModUnique(x: int, c: int, q: int, r: int)
    requires c > 0 && 0 <= r < c && x == q * c + r
    ensures x % c == r
  {
    var q', r' := x / c, x % c;
    assert x == q' * c + r';
    Distrib(q, q', c);
    Distrib(q', q, c);
    if q > q' {
      MulAtLeast(q - q', c);
    } else if q < q' {
      MulAtLeast(q' - q, c);
    }
  }

  /** Adding one after reducing modulo `count` is the same as reducing afterwards. */
  lemma ModSucc(p: nat, count: nat)
    requires count > 0
    ensures (p % count + 1) % count == (p + 1) % count
  {
    var q, r := p / count, p % count;
    if r + 1 < count {
      ModUnique(p + 1, count, q, r + 1);
      ModUnique(r + 1, count, 0, r + 1);
    } else {
      ModUnique(p + 1, count, q + 1, 0);
      ModUnique(r + 1, count, 1, 0);
    }
  }

  // ---------------------------------------------------------------------------

  /** Any number of swipes stays in range and lands `k` places further on, cyclically. */
  lemma {:induction false} SwipesCycle(index: nat, k: nat, count: nat)
    requires index < count
    ensures Swipes(index, k, count) == (index + k) % count
  {
    if k > 0 {
      SwipesCycle(index, k - 1, count);
      ModSucc(index + k - 1, count);
    }
  }

  /** "i of n" under the card: the position shown is between 1 and the count. */
  function CounterPosition(index: nat, count: nat): (position: nat)
    requires index < count
    ensures 1 <= position <= count
    ensures position - 1 == index
  {
    index + 1
  }

  /** The component's state. The profile list has no setter, so it is a constant. */
  class Matcher {
    const profiles: seq<RoommateProfile>
    var currentProfileIndex: nat

    /** The index is a position in the list, or 0 for an empty list. */
    ghost predicate Valid()
      reads this
    {
      currentProfileIndex == 0 || currentProfileIndex < |profiles|
    }

    /** The view over any profile list, starting at the first profile. */
    constructor (initial: seq<RoommateProfile>)
      ensures Valid()
      ensures profiles == initial && currentProfileIndex == 0
    {
      profiles := initial;
      currentProfileIndex := 0;
    }

    /** The component as mounted: `useState(mockProfiles)` and `useState(0)`. */
    constructor Mock()
      ensures Valid()
      ensures profiles == MockProfiles && currentProfileIndex == 0
    {
      profiles := MockProfiles;
      currentProfileIndex := 0;
    }

    /**
     * `handleSwipe(liked)`, behind both the Like and the Pass button. The
     * buttons are part of the card, which is only shown for a current
     * profile; `liked` only affects the log line.
     */
    method HandleSwipe(liked: bool)
      requires Valid() && currentProfileIndex < |profiles|
      modifies this
      ensures Valid() && currentProfileIndex < |profiles|
      ensures currentProfileIndex == NextIndex(old(currentProfileIndex), |profiles|)
    {
      if currentProfileIndex < |profiles| - 1 {
        currentProfileIndex := currentProfileIndex + 1;
      } else {
        currentProfileIndex := 0;
      }
    }
  }
}
