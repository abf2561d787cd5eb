/** The top-level page: which screen is shown, moving from sign-in to the dashboard. */
module Index {
  import opened VibeQuestionnaire

  datatype AuthStep = Auth | Onboarding | Vibe | Dashboard

  datatype Screen = AuthPage | OnboardingFlowScreen | VibeQuestionnaireScreen | DashboardScreen

  /**
   * The four `{authStep === ... && <... />}` lines, in order: exactly one
   * screen is rendered for every step, the one that belongs to it.
   */
  function Rendered(step: AuthStep): (screens: seq<Screen>)
    ensures screens == [ScreenFor(step)]
  {
    (if step == Auth then [AuthPage] else []) +
    (if step == Onboarding then [OnboardingFlowScreen] else []) +
    (if step == Vibe then [VibeQuestionnaireScreen] else []) +
    (if step == Dashboard then [DashboardScreen] else [])
  }

  /** The screen that belongs to each step. */
  function ScreenFor(step: AuthStep): Screen {
    match step
    case Auth => AuthPage
    case Onboarding => OnboardingFlowScreen
    case Vibe => VibeQuestionnaireScreen
    case Dashboard => DashboardScreen
  }

  /** The completion callbacks passed down to the screens. */
  datatype Event = AuthSuccess | OnboardingComplete | VibeComplete(vibeData: VibeData)

  /** Each handler sets its target step, whatever the current one. */
  function Target(e: Event): AuthStep {
    match e
    case AuthSuccess => Onboarding
    case OnboardingComplete => Vibe
    case VibeComplete(_) => Dashboard
  }

  /** The screen whose callback raises each event. */
  function Sender(e: Event): Screen {
    match e
    case AuthSuccess => AuthPage
    case OnboardingComplete => OnboardingFlowScreen
    case VibeComplete(_) => VibeQuestionnaireScreen
  }

  /** An event can occur only while the screen that raises it is rendered. */
  predicate CanOccur(step: AuthStep, e: Event) {
    Sender(e) in Rendered(step)
  }

  function Rank(step: AuthStep): nat {
    match step
    case Auth => 0
    case Onboarding => 1
    case Vibe => 2
    case Dashboard => 3
  }

  /** Every event that can occur moves exactly one screen forward. */
  lemma EventsMoveForward(step: AuthStep, e: Event)
    requires CanOccur(step, e)
    ensures Rank(Target(e)) == Rank(step) + 1
  {
  }

  /** No event can occur on the dashboard, so it is never left. */
  lemma DashboardIsFinal(e: Event)
    ensures !CanOccur(Dashboard, e)
  {
  }

  /** The steps visited by a run of events that can each occur when they do. */
  function Run(step: AuthStep, events: seq<Event>): (r: AuthStep)
    requires RunCanOccur(step, events)
    ensures Rank(r) == Rank(step) + |events|
    decreases |events|
  {
    if events == [] then step
    else
      EventsMoveForward(step, events[0]);
      Run(Target(events[0]), events[1..])
  }

  predicate RunCanOccur(step: AuthStep, events: seq<Event>)
    decreases |events|
  {
    events == [] || (CanOccur(step, events[0]) && RunCanOccur(Target(events[0]), events[1..]))
  }

  /** From the sign-in screen at most three events can happen, each one screen further on. */
  lemma RunsFromAuth(events: seq<Event>)
    requires RunCanOccur(Auth, events)
    ensures |events| <= 3
    ensures Rank(Run(Auth, events)) == |events|
  {
    var last := Run(Auth, events);
    assert Rank(last) <= 3;
  }

  /** The page's state. */
  class Page {
    var authStep: AuthStep

    constructor ()
      ensures authStep == Auth
    {
      authStep := Auth;
    }

    method HandleAuthSuccess()
      modifies this
      ensures authStep == Onboarding
    {
      authStep := Onboarding;
    }

    method HandleOnboardingComplete()
      modifies this
      ensures authStep == Vibe
    {
      authStep := Vibe;
    }

    /** The vibe data is only logged; the page keeps nothing of it. */
    method HandleVibeComplete(vibeData: VibeData)
      modifies this
      ensures authStep == Dashboard
    {
      authStep := Dashboard;
    }
  }
}
