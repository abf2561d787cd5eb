# Roommate-matching front end: state rules in Dafny

This project models the state-update and reduction rules of a roommate-matching
web front end. The app's features are React components over in-memory mock data,
and the model covers each of these components:

- **ExpenseTracker / BillSplitter.** These two components share the same logic. Each holds a list of shared expenses
  (bills), an add form and three summary figures: the total, the viewer's ("You")
  balance under an equal split, and the number of pending records. A submission
  prepends a fresh, unsettled record. The model defines the record, the reductions and
  the category table once (module `Expenses`). Each component then gets its own
  module with its class, its mock data and the figures on that data.
- **VibeQuestionnaire.** This is the questionnaire record. `handleArrayToggle` removes a chosen item if it is
  present and appends it if it is absent.
- **ListingCreator.** This is the listing list. Checking an amenity appends it with no duplicate guard,
  and unchecking one filters it out. A submission prepends the new listing and resets the form. The model also covers the card rules ("+n more", the roommate plural).
- **MatchingInterface.** The swipe index advances and wraps to 0 after the last profile.
- **OnboardingFlow.** This is the four-step wizard. Next and Back move the step, Next is disabled on
  step 1 while the name is empty, and completing the wizard stores the profile.
- **UserContext.** The profile store starts empty. `setUser` replaces the profile and
  `updateUser` does a shallow merge, or nothing when no user is stored. `useUser` fails outside a provider.
- **Index.** The page moves from sign-in to onboarding, then the questionnaire, then the dashboard.

Pure rules are functions, with lemmas about them. Component state is a class per
component. Its methods state the new state in terms of the old one and of those
functions. Nondeterministic inputs (ids from the clock or `Math.random`, today's
date) and parsed form text (`parseFloat`, `parseInt`) are method parameters.

Two choices follow the code rather than the intended design:

- An expense not paid by "You" always charges "You" one share, even when "You" is not in
  `splitWith` (`Expenses.PhantomCharge`). This is kept as written.
- A record's category is free text. The form only offers the five known values. The model keeps the category a string, so an unknown value is possible, and the lookups fall back to "Other" / `bg-gray-500` for it.

## Model

| member | source | states |
|---|---|---|
| `Lists.Remove` | src/components/VibeQuestionnaire.tsx:52 | filtering out an item drops every copy of it, keeps every other value with its multiplicity, and shortens the list by the item's count |
| `Lists.RemoveAppend` | src/components/VibeQuestionnaire.tsx:52 | filtering distributes over concatenation, so the remaining elements keep their relative order |
| `Lists.RemoveAbsent` | src/components/ListingCreator.tsx:68 | filtering out an absent item returns the list unchanged |
| `Lists.RemoveNoDuplicates` | src/components/VibeQuestionnaire.tsx:52 | a duplicate-free list stays duplicate-free after filtering |
| `Expenses.ApplyEdit` | src/components/ExpenseTracker.tsx:195-229 | each form input overwrites only its own field of the expense form |
| `Expenses.NewExpense` | src/components/ExpenseTracker.tsx:76-85 | a submitted record carries the form's fields, the given id, amount and date, and is unsettled |
| `Expenses.Parties` | src/components/ExpenseTracker.tsx:100 | the divisor `splitWith.length + 1` is at least 1 |
| `Expenses.Share` | src/components/ExpenseTracker.tsx:100 | the shares of all parties add back up to the amount |
| `Expenses.ShareBounds` | src/components/ExpenseTracker.tsx:100 | a share of a non-negative amount lies between 0 and the amount |
| `Expenses.Contribution` | src/components/ExpenseTracker.tsx:99-106 | the payer is owed every co-payer's share and anyone else owes one share; for a non-negative amount a payer's contribution lies in [0, amount] and a non-payer's in [-amount, 0] |
| `Expenses.PhantomCharge` | src/components/ExpenseTracker.tsx:103-105 | a viewer who neither paid nor is in `splitWith` is still charged a share of a positive amount |
| `Expenses.BalanceStepAdds` | src/components/ExpenseTracker.tsx:99-106 | the `reduce` callback adds the same amount, that expense's contribution, whatever balance it starts from |
| `Expenses.Unsettled` | src/components/ExpenseTracker.tsx:108 | the pending list contains every unsettled record with its multiplicity and no settled one |
| `Expenses.Total` | src/components/ExpenseTracker.tsx:98 | the "Total Expenses" figure, computed by the left-fold `reduce`, is the sum of all amounts |
| `Expenses.YourBalance` | src/components/ExpenseTracker.tsx:99-106 | the "Your Balance" figure, computed by the left-fold `reduce`, is the sum of the per-record contributions |
| `Expenses.UnsettledCount` | src/components/ExpenseTracker.tsx:108 | the "Pending" figure, the length of the filtered list, is the number of records with `settled == false` and at most the number of records |
| `Expenses.TotalFromIsSum` | src/components/ExpenseTracker.tsx:98 | the left-fold reduction from any start value equals that value plus the sum of the amounts |
| `Expenses.TotalIsSum` | src/components/ExpenseTracker.tsx:98 | the total is the sum of the amounts, 0 for no records, and a record added in front adds its amount |
| `Expenses.BalanceFromIsNet` | src/components/ExpenseTracker.tsx:99-106 | the balance reduction from any start value equals that value plus the sum of the contributions |
| `Expenses.YourBalanceIsNet` | src/components/ExpenseTracker.tsx:99-106 | the balance is the sum of the per-record contributions, 0 for no records, and a record added in front adds its contribution |
| `Expenses.UnsettledCountIsPending` | src/components/ExpenseTracker.tsx:108 | the pending figure equals the number of records with `settled == false` |
| `Expenses.BalanceBounded` | src/components/ExpenseTracker.tsx:98-106 | with non-negative amounts the balance lies between minus the total and the total |
| `Expenses.Prepend` | src/components/ExpenseTracker.tsx:84-87 | prepending an unsettled record makes the list one longer, puts the record first and leaves the old list as the tail; the total grows by its amount, the balance by its contribution and the pending count by exactly 1 |
| `Expenses.IndexOf` | src/components/ExpenseTracker.tsx:111 | the search stops at the first entry with the wanted value, or past the end when there is none |
| `Expenses.Find` | src/components/ExpenseTracker.tsx:111 | `find` yields the first entry with the wanted value (no earlier entry has it), or nothing exactly when no entry has it |
| `Expenses.CategoryColor` | src/components/ExpenseTracker.tsx:110-112 | a known category maps to its table colour and an unknown one to `bg-gray-500` |
| `Expenses.CategoryLabel` | src/components/ExpenseTracker.tsx:114-116 | a known category maps to its table label and an unknown one to `Other` |
| `Expenses.LabelOther` | src/components/ExpenseTracker.tsx:55-61 | the label is `Other` (and the colour `bg-gray-500`) exactly for `other` and for every value not in the table |
| `ExpenseTracker.MockFigures` | src/components/ExpenseTracker.tsx:22-53 | on the starting expenses the total is 2605, the balance 1182.5 and the pending count 2 |
| `ExpenseTracker.Tracker.constructor` | src/components/ExpenseTracker.tsx:64-72 | the view starts with the mock expenses, the form hidden and the default form |
| `ExpenseTracker.Tracker.OpenForm` | src/components/ExpenseTracker.tsx:173 | the add button shows the form and changes nothing else |
| `ExpenseTracker.Tracker.CancelForm` | src/components/ExpenseTracker.tsx:241 | cancel hides the form and changes nothing else |
| `ExpenseTracker.Tracker.Edit` | src/components/ExpenseTracker.tsx:195-229 | an input changes only the form |
| `ExpenseTracker.Tracker.Submit` | src/components/ExpenseTracker.tsx:74-96 | the new unsettled expense is prepended to the unchanged old list, the form is hidden and reset, the total grows by the amount and the pending count by 1 |
| `BillSplitter.MockFigures` | src/components/BillSplitter.tsx:21-52 | on the starting bills the total is 2605, the balance 1182.5 and the pending count 2 |
| `BillSplitter.Splitter.constructor` | src/components/BillSplitter.tsx:63-71 | the view starts with the mock bills, the form hidden and the default form |
| `BillSplitter.Splitter.OpenForm` | src/components/BillSplitter.tsx:172 | the add button shows the form and changes nothing else |
| `BillSplitter.Splitter.CancelForm` | src/components/BillSplitter.tsx:240 | cancel hides the form and changes nothing else |
| `BillSplitter.Splitter.Edit` | src/components/BillSplitter.tsx:194-228 | an input changes only the form |
| `BillSplitter.Splitter.Submit` | src/components/BillSplitter.tsx:73-95 | the new unsettled bill is prepended ahead of all existing bills, which keep their order; the form is hidden and reset; the total grows by the amount and the pending count by 1 |
| `VibeQuestionnaire.WithList` | src/components/VibeQuestionnaire.tsx:54 | writing a list field changes that field only; the other lists and all scalar fields are unchanged |
| `VibeQuestionnaire.WithScale` | src/components/VibeQuestionnaire.tsx:84 | moving a slider changes that score only |
| `VibeQuestionnaire.Toggle` | src/components/VibeQuestionnaire.tsx:50-53 | the item's membership is flipped and every other value keeps its multiplicity |
| `VibeQuestionnaire.ToggleAbsent` | src/components/VibeQuestionnaire.tsx:53 | toggling an absent item appends it at the end: length +1, the earlier elements unchanged |
| `VibeQuestionnaire.TogglePresent` | src/components/VibeQuestionnaire.tsx:52 | toggling a present item removes every copy, and the rest keeps its relative order |
| `VibeQuestionnaire.ToggleTwiceAbsent` | src/components/VibeQuestionnaire.tsx:51-53 | toggling an absent item twice restores the list |
| `VibeQuestionnaire.ToggleTwicePresent` | src/components/VibeQuestionnaire.tsx:51-53 | toggling a present item twice moves it, once, to the end |
| `VibeQuestionnaire.ToggleNoDuplicates` | src/components/VibeQuestionnaire.tsx:51-53 | a duplicate-free list stays duplicate-free under toggle |
| `VibeQuestionnaire.Questionnaire.constructor` | src/components/VibeQuestionnaire.tsx:16-27 | the questionnaire starts with the default scores and empty lists |
| `VibeQuestionnaire.Questionnaire.HandleArrayToggle` | src/components/VibeQuestionnaire.tsx:50-55 | the toggled list is written into the named field and nothing else changes |
| `VibeQuestionnaire.Questionnaire.SetScale` | src/components/VibeQuestionnaire.tsx:84 | a slider writes its own score only |
| `VibeQuestionnaire.Questionnaire.HandleSubmit` | src/components/VibeQuestionnaire.tsx:57-60 | the collected data is what `onComplete` receives |
| `ListingCreator.ApplyEdit` | src/components/ListingCreator.tsx:116-185 | each text or select input overwrites only its own field of the listing form |
| `ListingCreator.AmenityChange` | src/components/ListingCreator.tsx:59-71 | checking appends the amenity at the end with no duplicate check (length +1); unchecking removes every copy; the other amenities keep their multiplicity |
| `ListingCreator.UncheckAbsent` | src/components/ListingCreator.tsx:66-69 | unchecking an amenity that is not listed changes nothing |
| `ListingCreator.UncheckKeepsOrder` | src/components/ListingCreator.tsx:68 | unchecking keeps the other amenities in order |
| `ListingCreator.CheckTwiceDuplicates` | src/components/ListingCreator.tsx:60-64 | checking the same amenity twice lists it twice more |
| `ListingCreator.NewListing` | src/components/ListingCreator.tsx:75-86 | a new listing has the form's fields, the given id, rent and roommate count, and exactly one photo, the default one |
| `ListingCreator.VisibleAmenities` | src/components/ListingCreator.tsx:263 | a card shows the first min(3, n) amenities |
| `ListingCreator.MoreBadge` | src/components/ListingCreator.tsx:268-272 | the "+(n-3) more" badge appears exactly when n > 3 |
| `ListingCreator.BadgesCoverAll` | src/components/ListingCreator.tsx:263-272 | shown badges plus the "+n more" count add up to the number of amenities |
| `ListingCreator.RoommateNoun` | src/components/ListingCreator.tsx:281 | the roommate label is plural exactly when `roommates > 1` |
| `ListingCreator.Creator.constructor` | src/components/ListingCreator.tsx:41-52 | the view starts with the mock listing, the form hidden and empty |
| `ListingCreator.Creator.OpenForm` | src/components/ListingCreator.tsx:226 | the create button shows the form and changes nothing else |
| `ListingCreator.Creator.CancelForm` | src/components/ListingCreator.tsx:208 | cancel hides the form and changes nothing else |
| `ListingCreator.Creator.Edit` | src/components/ListingCreator.tsx:116-185 | an input changes only the form |
| `ListingCreator.Creator.HandleAmenityChange` | src/components/ListingCreator.tsx:59-71 | only the form's amenity list changes, as `AmenityChange` says |
| `ListingCreator.Creator.Submit` | src/components/ListingCreator.tsx:73-100 | the new listing is prepended to the unchanged old listings; the form is hidden and reset to empty amenities, `roommates = '1'`, `type = 'room'` |
| `MatchingInterface.CurrentProfile` | src/components/MatchingInterface.tsx:73 | there is a current profile exactly when the index is inside the list, and it is the profile at that index |
| `MatchingInterface.ShowsEmptyState` | src/components/MatchingInterface.tsx:85-93 | the "No more profiles" view is shown exactly when the index is past the end of the list |
| `MatchingInterface.EmptyListShowsEmptyState` | src/components/MatchingInterface.tsx:85-93 | an empty profile list shows the empty-state view |
| `MatchingInterface.NextIndex` | src/components/MatchingInterface.tsx:78-82 | a swipe moves the index to `(index + 1) mod len`, so it stays inside the list |
| `MatchingInterface.Swipes` | src/components/MatchingInterface.tsx:78-82 | any number of swipes keeps the index inside the list |
| `MatchingInterface.SwipesCycle` | src/components/MatchingInterface.tsx:70-82 | after k swipes the index is `(start + k) mod len`; from the initial 0 it is `k mod len` |
| `MatchingInterface.CounterPosition` | src/components/MatchingInterface.tsx:212-213 | the counter shows index + 1, which lies in [1, len] |
| `MatchingInterface.Matcher.constructor` | src/components/MatchingInterface.tsx:70-71 | the index starts at 0 over a fixed profile list |
| `MatchingInterface.Matcher.Mock` | src/components/MatchingInterface.tsx:70-71 | the mounted view starts at index 0 over the two mock profiles |
| `MatchingInterface.Matcher.HandleSwipe` | src/components/MatchingInterface.tsx:75-83 | Like and Pass both move the index as `NextIndex` says; the index stays in [0, len) and the list never changes |
| `UserContext.Merge` | src/components/UserContext.tsx:46 | in `{ ...user, ...updates }` every supplied top-level field takes the update's value whole and every other field keeps the user's |
| `UserContext.FieldsDetermineProfile` | src/components/UserContext.tsx:4-27 | profiles that agree on every top-level field are equal |
| `UserContext.MergeOverrides` | src/components/UserContext.tsx:46 | the merge overrides exactly the supplied top-level fields and keeps the others; a supplied nested record replaces the old one whole |
| `UserContext.MergeIdempotent` | src/components/UserContext.tsx:46 | merging the same updates twice equals merging them once |
| `UserContext.MergeNothing` | src/components/UserContext.tsx:46 | empty updates leave the user unchanged |
| `UserContext.UserStore.constructor` | src/components/UserContext.tsx:38 | the user starts as null |
| `UserContext.UserStore.SetUser` | src/components/UserContext.tsx:40-42 | `setUser` replaces the whole profile |
| `UserContext.UserStore.UpdateUser` | src/components/UserContext.tsx:44-48 | `updateUser` merges into the stored user and does nothing when there is none |
| `UserContext.UseUser` | src/components/UserContext.tsx:57-63 | outside a provider the hook fails with 'useUser must be used within a UserProvider', and inside one it returns the store |
| `OnboardingFlow.ToProfile` | src/components/OnboardingFlow.tsx:55-58 | `{ id, ...formData }` keeps the whole form and carries the given id |
| `OnboardingFlow.ToProfileRoundTrip` | src/components/OnboardingFlow.tsx:55-58 | the profile handed to `setUser` is the form plus the id, and both can be read back |
| `OnboardingFlow.LeavesDetermineForm` | src/components/OnboardingFlow.tsx:20-42 | forms that agree on every leaf, nested ones included, are equal |
| `OnboardingFlow.ApplyEdit` | src/components/OnboardingFlow.tsx:96-340 | each input writes its value into its own leaf of the form, nested records included |
| `OnboardingFlow.EditTouchesOneLeaf` | src/components/OnboardingFlow.tsx:165-168 | an input writes its leaf, and any other given leaf, a sibling in the same nested record included, is preserved |
| `OnboardingFlow.EditChangesOnlyItsLeaf` | src/components/OnboardingFlow.tsx:96-340 | every input of the wizard changes exactly its own leaf of the form and no other |
| `OnboardingFlow.NextDisabled` | src/components/OnboardingFlow.tsx:384 | Next is disabled only while the name is empty, never once a name is entered, and never on the last step |
| `OnboardingFlow.BackShown` | src/components/OnboardingFlow.tsx:376 | Back is shown exactly on the steps that show a step heading (from the second step on) |
| `OnboardingFlow.ProgressDots` | src/components/OnboardingFlow.tsx:357-363 | there is one dot per step, highlighted when its index is at most the step |
| `OnboardingFlow.HighlightedDots` | src/components/OnboardingFlow.tsx:357-363 | exactly step + 1 dots are highlighted |
| `OnboardingFlow.NextCaption` | src/components/OnboardingFlow.tsx:386 | the button reads 'Complete Profile' exactly at the last step and 'Continue' otherwise |
| `OnboardingFlow.Heading` | src/components/OnboardingFlow.tsx:366-371 | the step title is shown exactly from the second step on |
| `OnboardingFlow.Onboarding.constructor` | src/components/OnboardingFlow.tsx:18-42 | the wizard starts at step 0 with the default form, bound to the store `useUser` returns |
| `OnboardingFlow.Onboarding.Edit` | src/components/OnboardingFlow.tsx:96-340 | an input changes only the form |
| `OnboardingFlow.Onboarding.HandleNext` | src/components/OnboardingFlow.tsx:51-61 | below the last step Next adds exactly 1 to the step and does not complete; at the last step it keeps the step, stores the form plus the id through `setUser` and completes; the step stays in [0, 3]; it cannot be pressed while disabled (step 1 with an empty name) |
| `OnboardingFlow.Onboarding.HandleBack` | src/components/OnboardingFlow.tsx:376-377 | Back is offered only when step > 0 and subtracts exactly 1 |
| `Index.Rendered` | src/pages/Index.tsx:28-39 | exactly one of the four screens is rendered for each state value, the one that belongs to it |
| `Index.EventsMoveForward` | src/pages/Index.tsx:12-39 | every callback that a rendered screen can raise moves the flow exactly one screen forward |
| `Index.DashboardIsFinal` | src/pages/Index.tsx:10-39 | no callback can be raised on the dashboard, so it is never left |
| `Index.Run` | src/pages/Index.tsx:10-23 | a run of events that can each occur advances one screen per event |
| `Index.RunsFromAuth` | src/pages/Index.tsx:10-23 | from the sign-in screen at most three events can occur, and the flow ends as many screens further on |
| `Index.Page.constructor` | src/pages/Index.tsx:10 | the flow starts at 'auth' |
| `Index.Page.HandleAuthSuccess` | src/pages/Index.tsx:12-14 | `handleAuthSuccess` sets 'onboarding' whatever the current state |
| `Index.Page.HandleOnboardingComplete` | src/pages/Index.tsx:16-18 | `handleOnboardingComplete` sets 'vibe' whatever the current state |
| `Index.Page.HandleVibeComplete` | src/pages/Index.tsx:20-23 | `handleVibeComplete` sets 'dashboard'; the vibe data is not stored in the page state |

## Left out

- Rendering is not modelled: JSX, CSS classes, icons, images and the UI widget library (Card, Select, Slider, Checkbox). These are presentation and library code.
- Floating point is not modelled. Amounts are exact `real`s and rents, ages and scores are `int`s. `parseFloat`/`parseInt` producing NaN, rounding and `toFixed(2)` formatting are left out, and parsed numbers are method parameters.
- Ids from `Date.now()` and `Math.random()` and dates from `new Date()` are method parameters, because they are nondeterministic.
- `console.log` calls, `toLocaleDateString` and image URLs are left out. They are I/O and locale formatting.
- React re-render and hook semantics are not modelled. Each handler is one atomic state change, and a closure reading a stale `formData` or `vibeData` is not modelled.
- `UserContext.ProfileUpdate`: a key present with the value `undefined` overrides with `undefined` in JavaScript. The model only has "supplied" (`Some`) or "absent" (`None`).
- `VibeQuestionnaire.Questionnaire.HandleArrayToggle`: the `field` argument is one of the four list fields. JavaScript would accept any string and add a new key.
- `MatchingInterface.Matcher.HandleSwipe` requires a current profile. Its buttons exist only on the profile card, and the source would throw on `currentProfile.name` without one.
- `OnboardingFlow.Onboarding.HandleNext` returns `completed` instead of calling `onComplete`. The page's `HandleOnboardingComplete` is the callback that this flag stands for.
- The empty-state "add" button of the expense view (src/components/ExpenseTracker.tsx:296) is the same `setShowForm(true)` as `OpenForm`.
- `workSchedule` and `cleaningStyle` in the questionnaire have no input in the source, so `SetScale` does not offer them.
- The expense record's `settled` flag is never changed by any handler, so no operation changes it.
- The dashboard's tab switching (src/components/Dashboard.tsx) is presentation only and is not part of this model. The `AuthPage` component, which raises `handleAuthSuccess`, is not part of this model either.
