# Portfolio site: carousel unlock game, project filter, contact form

This project models the three parts of a React portfolio site that hold state
logic, and proves properties of them.

- **Home page** (`home.dfy`, module `Home`). `ProjectShowcase` is a
  carousel over the six featured projects. It has a debounce flag, a 300 ms
  transition and a set of viewed projects. It also runs a memory-sequence
  game with four colours and two levels of two colours each. Winning level 1
  calls `onUnlock(true)`. The page component `Home` owns a write-once
  `portfolioUnlocked` flag. The flag locks body scrolling and hides the rest
  of the page until it is set.
  - `Showcase` is a class whose fields are the component's state.
  - `HomePage` is a class holding the page flag, the body's `overflow`, and
    a ghost log of every `onUnlock` argument.
  - Every `setTimeout` callback is a step of its own. The state a pending
    timer will act on is a field:
    - `pendingTarget`: the 300 ms transition;
    - `pendingActivations`: the 2000 ms `setGameActive(true)` timers;
    - `pendingLevels`: the 1500 ms `generateSequence` timers, each with the
      level its callback captured;
    - `presentation`: the flashes still to show.
  - `HomePage.Dispatch` runs any one user event or timer callback. It keeps
    these properties:
    - the gate is write-once;
    - `onUnlock` is called at most once, and only with `true`;
    - the viewed set only grows;
    - the current project stays in range and viewed.
  - React effects run inside the step that changes their dependencies:
    - the transition step schedules an activation when the viewed set grows
      while the game is locked (src/pages/Home.tsx:99-103);
    - an activation that turns the game on queues that level's sequence
      (src/pages/Home.tsx:123-127);
    - completing level 0 queues the level-1 sequence, because it changes
      `gameLevel` and with it `generateSequence`.
- **Projects page** (`projects.dfy`, module `Projects`). The list filter is
  pure: a category test AND a case-insensitive substring search over title,
  description and tags. "Clear Filters" resets both inputs.
- **Contact page** (`contact.dfy`, module `Contact`). `ContactForm` is a
  class with `formData`, `isSubmitting` and `isSubmitted`. It models the
  per-field update, the simulated submission (idle → submitting → submitted
  → idle), and the submit button's disabled condition.
- `wrappers.dfy` holds `Option`, the model of a nullable value
  (`flashingColor`, the pending transition target).

The scenario methods at the end of `home.dfy` and `Contact.SubmissionRoundTrip`
are client code. They drive the classes through concrete traces and assert
the state reached:
- three "next" steps;
- a debounced burst of clicks;
- both game levels with a wrong attempt in between;
- a replay of a stale level-0 sequence;
- a whole form submission.

Where the code's behaviour is surprising, the model follows it as written:

- The 2000 ms activation timers are never cancelled. A timer scheduled
  before the unlock can set `gameActive` again after it. `onUnlock` still
  fires at most once, because the colour buttons are rendered only while
  `viewedProjects.size >= 1 && !portfolioUnlocked && gameActive`
  (src/pages/Home.tsx:426, 441).
  - `Home.Showcase.HandleColorClick` is the raw handler.
  - `Home.Showcase.PressColor` is a press on a rendered button.
- After level 0 is completed, the old sequence stays the target until the
  1500 ms timer replaces it. Entering it again during that window completes
  level 1 and unlocks. `Home.ReplayScenario` shows this trace.
- Unmounting cancels only the autoplay interval (src/pages/Home.tsx:95); the
  2000, 1500, 800 and 600 ms timers stay scheduled. The model runs no step
  after `Unmount`.
- `generateSequence` runs only for levels 0 and 1, so the length-3 branch of
  its length rule is never taken. Every generated sequence has length 2.

## Model

| member | source | states |
|---|---|---|
| Home.NextIndex | src/pages/Home.tsx:166 | the next index is in range; it is the successor, wrapping from the last index to 0 |
| Home.PrevIndex | src/pages/Home.tsx:181 | the previous index is in range, and "next" of it is the index it came from |
| Home.PrevUndoesNext | src/pages/Home.tsx:181 | previous undoes next, and previous equals `(cur - 1 + n) % n` |
| Home.Advance | src/pages/Home.tsx:166 | any number of "next" steps keeps the index in range |
| Home.AllIndicesSize | src/pages/Home.tsx:206 | the set of all indices below `n` has exactly `n` elements |
| Home.SizeNMeansEveryIndex | src/pages/Home.tsx:206 | a set of in-range indices has at most `n` elements, and exactly `n` iff it holds every index |
| Home.FullStaysFull | src/pages/Home.tsx:206 | a growing set of in-range indices that was full stays full |
| Home.TourFromZero | src/pages/Home.tsx:166-172 | `k < n` "next" steps from 0 reach `k` after visiting exactly `0 .. k` |
| Home.FullTourSeesAll | src/pages/Home.tsx:166-172 | `n - 1` steps from 0 view every project, and `n` steps come back to 0 |
| Home.LongTourSeesAll | src/pages/Home.tsx:166-172 | any tour of at least `n - 1` "next" steps from 0 has viewed every index |
| Home.Judge | src/pages/Home.tsx:133-147 | a click is a mismatch iff the extended attempt is not a prefix of the target; it completes iff it equals the target; otherwise the attempt grows by the click and stays a proper prefix |
| Home.CorrectEntryCompletes | src/pages/Home.tsx:144-147 | entering the target in order is partial at each position and completes exactly at the last one |
| Home.WrongElementMismatches | src/pages/Home.tsx:136-141 | a wrong colour at any position is a mismatch, and with an empty target every click is one |
| Home.SequenceLength | src/pages/Home.tsx:108 | the length is 2 or 3, and it is 2 exactly when the level is 0 or 1 |
| Home.ColorOfDraw | src/pages/Home.tsx:109 | `floor(d * 4)` is a colour index in [0, 4) and the floor of `d * 4` |
| Home.NewSequence | src/pages/Home.tsx:107-109 | the sequence has the level's length, every element is a colour, and element `i` comes from draw `i` |
| Home.Showcase.ColorButtonsShown | src/pages/Home.tsx:426-441 | (definition) the colour buttons are rendered iff at least one project is viewed, the showcase is locked and the game is active |
| Home.Showcase.ClickedAs | src/pages/Home.tsx:130-158 | (definition) the effect of one click in every branch of `handleColorClick`: ignored, mismatch, partial, complete and unlock |
| Home.Showcase.AllProjectsViewed | src/pages/Home.tsx:206 | "viewed set has size 6" holds iff every project has been viewed |
| Home.Showcase.constructor | src/pages/Home.tsx:73-85 | initial state: project 0 shown and viewed, game inactive at level 0, nothing flashing, one activation timer pending from the mount-time effect |
| Home.Showcase.BeginNext | src/pages/Home.tsx:160-175 | no-op while transitioning; otherwise starts a transition to the next index |
| Home.Showcase.BeginPrev | src/pages/Home.tsx:177-188 | no-op while transitioning; otherwise starts a transition to the previous index |
| Home.Showcase.BeginGoTo | src/pages/Home.tsx:190-203 | no-op while transitioning or for the current index; otherwise starts a transition to `index` |
| Home.Showcase.Settle | src/pages/Home.tsx:168-172 | the target becomes current and viewed and the transition ends; the viewed set only grows and "all viewed" stays true; a new viewed index while locked schedules one more activation; with nothing pending, nothing changes |
| Home.Showcase.Activate | src/pages/Home.tsx:99-103 | one pending activation fires and sets `gameActive`; turning the game on queues the current level's sequence if the level is below 2 |
| Home.Showcase.GenerateSequence | src/pages/Home.tsx:105-127 | the oldest queued level gets a new length-2 sequence from the draws, the attempt is cleared and the new sequence is queued for presentation; with nothing queued, nothing changes |
| Home.Showcase.StartFlash | src/pages/Home.tsx:114-116 | the next colour of the presentation flashes, unless one is already flashing or none is left |
| Home.Showcase.EndFlash | src/pages/Home.tsx:117 | the flash ends |
| Home.Showcase.HandleColorClick | src/pages/Home.tsx:130-158 | no-op when inactive or flashing. A mismatch clears the attempt and keeps the level. A correct prefix extends the attempt. Completion raises the level by one and clears the attempt. Completion at level ≥ 1 unlocks, deactivates and calls `onUnlock(true)`; at level 0 it queues level 1. `onUnlock(false)` is never called |
| Home.Showcase.PressColor | src/pages/Home.tsx:426-458 | a press acts only while the buttons are rendered; after the unlock nothing changes and `onUnlock` is not called; a call happens only on the press that unlocks |
| Home.HomePage.ScrollLocked | src/pages/Home.tsx:504-510 | body scrolling is locked iff the portfolio is not unlocked |
| Home.HomePage.RestShown | src/pages/Home.tsx:545 | the rest of the page is shown iff scrolling is not locked |
| Home.HomePage.constructor | src/pages/Home.tsx:500-514 | on mount, locked, scrolling hidden, `onUnlock` not yet called |
| Home.HomePage.OnUnlock | src/pages/Home.tsx:504-510 | `setPortfolioUnlocked(v)` followed by the scroll-lock effect; the call is logged |
| Home.HomePage.Dispatch | src/pages/Home.tsx:88-203 | any event or timer keeps the model's invariants; the gate is write-once; `onUnlock` is called at most once and only with `true`; the viewed set only grows; the current project is in range and viewed |
| Home.HomePage.RunShowcaseCallback | src/pages/Home.tsx:88-127 | a navigation click or a timer keeps the invariants, only touches the showcase, never changes its unlock flag, and only grows the viewed set |
| Home.HomePage.PressColor | src/pages/Home.tsx:150-156 | a press on a rendered button has the effect `ClickedAs` states, and a press on no button changes nothing; the page flag becomes true exactly on the press whose `onUnlock(true)` call is returned, and that call is logged; only the game fields the handler sets change |
| Home.HomePage.Unmount | src/pages/Home.tsx:511-513 | unmounting restores scrolling |
| Home.StepForward | src/pages/Home.tsx:160-172 | a "next" click and its timer move to the next index and add it to the viewed set |
| Home.ForwardTour | src/pages/Home.tsx:160-172 | `k` settled "next" steps from mount show `Advance(0, k, 6)` having viewed `Tour(0, k, 6)`, that is index `k` and `0 .. k` for `k < 6`; from 5 steps on every project has been viewed |
| Home.ScenarioDraws | src/pages/Home.tsx:109 | the colours four concrete draw vectors produce |
| Home.StartGame | src/pages/Home.tsx:98-127 | mount, activation, an ignored click on the empty target, then the level-0 sequence |
| Home.PresentLevelZero | src/pages/Home.tsx:114-131 | the two flashes of the level-0 sequence; a click during a flash is ignored |
| Home.EnterLevelZero | src/pages/Home.tsx:144-147 | entering the level-0 sequence moves to level 1 and queues its sequence |
| Home.StartLevelOne | src/pages/Home.tsx:122-127 | the level-1 timer installs its sequence |
| Home.LevelOne | src/pages/Home.tsx:130-158 | a wrong attempt, then the right one, unlocks; a later press is ignored |
| Home.WrongAttempt | src/pages/Home.tsx:136-141 | a wrong second colour resets the attempt at the same level |
| Home.RightAttempt | src/pages/Home.tsx:144-156 | the right entry at level 1 unlocks and calls `onUnlock(true)` |
| Home.ReplayLevelZero | src/pages/Home.tsx:144-156 | entering the stale level-0 sequence twice completes both levels |
| Home.FirstZeroZero | src/pages/Home.tsx:144-147 | entering `[0, 0]` at level 0 completes it and queues level 1 |
| Home.SecondZeroZero | src/pages/Home.tsx:144-156 | entering the same `[0, 0]` again at level 1 unlocks |
| Home.PressPartial | src/pages/Home.tsx:133-134 | a press whose colour continues the target extends the attempt; only the handler's fields may change, and the target, level and queued levels stay |
| Home.PressMismatch | src/pages/Home.tsx:136-141 | a press with the wrong colour clears the attempt and keeps the target, the level and the queued levels |
| Home.PressComplete | src/pages/Home.tsx:144-156 | a press that completes the target raises the level by one; at level 1 it unlocks and calls `onUnlock(true)`, at level 0 it queues level 1 |
| Projects.LowerChar | src/pages/Projects.tsx:98 | the result is never an upper-case letter; upper-case letters move by the case offset and other characters stay |
| Projects.UpperChar | src/pages/Projects.tsx:98 | a character and its upper-case form lower-case to the same character |
| Projects.ToLower | src/pages/Projects.tsx:98-100 | same length, each character lower-cased |
| Projects.ToUpper | src/pages/Projects.tsx:98-100 | same length, each character upper-cased |
| Projects.ToLowerAbsorbs | src/pages/Projects.tsx:98-100 | lower-casing is idempotent and erases a prior upper-casing |
| Projects.OccursAtZero | src/pages/Projects.tsx:98-100 | an occurrence at position 0 is exactly a prefix |
| Projects.OccursShift | src/pages/Projects.tsx:98-100 | an occurrence in the tail at `i` is an occurrence in the whole string at `i + 1` |
| Projects.Contains | src/pages/Projects.tsx:98-100 | (definition) `includes` as a left-to-right scan for a prefix occurrence |
| Projects.ContainsIffOccurs | src/pages/Projects.tsx:98-100 | `includes` holds iff the term occurs at some position |
| Projects.ContainsEmpty | src/pages/Projects.tsx:98-100 | every string contains the empty string |
| Projects.CategoryMatches | src/pages/Projects.tsx:97 | (definition) the category test passes for "All" or the project's own category |
| Projects.SearchMatches | src/pages/Projects.tsx:98-100 | (definition) the lower-cased title, description or some lower-cased tag contains the lower-cased term |
| Projects.Matches | src/pages/Projects.tsx:101 | (definition) both tests pass |
| Projects.FilterProjects | src/pages/Projects.tsx:96-102 | a project is in the result iff it is in the list and matches the category AND the search; the result is an order-preserving subsequence and no longer than the list; each matching entry is kept as often as it occurs and no other entry is kept |
| Projects.SelectCategory | src/pages/Projects.tsx:135 | a category button sets the category and keeps the search term |
| Projects.SetSearchTerm | src/pages/Projects.tsx:124 | typing sets the search term and keeps the category |
| Projects.ClearFilters | src/pages/Projects.tsx:176-179 | the filters return to ("All", "") |
| Projects.AllCategoryOnlySearches | src/pages/Projects.tsx:97 | with category "All", membership depends on the search alone |
| Projects.EmptySearchMatchesAll | src/pages/Projects.tsx:98-100 | the empty search term matches every project |
| Projects.ClearFiltersShowsAll | src/pages/Projects.tsx:176-179 | after "Clear Filters" the result is the whole list, in order |
| Projects.SearchIgnoresTermCase | src/pages/Projects.tsx:98-100 | lower- or upper-casing the search term does not change the match |
| Projects.UpperTags | src/pages/Projects.tsx:100 | every tag upper-cased, in order |
| Projects.SearchIgnoresProjectCase | src/pages/Projects.tsx:98-100 | upper-casing a project's title, description and tags does not change the match |
| Projects.FilterIdempotent | src/pages/Projects.tsx:96-102 | filtering a filtered list again with the same filters changes nothing |
| Contact.WithField | src/pages/Contact.tsx:48-53 | the named field gets the new value and the other three keep theirs |
| Contact.WithFieldLaws | src/pages/Contact.tsx:48-53 | the last write to a field wins, writes to different fields commute, writing a field's own value changes nothing |
| Contact.RequiredFilled | src/pages/Contact.tsx:85-138 | (definition) all four fields are non-empty, as their `required` attributes demand |
| Contact.SubmitDisabled | src/pages/Contact.tsx:147 | (definition) the button is disabled while submitting or submitted |
| Contact.PhaseOf | src/pages/Contact.tsx:147 | the phase is idle iff the button is enabled, submitting iff `isSubmitting`, submitted iff `isSubmitted` |
| Contact.ContactForm.Phase | src/pages/Contact.tsx:147 | the form is idle iff its submit button is enabled |
| Contact.ContactForm.constructor | src/pages/Contact.tsx:24-31 | the form starts empty and idle |
| Contact.ContactForm.HandleChange | src/pages/Contact.tsx:48-53 | one field is replaced and the other three are kept |
| Contact.ContactForm.HandleSubmit | src/pages/Contact.tsx:33-36 | submitting sets `isSubmitting` |
| Contact.ContactForm.PressSubmit | src/pages/Contact.tsx:145-147 | a press submits iff the button is enabled and every required field is filled; otherwise nothing changes |
| Contact.ContactForm.FinishSubmission | src/pages/Contact.tsx:38-41 | submitting becomes submitted and all four fields are cleared; in any other phase nothing changes |
| Contact.ContactForm.ClearSuccess | src/pages/Contact.tsx:44 | submitted becomes idle and nothing else changes; in any other phase nothing changes |

## Left out

- JSX markup and framer-motion animation props: presentation only.
- Timer durations: every `setTimeout` and `setInterval` callback is a step, and wall-clock time is not modelled. The 4000 ms autoplay tick (src/pages/Home.tsx:88-96) does the same as a "next" click, so it is the `NextClicked` event.
- `Math.random` (src/pages/Home.tsx:109): each draw in [0, 1) is a parameter of `GenerateSequence`.
- `showConfetti` and its timers: visual only.
- The other components (cursor trail, particles, orbs, tip jar, layout, skills, testimonials, project card, about page) and the app's provider wiring: markup, random floats or foreign calls, no state logic.
- React's double-invocation of effects in development builds.
- The contents of the project lists: the carousel uses only their count (6), and the filter is proved for every list.
- `document.body.style.overflow` is a field of `HomePage`, not a global document.
- Projects.LowerChar: folds only ASCII `A`–`Z`. JavaScript's `toLowerCase` folds all of Unicode.
- Home.Showcase.StartFlash: assumes the flashes of one presentation never overlap: each lasts 600 ms and starts 800 ms after the previous one. A new sequence replaces the flashes still to come. The two presentations overlap only if a level's sequence is generated within 1.4 s of the previous one; that timing is not modelled.
- Contact.ContactForm.HandleSubmit: the browser's `type="email"` format check is not modelled, only the `required` non-empty check.
- Contact.ContactForm.FinishSubmission: the real form sends nothing (the code only simulates submission), and the model sends nothing either.
