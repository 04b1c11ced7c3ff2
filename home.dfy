/**
 * The home page (src/pages/Home.tsx): the featured-project carousel with its
 * unlock mini-game (`ProjectShowcase`, lines 72-206) and the page-level gate
 * that locks scrolling and hides the rest of the page until the game is won
 * (`Home`, lines 500-545).
 *
 * Every `setTimeout` callback is a step of its own. The state a pending
 * timer will act on is kept as a field (`pendingTarget`, `pendingActivations`,
 * `pendingLevels`, `presentation`). A timer step with nothing pending does
 * nothing.
 */
module Home {
  import opened Wrappers

  /** Entries in `featuredProjects` (src/pages/Home.tsx:30-70). */
  const ProjectCount: int := 6
  /** Entries in `gameColors` (src/pages/Home.tsx:84). */
  const ColorCount: int := 4
  /** Levels played before the portfolio unlocks (src/pages/Home.tsx:124, 150). */
  const LevelsToUnlock: int := 2
  /** The longest sequence `generateSequence` can produce (src/pages/Home.tsx:108). */
  const MaxSequenceLength: int := 3

  // ---------------------------------------------------------------------------
  // Carousel index arithmetic
  // ---------------------------------------------------------------------------

  /** `(currentProject + 1) % featuredProjects.length` (src/pages/Home.tsx:166). */
  function NextIndex(cur: int, n: int): (r: int)
    requires 0 <= cur < n
    ensures 0 <= r < n
    ensures r == if cur == n - 1 then 0 else cur + 1
  {
    (cur + 1) % n
  }

  /** `currentProject === 0 ? length - 1 : currentProject - 1` (src/pages/Home.tsx:181). */
  function PrevIndex(cur: int, n: int): (r: int)
    requires 0 <= cur < n
    ensures 0 <= r < n
    ensures NextIndex(r, n) == cur
  {
    if cur == 0 then n - 1 else cur - 1
  }

  /** Previous undoes next, and previous is the modular "minus one". */
  lemma PrevUndoesNext(cur: int, n: int)
    requires 0 <= cur < n
    ensures PrevIndex(NextIndex(cur, n), n) == cur
    ensures PrevIndex(cur, n) == (cur - 1 + n) % n
  {
  }

  /** The index shown after `k` settled "next" steps from `start`. */
  function Advance(start: int, k: nat, n: int): (r: int)
    requires 0 <= start < n
    ensures 0 <= r < n
  {
    if k == 0 then start else NextIndex(Advance(start, k - 1, n), n)
  }

  /** The indices shown along those `k` steps, `start` included. */
  function Tour(start: int, k: nat, n: int): set<int>
    requires 0 <= start < n
  {
    if k == 0 then {start} else Tour(start, k - 1, n) + {Advance(start, k, n)}
  }

  predicate IsIndex(i: int, n: int) { 0 <= i < n }

  /** The indices `0 .. n - 1`. The `IsIndex` conjunct gives the comprehension a trigger. */
  function AllIndices(n: int): set<int>
  {
    set i | 0 <= i < n && IsIndex(i, n)
  }

  lemma {:induction false} AllIndicesSize(n: nat)
    ensures |AllIndices(n)| == n
  {
    if n > 0 {
      AllIndicesSize(n - 1);
      assert AllIndices(n) == AllIndices(n - 1) + {n - 1};
    }
  }

  lemma SubsetSize(a: set<int>, b: set<int>)
    requires a <= b
    ensures |a| <= |b|
    ensures a != b ==> |a| < |b|
  {
    assert b == a + (b - a);
    assert a * (b - a) == {};
    if b - a == {} {
      forall x | x in b ensures x in a {
        assert x !in b - a;
      }
    }
  }

  /** A set of carousel indices has all `n` of them exactly when its size is `n`. */
  lemma SizeNMeansEveryIndex(s: set<int>, n: nat)
    requires forall i :: i in s ==> 0 <= i < n
    ensures |s| <= n
    ensures |s| == n <==> s == AllIndices(n)
  {
    AllIndicesSize(n);
    SubsetSize(s, AllIndices(n));
  }

  /** A growing set of carousel indices that had all of them still has all of them. */
  lemma FullStaysFull(a: set<int>, b: set<int>, n: nat)
    requires a <= b && forall i :: i in b ==> 0 <= i < n
    ensures |a| == n ==> |b| == n
  {
    SubsetSize(a, b);
    SizeNMeansEveryIndex(b, n);
  }

  /** Walking forward from 0 visits the indices in order. */
  lemma {:induction false} TourFromZero(k: nat, n: int)
    requires k < n
    ensures Advance(0, k, n) == k
    ensures Tour(0, k, n) == AllIndices(k + 1)
  {
    if k > 0 {
      TourFromZero(k - 1, n);
    }
  }

  /** `n - 1` settled "next" steps from the start show every project, and one more returns to 0. */
  lemma FullTourSeesAll(n: int)
    requires n > 0
    ensures Tour(0, n - 1, n) == AllIndices(n)
    ensures Advance(0, n, n) == 0
  {
    TourFromZero(n - 1, n);
  }

  /** Any tour of at least `n - 1` steps from 0 has viewed every index. */
  lemma {:induction false} LongTourSeesAll(k: nat, n: int)
    requires n > 0 && k >= n - 1
    ensures Tour(0, k, n) == AllIndices(n)
  {
    if k == n - 1 {
      FullTourSeesAll(n);
    } else {
      LongTourSeesAll(k - 1, n);
      assert IsIndex(Advance(0, k, n), n);
    }
  }

  // ---------------------------------------------------------------------------
  // The memory-sequence game
  // ---------------------------------------------------------------------------

  ghost predicate AllColors(s: seq<int>)
  {
    forall i :: 0 <= i < |s| ==> 0 <= s[i] < ColorCount
  }

  predicate IsPrefix(p: seq<int>, s: seq<int>)
  {
    |p| <= |s| && s[..|p|] == p
  }

  /** What `playerSequence` may hold between clicks: nothing yet, or a proper prefix of the target. */
  predicate AttemptInProgress(entered: seq<int>, target: seq<int>)
  {
    entered == [] || (|entered| < |target| && IsPrefix(entered, target))
  }

  /** How one click ends (src/pages/Home.tsx:133-147). */
  datatype Outcome = Mismatch | Partial(entered: seq<int>) | Complete

  /**
   * Appends the clicked colour and compares it with the target at that
   * position; past the end of the target `sequence[k]` is `undefined`,
   * which equals no colour.
   */
  function Judge(entered: seq<int>, target: seq<int>, c: int): (o: Outcome)
    requires AttemptInProgress(entered, target)
    ensures o == Mismatch <==> !IsPrefix(entered + [c], target)
    ensures o == Complete <==> entered + [c] == target
    ensures o.Partial? ==> o.entered == entered + [c] && o.entered != [] && AttemptInProgress(o.entered, target)
  {
    var next := entered + [c];
    if |next| > |target| || next[|next| - 1] != target[|next| - 1] then
      Mismatch
    else if |next| == |target| then
      Complete
    else
      Partial(next)
  }

  /** Entering the target in order completes the level at the last element and not before. */
  lemma CorrectEntryCompletes(target: seq<int>, k: nat)
    requires k < |target|
    ensures Judge(target[..k], target, target[k]) == if k == |target| - 1 then Complete else Partial(target[..k + 1])
  {
    assert target[..k] + [target[k]] == target[..k + 1];
  }

  /** A wrong element at position `k` is a mismatch; with no target every click is one. */
  lemma WrongElementMismatches(target: seq<int>, k: nat, c: int)
    requires k < |target| && c != target[k]
    ensures Judge(target[..k], target, c) == Mismatch
    ensures Judge([], [], c) == Mismatch
  {
    assert (target[..k] + [c])[k] == c;
  }

  /** `gameLevel === 0 ? 2 : gameLevel === 1 ? 2 : 3` (src/pages/Home.tsx:108). */
  function SequenceLength(level: int): (r: int)
    ensures 2 <= r <= MaxSequenceLength
    ensures r == 2 <==> 0 <= level < LevelsToUnlock
  {
    if level == 0 then 2 else if level == 1 then 2 else 3
  }

  /** `Math.floor(Math.random() * 4)` for a draw in [0, 1). */
  function ColorOfDraw(d: real): (c: int)
    requires 0.0 <= d < 1.0
    ensures 0 <= c < ColorCount
    ensures c as real <= d * 4.0 < c as real + 1.0
  {
    (d * 4.0).Floor
  }

  ghost predicate ValidDraws(draws: seq<real>)
  {
    |draws| >= MaxSequenceLength && forall i :: 0 <= i < |draws| ==> 0.0 <= draws[i] < 1.0
  }

  /** The array `generateSequence` builds from the random draws (src/pages/Home.tsx:108-109). */
  function NewSequence(level: int, draws: seq<real>): (s: seq<int>)
    requires ValidDraws(draws)
    ensures |s| == SequenceLength(level)
    ensures AllColors(s)
    ensures forall i :: 0 <= i < |s| ==> s[i] == ColorOfDraw(draws[i])
  {
    seq(SequenceLength(level), i requires 0 <= i < SequenceLength(level) => ColorOfDraw(draws[i]))
  }

  // ---------------------------------------------------------------------------
  // ProjectShowcase
  // ---------------------------------------------------------------------------

  class Showcase {
    var currentProject: int
    var isTransitioning: bool
    /** The index the pending 300 ms transition timer will show. */
    var pendingTarget: Option<int>
    var viewedProjects: set<int>
    var portfolioUnlocked: bool
    var gameLevel: int
    var sequence: seq<int>
    var playerSequence: seq<int>
    var gameActive: bool
    var flashingColor: Option<int>
    /** Pending 2000 ms `setGameActive(true)` timers (src/pages/Home.tsx:99-103); none is ever cancelled. */
    var pendingActivations: nat
    /** Pending 1500 ms `generateSequence` timers, each with the `gameLevel` its callback captured. */
    var pendingLevels: seq<int>
    /** Colours of the current presentation not yet flashed (src/pages/Home.tsx:114-119). */
    var presentation: seq<int>

    /** The current index is in range and viewed; a transition is pending exactly while `isTransitioning`. */
    ghost predicate CarouselValid()
      reads this`currentProject, this`viewedProjects, this`isTransitioning, this`pendingTarget
    {
      && 0 <= currentProject < ProjectCount
      && currentProject in viewedProjects
      && 0 in viewedProjects
      && (forall i :: i in viewedProjects ==> 0 <= i < ProjectCount)
      && (isTransitioning <==> pendingTarget.Some?)
      && (pendingTarget.Some? ==> 0 <= pendingTarget.value < ProjectCount)
    }

    /**
     * The portfolio is unlocked exactly from level 2 on, every colour is one
     * of the four buttons, every queued level is one still to play, and the
     * attempt is a proper prefix of the target.
     */
    ghost predicate GameValid()
      reads this`gameLevel, this`portfolioUnlocked, this`sequence, this`presentation
      reads this`flashingColor, this`pendingLevels, this`playerSequence
    {
      && 0 <= gameLevel
      && (portfolioUnlocked <==> gameLevel >= LevelsToUnlock)
      && AllColors(sequence)
      && AllColors(presentation)
      && (flashingColor.Some? ==> 0 <= flashingColor.value < ColorCount)
      && (forall i :: 0 <= i < |pendingLevels| ==> 0 <= pendingLevels[i] < LevelsToUnlock)
      && AttemptInProgress(playerSequence, sequence)
    }

    ghost predicate Valid()
      reads this
    {
      CarouselValid() && GameValid()
    }

    /** `viewedProjects.size === featuredProjects.length` (src/pages/Home.tsx:206). */
    function AllProjectsViewed(): (b: bool)
      reads this
      requires Valid()
      ensures b <==> viewedProjects == AllIndices(ProjectCount)
    {
      SizeNMeansEveryIndex(viewedProjects, ProjectCount);
      |viewedProjects| == ProjectCount
    }

    /** The colour buttons are rendered (src/pages/Home.tsx:426, 441). */
    predicate ColorButtonsShown()
      reads this
    {
      |viewedProjects| >= 1 && !portfolioUnlocked && gameActive
    }

    /** The state right after mount, with the mount-time effect's activation timer pending. */
    constructor ()
      ensures Valid()
      ensures currentProject == 0 && viewedProjects == {0} && !isTransitioning
      ensures !portfolioUnlocked && gameLevel == 0 && !gameActive && flashingColor.None?
      ensures sequence == [] && playerSequence == [] && presentation == []
      ensures pendingActivations == 1 && pendingLevels == []
    {
      currentProject := 0;
      isTransitioning := false;
      pendingTarget := None;
      viewedProjects := {0};
      portfolioUnlocked := false;
      gameLevel := 0;
      sequence := [];
      playerSequence := [];
      gameActive := false;
      flashingColor := None;
      pendingActivations := 1;
      pendingLevels := [];
      presentation := [];
    }

    /** `handleNextProject`, also the autoplay tick (src/pages/Home.tsx:88-96, 160-175). */
    method BeginNext()
      requires Valid()
      modifies this`isTransitioning, this`pendingTarget
      ensures Valid()
      ensures old(isTransitioning) ==> unchanged(this)
      ensures !old(isTransitioning) ==> isTransitioning && pendingTarget == Some(NextIndex(currentProject, ProjectCount))
    {
      if isTransitioning {
        return;
      }
      isTransitioning := true;
      pendingTarget := Some(NextIndex(currentProject, ProjectCount));
    }

    /** `handlePrevProject` (src/pages/Home.tsx:177-188). */
    method BeginPrev()
      requires Valid()
      modifies this`isTransitioning, this`pendingTarget
      ensures Valid()
      ensures old(isTransitioning) ==> unchanged(this)
      ensures !old(isTransitioning) ==> isTransitioning && pendingTarget == Some(PrevIndex(currentProject, ProjectCount))
    {
      if isTransitioning {
        return;
      }
      isTransitioning := true;
      pendingTarget := Some(PrevIndex(currentProject, ProjectCount));
    }

    /** `goToProject(index)`, called from one of the indicator dots (src/pages/Home.tsx:190-203). */
    method BeginGoTo(index: int)
      requires Valid() && 0 <= index < ProjectCount
      modifies this`isTransitioning, this`pendingTarget
      ensures Valid()
      ensures old(isTransitioning) || index == currentProject ==> unchanged(this)
      ensures !old(isTransitioning) && index != currentProject ==> isTransitioning && pendingTarget == Some(index)
    {
      if isTransitioning || index == currentProject {
        return;
      }
      isTransitioning := true;
      pendingTarget := Some(index);
    }

    /**
     * The 300 ms transition timer: show the target, add it to the viewed set
     * and end the transition. A new viewed index changes `viewedProjects.size`,
     * which re-runs the effect at src/pages/Home.tsx:99-103 and, while
     * locked, schedules one more activation.
     */
    method Settle()
      requires Valid()
      modifies this`currentProject, this`viewedProjects, this`isTransitioning, this`pendingTarget, this`pendingActivations
      ensures Valid()
      ensures old(viewedProjects) <= viewedProjects
      ensures old(AllProjectsViewed()) ==> AllProjectsViewed()
      ensures old(pendingTarget).None? ==> unchanged(this)
      ensures old(pendingTarget).Some? ==>
        && currentProject == old(pendingTarget).value
        && viewedProjects == old(viewedProjects) + {currentProject}
        && !isTransitioning
        && pendingActivations == old(pendingActivations) + (if old(pendingTarget.value !in viewedProjects) && !portfolioUnlocked then 1 else 0)
    {
      if pendingTarget.None? {
        return;
      }
      var target := pendingTarget.value;
      var grew := target !in viewedProjects;
      currentProject := target;
      viewedProjects := viewedProjects + {target};
      isTransitioning := false;
      pendingTarget := None;
      if grew && !portfolioUnlocked {
        pendingActivations := pendingActivations + 1;
      }
      FullStaysFull(old(viewedProjects), viewedProjects, ProjectCount);
    }

    /**
     * A 2000 ms activation timer fires: `setGameActive(true)`. When that
     * changes `gameActive`, the effect at src/pages/Home.tsx:123-127 schedules
     * `generateSequence` for the current level if it is below 2.
     */
    method Activate()
      requires Valid()
      modifies this`pendingActivations, this`gameActive, this`pendingLevels
      ensures Valid()
      ensures old(pendingActivations) == 0 ==> unchanged(this)
      ensures old(pendingActivations) > 0 ==>
        && pendingActivations == old(pendingActivations) - 1
        && gameActive
        && pendingLevels == old(pendingLevels) + (if !old(gameActive) && gameLevel < LevelsToUnlock then [gameLevel] else [])
    {
      if pendingActivations == 0 {
        return;
      }
      pendingActivations := pendingActivations - 1;
      if !gameActive {
        gameActive := true;
        if gameLevel < LevelsToUnlock {
          pendingLevels := pendingLevels + [gameLevel];
        }
      }
    }

    /**
     * The oldest 1500 ms timer fires `generateSequence` for the level it
     * captured: a fresh sequence from the random draws, an empty attempt, and
     * the sequence queued for presentation.
     */
    method GenerateSequence(draws: seq<real>)
      requires Valid() && ValidDraws(draws)
      modifies this`sequence, this`playerSequence, this`presentation, this`pendingLevels
      ensures Valid()
      ensures old(pendingLevels) == [] ==> unchanged(this)
      ensures old(pendingLevels) != [] ==>
        && sequence == NewSequence(old(pendingLevels)[0], draws)
        && |sequence| == 2
        && playerSequence == []
        && presentation == sequence
        && pendingLevels == old(pendingLevels)[1..]
    {
      if pendingLevels == [] {
        return;
      }
      var level := pendingLevels[0];
      var generated := NewSequence(level, draws);
      sequence := generated;
      playerSequence := [];
      presentation := generated;
      pendingLevels := pendingLevels[1..];
    }

    /** The next flash starts: `setFlashingColor(color)`. Flashes never overlap (600 ms < 800 ms). */
    method StartFlash()
      requires Valid()
      modifies this`flashingColor, this`presentation
      ensures Valid()
      ensures old(flashingColor).Some? || old(presentation) == [] ==> unchanged(this)
      ensures old(flashingColor).None? && old(presentation) != [] ==>
        flashingColor == Some(old(presentation)[0]) && presentation == old(presentation)[1..]
    {
      if flashingColor.Some? || presentation == [] {
        return;
      }
      flashingColor := Some(presentation[0]);
      presentation := presentation[1..];
    }

    /** The flash's 600 ms timer: `setFlashingColor(null)`. */
    method EndFlash()
      requires Valid()
      modifies this`flashingColor
      ensures Valid()
      ensures flashingColor.None?
    {
      flashingColor := None;
    }

    /** The effect of one click on colour `c`, as `handleColorClick` makes it (src/pages/Home.tsx:130-158). */
    twostate predicate ClickedAs(c: int, new unlockCall: Option<bool>)
      reads this
      requires old(Valid()) && sequence == old(sequence)
    {
      if !old(gameActive) || old(flashingColor).Some? then
        unchanged(this) && unlockCall.None?
      else
        match Judge(old(playerSequence), sequence, c)
        case Mismatch =>
          && playerSequence == [] && gameLevel == old(gameLevel) && gameActive
          && portfolioUnlocked == old(portfolioUnlocked) && pendingLevels == old(pendingLevels)
          && unlockCall.None?
        case Partial(entered) =>
          && playerSequence == entered && gameLevel == old(gameLevel) && gameActive
          && portfolioUnlocked == old(portfolioUnlocked) && pendingLevels == old(pendingLevels)
          && unlockCall.None?
        case Complete =>
          && playerSequence == []
          && gameLevel == old(gameLevel) + 1
          && gameActive == (old(gameLevel) < 1)
          && portfolioUnlocked == (old(portfolioUnlocked) || old(gameLevel) >= 1)
          && unlockCall == (if old(gameLevel) >= 1 then Some(true) else None)
          && pendingLevels == old(pendingLevels) + (if old(gameLevel) < 1 then [old(gameLevel) + 1] else [])
    }

    /**
     * `handleColorClick(c)`. `unlockCall` is the argument passed to
     * `onUnlock`, or `None` when it is not called. Completing a level at
     * level 0 re-runs the effect at src/pages/Home.tsx:123-127, which queues
     * the level-1 sequence.
     */
    method HandleColorClick(c: int) returns (unlockCall: Option<bool>)
      requires Valid() && 0 <= c < ColorCount
      modifies this`playerSequence, this`gameLevel, this`portfolioUnlocked, this`gameActive, this`pendingLevels
      ensures Valid()
      ensures ClickedAs(c, unlockCall)
      ensures unlockCall != Some(false)
      ensures unlockCall == Some(true) ==> portfolioUnlocked && !gameActive
    {
      unlockCall := None;
      if !gameActive || flashingColor.Some? {
        return;
      }
      match Judge(playerSequence, sequence, c)
      case Mismatch =>
        playerSequence := [];
      case Partial(entered) =>
        playerSequence := entered;
      case Complete =>
        var completed := gameLevel;
        gameLevel := gameLevel + 1;
        playerSequence := [];
        if completed >= 1 {
          portfolioUnlocked := true;
          gameActive := false;
          unlockCall := Some(true);
        }
        if gameActive && gameLevel < LevelsToUnlock {
          pendingLevels := pendingLevels + [gameLevel];
        }
    }

    /**
     * A press on a colour button. The buttons exist only while the game panel
     * is rendered, so a locked game that is won once cannot be pressed again.
     */
    method PressColor(c: int) returns (unlockCall: Option<bool>)
      requires Valid() && 0 <= c < ColorCount
      modifies this`playerSequence, this`gameLevel, this`portfolioUnlocked, this`gameActive, this`pendingLevels
      ensures Valid()
      ensures old(ColorButtonsShown()) ==> ClickedAs(c, unlockCall)
      ensures !old(ColorButtonsShown()) ==> unchanged(this) && unlockCall.None?
      ensures old(portfolioUnlocked) ==> unchanged(this) && unlockCall.None?
      ensures unlockCall.Some? ==> unlockCall == Some(true) && !old(portfolioUnlocked) && portfolioUnlocked
      ensures old(gameLevel) <= LevelsToUnlock ==> gameLevel <= LevelsToUnlock
    {
      unlockCall := None;
      if ColorButtonsShown() {
        unlockCall := HandleColorClick(c);
      }
    }
  }

  // ---------------------------------------------------------------------------
  // Home: the gate
  // ---------------------------------------------------------------------------

  /** `document.body.style.overflow`. */
  datatype Overflow = Hidden | Auto

  /** One callback the page can run: a user event or a timer firing. */
  datatype Event =
    | NextClicked | PrevClicked | DotClicked(index: int) | TransitionTimer
    | ActivationTimer | LevelTimer(draws: seq<real>) | FlashStartTimer | FlashEndTimer
    | ColorClicked(color: int)

  ghost predicate WellFormed(e: Event)
  {
    match e
    case DotClicked(i) => 0 <= i < ProjectCount
    case LevelTimer(draws) => ValidDraws(draws)
    case ColorClicked(c) => 0 <= c < ColorCount
    case _ => true
  }

  class HomePage {
    const showcase: Showcase
    var portfolioUnlocked: bool
    var overflow: Overflow
    var mounted: bool
    /** Every argument `onUnlock` has been called with, in order. */
    ghost var unlockCalls: seq<bool>

    /**
     * The page's flag mirrors the showcase's, `onUnlock` has been called once
     * with `true` exactly when it is set, and the body scrolls exactly when it
     * is set (or the page is gone).
     */
    ghost predicate Valid()
      reads this, showcase
    {
      && showcase.Valid()
      && showcase.gameLevel <= LevelsToUnlock
      && portfolioUnlocked == showcase.portfolioUnlocked
      && unlockCalls == (if portfolioUnlocked then [true] else [])
      && overflow == (if mounted && !portfolioUnlocked then Hidden else Auto)
    }

    /** Scrolling is locked (src/pages/Home.tsx:504-514). */
    function ScrollLocked(): (b: bool)
      reads this, showcase
      requires Valid() && mounted
      ensures b <==> !portfolioUnlocked
    {
      overflow == Hidden
    }

    /** The about/projects/skills/testimonials/contact sections are rendered (src/pages/Home.tsx:545). */
    function RestShown(): (b: bool)
      reads this, showcase
      requires Valid() && mounted
      ensures b <==> !ScrollLocked()
    {
      portfolioUnlocked
    }

    constructor ()
      ensures Valid() && mounted && fresh(showcase)
      ensures !portfolioUnlocked && overflow == Hidden && unlockCalls == []
    {
      showcase := new Showcase();
      portfolioUnlocked := false;
      overflow := Hidden;
      mounted := true;
      unlockCalls := [];
    }

    /** `setPortfolioUnlocked`, passed down as `onUnlock`, followed by the scroll-lock effect. */
    method OnUnlock(v: bool)
      requires mounted
      modifies this`portfolioUnlocked, this`overflow, this`unlockCalls
      ensures portfolioUnlocked == v
      ensures overflow == (if v then Auto else Hidden)
      ensures unlockCalls == old(unlockCalls) + [v]
    {
      portfolioUnlocked := v;
      unlockCalls := unlockCalls + [v];
      overflow := if v then Auto else Hidden;
    }

    /**
     * Runs one callback. The gate is write-once, `onUnlock` is never called
     * with `false` and at most once, and the viewed set only grows.
     */
    method Dispatch(e: Event)
      requires Valid() && mounted && WellFormed(e)
      modifies this, showcase
      ensures Valid() && mounted
      ensures old(portfolioUnlocked) ==> portfolioUnlocked && unlockCalls == old(unlockCalls)
      ensures |unlockCalls| <= 1 && forall i :: 0 <= i < |unlockCalls| ==> unlockCalls[i]
      ensures old(showcase.viewedProjects) <= showcase.viewedProjects
      ensures 0 <= showcase.currentProject < ProjectCount && showcase.currentProject in showcase.viewedProjects
    {
      if e.ColorClicked? {
        var call := PressColor(e.color);
      } else {
        RunShowcaseCallback(e);
      }
    }

    /** A navigation click or a timer: only the showcase changes, and never its unlock flag. */
    method RunShowcaseCallback(e: Event)
      requires Valid() && mounted && WellFormed(e) && !e.ColorClicked?
      modifies showcase
      ensures Valid()
      ensures showcase.portfolioUnlocked == old(showcase.portfolioUnlocked)
      ensures old(showcase.viewedProjects) <= showcase.viewedProjects
    {
      match e
      case NextClicked => showcase.BeginNext();
      case PrevClicked => showcase.BeginPrev();
      case DotClicked(i) => showcase.BeginGoTo(i);
      case TransitionTimer => showcase.Settle();
      case ActivationTimer => showcase.Activate();
      case LevelTimer(draws) => showcase.GenerateSequence(draws);
      case FlashStartTimer => showcase.StartFlash();
      case FlashEndTimer => showcase.EndFlash();
    }

    /**
     * A colour press; an `onUnlock` call from the showcase reaches the page's
     * setter. `call` is the argument `onUnlock` received, if it was called.
     */
    method PressColor(c: int) returns (call: Option<bool>)
      requires Valid() && mounted && 0 <= c < ColorCount
      modifies this`portfolioUnlocked, this`overflow, this`unlockCalls
      modifies showcase`playerSequence, showcase`gameLevel, showcase`portfolioUnlocked, showcase`gameActive, showcase`pendingLevels
      ensures Valid() && mounted
      ensures old(showcase.ColorButtonsShown()) ==> showcase.ClickedAs(c, call)
      ensures !old(showcase.ColorButtonsShown()) ==> unchanged(showcase) && call.None?
      ensures portfolioUnlocked <==> old(portfolioUnlocked) || call == Some(true)
      ensures old(portfolioUnlocked) ==> call.None? && unlockCalls == old(unlockCalls)
      ensures unlockCalls == old(unlockCalls) + (if call.Some? then [true] else [])
    {
      call := showcase.PressColor(c);
      if call.Some? {
        OnUnlock(call.value);
      }
    }

    /** Unmount: the effect's cleanup restores scrolling (src/pages/Home.tsx:511-513). */
    method Unmount()
      requires Valid() && mounted
      modifies this`mounted, this`overflow
      ensures Valid() && !mounted && overflow == Auto
    {
      mounted := false;
      overflow := Auto;
    }
  }

  // ---------------------------------------------------------------------------
  // Scenarios
  // ---------------------------------------------------------------------------

  /** Three settled "next" steps from the start: index 3, four projects viewed, not all. */
  method NavigationScenario()
  {
    var s := new Showcase();
    s.BeginNext();
    s.Settle();
    assert s.currentProject == 1 && s.viewedProjects == {0, 1} && !s.isTransitioning;
    s.BeginNext();
    s.Settle();
    assert s.currentProject == 2 && s.viewedProjects == {0, 1, 2} && !s.isTransitioning;
    s.BeginNext();
    s.Settle();
    assert s.currentProject == 3 && s.viewedProjects == {0, 1, 2, 3};
    assert !s.AllProjectsViewed();
  }

  /**
   * `k` settled "next" steps from mount show `Advance(0, k, 6)` and have
   * viewed `Tour(0, k, 6)`; from five steps on every project has been viewed.
   */
  method ForwardTour(k: nat) returns (s: Showcase)
    ensures fresh(s) && s.Valid() && !s.isTransitioning
    ensures s.currentProject == Advance(0, k, ProjectCount)
    ensures s.viewedProjects == Tour(0, k, ProjectCount)
    ensures k < ProjectCount ==> s.currentProject == k && s.viewedProjects == AllIndices(k + 1)
    ensures k >= ProjectCount - 1 ==> s.AllProjectsViewed()
  {
    s := new Showcase();
    var j := 0;
    while j < k
      invariant 0 <= j <= k
      invariant fresh(s) && s.Valid() && !s.isTransitioning
      invariant s.currentProject == Advance(0, j, ProjectCount)
      invariant s.viewedProjects == Tour(0, j, ProjectCount)
    {
      StepForward(s);
      j := j + 1;
    }
    if k < ProjectCount {
      TourFromZero(k, ProjectCount);
    } else {
      LongTourSeesAll(k, ProjectCount);
    }
  }

  /** One "next" click followed by its transition timer. */
  method StepForward(s: Showcase)
    requires s.Valid() && !s.isTransitioning
    modifies s`currentProject, s`viewedProjects, s`isTransitioning, s`pendingTarget, s`pendingActivations
    ensures s.Valid() && !s.isTransitioning
    ensures s.currentProject == NextIndex(old(s.currentProject), ProjectCount)
    ensures s.viewedProjects == old(s.viewedProjects) + {s.currentProject}
  {
    s.BeginNext();
    s.Settle();
  }

  /** While a transition is pending, every navigation request is dropped. */
  method DebounceScenario()
  {
    var s := new Showcase();
    s.BeginNext();
    s.BeginPrev();
    s.BeginGoTo(4);
    assert s.pendingTarget == Some(1);
    s.Settle();
    assert s.currentProject == 1;
    s.BeginGoTo(1);
    assert !s.isTransitioning;
  }

  /** The colours the scenarios' draws produce. */
  lemma ScenarioDraws()
    ensures NewSequence(0, [0.3, 0.6, 0.9]) == [1, 2]
    ensures NewSequence(1, [0.1, 0.8, 0.5]) == [0, 3]
    ensures NewSequence(0, [0.0, 0.0, 0.0]) == [0, 0]
    ensures NewSequence(1, [0.5, 0.5, 0.5]) == [2, 2]
  {
    assert ColorOfDraw(0.3) == 1 && ColorOfDraw(0.6) == 2;
    assert ColorOfDraw(0.1) == 0 && ColorOfDraw(0.8) == 3;
    assert ColorOfDraw(0.0) == 0 && ColorOfDraw(0.5) == 2;
  }

  /** A press on a shown button that extends the attempt. */
  method PressPartial(s: Showcase, c: int)
    requires s.Valid() && 0 <= c < ColorCount && s.gameActive && !s.portfolioUnlocked && s.flashingColor.None?
    requires Judge(s.playerSequence, s.sequence, c).Partial?
    modifies s`playerSequence, s`gameLevel, s`portfolioUnlocked, s`gameActive, s`pendingLevels
    ensures s.Valid() && s.gameActive && !s.portfolioUnlocked && s.flashingColor.None?
    ensures s.playerSequence == old(s.playerSequence) + [c]
    ensures s.sequence == old(s.sequence) && s.gameLevel == old(s.gameLevel) && s.pendingLevels == old(s.pendingLevels)
  {
    var call := s.PressColor(c);
  }

  /** A press on a shown button with the wrong colour: the attempt starts over. */
  method PressMismatch(s: Showcase, c: int)
    requires s.Valid() && 0 <= c < ColorCount && s.gameActive && !s.portfolioUnlocked && s.flashingColor.None?
    requires Judge(s.playerSequence, s.sequence, c) == Mismatch
    modifies s`playerSequence, s`gameLevel, s`portfolioUnlocked, s`gameActive, s`pendingLevels
    ensures s.Valid() && s.gameActive && !s.portfolioUnlocked && s.flashingColor.None?
    ensures s.playerSequence == []
    ensures s.sequence == old(s.sequence) && s.gameLevel == old(s.gameLevel) && s.pendingLevels == old(s.pendingLevels)
  {
    var call := s.PressColor(c);
  }

  /** A press on a shown button that completes the level. */
  method PressComplete(s: Showcase, c: int) returns (unlockCall: Option<bool>)
    requires s.Valid() && 0 <= c < ColorCount && s.gameActive && !s.portfolioUnlocked && s.flashingColor.None?
    requires Judge(s.playerSequence, s.sequence, c) == Complete
    modifies s`playerSequence, s`gameLevel, s`portfolioUnlocked, s`gameActive, s`pendingLevels
    ensures s.Valid() && s.flashingColor.None? && s.playerSequence == []
    ensures s.sequence == old(s.sequence) && s.gameLevel == old(s.gameLevel) + 1
    ensures s.gameActive == (old(s.gameLevel) < 1) && s.portfolioUnlocked == (old(s.gameLevel) >= 1)
    ensures unlockCall == (if old(s.gameLevel) >= 1 then Some(true) else None)
    ensures s.pendingLevels == old(s.pendingLevels) + (if old(s.gameLevel) < 1 then [old(s.gameLevel) + 1] else [])
  {
    unlockCall := s.PressColor(c);
  }

  /** Level 0 with [1, 2]; level 1 with [0, 3], a wrong attempt [0, 1], then [0, 3] unlocks once. */
  method GameScenario()
  {
    var s := StartGame();
    PresentLevelZero(s);
    EnterLevelZero(s);
    StartLevelOne(s);
    LevelOne(s);
  }

  /** Mount, the activation timer, a click on the still empty target, then the level-0 sequence. */
  method StartGame() returns (s: Showcase)
    ensures fresh(s) && s.Valid() && s.gameActive && !s.portfolioUnlocked && s.gameLevel == 0
    ensures s.sequence == [1, 2] && s.presentation == [1, 2] && s.playerSequence == [] && s.flashingColor.None?
    ensures s.pendingLevels == []
  {
    s := new Showcase();
    s.Activate();
    assert s.gameActive && s.pendingLevels == [0] && s.sequence == [];
    assert Judge([], [], 2) == Mismatch;
    PressMismatch(s, 2);
    ScenarioDraws();
    s.GenerateSequence([0.3, 0.6, 0.9]);
  }

  /** The level-1 timer fires with the draws for [0, 3]. */
  method StartLevelOne(s: Showcase)
    requires s.Valid() && s.gameActive && s.gameLevel == 1 && s.playerSequence == [] && s.pendingLevels == [1]
    requires s.flashingColor.None?
    modifies s
    ensures s.Valid() && s.gameActive && !s.portfolioUnlocked && s.gameLevel == 1
    ensures s.sequence == [0, 3] && s.playerSequence == [] && s.flashingColor.None?
  {
    ScenarioDraws();
    s.GenerateSequence([0.1, 0.8, 0.5]);
  }

  /** The level-0 presentation of [1, 2]; a click during a flash is ignored. */
  method PresentLevelZero(s: Showcase)
    requires s.Valid() && s.gameActive && !s.portfolioUnlocked && s.gameLevel == 0
    requires s.sequence == [1, 2] && s.presentation == [1, 2] && s.playerSequence == [] && s.flashingColor.None?
    requires s.pendingLevels == []
    modifies s
    ensures s.Valid() && s.gameActive && !s.portfolioUnlocked && s.gameLevel == 0
    ensures s.sequence == [1, 2] && s.presentation == [] && s.playerSequence == [] && s.flashingColor.None?
    ensures s.pendingLevels == []
  {
    s.StartFlash();
    assert s.flashingColor == Some(1) && s.presentation == [2];
    var call := s.PressColor(1);
    assert s.playerSequence == [];
    s.EndFlash();
    s.StartFlash();
    s.EndFlash();
  }

  /** Entering [1, 2] completes level 0 and queues level 1. */
  method EnterLevelZero(s: Showcase)
    requires s.Valid() && s.gameActive && !s.portfolioUnlocked && s.gameLevel == 0
    requires s.sequence == [1, 2] && s.playerSequence == [] && s.flashingColor.None?
    requires s.pendingLevels == []
    modifies s
    ensures s.Valid() && s.gameActive && s.gameLevel == 1 && s.playerSequence == [] && s.pendingLevels == [1]
    ensures s.flashingColor.None?
  {
    assert Judge([], [1, 2], 1) == Partial([1]);
    PressPartial(s, 1);
    assert Judge([1], [1, 2], 2) == Complete;
    var call := PressComplete(s, 2);
  }

  /** Level 1 with [0, 3]: the wrong attempt [0, 1] resets, then [0, 3] unlocks exactly once. */
  method LevelOne(s: Showcase)
    requires s.Valid() && s.gameActive && !s.portfolioUnlocked && s.gameLevel == 1
    requires s.sequence == [0, 3] && s.playerSequence == [] && s.flashingColor.None?
    modifies s
    ensures s.Valid() && s.portfolioUnlocked && !s.gameActive && s.gameLevel == 2
  {
    WrongAttempt(s);
    RightAttempt(s);
    var call := s.PressColor(0);
    assert call.None?;
  }

  /** Entering [0, 1] against [0, 3] resets the attempt at the same level. */
  method WrongAttempt(s: Showcase)
    requires s.Valid() && s.gameActive && !s.portfolioUnlocked && s.gameLevel == 1
    requires s.sequence == [0, 3] && s.playerSequence == [] && s.flashingColor.None?
    modifies s
    ensures s.Valid() && s.gameActive && !s.portfolioUnlocked && s.gameLevel == 1
    ensures s.sequence == [0, 3] && s.playerSequence == [] && s.flashingColor.None?
  {
    assert Judge([], [0, 3], 0) == Partial([0]);
    PressPartial(s, 0);
    assert Judge([0], [0, 3], 1) == Mismatch;
    PressMismatch(s, 1);
  }

  /** Entering [0, 3] completes level 1: the portfolio unlocks and the game ends. */
  method RightAttempt(s: Showcase)
    requires s.Valid() && s.gameActive && !s.portfolioUnlocked && s.gameLevel == 1
    requires s.sequence == [0, 3] && s.playerSequence == [] && s.flashingColor.None?
    modifies s
    ensures s.Valid() && s.portfolioUnlocked && !s.gameActive && s.gameLevel == 2
  {
    assert Judge([], [0, 3], 0) == Partial([0]);
    PressPartial(s, 0);
    assert Judge([0], [0, 3], 3) == Complete;
    var call := PressComplete(s, 3);
    assert call == Some(true);
  }

  /** Until the level-1 timer fires, the level-0 sequence is still the target, so replaying it unlocks. */
  method ReplayScenario()
  {
    var s := new Showcase();
    s.Activate();
    ScenarioDraws();
    s.GenerateSequence([0.0, 0.0, 0.0]);
    assert s.sequence == [0, 0] && s.playerSequence == [] && s.flashingColor.None? && s.gameActive;
    ReplayLevelZero(s);
    s.GenerateSequence([0.5, 0.5, 0.5]);
    assert s.sequence == [2, 2] && s.portfolioUnlocked;
  }

  /** Two attempts at [0, 0] without the level-1 timer firing in between. */
  method ReplayLevelZero(s: Showcase)
    requires s.Valid() && s.gameActive && !s.portfolioUnlocked && s.gameLevel == 0
    requires s.sequence == [0, 0] && s.playerSequence == [] && s.flashingColor.None?
    requires s.pendingLevels == []
    modifies s
    ensures s.Valid() && s.portfolioUnlocked && s.sequence == [0, 0] && s.pendingLevels == [1]
  {
    FirstZeroZero(s);
    SecondZeroZero(s);
  }

  /** Entering [0, 0] at level 0 completes it and queues level 1. */
  method FirstZeroZero(s: Showcase)
    requires s.Valid() && s.gameActive && !s.portfolioUnlocked && s.gameLevel == 0
    requires s.sequence == [0, 0] && s.playerSequence == [] && s.flashingColor.None?
    requires s.pendingLevels == []
    modifies s
    ensures s.Valid() && s.gameActive && !s.portfolioUnlocked && s.gameLevel == 1
    ensures s.sequence == [0, 0] && s.playerSequence == [] && s.flashingColor.None?
    ensures s.pendingLevels == [1]
  {
    assert Judge([], [0, 0], 0) == Partial([0]);
    PressPartial(s, 0);
    assert Judge([0], [0, 0], 0) == Complete;
    var call := PressComplete(s, 0);
  }

  /** Entering the same [0, 0] again at level 1 completes it and unlocks. */
  method SecondZeroZero(s: Showcase)
    requires s.Valid() && s.gameActive && !s.portfolioUnlocked && s.gameLevel == 1
    requires s.sequence == [0, 0] && s.playerSequence == [] && s.flashingColor.None?
    requires s.pendingLevels == [1]
    modifies s
    ensures s.Valid() && s.portfolioUnlocked && s.sequence == [0, 0] && s.pendingLevels == [1]
  {
    assert Judge([], [0, 0], 0) == Partial([0]);
    PressPartial(s, 0);
    assert Judge([0], [0, 0], 0) == Complete;
    var call := PressComplete(s, 0);
    assert call == Some(true);
  }
}
