/** The shared story controller driven by a 100 ms progress interval, and the
    small pure helpers beside it: progress-bar fill, tap-side navigation,
    the per-story toggle state and the story actions. */
module UiUtils {
  import opened Wrappers

  /** Milliseconds each story is shown for. */
  const StoryDuration: int := 5000
  /** Period of the progress interval in milliseconds. */
  const TickPeriod: int := 100
  /** Percentage points one tick adds: 100 / (5000 / 100), exactly 2
      (`StepFromDuration`). */
  const ProgressStep: int := 2
  /** Ticks from progress 0 to 100 (`StepFromDuration`). */
  const TicksPerStory: nat := 50

  /** The step and the ticks per story follow from the story duration and
      the tick period. */
  lemma StepFromDuration()
    ensures ProgressStep == 100 / (StoryDuration / TickPeriod)
    ensures TicksPerStory == StoryDuration / TickPeriod
    ensures TicksPerStory * ProgressStep == 100
  {
  }

  /** A callback invocation, in the order the controller makes them. */
  datatype Event = ProgressUpdate(progress: int) | StoryChange(index: int) | Complete

  /** The controller's state. `hasInterval` says whether the handle field
      holds an interval; `orphanIntervals` counts intervals still running that
      no field refers to any more (left behind when `start` runs while an
      interval is installed). `pendingComplete` counts `onComplete` calls
      queued with `setTimeout(…, 0)`; `log` lists the callbacks fired. */
  datatype Session = Session(
    currentIndex: int,
    totalStories: int,
    progress: int,
    isPaused: bool,
    hasInterval: bool,
    orphanIntervals: nat,
    pendingComplete: nat,
    log: seq<Event>)

  /** Intervals whose callback can still fire. */
  function RunningIntervals(s: Session): nat {
    s.orphanIntervals + if s.hasInterval then 1 else 0
  }

  /** The invariant the operations keep: the index is in range, progress is
      a non-negative multiple of the step, and it is below 100 on every
      story but the last (reaching 100 elsewhere moves on at once). */
  predicate Consistent(s: Session) {
    && 0 <= s.currentIndex < s.totalStories
    && 0 <= s.progress
    && s.progress % ProgressStep == 0
    && (s.currentIndex < s.totalStories - 1 ==> s.progress < 100)
  }

  function Init(initialIndex: int, totalStories: int): Session {
    Session(initialIndex, totalStories, 0, false, false, 0, 0, [])
  }

  /** `start`: installs a new interval; one already installed keeps running. */
  function AfterStart(s: Session): Session {
    s.(hasInterval := true, orphanIntervals := RunningIntervals(s))
  }

  /** `stop`: clears the installed interval, if any. */
  function AfterStop(s: Session): Session {
    s.(hasInterval := false)
  }

  function AfterPause(s: Session): Session {
    s.(isPaused := true)
  }

  function AfterResume(s: Session): Session {
    s.(isPaused := false)
  }

  /** `nextStory`: moves on and reports the index, then progress 0; on the
      last story it stops the interval and queues `onComplete`. */
  function AfterNextStory(s: Session): Session {
    if s.currentIndex < s.totalStories - 1 then
      s.(currentIndex := s.currentIndex + 1, progress := 0,
         log := s.log + [StoryChange(s.currentIndex + 1), ProgressUpdate(0)])
    else
      AfterStop(s).(pendingComplete := s.pendingComplete + 1)
  }

  /** `previousStory`: moves back and reports as `nextStory` does; nothing on
      the first story. */
  function AfterPreviousStory(s: Session): Session {
    if s.currentIndex > 0 then
      s.(currentIndex := s.currentIndex - 1, progress := 0,
         log := s.log + [StoryChange(s.currentIndex - 1), ProgressUpdate(0)])
    else
      s
  }

  /** One run of the interval callback: nothing while paused; otherwise add
      the step, report it, and move on once progress reaches 100. */
  function AfterTick(s: Session): Session {
    if s.isPaused then s
    else
      var t := s.(progress := s.progress + ProgressStep,
                  log := s.log + [ProgressUpdate(s.progress + ProgressStep)]);
      if t.progress >= 100 then AfterNextStory(t) else t
  }

  /** The zero-delay timeout runs one queued `onComplete`. */
  function AfterFlush(s: Session): Session
    requires s.pendingComplete > 0
  {
    s.(pendingComplete := s.pendingComplete - 1, log := s.log + [Complete])
  }

  /** `k` interval callbacks in a row. */
  function Ticks(s: Session, k: nat): Session
    decreases k
  {
    if k == 0 then s else Ticks(AfterTick(s), k - 1)
  }

  /** The progress reports of `k` ticks that start from `p`. */
  function ProgressRun(p: int, k: nat): (r: seq<Event>)
    ensures |r| == k
    ensures forall j :: 0 <= j < k ==> r[j] == ProgressUpdate(p + ProgressStep * (j + 1))
  {
    seq(k, j => ProgressUpdate(p + ProgressStep * (j + 1)))
  }

  // ----- one-step properties -----

  /** The constructor's state satisfies the invariant exactly when the
      initial index is in range. */
  lemma InitConsistent(initialIndex: int, totalStories: int)
    ensures Consistent(Init(initialIndex, totalStories)) <==> 0 <= initialIndex < totalStories
  {
  }

  /** Every operation keeps the invariant. */
  lemma OperationsKeepConsistent(s: Session)
    requires Consistent(s)
    ensures Consistent(AfterStart(s)) && Consistent(AfterStop(s))
    ensures Consistent(AfterPause(s)) && Consistent(AfterResume(s))
    ensures Consistent(AfterNextStory(s)) && Consistent(AfterPreviousStory(s))
    ensures Consistent(AfterTick(s))
    ensures s.pendingComplete > 0 ==> Consistent(AfterFlush(s))
  {
  }

  /** A tick while paused changes nothing and fires nothing. */
  lemma PausedTickIsNoOp(s: Session)
    requires s.isPaused
    ensures AfterTick(s) == s
  {
  }

  /** An unpaused tick that stays below 100 adds exactly 2 and reports the
      new value, leaving the index alone. */
  lemma TickAddsStep(s: Session)
    requires !s.isPaused && s.progress + 2 < 100
    ensures AfterTick(s) == s.(progress := s.progress + 2, log := s.log + [ProgressUpdate(s.progress + 2)])
  {
  }

  /** `nextStory` below the last index: index + 1, progress 0, and
      `onStoryChange` is reported before `onProgressUpdate(0)`. At the last
      index the index stays, the interval is cleared and `onComplete` is
      queued, not called. */
  lemma NextStoryCases(s: Session)
    ensures s.currentIndex < s.totalStories - 1 ==>
              var r := AfterNextStory(s);
              r.currentIndex == s.currentIndex + 1 && r.progress == 0
              && r.log == s.log + [StoryChange(s.currentIndex + 1), ProgressUpdate(0)]
              && r.pendingComplete == s.pendingComplete && RunningIntervals(r) == RunningIntervals(s)
    ensures s.currentIndex >= s.totalStories - 1 ==>
              var r := AfterNextStory(s);
              r.currentIndex == s.currentIndex && r.progress == s.progress && r.log == s.log
              && !r.hasInterval && r.orphanIntervals == s.orphanIntervals
              && r.pendingComplete == s.pendingComplete + 1
  {
  }

  /** `previousStory` at index 0 is a no-op; elsewhere it moves back with the
      same two reports in the same order. */
  lemma PreviousStoryCases(s: Session)
    ensures s.currentIndex <= 0 ==> AfterPreviousStory(s) == s
    ensures s.currentIndex > 0 ==>
              var r := AfterPreviousStory(s);
              r.currentIndex == s.currentIndex - 1 && r.progress == 0
              && r.log == s.log + [StoryChange(s.currentIndex - 1), ProgressUpdate(0)]
  {
  }

  /** `pause` and `resume` only flip the flag. */
  lemma PauseResumeOnlyFlip(s: Session)
    ensures AfterPause(s) == s.(isPaused := true)
    ensures AfterResume(s) == s.(isPaused := false)
    ensures AfterResume(AfterPause(s)).progress == s.progress
    ensures AfterResume(AfterPause(s)).currentIndex == s.currentIndex
  {
  }

  /** Starting twice leaves an interval that `stop` cannot reach: after
      start, start, stop an interval still runs. */
  lemma DoubleStartOutlivesStop(s: Session)
    ensures RunningIntervals(AfterStart(AfterStart(s))) == RunningIntervals(s) + 2
    ensures RunningIntervals(AfterStop(AfterStart(AfterStart(s)))) == RunningIntervals(s) + 1
  {
  }

  // ----- many ticks -----

  lemma {:induction false} TicksAdd(s: Session, a: nat, b: nat)
    ensures Ticks(s, a + b) == Ticks(Ticks(s, a), b)
    decreases a
  {
    if a > 0 {
      TicksAdd(AfterTick(s), a - 1, b);
    }
  }

  /** While paused, any number of ticks changes nothing. */
  lemma {:induction false} PausedTicksAreNoOps(s: Session, k: nat)
    requires s.isPaused
    ensures Ticks(s, k) == s
    decreases k
  {
    if k > 0 {
      PausedTicksAreNoOps(AfterTick(s), k - 1);
    }
  }

  /** Unpaused ticks that stay below 100 only add to progress and report it. */
  lemma {:induction false} TicksWithinStory(s: Session, k: nat)
    requires !s.isPaused && s.progress + ProgressStep * k < 100
    ensures Ticks(s, k) == s.(progress := s.progress + ProgressStep * k,
                              log := s.log + ProgressRun(s.progress, k))
    decreases k
  {
    if k > 0 {
      var t := AfterTick(s);
      assert t == s.(progress := s.progress + ProgressStep, log := s.log + [ProgressUpdate(s.progress + ProgressStep)]);
      TicksWithinStory(t, k - 1);
      assert ProgressRun(s.progress, k) == [ProgressUpdate(s.progress + ProgressStep)] + ProgressRun(t.progress, k - 1);
    }
  }

  lemma {:induction false} ProgressRunSnoc(p: int, k: nat)
    ensures ProgressRun(p, k + 1) == ProgressRun(p, k) + [ProgressUpdate(p + ProgressStep * (k + 1))]
  {
    assert ProgressRun(p, k + 1)[..k] == ProgressRun(p, k);
  }

  /** From progress 0 a story that is not the last moves on at exactly the
      50th tick: after 49 ticks the index is unchanged at progress 98; the
      50th reports 100, then the new index, then 0. */
  lemma StoryAdvancesOnFiftiethTick(s: Session)
    requires !s.isPaused && s.progress == 0 && s.currentIndex < s.totalStories - 1
    ensures Ticks(s, TicksPerStory - 1).currentIndex == s.currentIndex
    ensures Ticks(s, TicksPerStory - 1).progress == 98
    ensures var r := Ticks(s, TicksPerStory);
            && r.currentIndex == s.currentIndex + 1 && r.progress == 0
            && r.log == s.log + ProgressRun(0, TicksPerStory) + [StoryChange(s.currentIndex + 1), ProgressUpdate(0)]
            && r.isPaused == s.isPaused && r.totalStories == s.totalStories
            && r.hasInterval == s.hasInterval && r.orphanIntervals == s.orphanIntervals
            && r.pendingComplete == s.pendingComplete
  {
    var m := LastTickOfStory(s);
    var t := m.(progress := 100, log := m.log + [ProgressUpdate(100)]);
    assert AfterTick(m) == AfterNextStory(t);
  }

  /** On the last story the 50th tick from progress 0 stops the interval and
      queues `onComplete`; the index stays and progress rests at 100. */
  lemma LastStoryCompletesOnFiftiethTick(s: Session)
    requires !s.isPaused && s.progress == 0 && s.currentIndex == s.totalStories - 1
    ensures var r := Ticks(s, TicksPerStory);
            && r.currentIndex == s.currentIndex && r.progress == 100
            && r.log == s.log + ProgressRun(0, TicksPerStory)
            && !r.hasInterval && r.orphanIntervals == s.orphanIntervals
            && r.pendingComplete == s.pendingComplete + 1
            && r.isPaused == s.isPaused && r.totalStories == s.totalStories
  {
    var m := LastTickOfStory(s);
    var t := m.(progress := 100, log := m.log + [ProgressUpdate(100)]);
    assert AfterTick(m) == AfterNextStory(t);
  }

  /** Splits the first 50 ticks from progress 0 into 49 that only count up
      and the one that reaches 100. */
  lemma LastTickOfStory(s: Session) returns (m: Session)
    requires !s.isPaused && s.progress == 0
    ensures m == s.(progress := 98, log := s.log + ProgressRun(0, TicksPerStory - 1))
    ensures Ticks(s, TicksPerStory - 1) == m
    ensures Ticks(s, TicksPerStory) == AfterTick(m)
    ensures m.log + [ProgressUpdate(100)] == s.log + ProgressRun(0, TicksPerStory)
  {
    TicksWithinStory(s, TicksPerStory - 1);
    m := Ticks(s, TicksPerStory - 1);
    TicksAdd(s, TicksPerStory - 1, 1);
    assert Ticks(m, 1) == AfterTick(m);
    ProgressRunSnoc(0, TicksPerStory - 1);
  }

  /** With a single interval, completing the last story leaves no interval
      running, so no later tick can change anything. */
  lemma CompletionStopsTheOnlyInterval(s: Session)
    requires !s.isPaused && s.progress == 0 && s.currentIndex == s.totalStories - 1
    requires s.orphanIntervals == 0
    ensures RunningIntervals(Ticks(s, TicksPerStory)) == 0
  {
    LastStoryCompletesOnFiftiethTick(s);
  }

  /** The reports `nextStory` makes while walking from story `i` through the
      next `k` stories. */
  function NavigationRun(i: int, k: nat): (r: seq<Event>)
    ensures |r| == 2 * k
    decreases k
  {
    if k == 0 then [] else [StoryChange(i + 1), ProgressUpdate(0)] + NavigationRun(i + 1, k - 1)
  }

  /** `k` calls of `nextStory` in a row. */
  function Nexts(s: Session, k: nat): Session
    decreases k
  {
    if k == 0 then s else Nexts(AfterNextStory(s), k - 1)
  }

  /** From story i, repeated `nextStory` reports each later index once, in
      order, and then queues exactly one `onComplete`. */
  lemma {:induction false} NextStoryWalksToTheEnd(s: Session)
    requires 0 <= s.currentIndex < s.totalStories
    ensures var k := s.totalStories - 1 - s.currentIndex;
            var r := Nexts(s, k + 1);
            r.currentIndex == s.totalStories - 1
            && r.log == s.log + NavigationRun(s.currentIndex, k)
            && r.pendingComplete == s.pendingComplete + 1
            && !r.hasInterval
    decreases s.totalStories - s.currentIndex
  {
    var k := s.totalStories - 1 - s.currentIndex;
    if k > 0 {
      var t := AfterNextStory(s);
      NextStoryWalksToTheEnd(t);
      assert Nexts(s, k + 1) == Nexts(t, k);
      assert s.log + NavigationRun(s.currentIndex, k)
          == t.log + NavigationRun(t.currentIndex, k - 1);
    }
  }

  /** Three stories from index 0 with one interval running: the index
      becomes 1 after 50 ticks and 2 after 50 more; 50 more queue exactly one
      `onComplete` and leave no interval running, so nothing ticks again. */
  lemma ThreeStoryScenario(s0: Session)
    requires s0.totalStories == 3 && s0.currentIndex == 0 && s0.progress == 0
    requires !s0.isPaused && s0.hasInterval && s0.orphanIntervals == 0 && s0.pendingComplete == 0
    ensures Ticks(s0, 50).currentIndex == 1 && Ticks(s0, 50).progress == 0
    ensures Ticks(s0, 100).currentIndex == 2 && Ticks(s0, 100).progress == 0
    ensures Ticks(s0, 150).currentIndex == 2 && Ticks(s0, 150).pendingComplete == 1
    ensures RunningIntervals(Ticks(s0, 150)) == 0
  {
    StoryAdvancesOnFiftiethTick(s0);
    var s1 := Ticks(s0, TicksPerStory);
    StoryAdvancesOnFiftiethTick(s1);
    var s2 := Ticks(s1, TicksPerStory);
    LastStoryCompletesOnFiftiethTick(s2);
    TicksAdd(s0, TicksPerStory, TicksPerStory);
    TicksAdd(s0, 2 * TicksPerStory, TicksPerStory);
  }

  /** A fresh controller over three stories, once started, is the session the
      scenario above begins with. */
  lemma StartedThreeStoryController()
    ensures var s0 := AfterStart(Init(0, 3));
            s0.totalStories == 3 && s0.currentIndex == 0 && s0.progress == 0
            && !s0.isPaused && s0.hasInterval && s0.orphanIntervals == 0 && s0.pendingComplete == 0
  {
  }

  // ----- the controller object -----

  class StoryController {
    var currentIndex: int
    var progress: int
    var isPaused: bool
    /** Whether the `progressInterval` field holds an interval. */
    var progressInterval: bool
    var orphanIntervals: nat
    var pendingComplete: nat
    /** The callbacks fired so far: `onProgressUpdate`, `onStoryChange`, `onComplete`. */
    var fired: seq<Event>
    const totalStories: int

    function Model(): Session
      reads this
    {
      Session(currentIndex, totalStories, progress, isPaused, progressInterval,
              orphanIntervals, pendingComplete, fired)
    }

    constructor (initialIndex: int, totalStories: int)
      requires 0 <= initialIndex < totalStories
      ensures Model() == Init(initialIndex, totalStories) && Consistent(Model())
    {
      this.currentIndex := initialIndex;
      this.totalStories := totalStories;
      this.progress := 0;
      this.isPaused := false;
      this.progressInterval := false;
      this.orphanIntervals := 0;
      this.pendingComplete := 0;
      this.fired := [];
    }

    method Start()
      modifies this
      ensures Model() == AfterStart(old(Model()))
    {
      if progressInterval {
        orphanIntervals := orphanIntervals + 1;
      }
      progressInterval := true;
    }

    method Stop()
      modifies this
      ensures Model() == AfterStop(old(Model()))
    {
      if progressInterval {
        progressInterval := false;
      }
    }

    method Pause()
      modifies this
      ensures Model() == AfterPause(old(Model()))
    {
      isPaused := true;
    }

    method Resume()
      modifies this
      ensures Model() == AfterResume(old(Model()))
    {
      isPaused := false;
    }

    method NextStory()
      modifies this
      ensures Model() == AfterNextStory(old(Model()))
    {
      if currentIndex < totalStories - 1 {
        currentIndex := currentIndex + 1;
        progress := 0;
        fired := fired + [StoryChange(currentIndex)];
        fired := fired + [ProgressUpdate(0)];
      } else {
        Stop();
        pendingComplete := pendingComplete + 1;
      }
    }

    method PreviousStory()
      modifies this
      ensures Model() == AfterPreviousStory(old(Model()))
    {
      if currentIndex > 0 {
        currentIndex := currentIndex - 1;
        progress := 0;
        fired := fired + [StoryChange(currentIndex)];
        fired := fired + [ProgressUpdate(0)];
      }
    }

    /** One run of the interval callback; it can only run while some
        interval is installed. */
    method Tick()
      requires RunningIntervals(Model()) > 0
      modifies this
      ensures Model() == AfterTick(old(Model()))
    {
      if isPaused {
        return;
      }
      progress := progress + ProgressStep;
      fired := fired + [ProgressUpdate(progress)];
      if progress >= 100 {
        NextStory();
      }
    }

    /** The zero-delay timeout queued by `nextStory` runs `onComplete`. */
    method FlushDeferred()
      requires pendingComplete > 0
      modifies this
      ensures Model() == AfterFlush(old(Model()))
    {
      pendingComplete := pendingComplete - 1;
      fired := fired + [Complete];
    }

    method GetCurrentIndex() returns (index: int)
      ensures index == currentIndex
    {
      index := currentIndex;
    }

    method GetProgress() returns (p: int)
      ensures p == progress
    {
      p := progress;
    }
  }

  // ----- pure helpers -----

  /** `calculateProgress`: the fill of bar `index` when story `currentIndex`
      is at `currentProgress`. */
  function CalculateProgress(index: int, currentIndex: int, currentProgress: int): (r: int)
    ensures index < currentIndex ==> r == 100
    ensures index == currentIndex ==> r == currentProgress
    ensures index > currentIndex ==> r == 0
  {
    if index < currentIndex then 100
    else if index == currentIndex then currentProgress
    else 0
  }

  /** With progress between 0 and 100 the bars fill from the left: a bar is
      never fuller than one to its left. */
  lemma BarsFillFromTheLeft(i: int, j: int, currentIndex: int, currentProgress: int)
    requires i <= j && 0 <= currentProgress <= 100
    ensures 0 <= CalculateProgress(j, currentIndex, currentProgress)
              <= CalculateProgress(i, currentIndex, currentProgress) <= 100
  {
  }

  /** A tap or click: the three places a horizontal coordinate may be found. */
  datatype TapEvent = TapEvent(clientX: Option<real>, locationX: Option<real>, nativeLocationX: Option<real>)

  datatype Direction = Next | Previous

  /** JavaScript truthiness of an optional number: present and not zero. */
  predicate Truthy(x: Option<real>) {
    x.Some? && x.value != 0.0
  }

  /** `clientX || locationX || nativeEvent?.locationX || 0` */
  function TapX(e: TapEvent): (r: real)
    ensures r == 0.0 <==> !Truthy(e.clientX) && !Truthy(e.locationX) && !Truthy(e.nativeLocationX)
    ensures Truthy(e.clientX) ==> r == e.clientX.value
    ensures !Truthy(e.clientX) && Truthy(e.locationX) ==> r == e.locationX.value
    ensures !Truthy(e.clientX) && !Truthy(e.locationX) && Truthy(e.nativeLocationX) ==> r == e.nativeLocationX.value
  {
    if Truthy(e.clientX) then e.clientX.value
    else if Truthy(e.locationX) then e.locationX.value
    else if Truthy(e.nativeLocationX) then e.nativeLocationX.value
    else 0.0
  }

  /** `handleStoryNavigation`: next strictly right of the middle, previous
      otherwise. */
  function HandleStoryNavigation(e: TapEvent, containerWidth: real): (d: Direction)
    ensures d == Next <==> TapX(e) > containerWidth / 2.0
  {
    if TapX(e) > containerWidth / 2.0 then Next else Previous
  }

  /** A tap with no coordinate, or only zero coordinates, goes to the
      previous story, as does a tap exactly on the middle. */
  lemma NavigationWithoutCoordinateGoesBack(e: TapEvent, containerWidth: real)
    requires containerWidth >= 0.0
    requires !Truthy(e.clientX) && !Truthy(e.locationX) && !Truthy(e.nativeLocationX)
    ensures HandleStoryNavigation(e, containerWidth) == Previous
    ensures HandleStoryNavigation(TapEvent(Some(containerWidth / 2.0), None, None), containerWidth) == Previous
  {
  }

  /** The per-story toggles and the pause flag a viewer keeps. */
  datatype StoryState = StoryState(isLiked: bool, isFollowing: bool, isPaused: bool)

  /** A `Partial<StoryState>`: the fields an update sets. */
  datatype StoryUpdate = StoryUpdate(isLiked: Option<bool>, isFollowing: Option<bool>, isPaused: Option<bool>)

  /** `useStoryState().getInitialState()` */
  function InitialState(): (r: StoryState)
    ensures !r.isLiked && !r.isFollowing && !r.isPaused
  {
    StoryState(false, false, false)
  }

  /** `useStoryState().resetForNewStory()`: clears like and follow only. */
  function ResetForNewStory(): (u: StoryUpdate)
    ensures u.isLiked == Some(false) && u.isFollowing == Some(false) && u.isPaused.None?
  {
    StoryUpdate(Some(false), Some(false), None)
  }

  /** How a caller's `updateState` merges a partial update: every field the
      update sets replaces the old one, the others stay. */
  function ApplyUpdate(s: StoryState, u: StoryUpdate): StoryState {
    StoryState(
      if u.isLiked.Some? then u.isLiked.value else s.isLiked,
      if u.isFollowing.Some? then u.isFollowing.value else s.isFollowing,
      if u.isPaused.Some? then u.isPaused.value else s.isPaused)
  }

  /** Resetting for a new story clears like and follow and keeps the pause flag. */
  lemma ResetKeepsPause(s: StoryState)
    ensures ApplyUpdate(s, ResetForNewStory()) == InitialState().(isPaused := s.isPaused)
  {
  }

  datatype Action = Like | Follow | Share | Menu | NextAction | PreviousAction | PauseAction | ResumeAction

  /** The update an action of `createStoryActions` hands to `updateState`,
      or None for the actions that do not call it. `s` is the state the
      actions were created from: the closures capture it, so calling the
      same action again sends the same update until the actions are created
      anew from the new state. */
  function ActionUpdate(a: Action, s: StoryState): (u: Option<StoryUpdate>)
    ensures a in {Like, Follow, PauseAction, ResumeAction} <==> u.Some?
    ensures a == Like ==> u == Some(StoryUpdate(Some(!s.isLiked), None, None))
    ensures a == Follow ==> u == Some(StoryUpdate(None, Some(!s.isFollowing), None))
    ensures a == PauseAction ==> u == Some(StoryUpdate(None, None, Some(true)))
    ensures a == ResumeAction ==> u == Some(StoryUpdate(None, None, Some(false)))
  {
    match a
    case Like => Some(StoryUpdate(Some(!s.isLiked), None, None))
    case Follow => Some(StoryUpdate(None, Some(!s.isFollowing), None))
    case PauseAction => Some(StoryUpdate(None, None, Some(true)))
    case ResumeAction => Some(StoryUpdate(None, None, Some(false)))
    case _ => None
  }

  /** What an action does to the controller, when there is one: like,
      follow, share and menu leave it alone; pause and resume flip only its
      flag; next and previous navigate and keep the flag. */
  function ControllerEffect(a: Action, s: Session): (r: Session)
    ensures a in {Like, Follow, Share, Menu} ==> r == s
    ensures a == PauseAction ==> r.isPaused && r.(isPaused := s.isPaused) == s
    ensures a == ResumeAction ==> !r.isPaused && r.(isPaused := s.isPaused) == s
    ensures a == NextAction ==> r == AfterNextStory(s)
    ensures a == PreviousAction ==> r == AfterPreviousStory(s)
    ensures a in {NextAction, PreviousAction} ==>
              r.isPaused == s.isPaused && r.totalStories == s.totalStories && r.orphanIntervals == s.orphanIntervals
  {
    match a
    case NextAction => AfterNextStory(s)
    case PreviousAction => AfterPreviousStory(s)
    case PauseAction => AfterPause(s)
    case ResumeAction => AfterResume(s)
    case _ => s
  }

  /** Like and follow toggle their own flag and nothing else; doing one
      twice, with the actions created anew from the new state in between,
      restores the state. Neither touches the controller. */
  lemma {:induction false} TogglesAreInvolutions(s: StoryState, c: Session)
    ensures var t := ApplyUpdate(s, ActionUpdate(Like, s).value);
            t == s.(isLiked := !s.isLiked) && ApplyUpdate(t, ActionUpdate(Like, t).value) == s
    ensures var t := ApplyUpdate(s, ActionUpdate(Follow, s).value);
            t == s.(isFollowing := !s.isFollowing) && ApplyUpdate(t, ActionUpdate(Follow, t).value) == s
    ensures ControllerEffect(Like, c) == c && ControllerEffect(Follow, c) == c
  {
  }

  /** Actions hold the state they were created from, so calling the same
      action a second time resends its first update: its flags keep the
      values the first call gave them, and a like or follow is not undone. */
  lemma StaleActionRepeatsItsUpdate(a: Action, s: StoryState, t: StoryState)
    requires ActionUpdate(a, s).Some?
    ensures var u := ActionUpdate(a, s).value;
            ApplyUpdate(ApplyUpdate(t, u), u) == ApplyUpdate(t, u)
    ensures a == Like ==>
              ApplyUpdate(ApplyUpdate(s, ActionUpdate(a, s).value), ActionUpdate(a, s).value).isLiked == !s.isLiked
  {
  }

  /** Pause and resume set the viewer's pause flag to the value they give
      the controller, so the two agree after either action whatever they
      were before. */
  lemma PauseFlagFollowsController(s: StoryState, c: Session)
    ensures ApplyUpdate(s, ActionUpdate(PauseAction, s).value) == s.(isPaused := true)
    ensures ApplyUpdate(s, ActionUpdate(ResumeAction, s).value) == s.(isPaused := false)
    ensures ApplyUpdate(s, ActionUpdate(PauseAction, s).value).isPaused == ControllerEffect(PauseAction, c).isPaused
    ensures ApplyUpdate(s, ActionUpdate(ResumeAction, s).value).isPaused == ControllerEffect(ResumeAction, c).isPaused
  {
  }

  /** Runs one action of `createStoryActions`: the controller call through
      `storyController?.…` (skipped without a controller) and the update passed
      to `updateState`. Share and menu only log, which is not modelled. */
  method RunAction(a: Action, s: StoryState, controller: StoryController?) returns (update: Option<StoryUpdate>)
    modifies controller
    ensures update == ActionUpdate(a, s)
    ensures controller != null ==> controller.Model() == ControllerEffect(a, old(controller.Model()))
  {
    match a {
      case NextAction =>
        if controller != null { controller.NextStory(); }
      case PreviousAction =>
        if controller != null { controller.PreviousStory(); }
      case PauseAction =>
        if controller != null { controller.Pause(); }
      case ResumeAction =>
        if controller != null { controller.Resume(); }
      case _ =>
    }
    update := ActionUpdate(a, s);
  }
}
