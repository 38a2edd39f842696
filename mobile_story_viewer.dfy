/** The mobile story viewer component: the same state cells and interval as
    on the web, tap and long-press handlers, and an `onClose` it calls
    synchronously, from inside the progress updater too. */
module MobileStoryViewer {
  import opened News
  import opened StoryViewerCells

  /** The cells plus the `onClose` calls made. */
  datatype Viewer = Viewer(cells: Cells, storyCount: int, closeCalls: nat)

  function Init(storyCount: int, initialIndex: int): Viewer {
    Viewer(InitialCells(initialIndex), storyCount, 0)
  }

  predicate ViewerConsistent(v: Viewer) {
    Consistent(v.cells, v.storyCount)
  }

  /** One 100 ms period: nothing while paused (no interval is installed);
      otherwise the updater runs and, on the last story at 100, calls
      `onClose` inline. */
  function AfterIntervalTick(v: Viewer): Viewer {
    if v.cells.isPaused then v
    else
      var (p, request) := ProgressUpdater(v.cells.progress, v.cells.currentIndex, v.storyCount);
      match request
      case Stay => v.(cells := v.cells.(progress := p))
      case Advance => v.(cells := ChangeIndex(v.cells, v.cells.currentIndex + 1))
      case Close => v.(cells := v.cells.(progress := p), closeCalls := v.closeCalls + 1)
  }

  function AfterGoToNextStory(v: Viewer): Viewer {
    if v.cells.currentIndex < v.storyCount - 1 then v.(cells := ChangeIndex(v.cells, v.cells.currentIndex + 1))
    else v.(closeCalls := v.closeCalls + 1)
  }

  function AfterGoToPreviousStory(v: Viewer): Viewer {
    if v.cells.currentIndex > 0 then v.(cells := ChangeIndex(v.cells, v.cells.currentIndex - 1))
    else v
  }

  /** `handleTap`: the tap's x position against half the screen width. */
  function AfterTap(v: Viewer, locationX: real, screenWidth: real): Viewer {
    if TapGoesNext(locationX, screenWidth) then AfterGoToNextStory(v) else AfterGoToPreviousStory(v)
  }

  function AfterLongPress(v: Viewer): Viewer {
    v.(cells := v.cells.(isPaused := true))
  }

  function AfterPressOut(v: Viewer): Viewer {
    v.(cells := v.cells.(isPaused := false))
  }

  function AfterLike(v: Viewer): Viewer {
    v.(cells := ToggleLike(v.cells))
  }

  function AfterFollow(v: Viewer): Viewer {
    v.(cells := ToggleFollow(v.cells))
  }

  /** `k` interval periods in a row. */
  function Ticks(v: Viewer, k: nat): Viewer
    decreases k
  {
    if k == 0 then v else AfterIntervalTick(Ticks(v, k - 1))
  }

  // ----- properties -----

  /** Every handler keeps the index in range and progress between 0 and 100,
      starting from a valid initial index. */
  lemma OperationsKeepConsistent(v: Viewer, locationX: real, screenWidth: real)
    requires ViewerConsistent(v)
    ensures ViewerConsistent(AfterIntervalTick(v))
    ensures ViewerConsistent(AfterGoToNextStory(v)) && ViewerConsistent(AfterGoToPreviousStory(v))
    ensures ViewerConsistent(AfterTap(v, locationX, screenWidth))
    ensures ViewerConsistent(AfterLongPress(v)) && ViewerConsistent(AfterPressOut(v))
    ensures ViewerConsistent(AfterLike(v)) && ViewerConsistent(AfterFollow(v))
  {
  }

  /** One period: below 100 progress grows by 2; at 100 below the last story
      the index moves on with progress, like and follow reset; at 100 on the
      last story progress stays 100 and `onClose` is called at once. */
  lemma IntervalTickCases(v: Viewer)
    requires !v.cells.isPaused
    ensures var p := v.cells.progress;
            p < 100 ==> AfterIntervalTick(v) == v.(cells := v.cells.(progress := p + 2))
    ensures v.cells.progress >= 100 && v.cells.currentIndex < v.storyCount - 1 ==>
              AfterIntervalTick(v) == v.(cells := ChangeIndex(v.cells, v.cells.currentIndex + 1))
    ensures v.cells.progress >= 100 && v.cells.currentIndex >= v.storyCount - 1 ==>
              AfterIntervalTick(v) == v.(cells := v.cells.(progress := 100), closeCalls := v.closeCalls + 1)
  {
  }

  /** While paused, time produces nothing. */
  lemma {:induction false} PausedTimeIsStill(v: Viewer, k: nat)
    requires v.cells.isPaused
    ensures Ticks(v, k) == v
    decreases k
  {
    if k > 0 {
      PausedTimeIsStill(v, k - 1);
    }
  }

  /** Long press pauses and press-out resumes; neither touches index or
      progress. */
  lemma PressPausesAndResumes(v: Viewer)
    ensures AfterLongPress(v).cells.isPaused && !AfterPressOut(v).cells.isPaused
    ensures AfterLongPress(v).cells.currentIndex == v.cells.currentIndex
    ensures AfterLongPress(v).cells.progress == v.cells.progress
    ensures AfterPressOut(AfterLongPress(v)) == AfterPressOut(v)
  {
  }

  /** Unpaused periods that stay within 100 only add to progress. */
  lemma {:induction false} TicksWithinStory(v: Viewer, k: nat)
    requires !v.cells.isPaused && v.cells.progress + ProgressStep * k <= 100
    ensures Ticks(v, k) == v.(cells := v.cells.(progress := v.cells.progress + ProgressStep * k))
    decreases k
  {
    if k > 0 {
      TicksWithinStory(v, k - 1);
    }
  }

  /** From progress 0 below the last story, 50 periods reach exactly 100 and
      the 51st moves on with like and follow reset. */
  lemma StoryAdvancesOnFiftyFirstTick(v: Viewer)
    requires !v.cells.isPaused && v.cells.progress == 0 && v.cells.currentIndex < v.storyCount - 1
    ensures Ticks(v, TicksPerStory).cells.currentIndex == v.cells.currentIndex
    ensures Ticks(v, TicksPerStory).cells.progress == 100
    ensures var r := Ticks(v, TicksPerStory + 1);
            && r.cells.currentIndex == v.cells.currentIndex + 1 && r.cells.progress == 0
            && !r.cells.isLiked && !r.cells.isFollowing && !r.cells.isPaused
            && r.closeCalls == v.closeCalls
  {
    TicksWithinStory(v, TicksPerStory);
  }

  /** At 100 on the last story one more period calls `onClose` once more. */
  lemma TickAtEndCallsClose(w: Viewer)
    requires !w.cells.isPaused && w.cells.progress == 100 && w.cells.currentIndex == w.storyCount - 1
    ensures AfterIntervalTick(w) == w.(closeCalls := w.closeCalls + 1)
  {
  }

  /** On the last story the 51st period from progress 0 calls `onClose`
      inline, and while the component stays mounted every later period calls
      it again. */
  lemma {:induction false} LastStoryClosesEveryTick(v: Viewer, k: nat)
    requires !v.cells.isPaused && v.cells.progress == 0 && v.cells.currentIndex == v.storyCount - 1
    ensures var r := Ticks(v, TicksPerStory + 1 + k);
            && r.cells == v.cells.(progress := 100) && r.storyCount == v.storyCount
            && r.closeCalls == v.closeCalls + 1 + k
    decreases k
  {
    var w := Ticks(v, TicksPerStory + k);
    if k == 0 {
      TicksWithinStory(v, TicksPerStory);
    } else {
      LastStoryClosesEveryTick(v, k - 1);
    }
    TickAtEndCallsClose(w);
  }

  /** `goToNextStory` moves on or calls `onClose` on the last story;
      `goToPreviousStory` never goes below 0. A tap right of the middle goes
      next; the middle itself and the left go back. */
  lemma NavigationCases(v: Viewer, locationX: real, screenWidth: real)
    ensures v.cells.currentIndex < v.storyCount - 1 ==>
              AfterGoToNextStory(v).cells == ChangeIndex(v.cells, v.cells.currentIndex + 1)
    ensures v.cells.currentIndex >= v.storyCount - 1 ==>
              AfterGoToNextStory(v) == v.(closeCalls := v.closeCalls + 1)
    ensures v.cells.currentIndex <= 0 ==> AfterGoToPreviousStory(v) == v
    ensures AfterTap(v, screenWidth / 2.0, screenWidth) == AfterGoToPreviousStory(v)
    ensures locationX > screenWidth / 2.0 ==> AfterTap(v, locationX, screenWidth) == AfterGoToNextStory(v)
  {
  }

  // ----- the component -----

  class StoryViewer {
    const stories: seq<NewsItem>
    var currentIndex: int
    var progress: int
    var isLiked: bool
    var isFollowing: bool
    var isPaused: bool
    /** `onClose` calls made. */
    var closeCalls: nat

    function Model(): Viewer
      reads this
    {
      Viewer(Cells(currentIndex, progress, isLiked, isFollowing, isPaused), |stories|, closeCalls)
    }

    constructor (stories: seq<NewsItem>, initialIndex: int)
      requires 0 <= initialIndex < |stories|
      ensures this.stories == stories
      ensures Model() == Init(|stories|, initialIndex) && ViewerConsistent(Model())
    {
      this.stories := stories;
      this.currentIndex := initialIndex;
      this.progress := 0;
      this.isLiked := false;
      this.isFollowing := false;
      this.isPaused := false;
      this.closeCalls := 0;
    }

    /** `setCurrentIndex(index)` and the reset effect it triggers. */
    method SetCurrentIndex(index: int)
      modifies this
      ensures Model() == old(Model()).(cells := ChangeIndex(old(Model()).cells, index))
    {
      currentIndex := index;
      progress := 0;
      isLiked := false;
      isFollowing := false;
    }

    method IntervalTick()
      modifies this
      ensures Model() == AfterIntervalTick(old(Model()))
    {
      if isPaused {
        return;
      }
      if progress >= 100 {
        if currentIndex < |stories| - 1 {
          SetCurrentIndex(currentIndex + 1);
        } else {
          closeCalls := closeCalls + 1;
          progress := 100;
        }
      } else {
        progress := progress + ProgressStep;
      }
    }

    method GoToNextStory()
      modifies this
      ensures Model() == AfterGoToNextStory(old(Model()))
    {
      if currentIndex < |stories| - 1 {
        SetCurrentIndex(currentIndex + 1);
      } else {
        closeCalls := closeCalls + 1;
      }
    }

    method GoToPreviousStory()
      modifies this
      ensures Model() == AfterGoToPreviousStory(old(Model()))
    {
      if currentIndex > 0 {
        SetCurrentIndex(currentIndex - 1);
      }
    }

    method HandleTap(locationX: real, screenWidth: real)
      modifies this
      ensures Model() == AfterTap(old(Model()), locationX, screenWidth)
    {
      if locationX > screenWidth / 2.0 {
        GoToNextStory();
      } else {
        GoToPreviousStory();
      }
    }

    method HandleLongPress()
      modifies this
      ensures Model() == AfterLongPress(old(Model()))
    {
      isPaused := true;
    }

    method HandlePressOut()
      modifies this
      ensures Model() == AfterPressOut(old(Model()))
    {
      isPaused := false;
    }

    method HandleLike()
      modifies this
      ensures Model() == AfterLike(old(Model()))
    {
      isLiked := !isLiked;
    }

    method HandleFollow()
      modifies this
      ensures Model() == AfterFollow(old(Model()))
    {
      isFollowing := !isFollowing;
    }

    /** The widths of the progress bars, one per story. */
    method ProgressBarWidths() returns (widths: seq<int>)
      requires ViewerConsistent(Model())
      ensures |widths| == |stories|
      ensures forall i :: 0 <= i < currentIndex ==> widths[i] == 100
      ensures widths[currentIndex] == progress
      ensures forall i :: currentIndex < i < |stories| ==> widths[i] == 0
    {
      widths := BarWidths(|stories|, currentIndex, progress);
    }
  }
}
