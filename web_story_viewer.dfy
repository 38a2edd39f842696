/** The web story viewer component: its state cells driven by the progress
    interval, the index-change reset, click and mouse handlers, and an
    `onClose` that it defers with a zero-delay timeout. */
module WebStoryViewer {
  import opened News
  import opened StoryViewerCells

  /** The cells plus the `onClose` calls queued (`pendingClose`) and made
      (`closeCalls`). */
  datatype Viewer = Viewer(cells: Cells, storyCount: int, pendingClose: nat, closeCalls: nat)

  function Init(storyCount: int, initialIndex: int): Viewer {
    Viewer(InitialCells(initialIndex), storyCount, 0, 0)
  }

  predicate ViewerConsistent(v: Viewer) {
    Consistent(v.cells, v.storyCount)
  }

  /** One 100 ms period. No interval is installed while paused, so time
      changes nothing then; otherwise the updater runs. Closing is deferred:
      it only queues `onClose`. */
  function AfterIntervalTick(v: Viewer): Viewer {
    if v.cells.isPaused then v
    else
      var (p, request) := ProgressUpdater(v.cells.progress, v.cells.currentIndex, v.storyCount);
      match request
      case Stay => v.(cells := v.cells.(progress := p))
      case Advance => v.(cells := ChangeIndex(v.cells, v.cells.currentIndex + 1))
      case Close => v.(cells := v.cells.(progress := p), pendingClose := v.pendingClose + 1)
  }

  function AfterGoToNextStory(v: Viewer): Viewer {
    if v.cells.currentIndex < v.storyCount - 1 then v.(cells := ChangeIndex(v.cells, v.cells.currentIndex + 1))
    else v.(pendingClose := v.pendingClose + 1)
  }

  function AfterGoToPreviousStory(v: Viewer): Viewer {
    if v.cells.currentIndex > 0 then v.(cells := ChangeIndex(v.cells, v.cells.currentIndex - 1))
    else v
  }

  /** `handleClick`: the click's offset inside the box picks the side. */
  function AfterClick(v: Viewer, clientX: real, left: real, width: real): Viewer {
    if TapGoesNext(clientX - left, width) then AfterGoToNextStory(v) else AfterGoToPreviousStory(v)
  }

  function AfterMouseDown(v: Viewer): Viewer {
    v.(cells := v.cells.(isPaused := true))
  }

  /** Mouse up, and mouse leave, which runs the same handler. */
  function AfterMouseUp(v: Viewer): Viewer {
    v.(cells := v.cells.(isPaused := false))
  }

  function AfterLikeClick(v: Viewer): Viewer {
    v.(cells := ToggleLike(v.cells))
  }

  function AfterFollowClick(v: Viewer): Viewer {
    v.(cells := ToggleFollow(v.cells))
  }

  /** A zero-delay timeout runs one queued `onClose`. */
  function AfterFlush(v: Viewer): Viewer
    requires v.pendingClose > 0
  {
    v.(pendingClose := v.pendingClose - 1, closeCalls := v.closeCalls + 1)
  }

  /** `k` interval periods in a row. */
  function Ticks(v: Viewer, k: nat): Viewer
    decreases k
  {
    if k == 0 then v else AfterIntervalTick(Ticks(v, k - 1))
  }

  // ----- properties -----

  lemma OperationsKeepConsistent(v: Viewer, clientX: real, left: real, width: real)
    requires ViewerConsistent(v)
    ensures ViewerConsistent(AfterIntervalTick(v))
    ensures ViewerConsistent(AfterGoToNextStory(v)) && ViewerConsistent(AfterGoToPreviousStory(v))
    ensures ViewerConsistent(AfterClick(v, clientX, left, width))
    ensures ViewerConsistent(AfterMouseDown(v)) && ViewerConsistent(AfterMouseUp(v))
    ensures ViewerConsistent(AfterLikeClick(v)) && ViewerConsistent(AfterFollowClick(v))
    ensures v.pendingClose > 0 ==> ViewerConsistent(AfterFlush(v))
  {
  }

  /** One period: below 100 progress grows by 2 and the index stays; at 100
      below the last story the index moves on with progress, like and follow
      reset; at 100 on the last story progress stays 100 and `onClose` is
      queued, not called. */
  lemma IntervalTickCases(v: Viewer)
    requires !v.cells.isPaused
    ensures var p := v.cells.progress;
            p < 100 ==> AfterIntervalTick(v) == v.(cells := v.cells.(progress := p + 2))
    ensures v.cells.progress >= 100 && v.cells.currentIndex < v.storyCount - 1 ==>
              AfterIntervalTick(v) == v.(cells := ChangeIndex(v.cells, v.cells.currentIndex + 1))
    ensures v.cells.progress >= 100 && v.cells.currentIndex >= v.storyCount - 1 ==>
              AfterIntervalTick(v) == v.(cells := v.cells.(progress := 100), pendingClose := v.pendingClose + 1)
  {
  }

  /** While paused, time produces nothing. */
  lemma {:induction false} PausedTimeIsStill(v: Viewer, k: nat)
    requires v.cells.isPaused
    ensures Ticks(v, k) == v
    decreases k
  {
    if k > 0 {
      PausedTimeIsStill(v, k - 1);
    }
  }

  /** Unpaused periods that stay within 100 only add to progress. */
  lemma {:induction false} TicksWithinStory(v: Viewer, k: nat)
    requires !v.cells.isPaused && v.cells.progress + ProgressStep * k <= 100
    ensures Ticks(v, k) == v.(cells := v.cells.(progress := v.cells.progress + ProgressStep * k))
    decreases k
  {
    if k > 0 {
      TicksWithinStory(v, k - 1);
    }
  }

  /** From progress 0 below the last story, 50 periods reach exactly 100 at
      the same index and the 51st moves on, since the check precedes the
      increment; like and follow are reset then. */
  lemma StoryAdvancesOnFiftyFirstTick(v: Viewer)
    requires !v.cells.isPaused && v.cells.progress == 0 && v.cells.currentIndex < v.storyCount - 1
    ensures Ticks(v, TicksPerStory).cells.currentIndex == v.cells.currentIndex
    ensures Ticks(v, TicksPerStory).cells.progress == 100
    ensures var r := Ticks(v, TicksPerStory + 1);
            && r.cells.currentIndex == v.cells.currentIndex + 1 && r.cells.progress == 0
            && !r.cells.isLiked && !r.cells.isFollowing && !r.cells.isPaused
            && r.pendingClose == v.pendingClose && r.closeCalls == v.closeCalls
  {
    TicksWithinStory(v, TicksPerStory);
  }

  /** At 100 on the last story one more period only queues `onClose`. */
  lemma TickAtEndQueuesClose(w: Viewer)
    requires !w.cells.isPaused && w.cells.progress == 100 && w.cells.currentIndex == w.storyCount - 1
    ensures AfterIntervalTick(w) == w.(pendingClose := w.pendingClose + 1)
  {
  }

  /** On the last story the 51st period from progress 0 queues `onClose`
      without calling it, and the interval keeps running: every later
      period queues one more while progress rests at 100. */
  lemma {:induction false} LastStoryQueuesCloseEveryTick(v: Viewer, k: nat)
    requires !v.cells.isPaused && v.cells.progress == 0 && v.cells.currentIndex == v.storyCount - 1
    ensures var r := Ticks(v, TicksPerStory + 1 + k);
            && r.cells == v.cells.(progress := 100) && r.storyCount == v.storyCount
            && r.pendingClose == v.pendingClose + 1 + k && r.closeCalls == v.closeCalls
    decreases k
  {
    var w := Ticks(v, TicksPerStory + k);
    if k == 0 {
      TicksWithinStory(v, TicksPerStory);
    } else {
      LastStoryQueuesCloseEveryTick(v, k - 1);
    }
    TickAtEndQueuesClose(w);
  }

  /** `goToNextStory` moves on below the last story and otherwise queues
      `onClose`; `goToPreviousStory` does nothing at 0. A click right of the
      middle goes next; the middle itself and the left go back. */
  lemma NavigationCases(v: Viewer, clientX: real, left: real, width: real)
    ensures v.cells.currentIndex < v.storyCount - 1 ==>
              AfterGoToNextStory(v).cells == ChangeIndex(v.cells, v.cells.currentIndex + 1)
    ensures v.cells.currentIndex >= v.storyCount - 1 ==>
              AfterGoToNextStory(v) == v.(pendingClose := v.pendingClose + 1)
    ensures v.cells.currentIndex <= 0 ==> AfterGoToPreviousStory(v) == v
    ensures AfterClick(v, clientX, left, width) ==
              if clientX - left > width / 2.0 then AfterGoToNextStory(v) else AfterGoToPreviousStory(v)
  {
  }

  // ----- the component -----

  class StoryViewer {
    const stories: seq<NewsItem>
    var currentIndex: int
    var progress: int
    var isLiked: bool
    var isFollowing: bool
    var isPaused: bool
    /** `onClose` calls queued with `setTimeout(…, 0)` and not yet run. */
    var pendingClose: nat
    /** `onClose` calls made. */
    var closeCalls: nat

    function Model(): Viewer
      reads this
    {
      Viewer(Cells(currentIndex, progress, isLiked, isFollowing, isPaused), |stories|, pendingClose, closeCalls)
    }

    constructor (stories: seq<NewsItem>, initialIndex: int)
      requires 0 <= initialIndex < |stories|
      ensures this.stories == stories
      ensures Model() == Init(|stories|, initialIndex) && ViewerConsistent(Model())
    {
      this.stories := stories;
      this.currentIndex := initialIndex;
      this.progress := 0;
      this.isLiked := false;
      this.isFollowing := false;
      this.isPaused := false;
      this.pendingClose := 0;
      this.closeCalls := 0;
    }

    /** `setCurrentIndex(index)` and the reset effect it triggers. */
    method SetCurrentIndex(index: int)
      modifies this
      ensures Model() == old(Model()).(cells := ChangeIndex(old(Model()).cells, index))
    {
      currentIndex := index;
      progress := 0;
      isLiked := false;
      isFollowing := false;
    }

    method IntervalTick()
      modifies this
      ensures Model() == AfterIntervalTick(old(Model()))
    {
      if isPaused {
        return;
      }
      if progress >= 100 {
        if currentIndex < |stories| - 1 {
          SetCurrentIndex(currentIndex + 1);
        } else {
          pendingClose := pendingClose + 1;
          progress := 100;
        }
      } else {
        progress := progress + ProgressStep;
      }
    }

    method GoToNextStory()
      modifies this
      ensures Model() == AfterGoToNextStory(old(Model()))
    {
      if currentIndex < |stories| - 1 {
        SetCurrentIndex(currentIndex + 1);
      } else {
        pendingClose := pendingClose + 1;
      }
    }

    method GoToPreviousStory()
      modifies this
      ensures Model() == AfterGoToPreviousStory(old(Model()))
    {
      if currentIndex > 0 {
        SetCurrentIndex(currentIndex - 1);
      }
    }

    method HandleClick(clientX: real, left: real, width: real)
      modifies this
      ensures Model() == AfterClick(old(Model()), clientX, left, width)
    {
      if clientX - left > width / 2.0 {
        GoToNextStory();
      } else {
        GoToPreviousStory();
      }
    }

    method HandleMouseDown()
      modifies this
      ensures Model() == AfterMouseDown(old(Model()))
    {
      isPaused := true;
    }

    method HandleMouseUp()
      modifies this
      ensures Model() == AfterMouseUp(old(Model()))
    {
      isPaused := false;
    }

    method HandleLikeClick()
      modifies this
      ensures Model() == AfterLikeClick(old(Model()))
    {
      isLiked := !isLiked;
    }

    method HandleFollowClick()
      modifies this
      ensures Model() == AfterFollowClick(old(Model()))
    {
      isFollowing := !isFollowing;
    }

    /** The zero-delay timeout runs one queued `onClose`. */
    method FlushDeferred()
      requires pendingClose > 0
      modifies this
      ensures Model() == AfterFlush(old(Model()))
    {
      pendingClose := pendingClose - 1;
      closeCalls := closeCalls + 1;
    }

    /** The widths of the progress bars, one per story. */
    method ProgressBarWidths() returns (widths: seq<int>)
      requires ViewerConsistent(Model())
      ensures |widths| == |stories|
      ensures forall i :: 0 <= i < currentIndex ==> widths[i] == 100
      ensures widths[currentIndex] == progress
      ensures forall i :: currentIndex < i < |stories| ==> widths[i] == 0
    {
      widths := BarWidths(|stories|, currentIndex, progress);
    }
  }
}
