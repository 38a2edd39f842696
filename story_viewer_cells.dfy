/** What the web and mobile story viewers have in common: their state cells,
    the progress updater the interval runs, the reset that follows every
    index change, the progress-bar widths and the tap side. */
module StoryViewerCells {
  import UiUtils
  import opened Wrappers

  /** Milliseconds each story is shown for. */
  const StoryDuration: int := 5000
  /** Percentage points one 100 ms tick adds: 100 / (5000 / 100), exactly 2
      (`StepFromDuration`). */
  const ProgressStep: int := 2
  /** Ticks from progress 0 to 100 (`StepFromDuration`). */
  const TicksPerStory: nat := 50

  /** The step and the ticks per story follow from the story duration and
      the 100 ms period. */
  lemma StepFromDuration()
    ensures ProgressStep == 100 / (StoryDuration / 100)
    ensures TicksPerStory * ProgressStep == 100
  {
  }

  /** The component's state cells. */
  datatype Cells = Cells(currentIndex: int, progress: int, isLiked: bool, isFollowing: bool, isPaused: bool)

  function InitialCells(initialIndex: int): Cells {
    Cells(initialIndex, 0, false, false, false)
  }

  /** The invariant the viewers keep: the index is in range and progress is
      a multiple of the step between 0 and 100. */
  predicate Consistent(c: Cells, storyCount: int) {
    && 0 <= c.currentIndex < storyCount
    && 0 <= c.progress <= 100
    && c.progress % ProgressStep == 0
  }

  /** What the updater asks for besides returning the new progress. */
  datatype Request = Stay | Advance | Close

  /** The `setProgress(prev => …)` updater. The check for 100 comes before
      the increment: at 100 or more it moves to the next story (returning 0)
      or, on the last one, asks to close (returning 100); below 100 it adds
      the step. */
  function ProgressUpdater(prev: int, currentIndex: int, storyCount: int): (r: (int, Request))
    ensures r.1 == Stay <==> prev < 100
    ensures r.1 == Advance <==> prev >= 100 && currentIndex < storyCount - 1
    ensures r.1 == Stay ==> r.0 == prev + 2
    ensures r.1 == Advance ==> r.0 == 0
    ensures r.1 == Close ==> r.0 == 100
    ensures 0 <= prev <= 100 && prev % 2 == 0 ==> 0 <= r.0 <= 100 && r.0 % 2 == 0
  {
    if prev >= 100 then
      if currentIndex < storyCount - 1 then (0, Advance) else (100, Close)
    else
      (prev + ProgressStep, Stay)
  }

  /** `setCurrentIndex(index)` followed by the `[currentIndex]` effect:
      progress back to 0, like and follow cleared, pause kept. */
  function ChangeIndex(c: Cells, index: int): (r: Cells)
    ensures r.currentIndex == index && r.progress == 0 && !r.isLiked && !r.isFollowing
    ensures r.isPaused == c.isPaused
  {
    c.(currentIndex := index, progress := 0, isLiked := false, isFollowing := false)
  }

  /** The like button: flips `isLiked` and nothing else. */
  function ToggleLike(c: Cells): (r: Cells)
    ensures r.isLiked == !c.isLiked && r.(isLiked := c.isLiked) == c
  {
    c.(isLiked := !c.isLiked)
  }

  /** The follow button: flips `isFollowing` and nothing else. */
  function ToggleFollow(c: Cells): (r: Cells)
    ensures r.isFollowing == !c.isFollowing && r.(isFollowing := c.isFollowing) == c
  {
    c.(isFollowing := !c.isFollowing)
  }

  /** Like and follow toggle their own flag only, so they never disturb
      playback; toggling twice restores the state. */
  lemma TogglesLeavePlaybackAlone(c: Cells)
    ensures var l := ToggleLike(c);
            l.currentIndex == c.currentIndex && l.progress == c.progress && l.isPaused == c.isPaused
            && l.isLiked != c.isLiked && l.isFollowing == c.isFollowing && ToggleLike(l) == c
    ensures var f := ToggleFollow(c);
            f.currentIndex == c.currentIndex && f.progress == c.progress && f.isPaused == c.isPaused
            && f.isFollowing != c.isFollowing && f.isLiked == c.isLiked && ToggleFollow(f) == c
  {
  }

  /** The fill of bar `index`: full before the current story, the current
      progress on it, empty after it. */
  function BarWidth(index: int, currentIndex: int, progress: int): (r: int)
    ensures r == UiUtils.CalculateProgress(index, currentIndex, progress)
    ensures 0 <= progress <= 100 ==> 0 <= r <= 100
  {
    if index < currentIndex then 100 else if index == currentIndex then progress else 0
  }

  /** One width per story, as the bar row renders them. */
  function BarWidths(storyCount: nat, currentIndex: int, progress: int): (r: seq<int>)
    ensures |r| == storyCount
    ensures forall i :: 0 <= i < storyCount ==> r[i] == BarWidth(i, currentIndex, progress)
  {
    seq(storyCount, i => BarWidth(i, currentIndex, progress))
  }

  /** The viewers' inline bar width agrees with the shared `calculateProgress`,
      and with progress between 0 and 100 the bars fill from the left. */
  lemma BarWidthsAgreeWithCalculateProgress(storyCount: nat, currentIndex: int, progress: int)
    requires 0 <= progress <= 100
    ensures forall i :: 0 <= i < storyCount ==>
              BarWidths(storyCount, currentIndex, progress)[i] == UiUtils.CalculateProgress(i, currentIndex, progress)
    ensures forall i, j :: 0 <= i <= j < storyCount ==>
              0 <= BarWidths(storyCount, currentIndex, progress)[j] <= BarWidths(storyCount, currentIndex, progress)[i] <= 100
  {
  }

  /** The tap or click side: next strictly right of the middle. The
      components compare their one coordinate inline, and they agree with
      the shared `handleStoryNavigation` given that coordinate alone. */
  predicate TapGoesNext(x: real, width: real)
    ensures TapGoesNext(x, width) <==>
              UiUtils.HandleStoryNavigation(UiUtils.TapEvent(Some(x), None, None), width) == UiUtils.Next
  {
    x > width / 2.0
  }
}
