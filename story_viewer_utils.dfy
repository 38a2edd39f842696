/** The shared story controller that plays each story on one whole-story
    timeout, and the summary shortening of the story formatter. */
module StoryViewerUtils {
  import opened News
  import opened Text

  /** The `timer` field: empty, the handle of a pending timeout, or the
      handle of one that has already fired (the field is not cleared then). */
  datatype Handle = NoTimer | Live | Stale

  /** Which optional callbacks are set. */
  datatype Callbacks = Callbacks(onStoryChange: bool, onComplete: bool, onProgressUpdate: bool)

  const NoCallbacks: Callbacks := Callbacks(false, false, false)

  /** A callback invocation. */
  datatype Event = StoryChange(index: int) | Complete

  /** The controller's state. `orphanTimers` counts pending timeouts no field
      refers to any more (left behind when `play` overwrites a live handle). */
  datatype Player = Player(
    storyCount: int,
    currentIndex: int,
    isPlaying: bool,
    timer: Handle,
    orphanTimers: nat,
    callbacks: Callbacks,
    log: seq<Event>)

  /** Timeouts that can still fire. */
  function PendingTimers(p: Player): nat {
    p.orphanTimers + if p.timer == Live then 1 else 0
  }

  /** The invariant the operations keep: the index is in range, and a paused
      controller holds no timer handle. */
  predicate Consistent(p: Player) {
    && 0 <= p.currentIndex < p.storyCount
    && (!p.isPlaying ==> p.timer == NoTimer)
  }

  function NewPlayer(storyCount: int, initialIndex: int): Player {
    Player(storyCount, initialIndex, true, NoTimer, 0, NoCallbacks, [])
  }

  function AfterSetCallbacks(p: Player, callbacks: Callbacks): Player {
    p.(callbacks := callbacks)
  }

  /** `play`: schedules the next timeout when playing; a live handle it
      overwrites keeps its timeout pending. */
  function AfterPlay(p: Player): Player {
    if !p.isPlaying then p
    else p.(timer := Live, orphanTimers := PendingTimers(p))
  }

  function AfterStart(p: Player): Player {
    AfterPlay(p.(isPlaying := true))
  }

  /** `pause`: clears the handle, cancelling its timeout if still pending. */
  function AfterPause(p: Player): Player {
    p.(isPlaying := false, timer := NoTimer)
  }

  function AfterResume(p: Player): Player {
    if p.isPlaying then p else AfterPlay(p.(isPlaying := true))
  }

  /** Fires `onStoryChange(index)` when it is set. */
  function ReportChange(p: Player): Player {
    if p.callbacks.onStoryChange then p.(log := p.log + [StoryChange(p.currentIndex)]) else p
  }

  /** `next`: moves on and reports it, answering true; on the last story it
      calls `onComplete` at once and answers false. */
  function AfterNext(p: Player): (Player, bool) {
    if p.currentIndex < p.storyCount - 1 then
      (ReportChange(p.(currentIndex := p.currentIndex + 1)), true)
    else
      (if p.callbacks.onComplete then p.(log := p.log + [Complete]) else p, false)
  }

  function AfterPrevious(p: Player): (Player, bool) {
    if p.currentIndex > 0 then (ReportChange(p.(currentIndex := p.currentIndex - 1)), true)
    else (p, false)
  }

  function AfterGoToStory(p: Player, index: int): (Player, bool) {
    if 0 <= index < p.storyCount then (ReportChange(p.(currentIndex := index)), true)
    else (p, false)
  }

  /** A pending timeout fires: the live one (its handle goes stale) or an
      orphan. Its callback calls `next` and plays on only if that moved. */
  function AfterTimerFire(p: Player, orphan: bool): Player
    requires if orphan then p.orphanTimers > 0 else p.timer == Live
  {
    var q := if orphan then p.(orphanTimers := p.orphanTimers - 1) else p.(timer := Stale);
    var (r, moved) := AfterNext(q);
    if moved then AfterPlay(r) else r
  }

  /** `destroy`: pause, then drop every callback. */
  function AfterDestroy(p: Player): Player {
    AfterPause(p).(callbacks := NoCallbacks)
  }

  // ----- one-step properties -----

  lemma OperationsKeepConsistent(p: Player, cb: Callbacks, index: int)
    requires Consistent(p)
    ensures Consistent(AfterSetCallbacks(p, cb)) && Consistent(AfterStart(p))
    ensures Consistent(AfterPause(p)) && Consistent(AfterResume(p))
    ensures Consistent(AfterNext(p).0) && Consistent(AfterPrevious(p).0)
    ensures Consistent(AfterGoToStory(p, index).0) && Consistent(AfterDestroy(p))
    ensures p.timer == Live ==> Consistent(AfterTimerFire(p, false))
    ensures p.orphanTimers > 0 ==> Consistent(AfterTimerFire(p, true))
  {
  }

  /** `pause` stops playing and cancels the live timeout; only a timeout
      orphaned earlier can still be pending. */
  lemma PauseLeavesNoLiveTimer(p: Player)
    ensures !AfterPause(p).isPlaying && AfterPause(p).timer == NoTimer
    ensures PendingTimers(AfterPause(p)) == p.orphanTimers
  {
  }

  /** `resume` while playing changes nothing; while paused it plays again and
      schedules exactly one timeout. */
  lemma ResumeSchedulesOnce(p: Player)
    requires Consistent(p)
    ensures p.isPlaying ==> AfterResume(p) == p
    ensures !p.isPlaying ==> AfterResume(p).isPlaying && AfterResume(p).timer == Live
                             && PendingTimers(AfterResume(p)) == PendingTimers(p) + 1
  {
  }

  /** `next`: below the last index it moves on, reports the new index and
      answers true; at the last it keeps the index, calls `onComplete` and
      answers false. */
  lemma NextCases(p: Player)
    ensures AfterNext(p).1 <==> p.currentIndex < p.storyCount - 1
    ensures AfterNext(p).1 ==>
              AfterNext(p).0.currentIndex == p.currentIndex + 1
              && AfterNext(p).0.log == p.log + (if p.callbacks.onStoryChange then [StoryChange(p.currentIndex + 1)] else [])
    ensures !AfterNext(p).1 ==>
              AfterNext(p).0.currentIndex == p.currentIndex
              && AfterNext(p).0.log == p.log + (if p.callbacks.onComplete then [Complete] else [])
  {
  }

  /** `previous` at 0 answers false and reports nothing; elsewhere it moves
      back, reports and answers true. */
  lemma PreviousCases(p: Player)
    ensures AfterPrevious(p).1 <==> p.currentIndex > 0
    ensures !AfterPrevious(p).1 ==> AfterPrevious(p).0 == p
    ensures AfterPrevious(p).1 ==>
              AfterPrevious(p).0.currentIndex == p.currentIndex - 1
              && AfterPrevious(p).0.log == p.log + (if p.callbacks.onStoryChange then [StoryChange(p.currentIndex - 1)] else [])
  {
  }

  /** `goToStory(i)` succeeds exactly for an index in range and then reports
      it, even when it is already the current one; out of range nothing
      changes. */
  lemma GoToStoryCases(p: Player, index: int)
    ensures AfterGoToStory(p, index).1 <==> 0 <= index < p.storyCount
    ensures !AfterGoToStory(p, index).1 ==> AfterGoToStory(p, index).0 == p
    ensures AfterGoToStory(p, index).1 ==>
              AfterGoToStory(p, index).0.currentIndex == index
              && AfterGoToStory(p, index).0.log == p.log + (if p.callbacks.onStoryChange then [StoryChange(index)] else [])
  {
  }

  /** `play` while paused does nothing. */
  lemma PlayWhilePausedIsNoOp(p: Player)
    requires !p.isPlaying
    ensures AfterPlay(p) == p
  {
  }

  /** After `destroy` nothing is playing, the live timeout is cancelled and
      navigation reports nothing, because every callback is gone. */
  lemma DestroySilences(p: Player, index: int)
    ensures var d := AfterDestroy(p);
            && !d.isPlaying && PendingTimers(d) == p.orphanTimers
            && AfterNext(d).0.log == p.log
            && AfterPrevious(d).0.log == p.log
            && AfterGoToStory(d, index).0.log == p.log
  {
  }

  /** Creating a controller and destroying it at once fires nothing and
      leaves no timeout. */
  lemma CreateThenDestroyIsSilent(storyCount: int, initialIndex: int)
    ensures AfterDestroy(NewPlayer(storyCount, initialIndex)).log == []
    ensures PendingTimers(AfterDestroy(NewPlayer(storyCount, initialIndex))) == 0
  {
  }

  /** `start` is not idempotent: starting twice leaves a timeout that `pause`
      cannot cancel, and when it fires it still moves to the next story. */
  lemma DoubleStartOutlivesPause(p: Player)
    requires Consistent(p) && p.timer == NoTimer && p.orphanTimers == 0
    requires p.currentIndex < p.storyCount - 1
    ensures var q := AfterPause(AfterStart(AfterStart(p)));
            && !q.isPlaying && PendingTimers(q) == 1
            && AfterTimerFire(q, true).currentIndex == p.currentIndex + 1
  {
  }

  // ----- the timer chain -----

  /** `k` firings of the live timeout in a row. */
  function Fires(p: Player, k: nat): Player
    decreases k
  {
    if k == 0 then p
    else
      var q := Fires(p, k - 1);
      if q.timer == Live then AfterTimerFire(q, false) else q
  }

  /** The reports `onStoryChange` makes while the chain walks from story `i`
      through the next `k` stories. */
  function ChangeRun(i: int, k: nat): (r: seq<Event>)
    ensures |r| == k
    ensures forall j :: 0 <= j < k ==> r[j] == StoryChange(i + j + 1)
  {
    seq(k, j => StoryChange(i + j + 1))
  }

  /** While playing on one timeout, each firing moves one story on and
      schedules the next: after `k` firings short of the last story the index
      has moved `k` places, each reported in order, and one timeout is
      pending. */
  lemma {:induction false} ChainAdvances(p: Player, k: nat)
    requires Consistent(p) && p.isPlaying && p.timer == Live && p.orphanTimers == 0
    requires p.callbacks.onStoryChange
    requires p.currentIndex + k <= p.storyCount - 1
    ensures var r := Fires(p, k);
            && r.currentIndex == p.currentIndex + k && r.timer == Live && r.orphanTimers == 0
            && r.isPlaying && r.callbacks == p.callbacks && r.storyCount == p.storyCount
            && r.log == p.log + ChangeRun(p.currentIndex, k)
    decreases k
  {
    if k > 0 {
      ChainAdvances(p, k - 1);
      var q := Fires(p, k - 1);
      assert Fires(p, k) == AfterTimerFire(q, false);
      assert ChangeRun(p.currentIndex, k) == ChangeRun(p.currentIndex, k - 1) + [StoryChange(p.currentIndex + k)];
    }
  }

  /** The chain stops after the last story: from story i it reports every
      later index once, then `onComplete` once, and leaves no timeout
      pending. */
  lemma ChainStopsAfterLastStory(p: Player)
    requires Consistent(p) && p.isPlaying && p.timer == Live && p.orphanTimers == 0
    requires p.callbacks.onStoryChange && p.callbacks.onComplete
    ensures var k := p.storyCount - 1 - p.currentIndex;
            var r := Fires(p, k + 1);
            && r.currentIndex == p.storyCount - 1
            && r.log == p.log + ChangeRun(p.currentIndex, k) + [Complete]
            && PendingTimers(r) == 0
  {
    var k := p.storyCount - 1 - p.currentIndex;
    ChainAdvances(p, k);
  }

  // ----- the controller object -----

  class StoryController {
    const stories: seq<NewsItem>
    var currentIndex: int
    var timer: Handle
    var orphanTimers: nat
    var isPlaying: bool
    var callbacks: Callbacks
    /** The callbacks fired so far. */
    var fired: seq<Event>

    function Model(): Player
      reads this
    {
      Player(|stories|, currentIndex, isPlaying, timer, orphanTimers, callbacks, fired)
    }

    constructor (stories: seq<NewsItem>, initialIndex: int := 0)
      requires 0 <= initialIndex < |stories|
      ensures this.stories == stories
      ensures Model() == NewPlayer(|stories|, initialIndex) && Consistent(Model())
    {
      this.stories := stories;
      this.currentIndex := initialIndex;
      this.timer := NoTimer;
      this.orphanTimers := 0;
      this.isPlaying := true;
      this.callbacks := NoCallbacks;
      this.fired := [];
    }

    method SetCallbacks(callbacks: Callbacks)
      modifies this
      ensures Model() == AfterSetCallbacks(old(Model()), callbacks)
    {
      this.callbacks := callbacks;
    }

    method Start()
      modifies this
      ensures Model() == AfterStart(old(Model()))
    {
      isPlaying := true;
      Play();
    }

    method Pause()
      modifies this
      ensures Model() == AfterPause(old(Model()))
    {
      isPlaying := false;
      if timer != NoTimer {
        timer := NoTimer;
      }
    }

    method Resume()
      modifies this
      ensures Model() == AfterResume(old(Model()))
    {
      if !isPlaying {
        isPlaying := true;
        Play();
      }
    }

    method Next() returns (moved: bool)
      modifies this
      ensures (Model(), moved) == AfterNext(old(Model()))
    {
      if currentIndex < |stories| - 1 {
        currentIndex := currentIndex + 1;
        if callbacks.onStoryChange {
          fired := fired + [StoryChange(currentIndex)];
        }
        return true;
      }
      if callbacks.onComplete {
        fired := fired + [Complete];
      }
      return false;
    }

    method Previous() returns (moved: bool)
      modifies this
      ensures (Model(), moved) == AfterPrevious(old(Model()))
    {
      if currentIndex > 0 {
        currentIndex := currentIndex - 1;
        if callbacks.onStoryChange {
          fired := fired + [StoryChange(currentIndex)];
        }
        return true;
      }
      return false;
    }

    method GoToStory(index: int) returns (moved: bool)
      modifies this
      ensures (Model(), moved) == AfterGoToStory(old(Model()), index)
    {
      if index >= 0 && index < |stories| {
        currentIndex := index;
        if callbacks.onStoryChange {
          fired := fired + [StoryChange(currentIndex)];
        }
        return true;
      }
      return false;
    }

    method GetCurrentStory() returns (story: NewsItem)
      requires Consistent(Model())
      ensures story == stories[currentIndex]
    {
      story := stories[currentIndex];
    }

    method GetCurrentIndex() returns (index: int)
      ensures index == currentIndex
    {
      index := currentIndex;
    }

    method GetTotalStories() returns (total: int)
      ensures total == |stories|
    {
      total := |stories|;
    }

    method Play()
      modifies this
      ensures Model() == AfterPlay(old(Model()))
    {
      if !isPlaying {
        return;
      }
      if timer == Live {
        orphanTimers := orphanTimers + 1;
      }
      timer := Live;
    }

    /** A pending timeout fires: the one the handle refers to, or an orphan. */
    method TimerFire(orphan: bool)
      requires if orphan then orphanTimers > 0 else timer == Live
      modifies this
      ensures Model() == AfterTimerFire(old(Model()), orphan)
    {
      if orphan {
        orphanTimers := orphanTimers - 1;
      } else {
        timer := Stale;
      }
      var moved := Next();
      if !moved {
        return;
      }
      Play();
    }

    method Destroy()
      modifies this
      ensures Model() == AfterDestroy(old(Model()))
    {
      Pause();
      callbacks := NoCallbacks;
    }
  }

  // ----- formatStoryContent -----

  /** Characters of summary a story shows before the ellipsis. */
  const StorySummaryLimit: nat := 200

  /** `truncatedSummary` of the story formatter (its date field is not part
      of this model). */
  function TruncatedSummary(story: NewsItem): (r: string)
    ensures |story.summary| <= StorySummaryLimit ==> r == story.summary
    ensures |story.summary| > StorySummaryLimit ==>
              r == story.summary[..StorySummaryLimit] + "..." && |r| == StorySummaryLimit + 3
  {
    Truncate(story.summary, StorySummaryLimit)
  }
}
