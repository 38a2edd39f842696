# Story playback model

A Dafny model of the news app's story playback: the full-screen carousel that
shows one story at a time, fills a progress bar over five seconds, moves to the
next story when the bar is full, pauses while the user holds the screen,
navigates by tapping the left or right half, and closes after the last story.

The logic exists in four places, and the model keeps each one:

- `UiUtils.StoryController` (packages/ui/src/utils.ts): a controller driven by a
  100 ms interval that adds 2 to `progress` per tick and moves on once progress
  reaches 100. On the last story it clears the interval and defers
  `onComplete` with a zero-delay timeout.
- `StoryViewerUtils.StoryController` (packages/ui/src/components/story-viewer-utils.ts):
  a controller with one whole-story timeout. Navigation answers with a
  boolean, and it calls `onComplete` synchronously.
- `WebStoryViewer.StoryViewer` and `MobileStoryViewer.StoryViewer`: the two
  React components. Their shared parts are in `StoryViewerCells`. The
  interval's `prev => …` updater checks for 100 before it adds the step. Every
  index change resets progress, like and follow. The web component defers
  `onClose` and the mobile one calls it inline.

Around them sit the pure helpers:
- card and story text formatting: truncation to 120, 80 and 200 characters
  plus "...", and upper-cased categories;
- the record builders with their fixed attribution lines;
- the asset-path builder.

Each stateful object is a class whose fields are the source's fields. Each
method's postcondition ties the new state to a pure transition function of the
old state (`Model() == AfterTick(old(Model()))`). The lemmas state what the
source promises about those functions.

Time is modelled as explicit events:
- `Tick`/`IntervalTick` is one period of an interval;
- `TimerFire` is a timeout expiring;
- `FlushDeferred` runs one callback queued with `setTimeout(…, 0)`.

Callbacks are recorded in an event log, in the order they fire.

Progress is an integer. The step `100 / (5000 / 100)` is exactly 2, so the
integer arithmetic matches the floating-point arithmetic.

Behaviour of the code worth knowing, all of it stated by lemmas:
- Neither constructor checks the initial index. The model makes a valid index
  a precondition.
- Neither `start` guards against a second call. The extra interval or timeout
  it creates outlives `stop` or `pause`. `UiUtils.DoubleStartOutlivesStop` and
  `StoryViewerUtils.DoubleStartOutlivesPause` show this.
- `goToStory(i)` reports the index even when `i` is already current.
- The timeout-based controller keeps no progress value.
- The React components advance on the 51st tick, while the interval
  controller advances on the 50th.
- In a three-story run from index 0, the index becomes 1 after 50 ticks and 2
  after 100, and completion is queued after 150 (`UiUtils.ThreeStoryScenario`).
- On the last story, the React components' interval keeps running while the
  component stays mounted. The web component queues one more `onClose` every
  period, and the mobile one calls it again every period. Whether the later
  calls do anything is up to the parent. The apps' own pages
  (apps/web/src/app/page.tsx, apps/mobile/App.tsx) render their own copies
  of the viewer and unmount them on the first `onClose`.

## Model

| member | source | states |
|---|---|---|
| `Text.Truncate` | packages/ui/src/components/news-card-utils.ts:25-27 | a string within the limit comes back unchanged; a longer one becomes exactly limit+3 characters ending in "..."; the result always starts with the kept prefix of the input |
| `Text.TruncateIdempotent` | packages/ui/src/components/news-card-utils.ts:25-27 | shortening an already shortened string changes nothing |
| `Text.TruncateChangesLongStrings` | packages/ui/src/components/news-card-utils.ts:25-27 | a string over the limit comes back unchanged exactly when its tail after the limit is "..." |
| `Text.UpperChar` | packages/ui/src/components/news-card-utils.ts:28 | ASCII lower-case letters map to their capitals, every other character to itself |
| `Text.ToUpperCase` | packages/ui/src/components/news-card-utils.ts:28 | same length as the input, each character upper-cased in place |
| `Text.ToUpperCaseIdempotent` | packages/ui/src/components/news-card-utils.ts:28 | an upper-cased string holds no lower-case ASCII letter and upper-casing it again changes nothing |
| `Text.IndexOf` | packages/assets/src/index.ts:14 | returns the first position where the pattern occurs, or none when it occurs nowhere |
| `Text.ReplaceFirst` | packages/assets/src/index.ts:14 | without an occurrence the string is unchanged; otherwise the part before the first occurrence is kept, the replacement follows it, then everything after the occurrence, and the length changes by the length difference |
| `Text.ReplaceFirstAt` | packages/assets/src/index.ts:14 | `replace` with a string pattern inserts the replacement literally at the first occurrence and keeps the rest, later occurrences included |
| `Text.ReplaceFirstAbsent` | packages/assets/src/index.ts:14 | without an occurrence the string comes back unchanged |
| `NewsCardUtils.FormatNewsCardContent` | packages/ui/src/components/news-card-utils.ts:22-34 | summary kept up to 120 characters, otherwise its first 120 plus "..." (length 123); title likewise with 80 (length at most 83); category upper-cased with the same length; source unchanged |
| `NewsCardUtils.FormatIsStable` | packages/ui/src/components/news-card-utils.ts:25-32 | formatting an item whose fields are already the card's text gives the same card |
| `MobileNewsCard.FormatContent` | apps/mobile/components/NewsCard.tsx:19-31 | the mobile copy: the same 120/80 rule, outputs never longer than limit+3, category upper-cased, source unchanged |
| `MobileNewsCard.FormatContentMatchesShared` | apps/mobile/components/NewsCard.tsx:19-31 | the local copy agrees with the shared formatter on every item |
| `Patterns.FormatNewsCardContent` | packages/ui/src/patterns.ts:113-123 | title and summary copied; the two fixed attribution lines; metadata is source, the separator as written, then category, with exactly that length |
| `Patterns.MetadataDeterminesSourceAndCategory` | packages/ui/src/patterns.ts:120 | for sources of one length, equal metadata means equal source and equal category |
| `Patterns.FormatStoryContent` | packages/ui/src/patterns.ts:147-168 | header carries the source with menu and close shown; card copies title and summary with the two attribution lines; all three actions shown |
| `Patterns.StoryAgreesWithCard` | packages/ui/src/patterns.ts:113-168 | story and card built from one item show the same title, summary and attribution lines |
| `Assets.IconPath` | packages/assets/src/index.ts:2-9 | every entry of the icon table is a relative "./…" path to a PNG file |
| `Assets.BasePath` | packages/assets/src/index.ts:13 | the base starts with "/" exactly on the web and always ends in "/assets" |
| `Assets.GetAssetPath` | packages/assets/src/index.ts:12-15 | the path starts with the platform's base followed by "/" |
| `Assets.AssetPathStripsLeadingDotSlash` | packages/assets/src/index.ts:2-15 | the path is base + "/" + the icon path without its leading "./" |
| `Assets.DropLeadingDotSlash` | packages/assets/src/index.ts:14 | for a path starting with "./", the replacement leaves exactly the rest of the path |
| `Assets.AppIconOnWeb` | packages/assets/src/index.ts:12-14 | with the default platform the app icon is "/assets/icon.png" |
| `Assets.AppIconOnMobile` | packages/assets/src/index.ts:13-14 | on mobile the app icon is "./assets/icon.png" |
| `Assets.OnlyFirstDotSlashRemoved` | packages/assets/src/index.ts:14 | a string pattern removes only the first "./" |
| `UiUtils.InitConsistent` | packages/ui/src/utils.ts:14-28 | the fresh controller satisfies the invariant exactly when the initial index is in range |
| `UiUtils.OperationsKeepConsistent` | packages/ui/src/utils.ts:30-77 | every operation keeps `0 <= currentIndex < totalStories`, progress a non-negative even number, below 100 except on the last story |
| `UiUtils.PausedTickIsNoOp` | packages/ui/src/utils.ts:31-32 | a tick while paused changes nothing and fires nothing |
| `UiUtils.TickAddsStep` | packages/ui/src/utils.ts:34-35 | an unpaused tick adds exactly 2 and reports the new value |
| `UiUtils.NextStoryCases` | packages/ui/src/utils.ts:58-68 | below the last index: index+1, progress 0, `onStoryChange` before `onProgressUpdate(0)`; at the last: index kept, interval cleared, `onComplete` queued and not called |
| `UiUtils.PreviousStoryCases` | packages/ui/src/utils.ts:70-77 | no-op at 0; otherwise index-1, progress 0, the same two reports in the same order |
| `UiUtils.PauseResumeOnlyFlip` | packages/ui/src/utils.ts:50-56 | pause and resume only flip `isPaused`; progress and index are kept |
| `UiUtils.DoubleStartOutlivesStop` | packages/ui/src/utils.ts:30-48 | starting twice runs two intervals and `stop` clears only one |
| `UiUtils.PausedTicksAreNoOps` | packages/ui/src/utils.ts:31-32 | any number of ticks while paused changes nothing |
| `UiUtils.TicksWithinStory` | packages/ui/src/utils.ts:34-39 | ticks that stay below 100 add 2 each and report 2, 4, … in order |
| `UiUtils.StoryAdvancesOnFiftiethTick` | packages/ui/src/utils.ts:34-63 | from progress 0 the index is unchanged after 49 ticks (progress 98); the 50th reports 100, the new index, then 0 |
| `UiUtils.LastStoryCompletesOnFiftiethTick` | packages/ui/src/utils.ts:34-67 | on the last story the 50th tick leaves progress at 100, clears the interval and queues one `onComplete` |
| `UiUtils.CompletionStopsTheOnlyInterval` | packages/ui/src/utils.ts:43-67 | with a single interval, completion leaves no interval running |
| `UiUtils.NextStoryWalksToTheEnd` | packages/ui/src/utils.ts:58-68 | repeated `nextStory` from story i reports each later index once, in order, then queues exactly one `onComplete` |
| `UiUtils.ThreeStoryScenario` | packages/ui/src/utils.ts:30-68 | three stories started at index 0 with one interval: index 1 after 50 ticks, 2 after 100, completion queued after 150 with no interval left |
| `UiUtils.StartedThreeStoryController` | packages/ui/src/utils.ts:14-41 | a fresh three-story controller, once started, is exactly that starting session |
| `UiUtils.StepFromDuration` | packages/ui/src/utils.ts:31-34 | the step 100 / (5000 / 100) is 2, so 50 ticks of 100 ms fill a story |
| `UiUtils.StoryController.constructor` | packages/ui/src/utils.ts:14-28 | starts at the given index with progress 0, unpaused, no interval |
| `UiUtils.StoryController.Start` | packages/ui/src/utils.ts:30-41 | installs a new interval; an installed one keeps running |
| `UiUtils.StoryController.Stop` | packages/ui/src/utils.ts:43-48 | clears the installed interval, if any |
| `UiUtils.StoryController.Pause` | packages/ui/src/utils.ts:50-52 | sets `isPaused` |
| `UiUtils.StoryController.Resume` | packages/ui/src/utils.ts:54-56 | clears `isPaused` |
| `UiUtils.StoryController.NextStory` | packages/ui/src/utils.ts:58-68 | the state `AfterNextStory` gives |
| `UiUtils.StoryController.PreviousStory` | packages/ui/src/utils.ts:70-77 | the state `AfterPreviousStory` gives |
| `UiUtils.StoryController.Tick` | packages/ui/src/utils.ts:31-40 | one interval callback, only while an interval runs: the state `AfterTick` gives |
| `UiUtils.StoryController.FlushDeferred` | packages/ui/src/utils.ts:66 | the queued timeout calls `onComplete` once |
| `UiUtils.StoryController.GetCurrentIndex` | packages/ui/src/utils.ts:79-81 | returns the current index |
| `UiUtils.StoryController.GetProgress` | packages/ui/src/utils.ts:83-85 | returns the current progress |
| `UiUtils.CalculateProgress` | packages/ui/src/utils.ts:172-180 | 100 for earlier bars, the current progress for the current bar, 0 for later bars |
| `UiUtils.BarsFillFromTheLeft` | packages/ui/src/utils.ts:172-180 | with progress in 0..100 no bar is fuller than one to its left, and all lie in 0..100 |
| `UiUtils.HandleStoryNavigation` | packages/ui/src/utils.ts:155-169 | next exactly when the first truthy coordinate is strictly right of the middle |
| `UiUtils.TapX` | packages/ui/src/utils.ts:162 | the first truthy coordinate among clientX, locationX and the native locationX; 0 exactly when none is truthy |
| `UiUtils.NavigationWithoutCoordinateGoesBack` | packages/ui/src/utils.ts:162-168 | a missing or zero coordinate, or a tap on the middle, goes to the previous story |
| `UiUtils.InitialState` | packages/ui/src/utils.ts:92-96 | not liked, not following, not paused |
| `UiUtils.ResetForNewStory` | packages/ui/src/utils.ts:99-102 | sets like and follow to false and leaves pause unset |
| `UiUtils.ResetKeepsPause` | packages/ui/src/utils.ts:98-102 | applying the reset clears like and follow and keeps the pause flag |
| `UiUtils.ActionUpdate` | packages/ui/src/utils.ts:113-151 | exactly like, follow, pause and resume call `updateState`; like and follow pass the negated flag, pause passes `isPaused: true` and resume `isPaused: false`; `s` is the state the actions were created from |
| `UiUtils.TogglesAreInvolutions` | packages/ui/src/utils.ts:114-122 | like and follow toggle only their own flag, and neither touches the controller; doing one twice restores the state when the actions are created anew from the new state in between |
| `UiUtils.ControllerEffect` | packages/ui/src/utils.ts:134-149 | like, follow, share and menu leave the controller alone; next runs `nextStory` and previous `previousStory`, both keeping the pause flag and the orphan intervals; pause and resume change only the pause flag |
| `UiUtils.StaleActionRepeatsItsUpdate` | packages/ui/src/utils.ts:107-122 | the closures capture the state at creation, so calling the same action twice resends the first update: a repeated like leaves `isLiked` at the negation of the captured value |
| `UiUtils.PauseFlagFollowsController` | packages/ui/src/utils.ts:141-150 | after pause or resume the viewer's `isPaused` holds the value the controller's flag now has, and no other field changes |
| `UiUtils.RunAction` | packages/ui/src/utils.ts:107-152 | performs the optional controller call and hands back the update for `updateState` |
| `StoryViewerUtils.OperationsKeepConsistent` | packages/ui/src/components/story-viewer-utils.ts:20-103 | every operation keeps the index in range and a paused controller without a timer handle |
| `StoryViewerUtils.PauseLeavesNoLiveTimer` | packages/ui/src/components/story-viewer-utils.ts:34-40 | pause stops playing and cancels the live timeout; only an earlier orphaned one can remain |
| `StoryViewerUtils.ResumeSchedulesOnce` | packages/ui/src/components/story-viewer-utils.ts:42-47 | no-op while playing; from paused it plays and schedules exactly one timeout |
| `StoryViewerUtils.NextCases` | packages/ui/src/components/story-viewer-utils.ts:49-57 | true exactly below the last index, then index+1 and `onStoryChange`; otherwise index kept, `onComplete` called, false |
| `StoryViewerUtils.PreviousCases` | packages/ui/src/components/story-viewer-utils.ts:59-66 | false with nothing changed at 0; otherwise index-1, `onStoryChange`, true |
| `StoryViewerUtils.GoToStoryCases` | packages/ui/src/components/story-viewer-utils.ts:68-75 | true exactly for an index in range, which is set and reported even if current; otherwise nothing changes |
| `StoryViewerUtils.PlayWhilePausedIsNoOp` | packages/ui/src/components/story-viewer-utils.ts:89-90 | `play` does nothing when not playing |
| `StoryViewerUtils.DestroySilences` | packages/ui/src/components/story-viewer-utils.ts:100-103 | after destroy nothing plays, the live timeout is gone and navigation reports nothing |
| `StoryViewerUtils.CreateThenDestroyIsSilent` | packages/ui/src/components/story-viewer-utils.ts:20-103 | creating and destroying at once fires nothing and leaves no timeout |
| `StoryViewerUtils.DoubleStartOutlivesPause` | packages/ui/src/components/story-viewer-utils.ts:29-40 | starting twice leaves a timeout pause cannot cancel, and it still moves the story on |
| `StoryViewerUtils.ChainAdvances` | packages/ui/src/components/story-viewer-utils.ts:89-98 | each firing short of the last story moves one story on, reports it, and leaves exactly one timeout pending |
| `StoryViewerUtils.ChainStopsAfterLastStory` | packages/ui/src/components/story-viewer-utils.ts:89-98 | from story i the chain reports every later index once, then `onComplete` once, and leaves no timeout pending |
| `StoryViewerUtils.StoryController.constructor` | packages/ui/src/components/story-viewer-utils.ts:20-23 | playing, no timer, no callbacks, at the given index (default 0) |
| `StoryViewerUtils.StoryController.SetCallbacks` | packages/ui/src/components/story-viewer-utils.ts:25-27 | replaces the callbacks |
| `StoryViewerUtils.StoryController.Start` | packages/ui/src/components/story-viewer-utils.ts:29-32 | sets playing and plays |
| `StoryViewerUtils.StoryController.Pause` | packages/ui/src/components/story-viewer-utils.ts:34-40 | the state `AfterPause` gives |
| `StoryViewerUtils.StoryController.Resume` | packages/ui/src/components/story-viewer-utils.ts:42-47 | the state `AfterResume` gives |
| `StoryViewerUtils.StoryController.Next` | packages/ui/src/components/story-viewer-utils.ts:49-57 | state and answer as `AfterNext` gives |
| `StoryViewerUtils.StoryController.Previous` | packages/ui/src/components/story-viewer-utils.ts:59-66 | state and answer as `AfterPrevious` gives |
| `StoryViewerUtils.StoryController.GoToStory` | packages/ui/src/components/story-viewer-utils.ts:68-75 | state and answer as `AfterGoToStory` gives |
| `StoryViewerUtils.StoryController.GetCurrentStory` | packages/ui/src/components/story-viewer-utils.ts:77-79 | the story at the current index |
| `StoryViewerUtils.StoryController.GetCurrentIndex` | packages/ui/src/components/story-viewer-utils.ts:81-83 | the current index |
| `StoryViewerUtils.StoryController.GetTotalStories` | packages/ui/src/components/story-viewer-utils.ts:85-87 | the number of stories |
| `StoryViewerUtils.StoryController.Play` | packages/ui/src/components/story-viewer-utils.ts:89-98 | schedules a timeout when playing, nothing otherwise |
| `StoryViewerUtils.StoryController.TimerFire` | packages/ui/src/components/story-viewer-utils.ts:92-97 | the timeout's callback calls `next` and plays again only if it moved |
| `StoryViewerUtils.StoryController.Destroy` | packages/ui/src/components/story-viewer-utils.ts:100-103 | pauses and empties the callbacks |
| `StoryViewerUtils.TruncatedSummary` | packages/ui/src/components/story-viewer-utils.ts:152-154 | the summary if at most 200 characters, else its first 200 plus "..." |
| `StoryViewerCells.StepFromDuration` | web/src/components/StoryViewer.tsx:7-35 | the components' step 100 / (5000 / 100) is 2, and 50 steps make 100 |
| `StoryViewerCells.ProgressUpdater` | web/src/components/StoryViewer.tsx:24-36 | below 100 adds 2 and stays; at 100 or more returns 0 and advances, or on the last story returns 100 and asks to close; keeps progress an even number in 0..100 |
| `StoryViewerCells.ChangeIndex` | web/src/components/StoryViewer.tsx:45-49 | an index change sets progress to 0 and clears like and follow, keeping pause |
| `StoryViewerCells.ToggleLike` | web/src/components/StoryViewer.tsx:70-73 | flips `isLiked` and nothing else |
| `StoryViewerCells.ToggleFollow` | web/src/components/StoryViewer.tsx:75-78 | flips `isFollowing` and nothing else |
| `StoryViewerCells.TogglesLeavePlaybackAlone` | web/src/components/StoryViewer.tsx:70-78 | like and follow change only their own flag; twice restores |
| `StoryViewerCells.BarWidth` | web/src/components/StoryViewer.tsx:117 | the inline width equals the shared `calculateProgress` and lies in 0..100 when progress does |
| `StoryViewerCells.BarWidths` | web/src/components/StoryViewer.tsx:113-120 | one width per story, each by the index comparison |
| `StoryViewerCells.BarWidthsAgreeWithCalculateProgress` | mobile/components/StoryViewer.tsx:142-144 | the inline bar widths equal `calculateProgress` and fill from the left |
| `StoryViewerCells.TapGoesNext` | web/src/components/StoryViewer.tsx:63 | the inline half-width comparison picks next exactly when `handleStoryNavigation` does for that coordinate alone |
| `WebStoryViewer.OperationsKeepConsistent` | web/src/components/StoryViewer.tsx:19-78 | every handler keeps the index in range and progress an even number in 0..100 |
| `WebStoryViewer.IntervalTickCases` | web/src/components/StoryViewer.tsx:23-37 | prev < 100 gives prev+2 at the same index; at 100 below the last story index+1 with resets; at the last story progress stays 100 and `onClose` is queued, not called |
| `WebStoryViewer.PausedTimeIsStill` | web/src/components/StoryViewer.tsx:19-22 | while paused no interval runs, so time changes nothing |
| `WebStoryViewer.TicksWithinStory` | web/src/components/StoryViewer.tsx:24-35 | periods that stay within 100 only add 2 each |
| `WebStoryViewer.StoryAdvancesOnFiftyFirstTick` | web/src/components/StoryViewer.tsx:24-49 | from 0, 50 periods reach exactly 100 at the same index; the 51st moves on with progress, like and follow reset |
| `WebStoryViewer.TickAtEndQueuesClose` | web/src/components/StoryViewer.tsx:29-33 | at 100 on the last story a period only queues `onClose` |
| `WebStoryViewer.LastStoryQueuesCloseEveryTick` | web/src/components/StoryViewer.tsx:23-43 | on the last story the 51st period queues `onClose` and each later one queues another |
| `WebStoryViewer.NavigationCases` | web/src/components/StoryViewer.tsx:51-65 | next moves on or queues `onClose`; previous is a no-op at 0; a click right of the middle goes next, else previous |
| `WebStoryViewer.StoryViewer.constructor` | web/src/components/StoryViewer.tsx:9-14 | initial index, progress 0, nothing liked, followed or paused |
| `WebStoryViewer.StoryViewer.SetCurrentIndex` | web/src/components/StoryViewer.tsx:45-49 | the index set and the reset effect applied |
| `WebStoryViewer.StoryViewer.IntervalTick` | web/src/components/StoryViewer.tsx:23-37 | the state `AfterIntervalTick` gives |
| `WebStoryViewer.StoryViewer.GoToNextStory` | web/src/components/StoryViewer.tsx:51-58 | the state `AfterGoToNextStory` gives |
| `WebStoryViewer.StoryViewer.GoToPreviousStory` | web/src/components/StoryViewer.tsx:59 | the state `AfterGoToPreviousStory` gives |
| `WebStoryViewer.StoryViewer.HandleClick` | web/src/components/StoryViewer.tsx:61-65 | next when the offset is right of half the width, else previous |
| `WebStoryViewer.StoryViewer.HandleMouseDown` | web/src/components/StoryViewer.tsx:67 | pauses |
| `WebStoryViewer.StoryViewer.HandleMouseUp` | web/src/components/StoryViewer.tsx:68 | resumes |
| `WebStoryViewer.StoryViewer.HandleLikeClick` | web/src/components/StoryViewer.tsx:70-73 | toggles like |
| `WebStoryViewer.StoryViewer.HandleFollowClick` | web/src/components/StoryViewer.tsx:75-78 | toggles follow |
| `WebStoryViewer.StoryViewer.FlushDeferred` | web/src/components/StoryViewer.tsx:31 | one queued `onClose` runs |
| `WebStoryViewer.StoryViewer.ProgressBarWidths` | web/src/components/StoryViewer.tsx:113-120 | 100 before the current story, its progress on it, 0 after |
| `MobileStoryViewer.OperationsKeepConsistent` | mobile/components/StoryViewer.tsx:28-78 | every handler keeps the index in range and progress an even number in 0..100 |
| `MobileStoryViewer.IntervalTickCases` | mobile/components/StoryViewer.tsx:31-44 | prev < 100 gives prev+2; at 100 below the last story index+1 with resets; at the last story progress stays 100 and `onClose` is called inline |
| `MobileStoryViewer.PausedTimeIsStill` | mobile/components/StoryViewer.tsx:29 | while paused no interval runs, so time changes nothing |
| `MobileStoryViewer.PressPausesAndResumes` | mobile/components/StoryViewer.tsx:73-74 | long press pauses and press-out resumes, leaving index and progress |
| `MobileStoryViewer.TicksWithinStory` | mobile/components/StoryViewer.tsx:32-42 | periods that stay within 100 only add 2 each |
| `MobileStoryViewer.StoryAdvancesOnFiftyFirstTick` | mobile/components/StoryViewer.tsx:32-56 | from 0, 50 periods reach exactly 100; the 51st moves on with progress, like and follow reset |
| `MobileStoryViewer.TickAtEndCallsClose` | mobile/components/StoryViewer.tsx:37-39 | at 100 on the last story a period calls `onClose` once more |
| `MobileStoryViewer.LastStoryClosesEveryTick` | mobile/components/StoryViewer.tsx:31-49 | on the last story the 51st period calls `onClose` and each later one calls it again |
| `MobileStoryViewer.NavigationCases` | mobile/components/StoryViewer.tsx:58-71 | next moves on or calls `onClose`; previous never goes below 0; a tap on the middle goes back, right of it goes next |
| `MobileStoryViewer.StoryViewer.constructor` | mobile/components/StoryViewer.tsx:17-22 | initial index, progress 0, nothing liked, followed or paused |
| `MobileStoryViewer.StoryViewer.SetCurrentIndex` | mobile/components/StoryViewer.tsx:52-56 | the index set and the reset effect applied |
| `MobileStoryViewer.StoryViewer.IntervalTick` | mobile/components/StoryViewer.tsx:31-44 | the state `AfterIntervalTick` gives |
| `MobileStoryViewer.StoryViewer.GoToNextStory` | mobile/components/StoryViewer.tsx:58-61 | the state `AfterGoToNextStory` gives |
| `MobileStoryViewer.StoryViewer.GoToPreviousStory` | mobile/components/StoryViewer.tsx:63-65 | the state `AfterGoToPreviousStory` gives |
| `MobileStoryViewer.StoryViewer.HandleTap` | mobile/components/StoryViewer.tsx:67-71 | next when the tap is right of half the screen, else previous |
| `MobileStoryViewer.StoryViewer.HandleLongPress` | mobile/components/StoryViewer.tsx:73 | pauses |
| `MobileStoryViewer.StoryViewer.HandlePressOut` | mobile/components/StoryViewer.tsx:74 | resumes |
| `MobileStoryViewer.StoryViewer.HandleLike` | mobile/components/StoryViewer.tsx:76 | toggles like |
| `MobileStoryViewer.StoryViewer.HandleFollow` | mobile/components/StoryViewer.tsx:78 | toggles follow |
| `MobileStoryViewer.StoryViewer.ProgressBarWidths` | mobile/components/StoryViewer.tsx:127-148 | 100 before the current story, its progress on it, 0 after |

## Left out

- Real timers, intervals and React scheduling are not modelled. They become
  the explicit events `Tick`, `IntervalTick`, `TimerFire` and `FlushDeferred`.
  The 100 ms phase of an interval, and its re-installation when the index or
  pause flag changes, are not modelled.
- In the React components, an index change and the reset effect it triggers
  happen as one step. React runs the effect before the next interval callback,
  so nothing can observe the state in between.
- The `duration` arguments of `start`, `resume` and `play` in
  story-viewer-utils.ts are not modelled: a `TimerFire` event stands for the
  timeout expiring, whatever its length. The optional `onProgressUpdate`
  callback of that controller is carried but never called, as in the source.
- Callbacks (`onProgressUpdate`, `onStoryChange`, `onComplete`, `onClose`) are
  external code. They are recorded as events and assumed not to call back
  into the controller.
- Dates are not modelled: `formattedDate`, `formatNewsDateTime`,
  `formatStoryDate` and `ClientOnlyDate` depend on the wall clock and the
  locale.
- Share and menu handlers only write to the console, so they have no state to
  model. Styles, icons, layout constants and the mock news list are data
  without behaviour.
- `Text.Truncate`: lengths are counted in code points. They equal
  JavaScript's UTF-16 lengths only for text within the Basic Multilingual
  Plane. Above it, JavaScript counts two units per character and can cut a
  surrogate pair in half, which a Dafny `char` cannot hold.
- `NewsCardUtils.FormatNewsCardContent`: the 120 and 80 cut-offs count code
  points, not UTF-16 code units, as `Text.Truncate` does.
- `MobileNewsCard.FormatContent`: the same code-point counting as
  `NewsCardUtils.FormatNewsCardContent`.
- `StoryViewerUtils.TruncatedSummary`: the 200 cut-off counts code points,
  not UTF-16 code units, as `Text.Truncate` does.
- `Text.ReplaceFirst`: the replacement is inserted literally. JavaScript
  expands `$` patterns in it; the only call passes `''`, which has none.
- `Text.ToUpperCase`: only ASCII letters are mapped. JavaScript's
  `toUpperCase` also maps other scripts and can lengthen a string ("ß" becomes
  "SS"). For ASCII input the contract is the full behaviour.
- `UiUtils.HandleStoryNavigation`: coordinates are exact reals, so a NaN
  coordinate (also falsy in JavaScript) is not modelled.
- `UiUtils.RunAction`: `updateState` is supplied by the caller. It is modelled
  as the spread merge `ApplyUpdate` that callers perform.
- Constructors take a valid initial index as a precondition; the source does
  not check it. Out of range, the utils.ts controller still runs: from an
  index at or past the last, `nextStory` completes at once, and from a
  negative index it steps up into range. The story-viewer-utils.ts
  controller's `getCurrentStory` then returns `undefined`.
