# Verified core of the runtime

A Dafny model of the parts of the runtime and the desktop client that keep state
consistent over long runs, with proofs of what those parts promise.

* **The run-state log** (`RunStateDelta`, `DiffEffort`, `RunStateDiff`, `DemoRunForm`,
  `DemoRunNormalForm`, `DemoRunLaws`, `DemoRunLists`, `DemoRunTurns`, `DemoRunAccepted`,
  `RunJournal`, `JournalRuns`, `ReplayedRuns`, `StagedEvents`, `JournaledRuntime`,
  `JournalLimits`, `JournalExample`). Run states are JSON values. A structural diff
  produces operations, a fenced application replays them, and a journal replaces full
  states in the event log by such deltas. The main theorem, `ReplayEquivalence`, says that over every run of the
  journal - stages, commits, checkpoints, failed units of work, forgotten runs - the
  compacted log replays to the same runs as the log of full states. `JournaledRuntime` is
  the object that drives the journal; every sequence of its calls and restarts is such a
  run, as long as all states are modest in size and nesting.
* **Bounded histories** (`TimelineBound`, `AssistantTimeline`, `TimelineRows`,
  `ProseSegments`, `LateText`, `LateTextStatus`, `MixedTimeline`, `CommentaryTimeline`,
  `EventHistory`, `EventHistoryLaw`). Windows that evict tools, characters or streaming
  fragments and still equal what a single pass over all input would show; and what texts
  that are put in late do to such a window.
* **The scheduler** (`TaskScheduler`, `RandomPlan`, `SchedulerCore`, `SchedulerRearm`).
  Window points, seeded day plans, re-arming, and whole series of calls to the daemon's
  `fireTask`.
* **Stateful stores** (`SessionOutput`, `SessionTable`, `CommandSessions`; `RunEvents`,
  `ByteCache`, `RunProcessPage`, `HistoryReads`; `MessageStore`, `MessageBackfill`,
  `BackfillLaws`). Objects whose steps interleave, modelled one uninterrupted step per
  method, so that calling the methods in any order gives every interleaving.

`Results`, `Json` and `Ordering` are shared. Loops and objects of the source are methods
and classes here; each is proved against a function or predicate, and the theorems are
about those. What the functions mean is said a second time without them, by the names,
limits and cases of the source: `DemoRunLaws` and its neighbours for the fields of a run,
`ReplayedRuns` and `StagedEvents` for events, `EventHistoryLaw` for the desktop's history,
`SchedulerRearm` for next runs, `ProseSegments` for streamed text, `BackfillLaws` for messages.

## What the proofs found

* `applyRunStateDelta` refuses paths longer than 128 and more than 100000 operations, but
  the diff produces either (`TooManyOperations`, `TooLongPath`). What a diff takes is a
  function of the two states (`EffortOf`), and the round trip holds exactly when that is
  within the limits (`CreateRunStateDelta`): for all states nested at most 128 levels and
  of at most 100000 values together, for one.
* `parseDemoRun` checks the length of `attemptedModelIds` before it adds the current
  model, so 256 other models give a run whose stored form is refused (`NormalFormStable`,
  `CrowdedRun`). An event that was compacted can be replayed if and only if neither its
  state nor the one before is such a run and the diff keeps its limits
  (`CompactedExactly`); `CrowdedPair` stages such a state twice and cannot be recovered.
* A draft with `runStateDelta` but without `run` is not refused by `stage`, because the
  guard against the reserved field only runs when a full state is present. It leaves the
  baseline outdated, and the next compacted state can be read if and only if it changed
  nothing (`UndeclaredDeltaExactly`); `UndeclaredDeltaExample` gives three drafts whose
  full log replays and whose staged log does not.
* `appendAssistantTextDelta` with `afterSequence` renumbers by index, but keeps the number
  of the text itself. demo-run.reasoning.test.ts expects rising numbers; they rise if and
  only if no number below is missing or the text comes last (`LateTextOrder`), and eviction
  leaves such gaps (`LateTextMisplaced`). Only the tail is ever closed, so a text put before
  other segments streams for ever, unless its number is so high that a later sort makes it
  the tail (`LateTextStreamsExactly`).
* `localMidnightUtc` reads whole local hours; at other offsets computed midnights are late
  by the odd minutes, and a point that falls there is skipped (`LeastExactly`,
  `MissedPoint`).
* A window that starts after it ends has no points (`StopsExactly`), but its task still runs:
  five minutes after its creation, and again whenever it is registered anew
  (`BackwardWindowRuns`).
* The daemon counts every callback after its due point as a catch-up and never resets the
  count: a task runs late once per life of the daemon and is only deferred afterwards
  (`LateRunsBounded`); a late task that has to queue is dropped (`QueuedLateIsDropped`),
  although a comment says that its next run was already advanced.
* A due task that still runs is skipped, and `decideDue` names its next run, but the daemon
  stores a next run only for a fired task: the old due point stays (`CallByCases`), so that the
  next call is late and uses up the one catch-up, or is deferred.
* A page of one section also carries the first items of the others, so an oversized item
  there blocks the walk (`WalkFinishes`).

## Model

| member | source | states |
|---|---|---|
| `RunStateDiff.CommonAffixes` | apps/runtime/src/run-state-delta.ts:74-83 | The two loops find the longest common prefix and, in what is left, the longest common suffix |
| `RunStateDiff.DiffText` | apps/runtime/src/run-state-delta.ts:84-94 | The text splice or replacement that is sent turns the old string into the new one, and its range is valid |
| `RunStateDiff.DiffValue` | apps/runtime/src/run-state-delta.ts:65-154 | The operations pushed for any two values lead from one to the other; their number, the length of their paths and the depth failure are exactly what the effort, a function of the two values, says; none are pushed for equal values |
| `RunStateDiff.DiffKeyedRows` | apps/runtime/src/run-state-delta.ts:98-127 | Keyed rows are turned into the new rows; while the common rows keep their order, exactly the new rows are sent in full |
| `RunStateDiff.DiffPlainRows` | apps/runtime/src/run-state-delta.ts:128-140 | Rows without unique keys are compared by position and the tail is spliced |
| `RunStateDiff.DiffRecord` | apps/runtime/src/run-state-delta.ts:144-152 | In whatever order keys are visited, deletions, changes and additions lead to the new record |
| `RunStateDiff.DiffRunStateSnapshots` | apps/runtime/src/run-state-delta.ts:162-174 | The diff fails exactly when it goes more than 129 levels deep; otherwise the delta carries both hashes, leads from the first state to the second, and is empty exactly when they are equal |
| `RunStateDiff.CreateRunStateDelta` | apps/runtime/src/run-state-delta.ts:156-178 | Round trip: whether a delta is produced, and whether applying it to its base gives the target, is an if-and-only-if in the two states alone; it holds for all states nested at most 128 levels and of at most 100000 values together; every operation is applicable when it is reached; any other base is refused |
| `RunStateDiff.TooManyOperations` | apps/runtime/src/run-state-delta.ts:128-140 | Two states of 100001 flags whose delta is produced and not accepted |
| `RunStateDiff.TooLongPath` | apps/runtime/src/run-state-delta.ts:65-73 | Two records whose delta is produced with a path of 129 steps and not accepted |
| `DiffEffort.SizeBounds` | apps/runtime/src/run-state-delta.ts:65-154 | A diff never pushes more operations than the two values have parts together |
| `DiffEffort.DepthBounds` | apps/runtime/src/run-state-delta.ts:65-154 | Nesting bounds how deep the diff goes and how long its paths are |
| `DiffEffort.KeysMatch` | apps/runtime/src/run-state-delta.ts:47-57 | Two rows are matched exactly when both have the same string `id`, or neither has one and kind, tool and safe sequence are the same |
| `DiffEffort.KeyedExactly` | apps/runtime/src/run-state-delta.ts:59-62 | Rows are compared by key exactly when each has one and no two are the same row |
| `RunStateDiff.RoundTrip` | apps/runtime/src/run-state-delta.ts:240-310 | A delta that leads from one state to another is accepted by the fenced application if and only if its paths and its length are within the limits |
| `RunStateDiff.ApplyRunStateDelta` | apps/runtime/src/run-state-delta.ts:240-310 | The loop over the operations, with all its checks, computes the fold that the round trip is about, error for error |
| `RunStateDiff.ResolvePath` | apps/runtime/src/run-state-delta.ts:192-202 | The walk along a path reaches the child that the path names, or fails where a step does not exist |
| `RunStateDelta.SetThenRead` | apps/runtime/src/run-state-delta.ts:192-218 | Reading after writing: below the written path one reads the written value, beside it the old one |
| `RunStateDelta.DeleteThenRead` | apps/runtime/src/run-state-delta.ts:262-268 | A deleted key is gone and everything beside it is as before |
| `RunStateDelta.ApplicableExactly` | apps/runtime/src/run-state-delta.ts:256-305 | An operation succeeds exactly when its path resolves and its range lies within its target |
| `RunStateDelta.EveryOperationApplicable` | apps/runtime/src/run-state-delta.ts:256-305 | In a list that applies, every operation is applicable to the state reached by the earlier ones |
| `RunStateDelta.AcceptedExactly` | apps/runtime/src/run-state-delta.ts:240-310 | A delta of version 1 with two digests and at most 100000 operations is accepted exactly when the base is the state, every operation is applicable in turn and the result has the digest announced; otherwise the first check that fails is reported |
| `RunStateDelta.RangeThenRead` | apps/runtime/src/run-state-delta.ts:269-304 | A splice or text edit that succeeds replaces exactly its range at its path; beside the path nothing changes |
| `RunStateDelta.PathsRead` | apps/runtime/src/run-state-delta.ts:180-190 | An operation whose path has more than 128 steps or a negative index is refused; any other is carried out or fails on its own |
| `DemoRunNormalForm.NormalFormStable` | apps/runtime/src/demo-run.ts:990-1250 | Serialize-after-parse, applied to its own result, is accepted exactly when the attempted models still number at most 256, and then changes nothing |
| `DemoRunNormalForm.OwnStable` | apps/runtime/src/demo-run.ts:1042-1250 | Every kind of field, once parsed and serialized, reads back as itself: lists, images, context sources, failure counts, commentary, timeline, tool events |
| `DemoRunNormalForm.NormalFormFields` | apps/runtime/src/demo-run.ts:983-1008 | The normal form holds exactly the parsed durable fields, each in its serialized shape; what these are is said by name in the rows below |
| `DemoRunNormalForm.RequiredSurvive` | apps/runtime/src/demo-run.ts:1042-1075 | The identity and text fields of a run pass through unchanged |
| `DemoRunAccepted.AcceptedExactly` | apps/runtime/src/demo-run.ts:1042-1150 | A value is a run exactly when it is a record with the five strings and the position, and its lists, snapshots, sources and segments, named one by one, stay within 8, 64 or 256 entries and are well formed |
| `DemoRunLaws.RequiredConserved` | apps/runtime/src/demo-run.ts:1046-1056 | The five required strings and the adapter position are the same when read and when stored |
| `DemoRunLaws.TextsConserved` | apps/runtime/src/demo-run.ts:1151-1232 | Field by field, by name: each of the 13 optional strings and 5 texts with a default is the same string when read and when stored, and anything else is left out or becomes the default; protocol and resolution source keep any value but null |
| `DemoRunLaws.NumbersAndListsConserved` | apps/runtime/src/demo-run.ts:1057-1220 | Numbers, flags that are true, lists of at most 8, 64 or 256 strings, a retry count from 0 to 5 and one of the five image modes are kept as they are, by name |
| `DemoRunLists.ModelsConserved` | apps/runtime/src/demo-run.ts:1069-1070 | The provider model falls back to the model; the fake provider is used unless refused or a provider is named; of the attempted models and the model itself each is kept once, in the order of first appearance |
| `DemoRunLists.SkillsConserved` | apps/runtime/src/demo-run.ts:1097-1116 | At most 8 skill snapshots, each kept in its place with its two strings and nothing else |
| `DemoRunLists.SourcesConserved` | apps/runtime/src/demo-run.ts:1117-1149 | At most 256 context sources, each kept in its place; the content of a skill definition is dropped |
| `DemoRunLists.ImagesConserved` | apps/runtime/src/demo-run.ts:990-1008 | A run read has the images that can be shown, in order, with default name and type; stored, those that are staged, without their data |
| `DemoRunTurns.ReasoningConserved` | apps/runtime/src/demo-run.ts:1254-1290 | The last 128 reasoning segments are kept, each with its texts and times |
| `DemoRunTurns.CommentaryConserved` | apps/runtime/src/demo-run.ts:1254-1290 | Of the commentary the last 120000 characters of the last 128 segments are kept, in segments that are otherwise unchanged, and all of it within those limits |
| `DemoRunTurns.TurnsConserved` | apps/runtime/src/demo-run.ts:1236-1238 | All prose of the turn and the newest 512 other rows are kept, in their places when nothing is dropped and by sequence otherwise |
| `DemoRunTurns.ToolsConserved` | apps/runtime/src/demo-run.ts:1240-1247 | Exactly the tool calls and results with a tool are kept, in order |
| `DemoRunAccepted.CountsConserved` | apps/runtime/src/demo-run.ts:1082-1096 | Of the failure counts, whole numbers above zero under a name, all are kept up to 64; without any the field is left out |
| `DemoRunAccepted.NothingElse` | apps/runtime/src/demo-run.ts:1150-1249 | A run that was read or stored has no fields but these |
| `DemoRunAccepted.StoredFields` | apps/runtime/src/demo-run.ts:990-1008 | Storing any run drops its three expanded fields and changes no others but images and sources |
| `JournalLimits.CrowdedRun` | apps/runtime/src/demo-run.ts:1042-1250 | A run with 256 attempted models, none of them its own, is accepted, but its normal form is not |
| `RunJournal.DemoRunPersistenceJournal.Stage` | apps/runtime/src/demo-run-persistence.ts:70-108 | Staging leaves the journal alone and prepares each event against the baselines after the earlier ones: unchanged, or as projection and delta where that is smaller; it throws only for one of the named reasons, found at one of its events |
| `StagedEvents.StagedAs` | apps/runtime/src/demo-run-persistence.ts:76-101 | An event is written as the 21 readable fields and a delta only if it carries a state of at least 4096 bytes and the baseline is of the same thread, and then whenever that is smaller |
| `StagedEvents.BaselineAfter` | apps/runtime/src/demo-run-persistence.ts:76-101 | An event that ends a run takes its baseline away, one that carries a state sets it to the normal form, and no event touches another |
| `RunJournal.DemoRunPersistenceJournal.Commit` | apps/runtime/src/demo-run-persistence.ts:102-106 | A stage older than any other change to the journal is refused without effect; otherwise its baselines are installed, or none after a checkpoint |
| `RunJournal.DemoRunPersistenceJournal.Forget` | apps/runtime/src/demo-run-persistence.ts:110-112 | Only the baseline of that run goes, and the revision moves exactly when there was one |
| `StagedEvents.ForgottenExactly` | apps/runtime/src/runtime.ts:20606-20627 | After rows without state exactly the baselines of runs that none of them ended are kept |
| `RunJournal.DemoRunPersistenceJournal.RollBack` | apps/runtime/src/demo-run-persistence.ts:63-67 | The catch branch: a failed operation restores the saved baselines and outdates every open stage |
| `RunJournal.RunProjection.Apply` | apps/runtime/src/demo-run.ts:1016-1040 | One replayed event updates the map in place, or is refused and leaves it alone; one of the four types that end a run takes its run away |
| `RunJournal.RunProjection.ApplyAll` | apps/runtime/src/demo-run.ts:1010-1040 | Replaying a log event by event is the fold of its events |
| `ReplayedRuns.EndTakesRun` | apps/runtime/src/demo-run.ts:1018-1026 | After `run.completed`, `run.failed`, `run.cancelled` or `run.paused` the run is not among the runs, and every other run is as before |
| `ReplayedRuns.StateReplacesRun` | apps/runtime/src/demo-run.ts:1038-1039 | Any other event with a full state replaces the run by what the parser makes of it, or is refused when that fails |
| `ReplayedRuns.DeltaChangesRun` | apps/runtime/src/demo-run.ts:1027-1037 | A delta leads from the normal form of the run to what the parser makes of the changed state, and never to another run or thread |
| `ReplayedRuns.DeltaNeedsRun` | apps/runtime/src/demo-run.ts:1027-1031 | A delta for a run that is not there, or goes by another name, is refused with its error |
| `ReplayedRuns.AliveExactly` | apps/runtime/src/demo-run.ts:1016-1040 | Over whole logs of full states a run is among the replayed ones if and only if the last event that ends it or brings a state brings a state, which it then is, or there is no such event and it was there at the start |
| `JournalRuns.EventReplays` | apps/runtime/src/demo-run-persistence.ts:76-98 | One event and what staging wrote for it replay to the same runs, or both fail, and the baselines stay the normal forms of the replayed runs |
| `JournalRuns.BatchReplays` | apps/runtime/src/demo-run-persistence.ts:99-107 | The same for a whole batch, whose events see one another's baselines |
| `JournalRuns.StepKeepsInvariant` | apps/runtime/src/runtime.ts:20597-20627 | Every step - staging, committing with or without a checkpoint, appending plain events, forgetting, nested units of work that succeed, fail with or without the journal, and restarts - keeps full and compacted log in step, and no outdated stage commits |
| `JournalRuns.InvariantOnRuns` | apps/runtime/src/runtime.ts:20724-20767 | That invariant holds in every reachable state |
| `JournalRuns.ReplayEquivalence` | apps/runtime/src/demo-run-persistence.ts:55-113 | Over every run of the journal, the compacted log since the last checkpoint replays exactly when the full log does, to the same runs in normal form; each baseline is the normal form of its replayed run; logs of acceptable states never fail |
| `ReplayedRuns.JournalHoldsLastStates` | apps/runtime/src/demo-run-persistence.ts:55-113 | Over every run of the journal the compacted log replays to exactly the runs that are alive by the events as given, each in the normal form of its last state; a baseline is kept of no other run, and is that state |
| `JournalRuns.FullLogReplays` | apps/runtime/src/demo-run.ts:1016-1040 | A log of acceptable full states always replays |
| `JournalRuns.ModestFewOperations` | apps/runtime/src/run-state-delta.ts:65-154 | A baseline and a state of at most 100000 values together give a delta that replay can apply |
| `JournaledRuntime.PersistentRuntime.CommitProjectedEvents` | apps/runtime/src/runtime.ts:20724-20767 | Staging, writing and committing in one stretch, for any drafts: the stage is never stale, and a refusal or an error of the store leaves rows and journal as they were; modest drafts are refused only if they do not parse or name another run |
| `JournaledRuntime.PersistentRuntime.CommitEvents` | apps/runtime/src/runtime.ts:20606-20627 | Rows without state are appended and the baselines of the runs that ended forgotten |
| `JournaledRuntime.PersistentRuntime.Throw` | apps/runtime/src/runtime.ts:20597-20605 | A unit of work that throws takes back rows and baselines together |
| `JournaledRuntime.PersistentRuntime.Abandon` | apps/runtime/src/runtime.ts:4846-4860 | A unit of work run without the journal, which stages no state, takes back its rows only |
| `JournaledRuntime.PersistentRuntime.Restart` | apps/runtime/src/demo-run-persistence.ts:55-58 | A new process finds the committed rows and an empty journal, and the run of the old one goes on |
| `JournaledRuntime.PersistentRuntime.Recover` | apps/runtime/src/demo-run.ts:1010-1040 | After any calls and restarts, in any order, recovery from the compacted rows succeeds exactly when it would from full rows, and finds the same runs, as long as all states were modest |
| `JournaledRuntime.StageAndCommit` | apps/runtime/src/runtime.ts:20754-20762 | Such a stretch is two steps of a run of the journal |
| `JournaledRuntime.ModestRefused` | apps/runtime/src/demo-run-persistence.ts:76-98 | States nested at most 128 levels and of at most 50000 values are refused only if they do not parse or name another run |
| `JournalExample.CompactingRun` | apps/runtime/src/demo-run-persistence.ts:70-108 | A concrete run of the journal whose second batch enters the log as a delta: the theorems about runs are not about nothing |
| `JournalLimits.CompactedExactly` | apps/runtime/src/demo-run.ts:1010-1040 | What staging compacted against the state read before can be replayed if and only if that state and the new one both keep the limit on attempted models and the diff between them keeps the limits on deltas; the full state replays in any case |
| `JournalExample.CrowdedPair` | apps/runtime/src/demo-run-persistence.ts:76-98 | The same crowded state staged twice: in full the log replays, as staged it does not |
| `JournalLimits.UndeclaredDeltaExactly` | apps/runtime/src/demo-run-persistence.ts:76-98 | A compacted state replays if and only if the run is still what its baseline says, that is, unless a delta that was not staged has changed it; the full state replays either way |
| `JournalExample.UndeclaredDeltaExample` | apps/runtime/src/demo-run-persistence.ts:76-98 | Three drafts, the second with a delta but no state, that are staged without complaint: in full they replay, as staged they do not |
| `AssistantTimeline.Conservation` | apps/runtime/src/demo-run.ts:311-510 | Over every interleaving of inputs the thinking and answer texts are exactly what was fed, sequences increase, only the tail streams, and the rows are the newest 512 ever opened |
| `AssistantTimeline.StepConserves` | apps/runtime/src/demo-run.ts:329-510 | One reducer step, from any orderly timeline, adds exactly its text and its row |
| `ProseSegments.ProseIsStory` | apps/runtime/src/demo-run.ts:276-470 | Over every interleaving of inputs the prose segments, with kind, phase, text, times and status, are the story the inputs tell: a delta goes on with an open passage of its voice and otherwise opens one, and a new tool makes what was said before commentary |
| `ProseSegments.ChunkingIsInvisible` | apps/runtime/src/demo-run.ts:329-410 | A delta that comes in two pieces, anywhere in any run, leaves the same timeline as in one piece at the time of the first |
| `ProseSegments.OnePassage` | apps/runtime/src/demo-run.ts:329-410 | Deltas of one voice that follow one another are one passage with all their text from the time of the first, going on with what was open of that voice and ending what was open of another |
| `ProseSegments.NamesDiffer` | apps/runtime/src/demo-run.ts:347-356 | Over any inputs no two thinking segments, texts or statuses have the same identifier |
| `LateText.LateTextPlaced` | apps/runtime/src/demo-run.ts:361-410 | Text that was held back appears between the texts around the place where it arrived; thinking and rows on display do not change |
| `LateText.LateTextOpens` | apps/runtime/src/demo-run.ts:361-410 | Held text goes on with the tail exactly if that is open text of its phase and number; otherwise it is an open segment at its place, and every other segment is numbered by its index |
| `LateText.LatePiecesJoin` | apps/runtime/src/demo-run.ts:361-410 | Two pieces of held text for the place of an open tail join it as one plain delta would |
| `LateText.LateTextOrder` | apps/runtime/src/demo-run.ts:361-410 | Sequences still rise after the renumbering if and only if the text comes last or no number below its own is missing |
| `LateTextStatus.LateTextStreamsExactly` | apps/runtime/src/demo-run.ts:276-410 | Text put before other segments streams before the tail over every continuation if and only if its number is at most the length of the timeline plus the rows that still fit into its window |
| `LateTextStatus.LateTextEnds` | apps/runtime/src/demo-run.ts:276-410 | Where that fails, enough statuses sort the text behind everything, and closing the tail then ends it |
| `LateTextStatus.LateTextMisplaced` | apps/runtime/src/demo-run.ts:361-410 | Reachable cases: text is held back after n statuses, n at least 512, and put in after one more; it comes out of order, and it can be ended exactly if n is more than 512 |
| `MixedTimeline.MixedConservation` | apps/runtime/src/demo-run.ts:311-510 | Over any mixture of plain and late texts with the other inputs the thinking is exactly what was fed, no letter of the answer is lost, and the rows are those of the board |
| `TimelineRows.RowsAreBoard` | apps/runtime/src/demo-run.ts:419-510 | Over every interleaving the tool and status rows show what a plain board of 512 rows shows, with names, arguments, results and times |
| `TimelineRows.BoardIsSound` | apps/runtime/src/demo-run.ts:419-481 | No call has two rows; a row runs exactly while it has no result, and failed exactly when the result is an error |
| `TimelineRows.RestartedRow` | apps/runtime/src/demo-run.ts:419-445 | Starting a call again replaces its name and arguments only by ones that are given |
| `TimelineRows.CompletedRow` | apps/runtime/src/demo-run.ts:470-495 | A result goes to the row of its call, with its time, and to no other |
| `TimelineRows.NewRow` | apps/runtime/src/demo-run.ts:446-469 | A new call or a status is the last row, and a 513th pushes out the first |
| `TimelineBound.BoundKeepsProse` | apps/runtime/src/demo-run.ts:311-327 | Bounding keeps every thinking and answer segment and the newest 512 others |
| `TimelineBound.BoundDropsOldest` | apps/runtime/src/demo-run.ts:311-327 | On a timeline in order, splitting, slicing and sorting again amounts to dropping the oldest tools and statuses in place |
| `TimelineBound.BoundIdempotent` | apps/runtime/src/demo-run.ts:311-327 | Bounding a bounded timeline changes nothing |
| `CommentaryTimeline.BoundCommentaryTimeline` | apps/runtime/src/demo-run.ts:677-696 | The trimming loop terminates with at most 128 segments whose text is the last 120000 characters of the last 128 segments |
| `CommentaryTimeline.BoundedIdempotent` | apps/runtime/src/demo-run.ts:677-696 | Trimming twice is trimming once |
| `CommentaryTimeline.DeltaKeepsSuffix` | apps/runtime/src/demo-run.ts:698-721 | After any delta the kept commentary is a suffix of all that was fed, and all of it within the limits |
| `CommentaryTimeline.PiecesJoin` | apps/runtime/src/demo-run.ts:698-721 | Commentary that comes in two pieces with no tool boundary between leaves the same segments as in one, trimming included |
| `CommentaryTimeline.BoundaryOpens` | apps/runtime/src/demo-run.ts:698-721 | Behind a closed segment or across a tool boundary a delta is a segment of its own |
| `EventHistory.MergeEventHistory` | apps/desktop/src/event-history.ts:34-48 | The map loop, filters and sorts compute the window over the latest event of each id, whatever order the map iterates in |
| `EventHistory.WindowKeeps` | apps/desktop/src/event-history.ts:40-47 | The window is ordered with distinct ids, keeps every anchor and the newest max(0, 5000 - anchors) deltas, and has its exact size |
| `EventHistory.MergeTwice` | apps/desktop/src/event-history.ts:34-48 | Merging two batches one after the other gives the history of merging them at once, when equal ids mean equal events |
| `EventHistory.StreamingIsOneShot` | apps/desktop/src/event-history.ts:34-48 | The same for any number of batches: early eviction never shows |
| `EventHistory.HistoryPolicy` | apps/desktop/src/event-history.ts:3-15 | What a history contains, in terms of the events alone |
| `EventHistoryLaw.HistoryByType` | apps/desktop/src/event-history.ts:3-48 | For any events given: the history holds the last of each id, in order; everything but `message.delta`, `message.commentary_delta` and `message.reasoning_delta` is there; what is left out are such fragments, older than all that are kept, with 5000 events or more kept; and more than 5000 only if no fragment is |
| `EventHistoryLaw.OneHistory` | apps/desktop/src/event-history.ts:3-48 | These laws determine the history: no other list of events obeys them |
| `EventHistoryLaw.StreamedByType` | apps/desktop/src/event-history.ts:3-48 | The same laws hold of a history merged batch by batch |
| `TaskScheduler.LocalMidnightUtc` | apps/runtime/src/task-scheduler.ts:54-74 | The search ends within two guesses; the result is local midnight exactly when the offset is a whole number of hours |
| `TaskScheduler.EveryWindowPointsInDay` | apps/runtime/src/task-scheduler.ts:145-161 | The points of a day are the window start plus all multiples of the interval up to the window end |
| `TaskScheduler.NextEveryWindowPoint` | apps/runtime/src/task-scheduler.ts:164-183 | The search visits at most two of its 400 days, finds nothing exactly when the window starts after it ends, equals a closed form, and returns the least later point when the window's last point is reachable |
| `TaskScheduler.LeastExactly` | apps/runtime/src/task-scheduler.ts:164-183 | The search returns the least later point, for every instant, if and only if the window's last point does not fall into the minutes by which computed midnights are late |
| `TaskScheduler.WholeHourReachable` | apps/runtime/src/task-scheduler.ts:164-183 | At whole-hour offsets that condition always holds |
| `TaskScheduler.MissedPoint` | apps/runtime/src/task-scheduler.ts:164-183 | Where it does not hold, a concrete instant whose next point is missed |
| `RandomPlan.RandomPlanForDate` | apps/runtime/src/task-scheduler.ts:101-121 | The seeded draws, loop, de-duplication and sort compute the plan of the seed |
| `RandomPlan.PlanShape` | apps/runtime/src/task-scheduler.ts:101-121 | A plan has n strictly increasing points, minTimes <= n <= maxTimes, one in each of n floor-divided sub-windows and all inside the window, so de-duplication and sort change nothing |
| `RandomPlan.PointsFollowDraws` | apps/runtime/src/task-scheduler.ts:101-121 | The first draw says into how many parts the window is cut, unless that is fixed, and each further draw picks the place in its part |
| `RandomPlan.KnownDraws` | apps/runtime/src/task-scheduler.ts:15-25 | The first draws of three seeds, as numerators over 2^32 |
| `RandomPlan.NextRandomIsLater` | apps/runtime/src/task-scheduler.ts:124-141 | The next random occurrence lies ahead, degenerate windows included |
| `RandomPlan.NextRandomIsLeast` | apps/runtime/src/task-scheduler.ts:124-141 | Under a usable rule it is the least point of today's and tomorrow's plans that is still ahead |
| `SchedulerCore.NextRunIsLater` | apps/runtime/src/task-scheduler.ts:188-220 | For every kind of rule the computed next run lies after now |
| `SchedulerCore.StopsExactly` | apps/runtime/src/task-scheduler.ts:188-220 | A task gets no next run exactly when it was a one-off, its window starts after it ends, or cron has no match |
| `SchedulerCore.Postpone` | apps/runtime/src/task-scheduler.ts:237-241 | The postponing loop returns the first of the first run plus whole intervals that lies ahead |
| `SchedulerCore.InitialNextRunAt` | apps/runtime/src/task-scheduler.ts:223-256 | The first run lies ahead for every rule but a one-off, and which it is for each rule, with the fallback of five minutes for missing or unreadable dates |
| `SchedulerCore.BackwardWindowRuns` | apps/runtime/src/task-scheduler.ts:230-236 | A task whose window starts after it ends is armed five minutes after its creation, runs then, is left without a next run, and any later call with room runs it again |
| `SchedulerCore.RearmedInFuture` | apps/runtime/src/scheduler-core.ts:131-211 | Any next run chosen by a fire, skip or defer decision lies after now, and no other decision chooses one |
| `SchedulerRearm.DueByCases` | apps/runtime/src/scheduler-core.ts:131-175 | When a due task is skipped, taken over, queued or fired; a fired and a skipped task get exactly the next run of their rule: for an interval `now + max(5, minutes) * 60000`, none for a one-off, a backward window or cron without a match |
| `SchedulerRearm.CatchupByCases` | apps/runtime/src/scheduler-core.ts:193-211 | A missed point is caught up once if it lies within the window; otherwise, and if it is unreadable, it is deferred to exactly that next run |
| `SchedulerRearm.CallByCases` | apps/runtime/src/daemon/main.ts:802-847 | What every call of `fireTask` does, by cases of its due point and the room there is: a fired task is armed anew by its rule, a deferred one if the rule has a next run, and in all other cases the due point stays |
| `SchedulerRearm.ArmedExactly` | apps/runtime/src/daemon/main.ts:802-847 | Over any series of calls a task that repeats stays armed; a one-off or one with a backward window is armed until it has run and never again |
| `SchedulerCore.FiredExactly` | apps/runtime/src/daemon/main.ts:802-847 | When a timer, sweep or forced call starts a run |
| `SchedulerCore.DuePointsRunOnce` | apps/runtime/src/daemon/main.ts:802-847 | Over any series of calls no due point is run twice |
| `SchedulerCore.LateRunsBounded` | apps/runtime/src/daemon/main.ts:806-826 | Over any series of calls a task is run late at most once: the catch-up count is never reset |
| `SchedulerCore.QueuedLateIsDropped` | apps/runtime/src/daemon/main.ts:806-846 | A queued task is only deferred when it leaves the queue exactly if it was already late on entering it, has caught up before, or is beyond the window by then |
| `CommandSessions.CommandSessionStore.Start` | apps/runtime/src/command-sessions.ts:95-158 | A session is created exactly when no check refuses, its owner has none and there is room; it runs without output, or has failed at once, and the call waits for it or answers; a repeated call reads the session it has; refusals change nothing |
| `CommandSessions.CommandSessionStore.BeginRead` | apps/runtime/src/command-sessions.ts:160-201 | A read is refused for the first of the source's reasons, waits exactly on a running command with time left, and otherwise answers at once |
| `CommandSessions.CommandSessionStore.FullExactly` | apps/runtime/src/command-sessions.ts:119-127 | There is no room exactly when 32 sessions run or 8 of the scope do |
| `CommandSessions.CommandSessionStore.FinishRead` | apps/runtime/src/command-sessions.ts:192-200 | A completed read reports, per stream, exactly the last 65536 characters since the previous completed read, truncated exactly when a stream had more, and empties the buffers |
| `CommandSessions.CommandSessionStore.CancelRead` | apps/runtime/src/command-sessions.ts:174-200 | A cancelled read takes nothing away |
| `CommandSessions.CommandSessionStore.Emit` | apps/runtime/src/command-sessions.ts:273-276 | Output keeps every buffer equal to the tail of its history |
| `CommandSessions.CommandSessionStore.EndConsume` | apps/runtime/src/command-sessions.ts:252-303 | However a worker ends, its session stops running and keeps its reported status unless it threw or reported none |
| `CommandSessions.CommandSessionStore.BeginStop` | apps/runtime/src/command-sessions.ts:210-212 | Stopping aborts exactly the session of that identifier and scope, and is refused for the first reason of the lookup otherwise |
| `CommandSessions.CommandSessionStore.StopResult` | apps/runtime/src/command-sessions.ts:213-215 | The answer, once the command has ended, shows the unread output without consuming it, even if the session was pruned meanwhile |
| `CommandSessions.CommandSessionStore.FinishStopAll` | apps/runtime/src/command-sessions.ts:217-223 | After everything stopped, nothing is kept and nothing runs |
| `CommandSessions.CommandSessionStore.Prune` | apps/runtime/src/command-sessions.ts:305-310 | Pruning never removes a running or read session, and leaves more than 128 only if all of them are |
| `SessionOutput.OutputConserved` | apps/runtime/src/command-sessions.ts:160-303 | Over any history every emitted character is delivered once, dropped by an overlong read, or still unread; the reads give back everything exactly when none was overlong |
| `SessionOutput.OutputPieces` | apps/runtime/src/command-sessions.ts:160-303 | The completed reads cut the output into pieces, and each returned exactly the last 65536 characters of its piece |
| `SessionOutput.TailOfTail` | apps/runtime/src/command-sessions.ts:273-276 | Cutting piece by piece is cutting the whole, and the mark is set exactly when the whole exceeds the limit |
| `SessionTable.CapacityHolds` | apps/runtime/src/command-sessions.ts:119-127 | At most 32 sessions run, at most 8 of one scope |
| `SessionTable.SoundAfterStart` | apps/runtime/src/command-sessions.ts:112-151 | A start within capacity keeps owners unique and both counts |
| `SessionTable.PrunedIs` | apps/runtime/src/command-sessions.ts:305-310 | Pruning keeps the busy sessions of some oldest part and all later ones, as many as allowed |
| `ByteCache.Cache.Insert` | apps/runtime/src/conversation-history-read-service.ts:253-268 | The byte count stays the sum of the entries, both limits hold, the loop ends, and the entry just inserted is there |
| `ByteCache.EvictedIs` | apps/runtime/src/conversation-history-read-service.ts:263-267 | Eviction keeps the longest most recent part that respects the limits |
| `ByteCache.NewestStays` | apps/runtime/src/conversation-history-read-service.ts:253-268 | An entry that could be kept alone is never evicted by its own insertion |
| `RunEvents.CursorIdentifies` | packages/storage/src/runtime-state-store.ts:152-161 | An unchanged cursor of a run means unchanged events |
| `RunEvents.CursorIsGreatest` | packages/storage/src/runtime-state-store.ts:152-161 | In an ordered log the last event of a run has the greatest cursor |
| `HistoryReads.ConversationHistoryReadService.BeginGet` | apps/runtime/src/conversation-history-read-service.ts:220-241 | A hit serves the projection of the store's current events; other calls join or start a load for the current cursor, within the limit |
| `HistoryReads.ConversationHistoryReadService.Load` | apps/runtime/src/conversation-history-worker.ts:142-165 | A load answers from one moment of the store, through a cache that never shows another |
| `HistoryReads.ConversationHistoryReadService.Capture` | apps/runtime/src/run-process-snapshot-cache.ts:16-48 | The snapshot cache gives the projection of the current events |
| `HistoryReads.ConversationHistoryReadService.FinishGet` | apps/runtime/src/conversation-history-read-service.ts:239-251 | A view is cached only while its cursor is the store's, and never after closing |
| `HistoryReads.ConversationHistoryReadService.Close` | apps/runtime/src/conversation-history-read-service.ts:293-298 | Closing empties the cache and its count |
| `HistoryReads.ConversationHistoryReadService.Commit` | apps/runtime/src/conversation-history-read-service.ts:220-287 | New events leave caches, pending keys and every loaded snapshot good |
| `HistoryReads.AnswerIsFresh` | apps/runtime/src/conversation-history-read-service.ts:220-287 | However loads and commits interleave, an answer shows at least the events that were there when the call began |
| `RunProcessPage.SelectRunProcessCollection` | apps/runtime/src/run-process-page.ts:28-50 | The loop computes the selection, its two errors included |
| `RunProcessPage.SelectExact` | apps/runtime/src/run-process-page.ts:28-50 | A page is the longest run of items that limit, byte budget and collection allow |
| `RunProcessPage.PageOfWalk` | apps/runtime/src/run-process-page.ts:52-84 | A page asked for in a version is refused unless the view still is that version |
| `RunProcessPage.PaginateByParts` | apps/runtime/src/run-process-page.ts:52-84 | With or without a request: when there is an answer, and that it holds of each section the longest page of at most 229376 bytes and 40 items, or as many as asked for; without a request a view that fits is given whole |
| `RunProcessPage.WalkCollects` | apps/runtime/src/run-process-page.ts:28-84 | Following nextOffset collects the section in order with no gap or repeat, even if the server's view may change between calls |
| `RunProcessPage.WalkFinishes` | apps/runtime/src/run-process-page.ts:28-84 | The walk reaches the end if and only if every item of the section fits a page, and the first item of each other section does |
| `MessageBackfill.BackfillMessagesFromEvents` | apps/runtime/src/message-store-backfill.ts:131-359 | The loop computes the fold over the selected events and its cursor; processed is written plus updated plus skipped |
| `MessageBackfill.Resumes` | apps/runtime/src/message-store-backfill.ts:131-409 | A prefix of the log and then the rest from the returned cursor gives the same messages, cursor and summed counts as one pass, wherever the cut falls |
| `MessageBackfill.CursorSelectsRest` | apps/runtime/src/message-store-backfill.ts:140-157 | After a part of the log the cursor selects exactly the rest, also between events of one sequence |
| `MessageBackfill.WrittenExactly` | apps/runtime/src/message-store-backfill.ts:102-115 | An event is written exactly when its message is wanted, acceptable and missing; then there is nothing left to write for it |
| `BackfillLaws.WrittenMessage` | apps/runtime/src/message-store-backfill.ts:158-318 | A message is written exactly when its event asks for it, with thread, identifier, role, blocks, run and model as the payload says, it is not there and the table takes it; it is the last of its thread |
| `BackfillLaws.AttachedMessage` | apps/runtime/src/message-store-backfill.ts:319-358 | Images change the blocks of exactly the message named, where the merged ones are new and acceptable; other events change nothing |
| `MessageBackfill.RerunWritesNothing` | apps/runtime/src/message-store-backfill.ts:1-2 | Projecting the same events again writes no message |
| `MessageBackfill.FoldKeepsNumbered` | apps/runtime/src/message-store-backfill.ts:193-202 | A pass only appends messages and changes blocks, with unique ids and unique sequences in each thread |
| `MessageStore.MergeImageBlocks` | apps/runtime/src/message-store-backfill.ts:69-100 | The loop computes the merge |
| `MessageStore.MergeFacts` | apps/runtime/src/message-store-backfill.ts:69-100 | A merge keeps the blocks in order, ensures a text, shows every reference of both sides and adds none twice |
| `BackfillLaws.AttachedAsSent` | apps/runtime/src/message-store-backfill.ts:49-100 | Behind the blocks that were there come blocks of the usable entries, as they were sent, and nothing else |
| `BackfillLaws.EveryImageShown` | apps/runtime/src/message-store-backfill.ts:49-100 | Every usable entry has its reference shown in the end |
| `MessageStore.MergeUnchanged` | apps/runtime/src/message-store-backfill.ts:69-100 | A merge changes nothing exactly when there is a text and all references are shown; so merging again changes nothing |

## Left out

- SHA-256 is taken as free of collisions: a digest determines the value it was made of. Text that is no digest stands for every malformed one.
- Byte lengths (`Buffer.byteLength`, `JSON.stringify`) are uninterpreted non-negative functions.
- JSON values are compared by content; `===` on two arrays or records is never true in the diff, as for two separately parsed values. Updating a cloned state in place is modelled as building the new value. Malformed operations are one case, `Unknown`; indices are integers without the safe-integer bound.
- JournalRuns.ReplayEquivalence: drafts carry no delta of their own, hold at most 256 attempted models with their own and nest at most 128 levels, and staged deltas have at most 100000 operations; `JournalLimits` says of single events exactly what happens otherwise.
- JournalRuns.StepKeepsInvariant: a refused commit changes nothing, whereas `commitProjectedEvents` writes the rows before `staged.commit` could throw. Staging and committing are one synchronous stretch there, so that a stage is never stale by then; `PersistentRuntime.Install` proves this of the model.
- JournaledRuntime.PersistentRuntime.CommitProjectedEvents: when a checkpoint is due, the thread versions it holds and the event sequence are not modelled; the store either takes all rows or throws.
- JournaledRuntime.PersistentRuntime.Abandon: that the units which are run without the journal stage no state is taken from their code, as a precondition.
- RunJournal.DemoRunPersistenceJournal.RollBack: `rollbackOnFailure` takes a closure; the runtime's use of it is modelled as `Begin`, then any calls, then `Return` or `Throw`.
- RunJournal.DemoRunPersistenceJournal.Stage: an empty batch, which the source does not accept, is allowed.
- Kinds of parse errors of `parseDemoRun` are one error; the order in which surplus failure counts are cut is a fixed order of keys.
- AssistantTimeline.Conservation: inputs with `afterSequence` are not among the inputs of a run here; `MixedTimeline` has them, where the order of the answer's pieces is no longer promised. `normalizeAssistantTurnPhases` is modelled from packages/protocol as changing phases only.
- TimelineRows.RowsAreBoard: the same; `MixedTimeline.MixedConservation` says it with such inputs.
- `localeCompare` is a total order on strings; sorts are stable insertions.
- Time zones are fixed offsets in minutes: no daylight saving. Instants are integers; `parseHm` has already happened. The hash of a task and a date to a seed is a parameter, and a draw is kept as its numerator over 2^32, so rounding in `rng() * m` is not modelled.
- SchedulerCore.NextRunIsLater: the cron library is a function that returns an instant after its argument.
- SchedulerCore.DuePointsRunOnce: one enabled task whose rule and next run nobody else edits; worker dispatch, retries after a crash other than as forced calls, and the timer that makes the calls are left out.
- Child processes, worker threads, timers and abort signals appear only as the steps they cause. Summaries keep the status; command line, exit code, error text and times of a session are not modelled, nor is `list`.
- CommandSessions.CommandSessionStore.Start: path resolution and case folding of a scope are done before; a scope without thread or workspace has no key. Random identifiers are fresh.
- HistoryReads.ConversationHistoryReadService.BeginGet: only reads of a run's process are modelled, not message pages, file diffs, contents or task plans. Timeouts and restarts of the history worker are failed loads. The event table is a log in which each run's cursors increase.
- RunProcessPage.WalkFinishes: the other fields of a view are one JSON value, and its version is a digest as above.
- MessageBackfill.Resumes: errors other than those of the message table, which end the pass, are left out, as is the overflow of a thread's sequence past the safe integers; the text of a paused run's message and the table's validity checks are parameters. Re-running from the start may still attach images that came before their message, so only `RerunWritesNothing` is stated of it.
- `readBackfillProgress`, `ruleScheduleShape`, `desiredRegistrations`, `historyFromDecision` and `TimerRegistry` are shape checks or bookkeeping with little to prove.
- The tool schemas, prompts, payload parsers, UI projections, SQLite, HTTP and pipes are not modelled.
