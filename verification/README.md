# Verified model of the download daemon

This project models, in Dafny 4.11, the parts of the download manager's daemon that decide whether a
finished file is the right file and whether a download is run correctly, and proves what they promise.
`dafny verify dfyconfig.toml` checks all of it.

| part | files |
|---|---|
| segmented transfer engine | `Transfer` (step system), `TransferSafety`, `TransferCoverage`, `TransferClaims`, `TransferAtomic`, `TransferCalm`, `TransferCounts`, `TransferProgress` (invariants and theorems), `Pool` (the pool's functions in imperative form, tied to the steps), `Segmenter`, `Engine` (runs, stops, crashes and resumes in a row), `Starts` (planning and starting a run in imperative form), `Stops` (what a stop saves), `Witness` (runs that lead to the failures below) |
| scheduler and queue | `Queue` (the list and its walks), `Scheduler` (step system), `SchedulerSafety`, `SchedulerRuns`, `SchedulerOutcomes` (which status a result leads to), `SchedulerCalls` (what the clients' calls come to) |
| file verification | `Sha256` (FIPS 180-4), `Sha256Tables` (its tables), `Sha256Example` (its published example), `Sha256Stream` (the streaming context), `Finalize` |
| rate limit | `TokenBucket` |
| smaller parts | `EntryLines`, `EntryRewrite`, `EntryReader`, `EntryWriter`, `DesktopEntry` (autostart entry), `Framing` (socket strings), `Offers` (browser offers), `UniquePath` (destination choice and reservation), `Ids` (download ids over restarts) |
| shared definitions | `Common` |

## How the concurrent parts are modelled

A concurrent component is a state, a set of actions, a guard `Can` and an effect `Do`. A run is any
sequence of states joined by possible actions, so a theorem about runs is a theorem about every
interleaving.

- **Transfer.** Each access of a write callback and of the end of a segment is a step of its own, and so is
  each access of the mutex holder that a callback can see or disturb. What the holder does between two of
  these is put in one step: a round of a scan reads one slot's fields (of which a callback changes only
  `write_pos`), `ShrinkVictim` loads and stores `live_end` (which only a holder changes), `MarkDone` is the
  lock, its two stores and the unlock, `AppendSlot` appends a slot, `MirrorVictim` shrinks the victim's chunk
  and updates its row, `MirrorTail` appends the tail's chunk, counter and row. Callbacks take no lock. The
  daemon thread that saves progress is one more stepper. The file is a sequence of bytes, the server a fixed
  `content`, the chunk table and its database rows are sequences. `Config` holds what does not change: the
  intervals asked for, the steal threshold, the largest callback, whether steals are atomic, whether the pool
  may split, whether the plan is fresh.
- **Scheduler.** The main thread has five stages and each worker seven: engine running, returned, cancel
  flag read, pause flag read, outcome settled, status written, finished. Client calls may fall anywhere.
- **Token bucket.** Every load and every compare-and-swap is a step; a weak compare-and-swap may fail
  without reason.

Assumptions about the surroundings: a request for `a-b` delivers in order a prefix of `content[a..b]`
or fails (sections 14.1.2 and 15.3.7 of RFC 9110); `content` does not change between runs; a callback
delivers at most the steal threshold (half of it where a theorem says `Calm`, which only the two theorems on
the exact byte count do); every database statement succeeds; a crash is one of the process, so bytes written
before it are in the file after it; the clocks that the scheduler and the token bucket read do not go back.
Ends of ranges are exclusive in the model: the source's `start..end` is `[start, end + 1)`.

## What the proofs found

- **Crash among the inserts of a fresh plan.** The plan is stored row by row, after the size is saved and
  the file has its full length. A crash in between leaves rows that miss the end of the file, and the next
  start resumes from them: `Witness.PartialPlanCompletesWrong` has, for any configuration, a run after which the
  download counts as complete, with the wrong content unless the missing bytes were right already.
  `Engine.PlanningCrashExact` says that the rows are good exactly when the crash came before the first insert or
  after the last.
- **Crash inside a split.** A split is saved by two statements. Between them the tail is in no row
  (`TransferAtomic.TailInNoRow`), so a crash there loses it; `Witness.SplitMissesTail` has a run that gets
  there. During the pool run of a fresh plan, with atomic steals, it is the only such point
  (`TransferAtomic.RowsCoverOutsideSplit`, `Witness.CrashSoundExactly`).
- **Split on a resumed run.** The split callback looks for the victim by the slot's start, which includes
  the resume offset; it finds the chunk exactly when that offset is zero
  (`TransferClaims.SplitFindsOnlyUnshiftedVictim`). Otherwise the victim's chunk keeps the tail too, which
  is then in two chunks. While no chunk is finished and none overlap, such splits keep the saved data sound
  (`Engine.StopIsSound`). Once a chunk was finished before the run, the tail's counter is
  read at another index than it is stored at (`Engine.TailCounterIsItsOwn`); and when the table is full, as it
  is for large files, the split of a chunk with nothing done yet cuts the tail off its chunk and its row and
  puts it in no other (`Pool.FullTableLosesTail`). Such runs are modelled without splits.
- **Single-connection fallback.** It tests against the range `0..0`, so the test passes exactly for one-byte
  files (`Engine.FallbackSucceedsOnlyForOneByte`); being made only after more than one range, the fallback
  never makes a download succeed (`Engine.FallbackNeverSucceeds`). It never spoils saved data.
- **Rate bound.** A comment of `bandwidth.c` says the rate tracks the cap closely. The bound "a bucket plus
  rate times elapsed time" does not hold of an arbitrary stretch of wall-clock time: a stretch may open
  with a refill on its way and with time that no refill has credited yet. `TokenBucket.WindowBoundExact`
  gives the exact condition for every state, `TokenBucket.WindowBoundNow` the same in whole tokens where
  rounding leaves no gap, `TokenBucket.ThreeBuckets` what always holds.
- **Lost race for a destination.** When another program creates the chosen file first, the reservation
  withdraws its queue entry, which deletes that file (`UniquePath.LostRaceDeletes`). A round leaves the files of
  other programs alone exactly when it does not lose its race (`UniquePath.RoundKeepsOthers`);
  `UniquePath.OthersKeptExactly` says when all of them are there after a whole call.
- **Backoff.** The shifted base can wrap in 32 bits: with a base of four seconds the 31st retry does not
  wait (`SchedulerRuns.WrappedBackoffIsZero`). `SchedulerRuns.BackoffExact` says exactly when the computed
  delay is the one the settings promise.
- **Desktop entry.** The rewriter counts a line that is a lone `[` as a heading and the reader does not, so
  a Hidden line after it survives (`DesktopEntry.LoneBracketShadows`). The program's path is written into the
  entry as it is, so what follows a line break in it is a line of its own and may set Hidden or any other key
  (`DesktopEntry.LineBreakSets`). For every entry and every path `DesktopEntry.HiddenIsRequested` gives the
  exact condition for the requested value to be read back, `DesktopEntry.OtherKeysRead` what every other key
  reads as, and `DesktopEntry.ToggleTwiceExact` when toggling twice is toggling once.
- **Refused fields.** When the URL or the destination of an add-download message is too long, the handler
  returns with the later fields unread, and they would be taken for a header. `Framing.AddRoundTrip` says
  exactly when the message is consumed in `hdr.length` bytes. The comment of `read_string` (synchronization
  after an oversized string) is right for one string only.

## Model

| member | source | states |
|---|---|---|
| `TransferSafety.RunSafe` | src/engine/worker_pool.c:91-378 | In every state of every interleaving the slots, workers and the lock holder agree: one owner per slot, written bytes are the server's, `live_end` stays inside, a thief knows its victim |
| `TransferSafety.SplitExact` | src/engine/worker_pool.c:136-141 | In 64-bit arithmetic the split is the midpoint and lies between position and end |
| `TransferCoverage.SuccessWritesPlan` | src/engine/worker_pool.c:204-378 | If every worker of a pool run ends successful, every planned byte on disk is the server's |
| `TransferCoverage.SplitNeverUnderflows` | src/engine/worker_pool.c:116-141 | `le - wp` at the split never wraps although `wp` is read again after the scan |
| `TransferCoverage.NoOrphanEver` | src/engine/worker_pool.c:98-112 | Every slot is exhausted or claimed in every reachable state, and there are never more than eight |
| `TransferCoverage.RunTiled` | src/engine/worker_pool.c:91-163 | The slots (and the tail of a split in progress) always cover the planned intervals |
| `TransferClaims.RunClaims` | src/engine/engine_runner.c:34-63 | Through every run the chunk table, its live counters and its rows claim only correct bytes, and each counter trails the slot by one callback at most |
| `TransferClaims.ClaimedBytesAreCorrect` | src/engine/worker_pool.c:235-244 | A byte that a live counter or a saved row claims is on disk and is the server's |
| `TransferClaims.ByteInTables` | src/engine/engine_runner.c:44-62 | In a run with splits every byte of a slot is in some chunk and in some row, except between the two statements of a split |
| `TransferClaims.ResumeKeepsTables` | src/engine/engine_runner.c:159-194 | In a run without splits the chunks and the rows' ranges stay as they were |
| `TransferClaims.SplitFindsOnlyUnshiftedVictim` | src/engine/engine_runner.c:43-51 | The search by slot start finds the victim's chunk exactly when the resume offset is zero |
| `TransferAtomic.TablesAgree` | src/engine/engine_runner.c:34-63 | With atomic steals on a fresh plan, outside a steal, slots, chunks and rows describe the same disjoint intervals, which cover the file if the plan did; starts are unique keys, and each counter equals `write_pos - start` up to the callback in flight |
| `TransferAtomic.RowsCoverOutsideSplit` | src/engine/engine_runner.c:43-62 | With atomic steals, in every state of a pool run on a fresh whole-file plan, the rows cover the file exactly when no split is between its two statements |
| `TransferAtomic.TailInNoRow` | src/engine/engine_runner.c:47-62 | Between the two statements the tail is not empty and no byte of it is in any row |
| `Witness.SplitMissesTail` | src/engine/engine_runner.c:43-62 | Every fresh plan of two to seven ranges, a later one worth splitting, has a run that reaches that point, and what a crash leaves there does not cover the file |
| `Witness.CrashSoundExactly` | src/engine/engine_runner.c:43-62 | What a crash leaves of a fresh pool run with atomic steals is sound exactly outside such points |
| `TransferCounts.SuccessCounts` | src/engine/worker_pool.c:241-242 | After a successful run `bytes_downloaded` has grown by at least the plan's size, and by exactly it when no slot was overrun |
| `TransferCounts.CalmSuccessCountsExactly` | src/engine/worker_pool.c:217-244 | With atomic steals and callbacks of at most half the threshold it has grown by exactly the plan's size |
| `Engine.PlanAddsUp` | src/engine/segmenter.c:9-31 | The lengths of a fresh plan add up to the size of the file |
| `Engine.FreshSuccessCountsSize` | src/engine/engine_runner.c:254-257 | A fresh download that succeeds under those conditions has counted exactly the size of the file |
| `TransferCounts.StepLowersMeasure` | src/engine/worker_pool.c:350-374 | Every step of every worker lowers one measure |
| `TransferCounts.RunsTerminate` | src/engine/worker_pool.c:346-378 | The workers of a run take at most that many steps, and a run makes at most eight minus the planned number of splits |
| `TransferProgress.NobodyIsStuck` | src/engine/worker_pool.c:346-378 | In every reachable state of a run with splits a worker that has not exited can take a step, or the holder of the mutex it waits for can |
| `TransferProgress.RunsEnd` | src/engine/worker_pool.c:346-378 | A run that no worker can continue has ended for all of them, and their steps are bounded |
| `Pool.RebalancePool.constructor` | src/engine/worker_pool.c:44-71 | One claimed slot per range, at most eight, each from where its range resumes to its end |
| `Pool.RebalancePool.Acquire` | src/engine/worker_pool.c:91-164 | The call in one piece: the first orphan is taken, else the busiest slot is split when it has enough left and the pool has room, else the worker leaves; state and result are given for each case, and they are what the thief's steps lead to |
| `Pool.StealTakesHalf` | src/engine/worker_pool.c:114-141 | A split happens only with the threshold left in the victim and room for a slot |
| `Pool.OrphanGoesOn` | src/engine/worker_pool.c:98-112 | An orphaned slot is taken on from its write position to its end |
| `Pool.RebalancePool.FindOrphan` | src/engine/worker_pool.c:98-112 | The first slot neither exhausted nor claimed |
| `Pool.RebalancePool.FindBusiest` | src/engine/worker_pool.c:114-130 | The first slot with the most bytes left, and how many |
| `Pool.VictimBounds` | src/engine/worker_pool.c:114-130 | No claimed slot has more left than the victim, none before it as many |
| `Pool.RebalancePool.Callback` | src/engine/worker_pool.c:204-245 | The write callback in one piece: it gives up when a flag is set or the rate limit refuses, at the end of the slot and after a short write, else writes what fits and counts it four times; state and result are given for each case, and they are what its steps lead to |
| `Pool.RebalancePool.Finish` | src/engine/worker_pool.c:308-336 | Success exactly with a good status, as many bytes as the slot now asks for, and an end that is complete or was cut short by the pool; then the slot is exhausted and released, else the worker leaves it claimed |
| `Pool.ShrunkSegmentPasses` | src/engine/worker_pool.c:222-330 | A segment whose slot was shrunk under it writes what fits and passes the test, although curl reports a write error |
| `Pool.RebalancePool.OnSplit` | src/engine/engine_runner.c:34-63 | The tables after the split callback, also when the chunk table is full |
| `Pool.FullTableLosesTail` | src/engine/engine_runner.c:43-55 | With a full table a split takes the tail, and no other byte, out of every chunk and row exactly when the victim's chunk had nothing done before the run |
| `Pool.TableNotLonger` | src/engine/engine_runner.c:53-57 | On a fresh plan the chunk table has room whenever the pool has |
| `Segmenter.SegmenterPlan` | src/engine/segmenter.c:9-31 | The array filled in 64-bit arithmetic is the unbounded plan, without overflow, and nothing past it changes |
| `Segmenter.PlanIsContiguous` | src/engine/segmenter.c:18-28 | Ranges are nonempty, start at 0, end at `total - 1`, each beginning where the one before ends |
| `Segmenter.PlanIsOrdered` | src/engine/segmenter.c:18-28 | Later ranges start after earlier ones end |
| `Segmenter.PlanCovers` | src/engine/segmenter.c:9-31 | Every byte is in exactly one range |
| `Segmenter.ChosenPlanFits` | src/engine/segmenter.c:34-44 | The plan for the chosen worker count has at most eight ranges |
| `Segmenter.PiecesAreEven` | src/engine/segmenter.c:9-31 | All ranges but the last have the same length, and the last has the remainder more |
| `Segmenter.WorkersBySize` | src/engine/segmenter.c:34-44 | One worker below a mebibyte, four below twenty, eight from there on |
| `Engine.IncompleteFacts` | src/engine/engine_runner.c:161-182 | The resume plan lists exactly the incomplete chunks, in order, once each |
| `Engine.PlanResume` | src/engine/engine_runner.c:159-182 | The resume loop plans each incomplete chunk from its first missing byte to its end, and computes the bytes already done and the live counters |
| `Starts.Begin` | src/engine/engine_runner.c:195-237 | Cutting a file and storing the pieces leaves on disk exactly the fresh plan |
| `Starts.Resume` | src/engine/engine_runner.c:159-252 | Planning, connecting the counters and creating the pool from what is on disk gives exactly the state from which the runs of the step system begin |
| `Engine.PersistPlan` | src/engine/engine_runner.c:224-237 | The insert loop stores the plan, and a crash after `m` inserts leaves its first `m` rows |
| `Engine.PlanningCrashExact` | src/engine/engine_runner.c:224-237 | What such a crash leaves covers the file, or is nothing, exactly when it comes before the first insert or after the last |
| `Witness.PartialPlanCompletesWrong` | src/engine/engine_runner.c:161-182 | From every fresh plan of more than one range and for any valid configuration, a crash after the first insert and a run without a fault complete the download with a file of the right size; its content is wrong exactly when a byte past the first range was not right already |
| `Engine.FreshIsSound` | src/engine/engine_runner.c:195-237 | A fresh plan claims nothing and covers the file |
| `Engine.StartIsInit` | src/engine/engine_runner.c:239-252 | What the engine hands to the pool, fresh or resumed, is an initial state of the step system |
| `Engine.TailCounterIsItsOwn` | src/engine/engine_runner.c:53-62 | When the pool has room for a split, the counter of the tail is its own chunk's exactly when no chunk was finished before the run, else the pool reads an entry no one stored; the chunk table may be full |
| `Engine.DoneStaysInChunk` | src/engine/engine_runner.c:159-182 | What was done before a resumed run stays in its chunk and row, whatever is split |
| `Engine.StopIsSound` | src/engine/engine_runner.c:259-264 | A run stopped or crashed outside the two statements leaves data that claims only correct bytes and covers the file |
| `Stops.StopKeepsReceived` | src/engine/engine_runner.c:259-264 | When the workers are gone every byte a slot counted is in the done prefix of its chunk in what the stop saves, to the last byte |
| `Stops.StopKeepsDone` | src/engine/engine_runner.c:259-264 | At no point of a run would a stop take back what a chunk had saved before |
| `Stops.LastSaveStands` | src/core/scheduler.c:272-280 | What the daemon saved last for a chunk is what a crash finds there |
| `Stops.ResumeAddsUp` | src/engine/engine_runner.c:159-182 | What a resume counts as done and what it plans to fetch add up to the chunks |
| `Stops.StopLeavesRest` | src/engine/engine_runner.c:259-264 | With no slot overrun the length left to fetch is at least that of the plan less what the run counted, and exactly that if and only if every chunk ends where its slot does |
| `Stops.UnsplitStopLeavesRest` | src/engine/engine_runner.c:259-264 | Without splits it is exactly that |
| `Stops.FreshStopLosesNothing` | src/engine/engine_runner.c:254-264 | After a fresh download with atomic steals stops, no slot overrun, the next run counts as done what this one had counted and plans to fetch the rest of the file |
| `Stops.CalmStopLosesNothing` | src/engine/engine_runner.c:254-264 | With callbacks of at most half the threshold no slot is overrun, so that always holds |
| `Engine.SuccessIsComplete` | src/engine/engine_runner.c:254-264 | A run whose workers all succeed leaves exactly the server's bytes |
| `Engine.NothingLeft` | src/engine/engine_runner.c:186-194 | With nothing left to fetch the file already is the server's |
| `Engine.SoloRun` | src/engine/engine_runner.c:247-252 | A pool of one range never clamps, steals or moves its end |
| `Engine.SoloTest` | src/engine/worker_pool.c:313-327 | Its exact-byte test is the one made without a pool |
| `Engine.FallbackSucceedsOnlyForOneByte` | src/engine/engine_runner.c:272-283 | The test of the fallback passes exactly for one-byte files |
| `Engine.FallbackNeverSucceeds` | src/engine/engine_runner.c:272-283 | Made after more than one range, the fallback never makes the call succeed |
| `Engine.FallbackKeepsSound` | src/engine/engine_runner.c:272-283 | A fallback that fails spoils no saved claim |
| `Engine.FallbackMayWrite` | src/engine/engine_runner.c:272-283 | A stop may come with any number of bytes from the front delivered by the fallback |
| `Engine.HistoryIsJustified` | src/engine/engine_runner.c:95-308 | Over any number of attempts, stops and crashes saved data claims only correct bytes and covers the file, and a completed download is the server's content; left out are a crash inside a split or among the inserts of a fresh plan, and the splits of a run from a table with a finished chunk or two chunks that meet |
| `Queue.QueueManager.Find` | src/core/queue_manager.c:213-224 | The walk finds the first entry with the id, and replacing or unlinking it there is replacing or unlinking it in the list |
| `Queue.QueueManager.FindNextQueued` | src/core/queue_manager.c:226-241 | The eligible entry of highest priority, first of equals; none only if none is eligible |
| `Queue.NextIsUnique` | src/core/queue_manager.c:226-241 | There is at most one such entry |
| `Queue.QueueManager.CountByStatus` | src/core/queue_manager.c:243-263 | The number of entries with the status |
| `Queue.QueueManager.RemoveEntry` | src/core/queue_manager.c:185-207 | An active entry is only asked to cancel, any other is unlinked |
| `Queue.QueueManager.Cancel` | src/core/queue_manager.c:356-374 | An active entry gets its flag set, any other becomes CANCELED |
| `Queue.QueueManager.Pause` | src/core/queue_manager.c:396-414 | An active entry gets its flag set, a queued one becomes PAUSED |
| `Queue.QueueManager.Resume` | src/core/queue_manager.c:416-436 | A paused or failed entry is queued with flags and retry fields cleared |
| `Queue.QueueManager.UpdateStatus` | src/core/queue_manager.c:343-354 | The first entry with the id gets the status |
| `Queue.QueueManager.Add` | src/core/queue_manager.c:157-162 | The new entry heads the list with the counter's id |
| `Queue.LookupUpdate` | src/core/queue_manager.c:343-354 | Replacing an entry changes what is found for its id and for no other |
| `Queue.LookupRemove` | src/core/queue_manager.c:185-207 | Unlinking an entry of a list with distinct ids removes its id and no other |
| `SchedulerSafety.StepSafe` | src/core/scheduler.c:67-258 | Every action keeps the invariant of list, workers and main thread |
| `SchedulerOutcomes.StatusWritten` | src/core/scheduler.c:68-161 | Whenever a worker writes a status, its engine start had returned and it had read the cancel flag and then the pause flag; the status is DONE exactly when the engine returned 0, else CANCELED, PAUSED, QUEUED or ERROR by the flags read, the result and the retries left |
| `SchedulerOutcomes.DoneMeansZero` | src/core/scheduler.c:77-88 | In every run an entry that was not DONE from the start is DONE only if its last engine start returned 0 |
| `SchedulerOutcomes.FinalClears` | src/core/scheduler.c:77-161 | With DONE, CANCELED and ERROR the retry fields are clear |
| `SchedulerOutcomes.SettleLeaves` | src/core/scheduler.c:77-161 | A pause keeps the retry fields, a retry counts up and sets the time of the next |
| `SchedulerOutcomes.FatalEndsInError` | src/core/scheduler.c:111-137 | A result of -2, -3 or -4 with neither flag read set ends in ERROR with the retry fields clear, and no start follows without a resume |
| `SchedulerCalls.CancelIsSeen` | src/core/scheduler.c:73-101 | A cancel or remove between the start and the look at the cancel flag is seen |
| `SchedulerCalls.PauseIsSeen` | src/core/scheduler.c:74-109 | A pause between the start and the look at the pause flag is seen |
| `SchedulerCalls.CancelCallAllowsOneStart` | src/core/queue_manager.c:356-374 | After a cancel or remove, without a resume, the engine starts at most once more, and never if the download was not active |
| `SchedulerCalls.IdleCancel` | src/core/queue_manager.c:356-374 | A cancel of a download that is not active makes it CANCELED at once, its retry fields clear |
| `SchedulerCalls.PauseHolds` | src/core/queue_manager.c:396-414 | A queued download that is paused does not start until it is resumed |
| `SchedulerCalls.ResumeRequeues` | src/core/queue_manager.c:416-436 | A resume puts a paused or failed download back in the queue, due at once, no flag set, and leaves any other as it is |
| `SchedulerCalls.PickWhenDue` | src/core/queue_manager.c:226-241 | Something can be picked exactly when a download is due, and what is picked is due and of the highest priority |
| `SchedulerRuns.ActiveExactlyWhileHeld` | src/core/scheduler.c:67-240 | In every run a download is ACTIVE exactly while it is picked or one worker works on it, never two; a working worker's entry is listed; the ACTIVE count is within the limit |
| `SchedulerRuns.ShutdownLeavesNoneActive` | src/core/scheduler.c:242-258 | After shutdown nothing is ACTIVE |
| `SchedulerRuns.CanceledIsAbsorbing` | src/core/queue_manager.c:356-436 | A CANCELED download stays so, or is unlinked, in every run |
| `SchedulerRuns.CancelAllowsOneStart` | src/core/scheduler.c:73-161 | Once the cancel flag is set and no resume follows, the engine starts at most once more, and after that start the download is never queued again |
| `SchedulerRuns.CancelWhileRunningIsFinal` | src/core/scheduler.c:71-99 | If the worker had not yet looked at the flag, no start follows and the download is never queued |
| `SchedulerRuns.RetriesExactly` | src/core/scheduler.c:139-161 | With only retryable failures a freshly queued download is started exactly `max_attempts + 1` times before ERROR; while it is queued its starts equal its retry count |
| `SchedulerRuns.NoEarlyRetry` | src/core/scheduler.c:139-203 | The start after a retryable failure comes no earlier than the computed backoff after it |
| `SchedulerRuns.BackoffExact` | src/core/scheduler.c:51-59 | The computed backoff is `min(base*2^(k-1), max)` exactly under the stated condition on the wrapped shift |
| `SchedulerRuns.Wrap32Is` | src/core/scheduler.c:51-59 | A delay stored in 32 bits keeps its remainder and lies in their range |
| `SchedulerRuns.SmallBaseIsExact` | src/core/scheduler.c:51-59 | For a base under four seconds it is so at every attempt up to 31 |
| `SchedulerRuns.WrappedBackoffIsZero` | src/core/scheduler.c:54-58 | For a base of four seconds the 31st delay is zero |
| `Sha256Spec.Wrap64IsMod` | src/platform/sha256.c:99-120 | The running bit length is the true one modulo 2^64 |
| `Sha256Spec.PadZerosIsLeast` | src/platform/sha256.c:105-118 | The number of zero bytes is the least that fills the last block (section 5.1.1 of FIPS 180-4) |
| `Sha256Tables.PrimesAreListed` | src/platform/sha256.c:22-33 | The primes used below are the first sixty-four, in order and without a gap |
| `Sha256Tables.RoundConstants` | src/platform/sha256.c:22-33 | Each round constant holds the first 32 binary places of the cube root of its prime (section 4.2.2) |
| `Sha256Tables.InitialValue` | src/platform/sha256.c:80-91 | The initial value holds those of the square roots of the first eight (section 5.3.3) |
| `Sha256Example.DigestOfAbc` | src/platform/sha256.c:37-141 | The digest of "abc" is the published one |
| `Sha256Stream.Context.constructor` | src/platform/sha256.c:80-91 | A fresh context has absorbed nothing |
| `Sha256Stream.Context.Transform` | src/platform/sha256.c:37-76 | The in-place rounds are the compression function of section 6.2.2 |
| `Sha256Stream.Context.Update` | src/platform/sha256.c:93-103 | An update absorbs exactly its bytes |
| `Sha256Stream.Context.Final` | src/platform/sha256.c:105-141 | The output is the digest of everything absorbed, across both padding branches |
| `Sha256Stream.ParseFlatten` | src/platform/sha256.c:93-103 | Parsing undoes the concatenation of blocks |
| `Sha256Stream.PadShort` | src/platform/sha256.c:108-111 | Up to 55 bytes in the last block: the padding fits it |
| `Sha256Stream.PadLong` | src/platform/sha256.c:112-118 | Fuller last blocks: the padding takes another block |
| `Sha256Stream.HashPieces` | src/engine/finalize.c:58-69 | However the bytes are cut into updates, the result is the digest of the whole |
| `Finalize.HexInjective` | src/platform/sha256.c:143-150 | Different digests print differently |
| `Finalize.ToHex` | src/platform/sha256.c:143-150 | The two lower-case digits of every byte in order |
| `Finalize.HexEqualsCi` | src/engine/finalize.c:25-43 | True exactly when the texts agree up to the case of letters |
| `Finalize.ComputeSha256Hex` | src/engine/finalize.c:50-74 | The digest of the file's bytes, or a failure when it cannot be read |
| `Finalize.EngineFinalize` | src/engine/finalize.c:76-105 | Accepts exactly when size and, if given, digest agree |
| `Finalize.AcceptedDigestsAgree` | src/engine/finalize.c:76-105 | Two files accepted for one expected text have the same digest |
| `Finalize.RightFileAccepted` | src/engine/finalize.c:76-105 | The announced file is accepted exactly when nothing else was expected |
| `Finalize.OnlyRightFileAccepted` | src/engine/finalize.c:76-105 | With the announced size and digest asked for, a file is accepted exactly when it can be read and has both |
| `Finalize.SizeDecides` | src/engine/finalize.c:76-105 | With no digest asked for only the size decides, when it is known |
| `Finalize.HexDigits` | src/platform/sha256.c:143-150 | The digits are 0 to 9 and a to f |
| `Finalize.LowersLetters` | src/engine/finalize.c:25-43 | The comparison takes each capital letter for its small one and changes no other character |
| `TokenBucket.TokensConserved` | src/platform/bandwidth.c:33-90 | Under every interleaving tokens stay in `[0, max_bucket]`, and every token taken is in a call that returned true for exactly its bytes, a call that gave up, or a call in progress |
| `TokenBucket.RefillFits` | src/platform/bandwidth.c:48-58 | The refill's sum never leaves a signed 64-bit word |
| `TokenBucket.BucketIsHalfASecond` | src/platform/bandwidth.c:24-52 | The bucket holds half a second of the rate, and at least a byte |
| `TokenBucket.StepLevel` | src/platform/bandwidth.c:33-90 | No step raises tokens plus grants above what the credited time is worth |
| `TokenBucket.GrantedAtMost` | src/platform/bandwidth.c:33-90 | In any stretch of any run, despite rounding, grants are at most a bucket plus rate times credited time |
| `TokenBucket.WindowFromRefill` | src/platform/bandwidth.c:33-90 | From a moment with all time credited, at most a bucket plus rate times elapsed time |
| `TokenBucket.WindowBoundExact` | src/platform/bandwidth.c:33-90 | From any state that bound holds of every continuation exactly when what is there, arriving and pending after any number of milliseconds stays within it |
| `TokenBucket.WorthSuffices` | src/platform/bandwidth.c:33-58 | It does when tokens there and arriving, with pending time at its worth, are at most a bucket |
| `TokenBucket.WindowBoundNow` | src/platform/bandwidth.c:33-90 | Where rounding leaves no gap the bound holds of every continuation exactly when at most a bucket can be spent at once |
| `TokenBucket.FullBucketExact` | src/platform/bandwidth.c:33-90 | From a full bucket it does exactly when no uncredited time is pending |
| `TokenBucket.ThreeBuckets` | src/platform/bandwidth.c:33-90 | From any state at most three buckets plus rate times elapsed time are granted |
| `EntryLines.LinesOfText` | src/platform/daemon_autostart.c:118-136 | Splitting undoes joining for lines without newline |
| `EntryReader.FindValue` | src/platform/daemon_autostart.c:113-138 | The scan returns the last assignment of the key in a section, truncated to the buffer |
| `EntryRewrite.SetKeyAfter` | src/platform/daemon_autostart.c:249-334 | After a rewrite the key reads as set, or as the last line says that stands after a lone bracket or among the added lines |
| `EntryRewrite.OtherAfter` | src/platform/daemon_autostart.c:249-334 | Every other key reads as in the entry with the added lines where the section first ends, whatever these lines are |
| `EntryRewrite.RewriteAgain` | src/platform/daemon_autostart.c:249-334 | A second pass changes nothing when the added lines hold none for the key in the section |
| `EntryRewrite.AgainExact` | src/platform/daemon_autostart.c:249-334 | It changes nothing exactly when, besides, it has nothing to add |
| `EntryRewrite.NoLoneBracketNoShadow` | src/platform/daemon_autostart.c:113-138 | Without a line that is exactly `[` only the added lines set the key beside the rewriter |
| `EntryWriter.Append` | src/platform/daemon_autostart.c:22-30 | Appends exactly when data and NUL fit |
| `EntryWriter.RewriteLines` | src/platform/daemon_autostart.c:264-332 | The buffer is filled with the rewritten text exactly when it fits and the section exists |
| `DesktopEntry.KeyValue` | src/platform/daemon_autostart.c:113-138 | The reader's value of a key |
| `DesktopEntry.ToggleHidden` | src/platform/daemon_autostart.c:249-334 | Succeeds exactly when the section exists, a needed program path is absolute and the result fits; then the buffer holds the rewritten entry and a NUL |
| `DesktopEntry.WhenItFails` | src/platform/daemon_autostart.c:249-304 | Without its section, or without an absolute path for a missing Exec when enabling, the rewrite fails; hiding asks for the section and room only |
| `DesktopEntry.BareEntry` | src/platform/daemon_autostart.c:249-334 | An entry of nothing but its heading, hidden and enabled, to the letter |
| `DesktopEntry.BareEntryGetsDefaults` | src/platform/daemon_autostart.c:276-292 | Enabling such an entry gives it the three keys the desktop needs |
| `DesktopEntry.HiddenIsRequested` | src/platform/daemon_autostart.c:249-334 | For every entry and program path the reader reports the requested Hidden value if and only if no Hidden line after a lone `[` or among the lines of the path says otherwise |
| `DesktopEntry.OneLineShadow` | src/platform/daemon_autostart.c:282-289 | With a path of one line only a lone `[` can make it say otherwise |
| `DesktopEntry.AddedShadow` | src/platform/daemon_autostart.c:282-289 | Without a lone `[` only the lines of the path can |
| `DesktopEntry.LoneBracketShadows` | src/platform/daemon_autostart.c:113-138 | A concrete entry for which hiding succeeds and which stays visible |
| `DesktopEntry.LineBreakSets` | src/platform/daemon_autostart.c:282-289 | Whatever the key and value: a path with a line break before their assignment, in an entry of just its heading, makes the key read so after a rewrite that succeeds |
| `DesktopEntry.OtherKeysRead` | src/platform/daemon_autostart.c:249-334 | Whatever the program path, every key but Hidden reads as in the entry with the added lines |
| `DesktopEntry.OtherKeyExact` | src/platform/daemon_autostart.c:249-334 | Without a lone `[` it reads as before exactly when it is set again after the section's first end or the added lines give it no other value |
| `DesktopEntry.OtherKeysKept` | src/platform/daemon_autostart.c:249-334 | With a path of one line present keys other than Hidden keep their value; only a missing Type, Name or Exec is added, only when enabling |
| `DesktopEntry.ToggleTwiceExact` | src/platform/daemon_autostart.c:249-334 | For every entry and path, doing it twice is doing it once exactly when the added lines hold no Hidden line and, when enabling, leave Type and Name to be found |
| `DesktopEntry.ToggleIsIdempotent` | src/platform/daemon_autostart.c:249-334 | With a path of one line, or when hiding, it always is, and the second succeeds too |
| `Framing.NumberOfWord` | src/platform/ipc_socket.c:308-313 | The length word reads back |
| `Framing.ParseWire` | src/platform/ipc_socket.c:308-356 | Reading undoes writing when the string fits, and takes exactly `4 + len` bytes either way |
| `Framing.Socket.ReadExact` | src/platform/ipc_socket.c:1321-1337 | For every fragmentation, exactly the next bytes, or a failure when they do not come |
| `Framing.Socket.ReadString` | src/platform/ipc_socket.c:324-356 | For every fragmentation, what the specification of a string read says, and the rest stays on the connection |
| `Framing.Socket.Drain` | src/platform/ipc_socket.c:345-352 | Exactly the excess is dropped |
| `Framing.FittingAddIsValid` | src/platform/ipc_socket.c:375-402 | A message whose fields fit passes the header check |
| `Framing.HeaderFitsHandler` | src/platform/ipc_socket.c:375-402 | A header is accepted exactly when a message of its kind that the handler can take has its length; events never are |
| `Framing.AddRoundTrip` | src/platform/ipc_socket.c:486-493 | The fields come back if and only if all fit; exactly `hdr.length` bytes are taken if and only if the first two fit |
| `Framing.ReceiveAdd` | src/platform/ipc_socket.c:486-493 | The handler's three reads, for every fragmentation |
| `Offers.LiveOffersDistinct` | src/platform/ipc_socket.c:530-621 | In every run live offer ids and request ids are distinct, an offer is CONFIRMED exactly when its download id is nonzero, and no registration yields two downloads |
| `Offers.DismissedYieldsNone` | src/platform/ipc_socket.c:596-626 | A dismissed offer has led to no download and never will |
| `Offers.DismissIsFinal` | src/platform/ipc_socket.c:617-638 | Dismissing an offer that is not confirmed: a confirm right after it is refused, and no download ever comes of the registration |
| `Offers.TouchedSurvives` | src/platform/ipc_socket.c:160-177 | An offer registered, looked at, confirmed or dismissed is safe from expiry for ten minutes |
| `Offers.AtMost64` | src/platform/ipc_socket.c:530-640 | There are at most 64 offers, and none after a stop |
| `Offers.ConfirmAgain` | src/platform/ipc_socket.c:578-616 | Confirming again repeats the answer and changes nothing |
| `Offers.ExpiryDropsExactly` | src/platform/ipc_socket.c:160-177 | Expiry drops exactly the offers untouched for more than ten minutes, never one whose download is unfinished |
| `Offers.OfferTable.FindOffer` | src/platform/ipc_socket.c:179-184 | The first slot with the id |
| `Offers.OfferTable.FindRequest` | src/platform/ipc_socket.c:186-192 | The first live slot with the request id |
| `Offers.OfferTable.Offer` | src/platform/ipc_socket.c:530-566 | The table after an offer; the reply is a live offer exactly when the request is known with this URL, or is new and a slot and an id are free |
| `Offers.OfferTable.Confirm` | src/platform/ipc_socket.c:578-616 | The table after a confirm, and the download id told |
| `Offers.OfferTable.Dismiss` | src/platform/ipc_socket.c:617-638 | The table after a dismiss, and the result code |
| `Offers.OfferTable.ExpireOffers` | src/platform/ipc_socket.c:160-177 | The table after a sweep |
| `UniquePath.DecimalInjective` | src/utils/path.c:97-101 | Numbers print differently |
| `UniquePath.DecimalStandsFor` | src/utils/path.c:97-101 | The text is the number in base ten without a leading zero |
| `UniquePath.PartsMakePath` | src/utils/path.c:74-95 | Directory, stem and extension put together are the path |
| `UniquePath.TarSuffixKept` | src/utils/path.c:85-94 | The four tar suffixes stay together |
| `UniquePath.ExtensionKept` | src/utils/path.c:74-95 | An ordinary extension is what starts at the last dot |
| `UniquePath.NoExtension` | src/utils/path.c:74-95 | A name without a dot past its first character has none |
| `UniquePath.NumberBeforeExtension` | src/utils/path.c:97-101 | The number goes before the extension |
| `UniquePath.UniqueIsLeast` | src/utils/path.c:62-109 | The path itself when free, else the least free number; a failure only when a name does not fit or the numbers run out |
| `UniquePath.EnoughNumbers` | src/utils/path.c:97-109 | With fewer than 999999 existing files and room, a name is found |
| `UniquePath.MakeUnique` | src/utils/path.c:62-109 | The loops compute that choice |
| `UniquePath.Reserver.Reserve` | src/platform/ipc_socket.c:454-481 | Id, files, queue and counter after a reservation, for every behaviour of the other programs: a nonzero id comes with a file created where there was none and exactly one new entry, zero with the queue as it was |
| `UniquePath.ReservedExact` | src/platform/ipc_socket.c:454-481 | A reservation is made in a round exactly when every earlier round lost its race and this one is won; no other program's file had the path |
| `UniquePath.LostRaceDeletes` | src/core/queue_manager.c:185-207 | A lost race deletes the file that another program created |
| `UniquePath.RoundKeepsOthers` | src/platform/ipc_socket.c:460-477 | A round leaves the files of other programs alone exactly when it does not lose its race |
| `UniquePath.OthersKeptExactly` | src/platform/ipc_socket.c:454-481 | After a whole call the files of other programs are as if it had deleted none exactly when each path on which it lost a race has been created or deleted again by another program since |
| `Ids.MaxId` | src/persistence/db.c:498-512 | No row has a larger id |
| `Ids.RestoredDistinct` | src/persistence/db.c:514-602 | The restored list has distinct ids below the counter |
| `Ids.RestoresEach` | src/persistence/db.c:571-584 | Every unfinished row is restored with its priority and status, an interrupted download queued again |
| `Ids.RestartKeeps` | src/persistence/db.c:514-602 | A crash and a restart keep every unfinished row's entry |
| `Ids.RestartDrops` | src/persistence/db.c:514-602 | They leave nothing of a DONE row or of an id that was never stored |
| `Ids.RowIsStored` | src/persistence/db.c:169-245 | Storing adds a QUEUED row, and a status update changes the status of that row only |
| `Ids.FailLeavesNothing` | src/core/queue_manager.c:185-207 | A reservation that falls through leaves neither an entry nor a row |
| `Ids.Restore` | src/persistence/db.c:514-602 | The restore and the seeding build the list of unfinished rows and a counter past every row |
| `Ids.RestoredIsInit` | src/persistence/db.c:514-602 | A restored daemon is an initial state of the scheduler |
| `Ids.FreshIdsAreNew` | src/core/queue_manager.c:157-183 | Over any history of adds, failures, crashes and restarts listed ids are distinct and an issued id is that of no stored row |
| `Ids.HistoryIsKept` | src/persistence/db.c:169-205 | INSERT OR REPLACE never replaces a row |

## Left out

- libcurl, HTTP headers, redirects and speed options: only the assumption on delivered bytes and the success test remain; the HTTP status is one boolean.
- SQL text, migrations and failing statements: tables are sequences and every statement succeeds.
- Splits during a resumed run whose table has a finished chunk, or two chunks that meet: the pool reads the tail's progress slot at another index than the callback writes, where the source has stored nothing, so such a run has no agreed meaning; `splits` is off for it, and a thief of the model that has chosen a victim keeps the mutex for good. All other resumed runs split.
- Resuming from a server without ranges: it restarts at offset 0 and keeps the old live count, so the resume theorems take a server with ranges.
- Downloads of unknown or zero size: the exact-byte test accepts only a one-byte body for them.
- `write_string`'s short writes: `Framing.Wire` is what reaches the wire when the socket accepts it all; errors of writing are ignored by the source.
- Engine.HistoryIsJustified: a crash between the two statements that save a split, or among the inserts of a fresh plan, is excluded, because the rows then miss bytes (`TransferAtomic.TailInNoRow`, `Engine.PlanningCrashExact`); runs from a table with a finished chunk or two chunks that meet are taken without splits.
- TransferClaims.ResumeKeepsTables: says so of runs without splits; for those with splits see `Engine.DoneStaysInChunk` and `TransferClaims.ByteInTables`.
- Pool.RebalancePool.Acquire: the call is one piece, with no write callback in between; the interleavings are the step system's.
- Transfer engine and scheduler as classes under concurrency: Dafny methods do not interleave, so the concurrent behaviour is proved on values; update in place is captured only call by call, in `Pool` and `Queue`.
- Offers.LiveOffersDistinct: the JSON of an offer and the payload checks of a confirm are not modelled; an offer message is one that parsed.
- UniquePath.Reserver.Reserve: ids stay below 2^32.
- Ids.FreshIdsAreNew: ids stay below 2^31, where the signed column and the unsigned counter agree.
- Allocation failures while restoring, which skip a row.
- DONE is not absorbing: the check for DONE and the cancel are separate locked sections.
- Progress of the scheduler (that a join returns, that a queued download is picked in the end) depends on the operating system and is not claimed.
- Priorities, snapshots, notifications, logging, broadcasts and the compaction of the client array.
- The GUI, the browser extension, manifest installation, `is_safe_dest_path`, configuration parsing and all Windows branches.
- Floating-point progress values.
