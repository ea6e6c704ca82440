# Verified model of the NL2SQL service

The service turns questions into SQL with language models. This project models the parts of it that
carry state, order or arithmetic, and proves what they guarantee. It checks with
`dafny verify dfyconfig.toml` (Dafny 4.11).

Language models, databases, Redis, Kafka and clocks are not modelled as programs: their answers are
parameters or arbitrary steps, so each statement holds for all of them.

## Files

- `Scheduler.dfy`, `ThreadPool.dfy`: the batch evaluation loop, a bounded pool fed from a deque,
  front-requeued retries and progressive hard timeouts; and the threads behind that pool.
- `TaskStore.dfy`, `TaskProtocol.dfy`, `ProtocolInvariant.dfy`, `ProtocolSafety.dfy`,
  `ProtocolGaps.dfy`, `FeedbackRuns.dfy`, `GatewayReads.dfy`, `Worker.dfy`: the asynchronous task
  protocol. The store's functions as a class; gateway, workers with their consumer loop, orphaned
  pipeline threads, both stale scanners and the broker as one state machine in which each store call,
  each publish and each branch of a handler is an atomic step; the invariant of all its runs; what
  follows from it; the runs in which a task is left behind; when accepted feedback runs; what messages,
  saves and stored SQL go back to; and the worker's handlers in imperative form, shown to be runs of
  the machine.
- `IdempotentSubmit.dfy`: the idempotency chain of `submit`, any number of interleaved requests.
- `RateLimiter.dfy`: the sliding-window script against the full admission log.
- `Recorder.dfy`, `WriteBehind.dfy`: the write-behind recorder and the result cache, alone and among
  interleaved writers, marks and flushes.
- `Generator.dfy`, `VoteHash.dfy`, `Voter.dfy`, `SemanticCheck.dfy`, `CorrectionGraph.dfy`:
  candidates, the result hash, voting, the escape hatch, and the correction loops through them.
- `SemanticCache.dfy`, `RankFusion.dfy`, `ResultCompare.dfy`, `ColumnPrune.dfy`: cosine similarity and
  best-entry scan, rank fusion, result comparison, column pruning and compact DDL.
- `Basics.dfy`, `Cells.dfy`, `Sorting.dfy`, `Lexicographic.dfy`, `Separators.dfy`, `FirstSeen.dfy`: what
  several of them share, task statuses, result cells with both zeros, stable sorting, Python's tuple
  order, splitting at separators, order of first appearance.

## Where the code does less than it seems to promise

Each of these is proved by a run or an input that exists for it, next to the exact condition under
which the code does keep the promise.

- Status safety. Every step keeps each task on the status graph except one: a gateway save of state
  it read earlier (`feedback` and `scanStale` read, decide and save without comparing). Two racing
  feedback calls bring a TIMEOUT task back to RUNNING. A task that is CANCELLED, TIMEOUT or expired
  is moved by nothing but such a save of that very task, and its expiry
  (`ProtocolSafety.StatusGraph`, `ProtocolSafety.FinalMovesIff`,
  `ProtocolSafety.CancelledAndTimeoutAreFinal`, `ProtocolGaps.RacingFeedbackRevivesTimeout`).
- Delivery. The worker polls up to ten records and commits after each one without naming offsets,
  which commits the position after the whole batch. When it then stops, by a crash or an ordinary
  shutdown, the records it has not finished are gone, and their tasks stay PENDING or RUNNING. A
  record whose handler raised is covered by the next record's commit in the same way
  (`ProtocolSafety.DropsIff`, `ProtocolSafety.StopReturnsIff`, `ProtocolGaps.StopLosesPolledRequest`,
  `ProtocolGaps.AbandonedStays`).
- Accepted feedback. The gateway saves RUNNING right after publishing, and the worker drops feedback
  for RUNNING tasks: the round runs if and only if the handler reads the task before that save. A
  task whose feedback was dropped stays RUNNING until a scan for lost workers
  (`FeedbackRuns.SinglePostRunsIff`, `ProtocolGaps.AcceptedFeedbackCanVanish`,
  `ProtocolGaps.AbandonedStays`). If the round does run, a save that comes after its end overwrites
  the stored turn (`Worker.LateSaveErasesTurn`).
- A TimeoutError raised inside the pipeline is caught as the handler running over time, because since
  Python 3.11 both are one class. It ends in TIMEOUT and is not retried (`Worker.AttemptOutcome`).
- Idempotent submit. Three ways lead to an accepted id without its task, or to two tasks: the first
  request of a key fails its quota check after taking the key; the key expires between two SETNX
  steps; or it expires between a failed SETNX and the look-up after it, when the request is told its
  own id, under which nothing was created. Expiry of other keys plays no part. A key stands for the
  first 80 characters of the question only, so every question of 80 or more shares its key with
  others, and the later one is told the task of the earlier (`IdempotentSubmit.KeyNamesQuestionIff`,
  `IdempotentSubmit.LongQuestionsShareTask`; `IdempotentSubmit.AcceptedNamesTaskIff`,
  `IdempotentSubmit.BothCreateIff`, `IdempotentSubmit.AnotherIdIff`,
  `IdempotentSubmit.AcceptedWithoutTask`, `IdempotentSubmit.ExpiryAllowsTwo`,
  `IdempotentSubmit.ExpiryMakesStray`).
- Write-behind. The worker sets SUCCESS after its last event, so the row of a finished task stays
  RUNNING unless something else marks it, or an earlier mark is still to be recorded
  (`WriteBehind.UnmarkedWriteIff`, `WriteBehind.UnmarkedStaysUnrecorded`,
  `WriteBehind.LateSuccessStaysUnrecorded`).
- Result cache. Entries are stored under the question cut to 200 characters and looked up under the
  full one: longer questions never hit, and a question of exactly 200 characters can be answered with
  the result of a longer one (`WriteBehind.HitsAreCoherent`, `WriteBehind.LongQuestionsMiss`,
  `WriteBehind.PrefixAnswersAt200`).
- Voting. The result hash sorts rows by value, and Python does not compare numbers with text: a query
  that returns 1 and NULL in one column raises in the voter, outside any try, and ends the run
  without a vote however many retries are left. A run ends so if and only if in some round the voter
  raises and every round before it failed the guard or was rejected (`VoteHash.SortableIff`,
  `Voter.VoterNode`, `CorrectionGraph.CrashesIff`, `CorrectionGraph.NullColumnCrashes`). Rows that
  differ in the sign of a zero only make the hash depend on row order
  (`VoteHash.HashIgnoresOrderIff`).
- Result comparison sorts by printed cells and compares values. Rounding makes a negative zero of a
  small negative number, equal to zero and printed differently, so equal results can be a mismatch
  (`ResultCompare.SameRowsMatchIff`, `ResultCompare.NegativeZeroMismatch`). It depends on row order
  if and only if two different rows print alike (`ResultCompare.OrderIrrelevantIff`,
  `ResultCompare.OrderCanMatter`).
- The semantic cache misses nothing above its threshold if and only if the threshold is not negative
  (`SemanticCache.MissesNothingIff`).
- LangGraph stops a run after 25 nodes by default, and nothing sets another limit: up to two retries
  stay within it, three would not (`CorrectionGraph.StepLimitIff`). The callers ask for one or two.
- Guarding. The guard looks at the first candidate, and when it passes the voter executes all of
  them. Whatever the guard rejects, nothing unchecked is executed if and only if there is one
  candidate at most (`Generator.AllGuardedIff`, `Generator.GuardCoversIff`).
- Hard timeouts. A call that has started cannot be cancelled, so one that never returns holds its
  thread for good. Once as many calls hang as there are threads, no further sample ever runs, and
  every sample without a result ends as a hard-timeout crash (`ThreadPool.CanStartIff`,
  `ThreadPool.StarvedSamplesCrash`, `ThreadPool.OneHangingCallStarvesAll`).
- Stopping candidate generation early can lose a candidate, exactly when the unasked answer would
  have been new (`Generator.EarlyStopLosesIff`).
- The comment in the DDL builder speaks of source and target columns; the code looks at the source
  columns only, and so does the model.
- The transition table also allows FAILED and TIMEOUT back to PENDING, for retries. No caller asks
  for it, retries stay RUNNING, and `ProtocolSafety.StatusGraph` is proved without those edges.

## Model

| member | source | states |
|---|---|---|
| `Scheduler.RunBirdEval` | evaluation/run.py:624-796 | The run ends; every sample has exactly one result, after at most three attempts of which all but the last failed, within its time budget, for every mix of completions, exceptions and expiries and any pool of at least one worker. Each attempt on record is a call of its own, submitted for this very sample, and a value is what the last of them returned |
| `Scheduler.Step` | evaluation/run.py:647-785 | One iteration keeps the loop-head invariant: queue, pool and results hold each sample once; the pool is bounded; a non-empty queue means a full pool; the queue is a suffix of the input without a single retry; nobody pending is past its timeout. It only appends to the record of submissions. The clock moves by the time waited if a pending call is done and by 15 s if none is; it uses up attempts, or only the clock moves on |
| `Scheduler.Refill` | evaluation/run.py:630-635 | Filling free slots leaves no retry behind in the queue as long as no more were put back than slots freed |
| `Scheduler.SettleDone` | evaluation/run.py:661-675 | Completed futures are settled once each, in any order; every retry put at the front is paid for by a freed slot |
| `Scheduler.SettleExpired` | evaluation/run.py:727-746 | Expired futures are settled unless they were completed as well, which then counts once |
| `Scheduler.SettledConserves` | evaluation/run.py:665-671 | An ended attempt either records its sample or puts it back: no sample is lost or doubled |
| `Scheduler.SettledUsesAttempt` | evaluation/run.py:669-675 | Each ended attempt uses up one of the sample's three, the first component of the termination measure |
| `Scheduler.SettledGood` | evaluation/run.py:664-694 | The value recorded is that of the last attempt, a crash record follows three failed ones, all of them at this sample, and neither is later than the attempts' budget |
| `Scheduler.SubmittedConserves` | evaluation/run.py:630-635 | Starting a sample moves it from queue to pool |
| `Scheduler.SubmittedFrame` | evaluation/run.py:630-635 | The head of the queue, and nothing else, becomes the newest running call, and the call is on record under its sample; the calls running before stay what they are |
| `Scheduler.Expired` | evaluation/run.py:654-659 | Exactly the pending attempts running longer than their hard timeout 120, 300 or 480 s are listed |
| `Scheduler.NobodyLate` | evaluation/run.py:727-732 | After the expired ones are settled no pending attempt is past its timeout |
| `Scheduler.ScoresBelong` | evaluation/run.py:661-718 | If calls for a sample return nothing but its value, every value on record is the value of the sample it is recorded for |
| `Scheduler.ResultsInTime` | evaluation/run.py:620-659 | Every result is there within 945 = (120+15) + (300+15) + (480+15) s of its sample's first submission, by the record of submissions and of the clock: each attempt costs at most its timeout and one wait |
| `ThreadPool.CanStartIff` | evaluation/run.py:624-635 | A submitted call can still get a thread if and only if fewer calls hang than there are threads |
| `ThreadPool.NothingStarts` | evaluation/run.py:727-732 | With as many hanging calls as threads, whatever is submitted, cancelled or returned, no other call ever starts |
| `ThreadPool.StarvedSamplesCrash` | evaluation/run.py:727-785 | From then on every attempt ends by its hard timeout, and every sample without a result ends as a crash after three attempts |
| `ThreadPool.OneHangingCallStarvesAll` | evaluation/run.py:624-785 | With one worker and a first call that never returns, all samples end so, though only that call ever ran |
| `ProtocolInvariant.Reachable` | worker/main.py:281-527 | Every state of every run, with redelivery, crashes, shutdowns between records and expiry, satisfies the invariant below, from which the theorems follow |
| `ProtocolInvariant.ApplyKeeps` | worker/main.py:312-527 | Each atomic step of gateway, worker, consumer loop, orphaned thread, scanner and broker keeps that invariant |
| `ProtocolInvariant.AttemptPays` | worker/main.py:373-461 | Whatever a handler does, starting the pipeline or sending a successor, is paid from the runs it had left: the conservation law behind the bound of four |
| `ProtocolInvariant.AttemptHandsOver` | worker/main.py:404-461 | A handler stops answering for a task only by sending a successor request or by leaving the task ended |
| `ProtocolInvariant.EmittedByNext` | worker/main.py:281-366 | Handlers and threads only ever write terminal statuses by transition, reopen only what accepted feedback reopened, store well-numbered turns and send contiguous retries |
| `ProtocolSafety.NothingIsLost` | worker/main.py:373-527 | In every reachable state each issued task is gone, has ended, was taken up by accepted feedback, is in progress, or had a request dropped by the consumer loop; without redelivery it is in progress in one place at most |
| `ProtocolSafety.NothingIsLostUnless` | worker/main.py:494-527 | A task of which no request is dropped is not lost, in any run, whatever becomes of other messages |
| `ProtocolSafety.DropsIff` | worker/main.py:494-527 | A step drops this message if and only if a worker stops in a batch with a record committed and this one unfinished, an error escapes from the handler of this one in such a batch, or a first commit passes over this one, given up before |
| `ProtocolSafety.DroppedIff` | worker/main.py:494-527 | Over every run: a message counts as dropped if and only if one of its steps dropped it |
| `ProtocolSafety.StopReturnsIff` | worker/main.py:508-520 | When a worker stops, an unfinished record of its batch comes back if and only if no earlier record of the batch was committed |
| `ProtocolSafety.QuietMeansEnded` | worker/main.py:373-527 | When all messages are consumed, no worker has anything left and all handlers are done, every task has ended unless a request of it was dropped |
| `ProtocolSafety.AttemptsAreBounded` | worker/main.py:36-461 | At most MAX_RETRIES+1 = 4 pipeline runs and one dead letter per submission, and as much again per repeated delivery |
| `ProtocolSafety.DeadLetterIsLast` | worker/main.py:440-461 | A dead letter comes only from `_retry_count` 3, for an ended task, after requests 0 to 3 were all sent |
| `ProtocolSafety.FeedbackIsNumbered` | gateway-java/src/main/java/com/nl2sql/gateway/task/TaskController.java:228-245 | Stored turns are numbered 1..k with k at most 10, and every message in flight carries turns 1..j with j at most 9 and asks for turn j+1, in every interleaving |
| `ProtocolSafety.StatusGraph` | infrastructure/task_store.py:86-134 | A step of a run keeps every task on the allowed graph plus reopening by feedback, and creates only fresh ids, if and only if it is no gateway save of a stale snapshot |
| `ProtocolSafety.ApplyObeysIff` | gateway-java/src/main/java/com/nl2sql/gateway/task/TaskStoreService.java:142-178 | The same for one step from any invariant state: the condition is the status, or absence, of the task at the moment of the save |
| `ProtocolSafety.FinalMovesIff` | infrastructure/task_store.py:108-120 | From every state the invariant allows, a step moves a CANCELLED, TIMEOUT or expired task if and only if it is a stale gateway save of this task or its expiry |
| `ProtocolSafety.CancelledAndTimeoutAreFinal` | infrastructure/task_store.py:108-120 | While no stale save of this task lands, it keeps CANCELLED or TIMEOUT until it expires and never comes back, orphaned threads and saves of other tasks included |
| `ProtocolGaps.RacingFeedbackRevivesTimeout` | gateway-java/src/main/java/com/nl2sql/gateway/task/TaskController.java:221-250 | With two racing feedback calls TIMEOUT is not final: the second save brings the task back to RUNNING |
| `GatewayReads.FeedbackCarriesHistory` | gateway-java/src/main/java/com/nl2sql/gateway/task/TaskController.java:221-245 | In every run a feedback message carries the turns its task had when the call read it, after SUCCESS or FAILED, and asks for the next one |
| `GatewayReads.PostWasReadAt` | gateway-java/src/main/java/com/nl2sql/gateway/task/TaskController.java:221-250 | In every run what a feedback call saves is a state of the task it read |
| `GatewayReads.ScanWasReadAt` | gateway-java/src/main/java/com/nl2sql/gateway/task/TaskStoreService.java:142-178 | In every run what a scan times out was RUNNING when the scan read it |
| `ProtocolGaps.AbandonedStays` | worker/main.py:318-322 | A PENDING or RUNNING task that no message, worker, handler or call is concerned with stays so through cancels, new feedback and everything but expiry, redelivery and, if it is RUNNING, a scan for lost workers |
| `ProtocolGaps.AcceptedFeedbackCanVanish` | gateway-java/src/main/java/com/nl2sql/gateway/task/TaskController.java:245-250 | Such a state is reachable: the save that follows publishing makes the worker drop the accepted feedback as a duplicate |
| `ProtocolGaps.StopLosesPolledRequest` | worker/main.py:508-520 | So is one with a PENDING task: two requests in one poll, a stop after the first one's commit, and the second is gone |
| `FeedbackRuns.FeedbackRunsIff` | worker/main.py:312-324 | In every run, a feedback handler that is through without being cut short has launched the pipeline if and only if the task was not RUNNING when it looked |
| `FeedbackRuns.SinglePostRunsIff` | gateway-java/src/main/java/com/nl2sql/gateway/task/TaskController.java:245-250 | For a single post on an ended task, its round runs if and only if its handler looks before the gateway saves RUNNING |
| `GatewayReads.SqlChangesOnlyBy` | worker/main.py:104-119 | A task's SQL is changed by nothing but a node or return of a pipeline of this very task, or a gateway save that puts back what it read |
| `GatewayReads.BroughtIsStored` | worker/main.py:104-119 | And what such a pipeline, or a cache answer, brings is what is stored |
| `Worker.Worker.HandleTask` | worker/main.py:373-464 | `handle_task` run without interference does exactly what the protocol's handler does: its whole effect on store and topics |
| `Worker.Worker.HandleFeedback` | worker/main.py:312-368 | `handle_feedback` likewise |
| `Worker.Worker.RunGraph` | worker/main.py:83-139 | What the pipeline thread writes before it ends: cancellation with the flag cleared, the result, or the round with its numbered turn |
| `Worker.AttemptOutcome` | worker/main.py:373-461 | The outcome table of one request, the whole state: final status, the SQL the pipeline returned and the old one if it returned none, retry count, exactly one successor with retry+1 if and only if the task goes on, a dead letter if and only if it failed for good, the cancel flags; ended tasks keep their status, all else is untouched |
| `Worker.ReturnedAttempt` | worker/main.py:116-137 | For an open task: a pipeline that returns leaves it SUCCESS with the SQL returned |
| `Worker.RaisedAttempt` | worker/main.py:434-461 | One that raises leaves it RUNNING with the next request out, the fourth time FAILED with a dead letter; the SQL stays |
| `Worker.LateAttempt` | worker/main.py:417-426 | One over time leaves it TIMEOUT, without successor |
| `Worker.CancelledAttempt` | worker/main.py:417-441 | One cancelled meanwhile, unless it returns, leaves it CANCELLED and the flag down |
| `Worker.RoundOutcome` | worker/main.py:312-366 | The outcome table of one feedback message, the whole state: dropped if RUNNING; else the status, the SQL returned, and a stored turn numbered one more, even for a task that ended by TIMEOUT or CANCELLED; without a return SQL and turns stay |
| `Worker.RoundCases` | worker/main.py:312-366 | Ending by ending, for a task that had succeeded or failed |
| `Worker.LateSaveErasesTurn` | gateway-java/src/main/java/com/nl2sql/gateway/task/TaskController.java:245-250 | If the gateway's save comes after the round, it puts the older snapshot back: RUNNING, and without the turn the round stored |
| `Worker.HandledIsRun` | worker/main.py:373-464 | Handling one message without interference is itself a run of the protocol |
| `Worker.DriveIsRun` | worker/main.py:373-464 | Driving one handler is a run of its steps, whatever else is in the system |
| `TaskStore.Store.ScanStaleTasks` | infrastructure/task_store.py:197-257 | Exactly the RUNNING tasks whose heartbeat is missing, unreadable or over 60 s old are timed out and reported, each once, though the cursor may repeat keys; all else stays |
| `TaskStore.Store.TaskTransition` | infrastructure/task_store.py:97-105 | Allowed transitions are applied, others and missing tasks left as they are |
| `TaskStore.Store.TaskUpdate` | infrastructure/task_store.py:86-94 | The given fields are merged into one existing task, its status and all other tasks kept |
| `IdempotentSubmit.TakesIff` | gateway-java/src/main/java/com/nl2sql/gateway/task/TaskStoreService.java:86-98 | In every run a SETNX takes its key if and only if every earlier taking of that key has expired |
| `IdempotentSubmit.BothCreateIff` | gateway-java/src/main/java/com/nl2sql/gateway/task/TaskController.java:80-107 | In every run two requests of one key both create a task only if that key expires between their SETNX steps, and once done exactly then, their quota allowing |
| `IdempotentSubmit.AcceptedNamesTaskIff` | gateway-java/src/main/java/com/nl2sql/gateway/task/TaskController.java:81-107 | In every run an accepted id is that of a request of the same key; once that one is done, a task exists under it if and only if its quota check passed and the response is no stray: the key did not run out between failed SETNX and look-up |
| `IdempotentSubmit.AnotherIdIff` | gateway-java/src/main/java/com/nl2sql/gateway/task/TaskController.java:86-92 | An accepted response carries another id than that of a request that took the key if and only if it is such a stray, or names one that took it with an expiry in between |
| `IdempotentSubmit.OneTaskPerKey` | gateway-java/src/main/java/com/nl2sql/gateway/task/TaskController.java:80-107 | A key that does not expire, whatever other keys do: its accepted responses carry one id, and at most one of its requests creates a task |
| `IdempotentSubmit.KeylessNamesItsTask` | gateway-java/src/main/java/com/nl2sql/gateway/task/TaskController.java:80-107 | Without a key an accepted request is told its own id, and its task exists |
| `IdempotentSubmit.PublishedIsCreated` | gateway-java/src/main/java/com/nl2sql/gateway/task/TaskController.java:95-107 | Nothing is published without its task state |
| `IdempotentSubmit.PublishedIff` | gateway-java/src/main/java/com/nl2sql/gateway/task/TaskController.java:95-107 | At every step of every run a request answered from the result cache is not published; once a request is done, it is published if and only if its task exists and it was not |
| `IdempotentSubmit.KeySharedIff` | gateway-java/src/main/java/com/nl2sql/gateway/task/TaskIdempotency.java:13-28 | Two submissions share a key if and only if client key and first 80 characters of the question agree |
| `IdempotentSubmit.KeyNamesQuestionIff` | gateway-java/src/main/java/com/nl2sql/gateway/task/TaskIdempotency.java:13-28 | A key stands for one question only if and only if the question has fewer than 80 characters |
| `IdempotentSubmit.LongQuestionsShareTask` | gateway-java/src/main/java/com/nl2sql/gateway/task/TaskController.java:81-92 | In every run without expiry of the key, the other of two such questions is told the first one's task and gets none of its own |
| `IdempotentSubmit.SecondIsToldFirst` | gateway-java/src/main/java/com/nl2sql/gateway/task/TaskController.java:81-92 | A run in which that happens, for every key |
| `IdempotentSubmit.AcceptedWithoutTask` | gateway-java/src/main/java/com/nl2sql/gateway/task/TaskController.java:82-96 | A run in which a response is accepted under an id that never gets a task, for want of quota |
| `IdempotentSubmit.ExpiryAllowsTwo` | gateway-java/src/main/java/com/nl2sql/gateway/task/TaskStoreService.java:86-98 | A run in which the key expires and two tasks are created for it |
| `IdempotentSubmit.ExpiryMakesStray` | gateway-java/src/main/java/com/nl2sql/gateway/task/TaskController.java:88-92 | A run in which it expires before the look-up: the second request is told its own id next to the first one's task |
| `RateLimiter.ScriptRefines` | gateway-java/src/main/java/com/nl2sql/gateway/ratelimit/RateLimiterService.java:22-28 | The script's decision equals counting the full admission log in (now-1000, now]; neither purge nor whole-key expiry ever changes it |
| `RateLimiter.WindowBound` | gateway-java/src/main/java/com/nl2sql/gateway/ratelimit/RateLimiterService.java:22-28 | No interval (a, a+1000] ever holds more than the limit, for every non-decreasing sequence of requests |
| `RateLimiter.RefusedOnlyWhenFull` | gateway-java/src/main/java/com/nl2sql/gateway/ratelimit/RateLimiterService.java:23-28 | A request is refused if and only if its window already holds the limit |
| `RateLimiter.ScriptRunIsReference` | gateway-java/src/main/java/com/nl2sql/gateway/ratelimit/RateLimiterService.java:16-29 | Over a whole run of the script from an empty key: request by request the reference decision, and the window bound |
| `RateLimiter.Limiter.Check` | gateway-java/src/main/java/com/nl2sql/gateway/ratelimit/RateLimiterService.java:51-65 | Admits exactly as the reference on the log, logs what it admits, and is open when Redis is down |
| `RateLimiter.LiveSetSize` | gateway-java/src/main/java/com/nl2sql/gateway/ratelimit/RateLimiterService.java:22-23 | ZCARD after the purge is the number of logged admissions in the window |
| `Recorder.TaskEventRecorder.MarkDirty` | gateway-java/src/main/java/com/nl2sql/gateway/recorder/TaskEventRecorder.java:58-69 | The mark is added; the set never exceeds MAX_PENDING after a mark, at the price of exactly one mark, possibly the new one |
| `Recorder.TaskEventRecorder.DrainBatch` | gateway-java/src/main/java/com/nl2sql/gateway/recorder/TaskEventRecorder.java:92-103 | Partitions the dirty set: up to 500 ids, each once, leave it |
| `Recorder.TaskEventRecorder.Record` | gateway-java/src/main/java/com/nl2sql/gateway/recorder/TaskEventRecorder.java:110-153 | Column by column the row says what the store snapshot says: a row count only with a result, a finish time only with a final status; the columns of the first insert come from the snapshot too and later upserts leave them. A result is cached if and only if it is a SUCCESS with SQL that is not blank. A missing task or a failing upsert leaves rows and cache alone |
| `Recorder.TaskEventRecorder.Flush` | gateway-java/src/main/java/com/nl2sql/gateway/recorder/TaskEventRecorder.java:71-90 | Every id taken out ends with a row that says so, unless its task is gone or its upsert fails; first-insert columns of old rows stay; no other row changes |
| `Recorder.ReportsIff` | gateway-java/src/main/java/com/nl2sql/gateway/recorder/TaskEventRecorder.java:116-145 | The columns a row must show determine the overwritten part of it |
| `WriteBehind.RowsAgreeOrAreAccountedFor` | gateway-java/src/main/java/com/nl2sql/gateway/recorder/TaskEventRecorder.java:58-145 | In every reachable state each row matches the store on the upserted columns, or will from the snapshot the recorder has read, or the id is dirty, drained, still to be marked, or was dropped since it was last read; the dirty set stays bounded |
| `WriteBehind.AgreesIff` | gateway-java/src/main/java/com/nl2sql/gateway/recorder/TaskEventRecorder.java:116-145 | A row matches the store if and only if it says, column by column, what the store says |
| `WriteBehind.StateComesFrom` | gateway-java/src/main/java/com/nl2sql/gateway/task/TaskStoreService.java:39-75 | In every run a task's state goes back to the step that created it, for question, database, submission time and cache flag, and to the last step that wrote it, or that creation, for the rest |
| `WriteBehind.QuietMeansEqual` | gateway-java/src/main/java/com/nl2sql/gateway/recorder/TaskEventRecorder.java:71-145 | Once a task is marked and flushed and nothing was dropped, its row says what the store says |
| `WriteBehind.ComesOutRightIff` | gateway-java/src/main/java/com/nl2sql/gateway/recorder/TaskEventRecorder.java:71-145 | Over a run that leaves a task alone, drops nothing of it and ends drained, its row comes out right if and only if the id was dirty or drained, or the snapshot at hand was current, or with none at hand the row was right already |
| `WriteBehind.UnmarkedWriteIff` | gateway-java/src/main/java/com/nl2sql/gateway/recorder/TaskEventRecorder.java:44-69 | So a write that nothing marks is recorded if and only if an earlier mark was still to be recorded, or it changed no recorded column |
| `WriteBehind.UnmarkedStaysUnrecorded` | gateway-java/src/main/java/com/nl2sql/gateway/recorder/TaskEventRecorder.java:44-69 | With nothing under way, a write that no mark follows is never recorded, however long the recorder runs |
| `WriteBehind.LateSuccessStaysUnrecorded` | worker/main.py:128-137 | The result event precedes the SUCCESS transition, which has no event of its own: the row of a finished task stays RUNNING |
| `WriteBehind.HitsAreCoherent` | gateway-java/src/main/java/com/nl2sql/gateway/cache/ResultCacheService.java:34-71 | For questions of any length but 200, a cache hit is a result a worker computed for exactly that question and database, through any number of cache-created tasks |
| `WriteBehind.LongQuestionsMiss` | gateway-java/src/main/java/com/nl2sql/gateway/task/TaskStoreService.java:39-51 | Questions over 200 characters are never answered from the cache |
| `WriteBehind.PrefixAnswersAt200` | gateway-java/src/main/java/com/nl2sql/gateway/recorder/TaskEventRecorder.java:147-153 | At exactly 200 characters coherence fails: the entry of a longer question is the answer |
| `WriteBehind.ReachableTraces` | gateway-java/src/main/java/com/nl2sql/gateway/recorder/TaskEventRecorder.java:147-153 | Every cacheable state and cache entry of every run goes back to a computed result for its truncated question and database |
| `WriteBehind.KeyDetermines` | gateway-java/src/main/java/com/nl2sql/gateway/cache/ResultCacheService.java:34-46 | The key determines question and database when the digest is injective and database ids hold no separator |
| `CorrectionGraph.LoopsAreBounded` | agent/graphs/full_graph.py:39-117 | Generator runs at most max_retries+1 and max_retries times, node visits at most 4+6(max_retries+1) and 6·max_retries+2, for every sequence of verdicts |
| `CorrectionGraph.BoundsAreReached` | agent/graphs/feedback_graph.py:55-97 | Both bounds are exact for both graphs |
| `CorrectionGraph.StepLimitIff` | agent/graphs/full_graph.py:103-119 | With m retries every run of the full graph stays within 25 nodes, LangGraph's default limit, if and only if m <= 2; of the feedback graph, if and only if m <= 3. Requests that reach the bounds exist for every m |
| `CorrectionGraph.EndMeans` | agent/graphs/full_graph.py:31-58 | A run ends in one of three ways: a semantic pass of its last round, retry_count = max_retries+1, or its last round's voter raising |
| `CorrectionGraph.CrashesIff` | agent/graphs/full_graph.py:24-58 | Told by what the rounds bring: a run of the full graph crashes if and only if in some round k <= max_retries the voter raises and every round before fails the guard or is rejected; of the feedback graph likewise from round 1 |
| `CorrectionGraph.EndsIff` | agent/graphs/full_graph.py:24-58 | The same for all three endings of both graphs, with the round: crash in round k, pass in round k, retries used up |
| `CorrectionGraph.PassesInIff` | agent/nodes/semantic_check.py:148-262 | A round that gets to the semantic check passes if and only if the model says YES or gives no verdict: empty SQL or question, a model error, or an SQL the last two verdicts of this run rejected |
| `CorrectionGraph.EndsWithYes` | agent/nodes/semantic_check.py:148-262 | So a run that ends before its retries are used up, and does not crash, had YES in its last round or no verdict there |
| `CorrectionGraph.RoundIsTrace` | agent/graphs/full_graph.py:93-117 | The nodes of a round, in order: generator, guard, voter if the guard passed, check if the voter did, and refiner and counter if it goes on |
| `CorrectionGraph.FullBeginsWith` | agent/graphs/full_graph.py:79-93 | The nodes before the first round, with the decomposer if it is asked for |
| `CorrectionGraph.NullColumnCrashes` | agent/nodes/voter.py:14-25 | Executed rows with 1 and NULL in one column end the run in its first round, whatever the retries |
| `CorrectionGraph.VoterNeverRefines` | agent/graphs/full_graph.py:31-36 | The edge from voter to refiner never fires |
| `CorrectionGraph.VoterAlwaysSucceeds` | agent/nodes/voter.py:107-229 | Because every branch of the voter that returns reports success |
| `CorrectionGraph.StuckGeneratorPasses` | agent/nodes/semantic_check.py:160-175 | A generator that repeats one SQL is let through by the escape hatch at its third run at the latest |
| `SemanticCheck.CounterCountsRejections` | agent/nodes/semantic_check.py:263-274 | The counter is the number of trailing consecutive rejections of the last rejected SQL, never above 2, and no SQL is rejected three times in a row, over runs of any length |
| `SemanticCheck.EscapesIffTwiceRejected` | agent/nodes/semantic_check.py:160-175 | The hatch opens if and only if the last two verdicts were rejections of this very SQL |
| `SemanticCheck.VerdictIs` | agent/nodes/semantic_check.py:148-274 | A call adds a verdict to the log, a pass for YES and a rejection for anything else, unless SQL or question is empty, the hatch is open or the model fails |
| `SemanticCheck.PassesIff` | agent/nodes/semantic_check.py:148-274 | A call passes if and only if the answer is YES or there is no verdict; with one, if and only if it is a pass |
| `Generator.GenerateMulti` | agent/nodes/generator.py:183-226 | The candidates are the distinct answers of the temperatures asked, in order; a failing first answer is an error |
| `Generator.CandidatesAreDistinct` | agent/nodes/generator.py:214-222 | Candidates are non-empty and pairwise different in normal form, and every answer is represented |
| `Generator.CandidatesInOrder` | agent/nodes/generator.py:186-222 | They are the first answers of their normal forms, in the order asked |
| `Generator.StopsEarlyIff` | agent/nodes/generator.py:224-226 | The third temperature is skipped if and only if the first two answered alike |
| `Generator.AllGuardedIff` | agent/nodes/guard.py:29-65 | Every executed SQL has passed the guard if and only if the first candidate fails it or all candidates pass |
| `Generator.GuardCoversIff` | agent/nodes/voter.py:97-135 | For every guard at once: if and only if there is at most one candidate |
| `Generator.VoterInputDistinct` | agent/nodes/voter.py:97-98 | What the voter receives is non-empty and pairwise different |
| `Cells.CellsAgreeIff` | agent/nodes/voter.py:15-24 | Two cells normalize alike if and only if they are one, are numbers that round alike, or are NULL and the text that stands for it |
| `VoteHash.ClashIff` | agent/nodes/voter.py:10-25 | Two normalized rows cannot be compared if and only if they first differ at a position with a number in one and text or NULL in the other |
| `VoteHash.SortableIff` | agent/nodes/voter.py:25-25 | Whatever the sorting algorithm, it can end in an order if and only if no two rows clash |
| `VoteHash.Normalize` | agent/nodes/voter.py:10-25 | Raises if and only if two of the rounded rows clash; else the rounded rows sorted by value |
| `VoteHash.HashesAgreeIff` | agent/nodes/voter.py:10-25 | Equal hashes mean equal multisets of rounded rows, and, where no two rows differ in the sign of a zero only, nothing more |
| `VoteHash.HashIgnoresOrderIff` | agent/nodes/voter.py:10-25 | The hash of a result is the same for every order of its rows if and only if no two of its rows differ in the sign of a zero only |
| `Voter.VoterNode` | agent/nodes/voter.py:119-229 | In whatever order the pool completes, the outcome is the one the candidates determine; it raises if and only if some executed candidate's rows cannot be sorted |
| `Voter.MajorityIsConfirmed` | agent/nodes/voter.py:185-202 | A majority's candidate shares its multiset of rounded rows with another one |
| `Voter.VoteIsUnique` | agent/nodes/voter.py:119-229 | That outcome, vote or error, is unique, so completion order plays no part |
| `Voter.MostCommonIsMajority` | agent/nodes/voter.py:185-202 | The head of most_common and its first holder are the earliest candidate of the maximal-count hash, ties to the hash seen first |
| `Voter.MajorityIsEarliest` | agent/nodes/voter.py:185-202 | Told by the candidates: no executed candidate's result was given more often, and none as often by an earlier one |
| `Voter.SuccessfulInOrder` | agent/nodes/voter.py:155-155 | The executed candidates in candidate order, each once, none left out |
| `Voter.TieFollowsModel` | agent/nodes/voter.py:203-219 | Without a majority the executed candidate the model names wins, the first if it names none |
| `Voter.FallbackFollowsModel` | agent/nodes/voter.py:157-170 | With no executed candidate the model chooses among all |
| `Voter.MajorityIsUnique` | agent/nodes/voter.py:189-202 | There is one such candidate |
| `Voter.VoteIsSound` | agent/nodes/voter.py:155-229 | The chosen SQL is a candidate, data that comes with it is its own, and there is none if and only if no candidate executed |
| `Voter.SortRestoresOrder` | agent/nodes/voter.py:153-153 | Sorting by index brings any completion order back to candidate order |
| `Voter.MostCommon` | agent/nodes/voter.py:185-190 | The loop over hashes finds the majority's hash |
| `Voter.LlmVote` | agent/nodes/voter.py:67-90 | The model's choice is always one of the candidates, the first if its index is none |
| `SemanticCache.CauchySchwarz` | storage/redis_cache.py:104-106 | dot(a,b)² is at most |a|²·|b|² over the zipped prefix, for vectors of any two lengths |
| `SemanticCache.DotIsSum` | storage/redis_cache.py:104-104 | The product sums over each shared coordinate |
| `SemanticCache.CosineIs` | storage/redis_cache.py:101-109 | Similarity times both lengths is the product, and 0 for an empty or zero vector |
| `SemanticCache.CosineBounded` | storage/redis_cache.py:101-109 | Similarity lies in [-1, 1] and is symmetric |
| `SemanticCache.CosineSelf` | storage/redis_cache.py:101-109 | A non-zero vector has similarity 1 to itself, a zero one 0 |
| `SemanticCache.FindBest` | storage/redis_cache.py:137-156 | An entry of maximal similarity among those above threshold and above zero, or none if there is none; exactly the stale ids are removed |
| `SemanticCache.NothingMissed` | storage/redis_cache.py:154-162 | With a threshold of at least zero there is a hit if and only if some entry exceeds it |
| `SemanticCache.OrderIrrelevant` | storage/redis_cache.py:128-156 | Whether there is a hit and how similar it is does not depend on the order of the key set |
| `SemanticCache.MissesNothingIff` | storage/redis_cache.py:137-156 | No scan misses an entry above its threshold if and only if the threshold is not negative |
| `RankFusion.DedupTop` | retrieval/hybrid_search.py:88-107 | The first occurrence of each of the first k different keys (one even for k = 0), so without duplicates |
| `RankFusion.RrfMerge` | retrieval/hybrid_search.py:110-128 | The first items of the merged keys, in their order |
| `RankFusion.MergeRanks` | retrieval/hybrid_search.py:117-128 | Every key of the union exactly once, in non-increasing score order, ties by first appearance |
| `RankFusion.ScoreIsSum` | retrieval/hybrid_search.py:120-125 | A key's score is the sum of 1/(61 + rank) over the lists that hold it |
| `RankFusion.AheadEverywhereComesFirst` | retrieval/hybrid_search.py:120-128 | An item strictly ahead of another in every list where the other appears comes out ahead |
| `RankFusion.KeysAgree` | retrieval/hybrid_search.py:113-115 | Without colons in database and table names the two dedup keys agree |
| `RankFusion.HybridRetrieve` | retrieval/hybrid_search.py:131-152 | One ranking alone is cut to k; two are fused and cut to k |
| `ResultCompare.NormalizeRows` | evaluation/metrics.py:17-33 | The loops compute the rounded rows sorted by the strings of their cells |
| `ResultCompare.NormalFormIs` | evaluation/metrics.py:20-33 | The rounded rows, each as often as before, in the order of what their cells print, alike ones in the order they had |
| `ResultCompare.MatchesAreSameRows` | evaluation/metrics.py:96-98 | Results that match hold the same rounded rows equally often |
| `ResultCompare.SameRowsMatchIff` | evaluation/metrics.py:17-98 | A result matches every result with the same rows if and only if, whatever the signs of their zeros, its different rows sort the same way round and never as equals |
| `ResultCompare.MatchIffSameRows` | evaluation/metrics.py:96-98 | Under that condition, matching is equality of row multisets |
| `ResultCompare.SignSafeWithoutZeros` | evaluation/metrics.py:32-33 | Without zeros the condition is that different rows have different sort keys |
| `ResultCompare.NegativeZeroMismatch` | evaluation/metrics.py:17-98 | A tiny negative number and zero, each next to -0.5: equal rows, keys that tell them apart, and a mismatch |
| `ResultCompare.OrderIrrelevantIff` | evaluation/metrics.py:32-33 | A result matches each of its permutations if and only if no two rows of different values share a sort key |
| `ResultCompare.InjectiveCellsTellApart` | evaluation/metrics.py:32-33 | They share none when string forms are injective on the values present |
| `ResultCompare.OrderCanMatter` | evaluation/metrics.py:25-33 | The float 1.0 and the text 1.0: a pair of results that match or not depending on row order |
| `ColumnPrune.PruneColumns` | retrieval/column_prune.py:54-85 | Each requested table gets the selected columns, an unknown one none |
| `ColumnPrune.PruneTable` | retrieval/column_prune.py:59-83 | The loop for one table computes them |
| `ColumnPrune.KeptShape` | retrieval/column_prune.py:65-83 | For a large table: no duplicates, all primary and foreign key columns, max(|mandatory|, min(max_cols, |cols|)) columns |
| `ColumnPrune.SmallKeepsAll` | retrieval/column_prune.py:65-68 | A small table keeps all its columns, in order |
| `ColumnPrune.KeptOrder` | retrieval/column_prune.py:70-83 | Key columns first, by name, then the others by score, equal scores in table order |
| `ColumnPrune.KeptAreBest` | retrieval/column_prune.py:70-83 | No dropped column outscores a kept optional one; at equal scores the kept one comes earlier in the table |
| `ColumnPrune.PrunedDdlKeepsForeignKeys` | retrieval/column_prune.py:117-127 | After pruning, every foreign key still has its source columns |
| `ColumnPrune.CompactDdl` | retrieval/column_prune.py:97-133 | So the DDL of a request declares for each known table its kept columns and every foreign key, in order |
| `ColumnPrune.CompactTable` | retrieval/column_prune.py:107-127 | The members of one declaration: kept columns, then the foreign keys whose columns are kept |

## Left out

- Redis read-modify-write: one call of a store function of the Python side is one atomic step, so updates lost between its read and its write are not modelled; on the gateway side read and save are separate steps.
- Redis and Kafka faults: publishing is reliable and in no particular order, and the no-op mode without Redis is not modelled. A commit without offsets is taken to carry the consumer's position after its last poll, as kafka-python does it; the client itself is not part of this model, and neither are rebalances.
- Liveness: that a handler, a thread or a scan takes its next step is not proved; `QuietMeansEnded` says what holds once none is left to take. Timeouts and heartbeats of the task protocol are arbitrary: any RUNNING task may be found stale, any waiting handler may give up.
- Freshness: task ids and rate-limit members are taken to be fresh, Redis and gateway to share one clock, and the clock of the limiter not to run backwards.
- Worker.Worker.HandleTask: the handlers in imperative form run without interference but for the cancel flag; interleavings, orphaned threads and crashes are in the state machine only. Errors of store calls inside a handler's inner try, and malformed messages, are not modelled. Status and result events are published without effect on the modelled state and are left out there.
- TaskProtocol: of a task's fields status, sql, retry count and turn numbers are kept; progress, node, error, timings and token usage are not. Owner and idempotency keys are in other modules or left out.
- Scheduler.RunBirdEval: processing between two waits takes no time, and a wait that nothing ends lasts 15 s; keyboard interrupts, statistics, reports, checkpoints and the evaluation of a sample itself are not modelled.
- ThreadPool.StarvedSamplesCrash: takes as given that the loop is told only of calls that ran in the pool and returned; the two machines run side by side, not as one.
- IdempotentSubmit.KeySharedIff: assumes an injective digest and client keys without a colon; lengths are counted in characters, not UTF-16 units.
- RateLimiter.Limiter.Check: one fixed limit per key; how keys and limits are chosen is not modelled.
- Recorder.TaskEventRecorder.Record: blank SQL is told by ASCII white space; other Unicode spaces count as text.
- Recorder.TaskEventRecorder.Flush: the two-second budget is a number of batches; timings, token usage and latency columns are not kept. Which mark an overflow drops is arbitrary.
- WriteBehind.RowsAgreeOrAreAccountedFor: one recorder, which reads and upserts one task at a time; several gateway instances flushing the same table are not modelled.
- WriteBehind.HitsAreCoherent: assumes an injective digest and database ids without a vertical bar; lengths are counted in characters, not UTF-16 units. Cache lifetimes and their jitter are arbitrary expiry steps.
- CorrectionGraph: refiner text, schema retrieval, routing keywords and few-shot selection are not modelled; guard and model verdicts are arbitrary per round. A generator that raises ends the run and is not a round. LangGraph's step limit is a bound stated beside the runs, not a step of them.
- Generator.GenerateMulti: the single-candidate first pass, prompts, streaming and SQL extraction are left out; normalization is an arbitrary function.
- Voter.VoterNode: execution results are a function of the SQL; the printed hash is represented by the sorted rows it prints, and NaN, infinities and integers too large for a float are not modelled.
- SemanticCache.CauchySchwarz: over the reals, with an exact square root; rounding of floats and NaN are not modelled. Embeddings are given.
- RankFusion.MergeRanks: scores are reals; tokenization and BM25 scoring are left out, their ranked lists are given.
- ResultCompare.NormalizeRows: rounding and float formatting are arbitrary functions; NaN and infinities are not modelled, nor the SQL execution and timeouts around the comparison.
- ColumnPrune.KeptShape: keyword scores and case folding are arbitrary functions; column names are distinct and key columns are columns of the table, as database reflection gives them. A lookup of a column the table lacks is an error in the source and excluded here.
- Identity, roles, quota counting, database whitelist, circuit breaker, streaming, health checks, tracing and user interfaces: plumbing or easy members.
- The Python gateway routes and the evaluation task manager: they repeat what is modelled from the Java gateway and the scheduler.
