# A verified model of the job platform

The platform takes jobs over HTTP, keeps each job as a MongoDB document, keeps pointers to the
documents in two Redis sorted sets (the main queue and the delayed set), and runs the jobs in worker
processes. Nothing but three atomic operations holds this together: the pop of the main set, the
removal of a member from a set, and a document write that lands only while an expected owner still
holds the lock. This project models that protocol with all its races, the two things built beside it
(the fallback chain over AI models and the fixed-window rate limiter), and proves what they guarantee.

## How it is laid out

**The data** is in `Jobs.dfy` (documents, histories, decisions, what each write changes) and
`Queue.dfy` (sorted sets, scores as JavaScript numbers).

**The protocol** is a transition system, `Protocol.dfy`. A step is one awaited operation of one
activity; an activity is one submit or cancel request, one pass of a worker lane over one job, one
promotion pass or one recovery pass. Each has its position and its local variables, stale snapshots
included. `Do` takes one step and `Run` takes a sequence of them; a step that is not possible changes
nothing, so a statement about `Run(Init, steps)` for all `steps` is one about every reachable state.
A mongoose `save()` writes exactly the fields whose value differs from the loaded one, and appends.

**The code** is in `Worker.dfy` and `Controller.dfy`: the worker process and the API handlers written
as methods that update the shared stores of `Cluster.dfy`, with loops where the source has loops. At
every `await` the other activities take any number of arbitrary steps. Each method proves that the
stores stay where the transition system takes the trace of everything that has happened, that its
own activity took only its own steps and was not cut short, where it ends, and, field by field, what
its writes leave in a document; so the results about all runs are results about this code under every
schedule. What a write should leave is stated apart from the code, in `Records.dfy`; `Endings.dfy`
proves of the transition system that it leaves just that.

**Two levels of assumptions.**
- *Level one*: any interleaving, any cancel, and any activity may vanish at any moment (`Abort`,
  `Crash`). Everything in `Tokens`, `Safety`, `Cancellation`, `Outcomes`, `Endings`, `Snapshots`,
  `Reclaim`, `Finality`, `Scenarios`, `MainQueue`, `Promotion` and `Backoff` holds there, and so does
  `Fence` but for its link to level two.
- *Level two* (`TimedRun`): all share one clock; a lane dies only with its process, whose id is not
  used again; from the computation of its lock to its finalizing write a live lane takes at most its
  `timeoutMs` plus 5000 ms. `Timing`, `Termination`, `Spacing` and `AiCalls` are about these runs.
- `LosslessRun` excludes the two things that really lose a job: a crash (or failure) of an activity
  while the only pointer is in its memory, and immediate cancels. A crash of a lane that holds only a
  database lock is allowed. `Lifecycle` and `Completion` are about these runs.

**The pieces beside it**: `PriorityQueue.dfy` (the order of scores), `Llm.dfy`, `AiCalls.dfy`,
`RateLimiter.dfy`.

## Where the code falls short of its comments

Each promise of a comment that the code breaks comes with the exact condition under which it holds. The
ones about runs are broken by a run from the empty system, named with them; the others by a number or a
reply, or by the text alone.
- "No race to worry about" in `cancelJob` does not hold: its two ZREM replies are unread. A cancel
  whose ZREMs miss can be overwritten by the lane that popped the job
  (`Scenarios.CancelIsOverwritten`). A CANCELLED job stays so in every continuation exactly when its
  pointer is nowhere, or only in a document lock that no activity's fence matches any more
  (`Finality.CancelIsFinalExactly`). The first case is what a ZREM that removes the job brings about;
  the second leaves the job CANCELLED and locked for ever, because the recovery scan asks for
  PROCESSING (`Scenarios.LockIsStuck`, `Finality.LockStaysExactly`). `removeJobFromQueue` says its
  caller uses the reply; it does not, and the model follows the code.
- "Terminal states can't be cancelled": a cancel that read QUEUED or RETRYING overwrites a COMPLETED
  written meanwhile (`Scenarios.ResultIsOverwritten`). A COMPLETED or DEAD_LETTER job keeps its status
  exactly when no such cancel is under way (`Finality.FinishedStaysExactly`).
- "Exactly maxAttempts tries" needs an assumption: the fence is a process id, so at level one a late
  recovery write can land on a newer claim of the same process. The limit holds in every run for jobs
  with a maxAttempts of at most 1, and is broken in some run for every greater one
  (`Fence.LimitHoldsExactly`). It also holds in every run in which each landed failure is about the
  claim it lands on (`Fence.FencedClaimsBounded`), which level two guarantees (`Fence.TimedIsFenced`).
- A retry can be claimed before its backoff is over if a promoter works from an old list
  (`Scenarios.RetryIsClaimedEarly`). When a promoter takes a job, no run that takes the job only when it
  is due claims it early afterwards exactly if the entry taken was due (`Reclaim.TimelyTakeExactly`); so
  a job all of whose own takes are timely is never claimed early, whatever happens to others
  (`Backoff.NeverBeforeItsTime`), as with atomic passes (`Backoff.AtomicNeverEarly`).
- "Will be cancelled once the current attempt finishes", the reply to a cancel of a PROCESSING job: an
  attempt that fails with attempts left is retried, and the job claimed again with the request on
  (`Scenarios.RequestedRunsAgain`). The attempt's last write leaves CANCELLED exactly if the handler
  resolved and nothing failed after it (`Finality.AttemptEndsCancelledExactly`). That the job is not
  completed holds exactly if no lane read the flag before it was set
  (`Finality.NeverCompletedExactly`).
- "Priority always dominates" holds of two exact scores exactly if the more urgent job came less than
  1e12 ms per priority later (`PriorityQueue.PriorityDominates`; `Scenarios.LessUrgentFirst` is a run in
  which a less urgent job is popped first), and "timestamp breaks ties" exactly
  within 2^53 (`PriorityQueue.FifoExactly`).
- An OK answer with an unparsable body throws an error without a `retryable` flag, which alone would
  be retried; the fallback chain turns it into a permanent failure (`Llm.BadBodiesBury`).
- The repository's README says the lock lasts 30 s; the code takes max(30 s, timeoutMs + 5 s), and
  so does the model.
- "maxRequests inside that window" is per fixed window: over a sliding window of the same length the
  bound is 2 * maxRequests - 1, attained for every limit (`RateLimiter.SlidingBound`, `BoundIsReached`),
  so the promise holds of all windows exactly for limits of at most 1
  (`RateLimiter.LimitHoldsOfAllIntervals`).
- "windowSeconds: how long one counting window lasts" needs the EXPIRE: INCR and EXPIRE are two commands,
  and only the request that created the key sends the second. It ends the window when it does
  (`RateLimiter.Limiter.RateLimit`, `NextWindowOpens`); if it never does, the user is refused for ever
  exactly once the quota is spent (`RateLimiter.LockedOutExactly`).

## Model

| member | source | states |
|---|---|---|
| Tokens.DoKeeps | src/worker/worker.js:143-274 | Every step of every activity keeps the level-one invariant: a job's pointer is in at most one of the main set, the delayed set, one activity's memory, the document lock; it is in a place that fits the job's history; every document tells a correct story, is locked exactly while that story runs, counts its claims, and is PROCESSING only under an owner |
| Tokens.RunKeeps | src/worker/worker.js:143-274 | The same for whole runs from any state that satisfies it |
| Tokens.WriteKeeps | src/worker/worker.js:39-55 | A write to a document by the activity that holds its pointer, or unlocks it, moves the pointer to exactly one new place |
| Tokens.TakeDelayed | src/queue/claim.js:52-57 | A ZREM that removes a member moves that job's pointer from the delayed set to the caller and to nobody else |
| Safety.OnePlaceAtMost | src/worker/worker.js:143-274 | In every run, under any interleaving of duplicate submits, lanes, promoters, recoveries, cancels and crashes, two places of one job's pointer are the same place |
| Safety.AttemptsCountClaims | src/worker/worker.js:164-166 | The absolute write of snapshot + 1 never loses or repeats an increment: attempts always is the number of claim entries in the history |
| Safety.FenceHasOwner | src/worker/worker.js:260-274 | PROCESSING implies a non-null owner in every run, so the recovery never asks the fence to match null |
| Safety.ClaimedJobExists | src/worker/worker.js:143-149 | A popped id always has a document |
| Safety.EveryJobTellsAStory | src/worker/worker.js:143-252 | In every run every history is: created, an optional promotion, then claim, RETRYING, promotion over and over, then one of COMPLETED, DEAD_LETTER or worker-CANCELLED with nothing after it; the last claim is open exactly when lockedBy is non-null |
| Safety.PhaseStory | src/models/job.model.js:100-103 | A history that never goes wrong entry by entry has that overall shape |
| Safety.OneJobPerKey | src/modules/jobs/jobs.controller.js:35-76 | However many submissions of one idempotency key race, it never gets two documents |
| Safety.NewDocs | src/modules/jobs/jobs.controller.js:61-76 | Only a creation that found its key free adds a document |
| Protocol.StepWrites | src/worker/worker.js:39-55 | A step changes an existing document by the one write its activity is about to make, or not at all; no document disappears |
| Protocol.FixedFields | src/models/job.model.js:42-67 | No write of any activity changes priority, maxAttempts, timeoutMs, the schedule or the idempotency key |
| Cancellation.FrozenForever | src/worker/worker.js:39-55 | Once a job's pointer is nowhere, no lane, promoter or recovery ever changes its document again in any continuation; it sees API writes only |
| Cancellation.FinalCancellation | src/modules/jobs/jobs.controller.js:151-164 | If either ZREM of cancelJob removes the job, no continuation ever claims it or lands a worker write on it |
| Cancellation.CancelledForever | src/modules/jobs/jobs.controller.js:158-160 | ... and once that cancel's save lands, the status is CANCELLED for ever |
| Cancellation.RacingCancelIsOverwritten | src/modules/jobs/jobs.controller.js:151-160 | Whenever a cancel saves while a lane has the job popped, the lane's claim overwrites its CANCELLED |
| Scenarios.CancelIsOverwritten | src/modules/jobs/jobs.controller.js:151-160 | ... and such a state is reached from the empty system |
| Finality.FinishedStaysExactly | src/modules/jobs/jobs.controller.js:142-160 | In every reachable state a COMPLETED or DEAD_LETTER job keeps that status in every continuation if and only if no cancel that found it QUEUED or RETRYING is still under way |
| Scenarios.ResultIsOverwritten | src/modules/jobs/jobs.controller.js:151-160 | A run from the empty system in which a COMPLETED job becomes CANCELLED |
| Cancellation.FlagStays | src/modules/jobs/jobs.controller.js:173-175 | cancellationRequested is never reset, in any run |
| Cancellation.NeverCompleted | src/worker/worker.js:190-208 | Level one: once it is set with no lane past its checkpoint unaware of it, no continuation completes the job, through any retries and recoveries |
| Finality.NeverCompletedExactly | src/worker/worker.js:190-208 | Level two: once it is set, no continuation completes the job if and only if no lane read it as unset |
| Finality.AttemptEndsCancelledExactly | src/modules/jobs/jobs.controller.js:173-181 | The write that ends an attempt leaves a requested job CANCELLED if and only if the handler resolved and nothing failed after it |
| Scenarios.RequestedRunsAgain | src/modules/jobs/jobs.controller.js:173-181 | A run from the empty system in which a job with its cancellation requested fails its attempt and is claimed again |
| Outcomes.HistoryOnlyGrows | src/models/job.model.js:100-103 | No step of any activity ever drops, changes or reorders a history entry |
| Outcomes.FieldsFollowHistory | src/worker/worker.js:81-118 | In every run a document has a result and completion time exactly if its history says COMPLETED, even after a late cancel; an error exactly if some attempt failed, even if a later one completed; a start time exactly if it was claimed |
| Outcomes.EndedForEver | src/worker/worker.js:199-208 | Once a worker has written COMPLETED, DEAD_LETTER or CANCELLED, result, error, attempts and times never change again in any continuation: handlers that outlive their timeout and late recoveries write nothing |
| Endings.TimeoutEnds | src/worker/worker.js:183-188 | A handler still running timeoutMs after it began, with its lock in place, is failed with an unflagged timeout error: the very next write leaves RETRYING if and only if attempts < maxAttempts, else DEAD_LETTER, with that message, and in the first case the step after it puts the job in the delayed set until its backoff is over; before its time nothing happens |
| Endings.ThrowEnds | src/worker/worker.js:222-230 | A handler that throws is failed in the same way for the error it threw: DEAD_LETTER if its attempts are spent or its flag is false, else RETRYING, and then delayed |
| Endings.FaultEnds | src/worker/worker.js:190-230 | So is a lane whose checkpoint read or finalizing write fails |
| Endings.RecoveryEnds | src/worker/worker.js:260-274 | The first of the expired jobs a recovery has found is failed in the same way, in the name of the owner it was found with, as retryable |
| Endings.ResolveEnds | src/worker/worker.js:190-208 | A handler that resolves with v, with its lock in place, leaves COMPLETED, result v and the time, unless a cancellation has been requested by then: that leaves CANCELLED and drops v; nothing else changes but the lock and the history |
| Endings.ResultStays | src/worker/worker.js:199-208 | ... and that result is v in every continuation |
| Endings.ClaimStarts | src/worker/worker.js:155-166 | In every reachable state a claim leaves PROCESSING, the lane's process as owner, one attempt more, and a lock that a recovery finds expired from more than 30 s and more than timeoutMs + 5 s later, and no sooner |
| Endings.PromotionRequeues | src/worker/worker.js:245-247 | A promotion leaves QUEUED, but for a job it loaded as QUEUED it leaves the status as it is, so that a cancel saved since is not overwritten |
| Endings.CancelSaves | src/modules/jobs/jobs.controller.js:158-175 | In every reachable state a cancel's save leaves CANCELLED if it had found QUEUED or RETRYING, whatever the status is by now, and the request set if it had found PROCESSING |
| Endings.SubmissionMakes | src/modules/jobs/jobs.controller.js:46-86 | A submission with a free key makes a document with the request's fields or their defaults, scheduled if and only if scheduledFor was still to come at the lookup, and pushes it to the delayed set under that time, or else to the main set under its priority |
| Reclaim.PointerClaims | src/queue/claim.js:25-33 | Wherever outside a lock a job's pointer is, some continuation claims the job exactly once more, whatever its status says |
| Finality.CancelIsFinalExactly | src/modules/jobs/jobs.controller.js:151-164 | A CANCELLED job, locked or not, stays so in every continuation if and only if its pointer is nowhere, or only in a document lock that no activity's fence matches |
| Finality.LockStaysExactly | src/worker/worker.js:260-262 | A lock stays in every continuation if and only if its document is not PROCESSING, so that no scan asks for it, and no activity's fence matches it |
| Finality.NeverClaimedAgainExactly | src/worker/worker.js:106-124 | A job, locked or not, is never claimed again in any continuation if and only if its pointer is nowhere, or only in a lock nobody can take off for a retry |
| Finality.ToucherFails | src/worker/worker.js:39-55 | Any activity whose fence matches, lane or recovery, however far down its list the job is, can take the lock off by a failure |
| Finality.AbandonedForever | src/worker/worker.js:39-55 | A locked document that is not PROCESSING and that no fence matches sees API writes only, in every continuation |
| Scenarios.LockIsStuck | src/worker/worker.js:260-262 | A run from the empty system after which a job is CANCELLED for ever and locked for ever |
| Reclaim.EarlyTakeClaimsEarly | src/queue/claim.js:47-59 | If a promoter is about to take an entry whose score is still to come, some continuation with no other untimely take claims the job before its time |
| Reclaim.TimelyTakeExactly | src/queue/claim.js:47-59 | When a promoter takes a job never claimed early so far, no continuation with timely takes of it claims it early if and only if the entry taken is due |
| Scenarios.RetryIsClaimedEarly | src/queue/claim.js:47-59 | ... and a run from the empty system in which a retry is claimed before its readyAt |
| Snapshots.InvSnapRun | src/worker/worker.js:143-274 | In every run what activities remember of a job is of that job and of a claim it has had, a recovery has a job on its list once, a lane loads only unlocked documents, and an owner comes with an expiry time |
| Fence.FencedClaimsBounded | src/worker/worker.js:61-141 | Without timing assumptions: in a run in which every landed failure is about the claim it lands on, a job is claimed at most max(1, maxAttempts) times, and exactly so often when buried as exhausted |
| Fence.TimedIsFenced | src/worker/worker.js:57-61 | The timing assumptions imply that condition in every run |
| Fence.StaleWriteLands | src/worker/worker.js:39-55 | From any state with one recovery waiting to push a retry and another still to write about the same claim of process w, a continuation in which w claims the retry lets the second write land on the new claim, and the job is claimed twice more |
| Fence.LimitHoldsExactly | src/worker/worker.js:62-66 | At level one "at most max(1, maxAttempts) claims" holds in every run of the jobs with a maxAttempts of at most 1, and for every greater one some run breaks it |
| Timing.InvTimedStep | src/worker/worker.js:155-231 | Every step within the timing assumptions keeps: the claim a lane works on is the one in the document, under a lock that outlasts the lane; a lock of a live process has a live lane behind it; a recovery's snapshot belongs to a dead owner |
| Timing.AtMostOneLane | src/worker/worker.js:155-231 | Level two: at most one live lane is between its claim and its finalizing write for a job |
| Timing.LaneWriteLands | src/worker/worker.js:157-162 | Level two: the fence of a live lane's finalizing write always matches, because max(30000, timeoutMs + 5000) outlasts the handler race and the rest |
| Timing.RecoverySparesLiveLanes | src/worker/worker.js:260-274 | Level two: a recovery write that lands is about a dead owner's lock, about the very claim it decided on, and never on a live lane's claim |
| Timing.ExpiredOwnerDead | src/worker/worker.js:254-262 | Level two: an expired lock of a PROCESSING job belongs to a dead process |
| Timing.ClaimsBounded | src/worker/worker.js:62-66 | Level two: over any run a job is claimed at most max(1, maxAttempts) times, waits for a retry only with claims left, and was claimed exactly that often if buried as exhausted |
| Lifecycle.NothingIsLost | src/worker/worker.js:143-274 | Without lost pointers and immediate cancels every created job is finished and nowhere, or in exactly one place, which fits its status |
| Lifecycle.RefinesLifecycle | README.md:80-95 | In such runs every step takes every job along one arrow of the documented lifecycle, taking and releasing the lock and counting the attempt as it should, or changes nothing the lifecycle knows of |
| Lifecycle.InvLifeStep | src/worker/worker.js:143-274 | Every such step keeps the matching of place, status and history |
| Progress.StepDescends | src/worker/worker.js:61-318 | Whatever step is taken, a job that has a pointer afterwards had one before, and it stayed or went strictly down in the lexicographic order of claims left and place |
| Termination.MovesDrain | src/worker/worker.js:61-318 | Level two: every move of a job's pointer uses up some of its fuel |
| Termination.MovesBounded | src/worker/worker.js:61-318 | Level two, with any crashes and cancels: the pointer of a job moves at most 10 * max(1, maxAttempts) + 9 times over any run |
| Completion.RunOut | src/worker/worker.js:143-274 | Any activity can be run to its end by its own steps alone |
| Completion.MakeProgress | src/worker/worker.js:233-274 | In a quiet state with an unfinished job a live process can pop, promote or recover some job and bring it strictly nearer to its end |
| Completion.EveryJobCanFinish | src/worker/worker.js:276-318 | While some process is alive, every reachable state of a timed, lossless run has a finite timed, lossless continuation after which every job is COMPLETED, DEAD_LETTER or CANCELLED |
| Backoff.ClosedForm | src/worker/worker.js:27-30 | After r retries the total backoff is 2000 * (2^r - 1) for r up to 5 and 62000 + 60000 * (r - 5) beyond |
| Backoff.InvPacedStep | src/worker/worker.js:106-124 | A step that does not take job j before it is due keeps: every place of its pointer knows the time before which it may not be claimed |
| Backoff.NeverBeforeItsTime | src/worker/worker.js:106-124 | In any interleaving in which promoters take a job itself only when it is due, whatever they do with others, none of its retries is claimed before its readyAt and it is not claimed before its schedule |
| Backoff.DelayedScores | src/worker/worker.js:106-124 | In every run the delayed set scores each job by the very time its history sets for the next claim: its schedule or the readyAt of its last RETRYING |
| Backoff.UndisturbedIsPunctual | src/queue/claim.js:47-59 | If nobody pushes a job behind the back of a pass that has it on its list, promoters take that job only when it is due |
| Backoff.AtomicIsUndisturbed | src/queue/claim.js:47-59 | Nobody does so while passes are atomic |
| Backoff.AtomicNeverEarly | src/queue/claim.js:47-59 | So with atomic passes no retry and no scheduled job is claimed before its time |
| Spacing.ElapsedAtLeast | src/worker/worker.js:106-124 | Level two, if promoters take a job only when it is due: once retry r of it is claimed, its first claim lies at least the total of r backoffs back |
| Promotion.PassesPartition | src/queue/claim.js:47-59 | Any number of passes, interleaved with each other and with every step that neither adds to the delayed set nor cancels from it, passes cut short included: no job is taken twice, by one pass or by two, and only due jobs are; once some pass has reached the end of its list, exactly the due jobs have been taken and exactly the others remain; a pass returns only what it took |
| Tokens.SubmitPushKeeps | src/queue/queue.js:18-29 | A submission's push moves the pointer from the request to exactly one of the two sets |
| Tokens.RetryPushKeeps | src/queue/queue.js:27-29 | A retry's push moves the pointer from the activity that unlocked the document to the delayed set and to nowhere else |
| Cancellation.RemovalFreezes | src/queue/queue.js:43-49 | A ZREM of a cancel that removes the job leaves its pointer nowhere, and no document changed |
| Cluster.Stores.ClaimNextJob | src/queue/claim.js:25-33 | Pops the lowest score, lowest id among equals; nothing only from an empty set |
| Cluster.Stores.FinalizeJob | src/worker/worker.js:39-55 | Exactly when the expected owner holds the lock, the document gets the very fields of the update, loses its lock and gains the entry; otherwise nothing changes, and it says so |
| Cluster.Stores.Await | src/worker/worker.js:143-231 | During an await the others take any steps: the stores stay on a run of the transition system, the waiting activity stays where it is, and every document stays there, with its priority, limits, schedule and key |
| WorkerProcess.Worker.Claim | src/worker/worker.js:155-166 | The assignments and the save are one claim step, which leaves the document claimed field by field, and the job object with its attempts and limits |
| WorkerProcess.Worker.RaceHandler | src/worker/worker.js:183-188 | The outcome of the race is what the lane settles for, at that time, and a timeout is not declared before timeoutMs is over; Endings.TimeoutEnds, ThrowEnds and ResolveEnds say what comes of it |
| WorkerProcess.Worker.Checkpoint | src/worker/worker.js:190-197 | The flag acted on is the one in the database at that moment, not the snapshot's |
| WorkerProcess.Worker.Finish | src/worker/worker.js:190-221 | Checkpoint and finalizing write are the lane's steps and end the pass; if the write lands, it leaves COMPLETED with the handler's value as the result, or CANCELLED if the flag was set; an error of either is caught with the job still claimed |
| WorkerProcess.Worker.WriteOutcome | src/worker/worker.js:199-208 | If the finalizing write lands with the flag unset, the status is COMPLETED and the result the value passed in |
| WorkerProcess.Worker.HandleFailure | src/worker/worker.js:61-141 | One conditional write; if it lands, the document has the error's message, no lock, and RETRYING exactly if the given job object has an attempt left and the error is not flagged false, else DEAD_LETTER with the reason; exactly if it lands and leaves RETRYING, the job is then put in the delayed set until its backoff is over; then the caller goes on where it should |
| WorkerProcess.Worker.ScheduleRetry | src/worker/worker.js:106-140 | The conditional write leaves RETRYING with the error's message, and the push, under the time of the call plus the backoff, is made exactly if it landed, that is if the expected owner held the lock then |
| WorkerProcess.Worker.PushRetry | src/worker/worker.js:124-124 | The job is in the delayed set under the time its RETRYING announced |
| WorkerProcess.Worker.ProcessJob | src/worker/worker.js:143-231 | The pass's own steps, among any of others: load, claim, settle, and then checkpoint and finalizing write if the handler resolved; after a handler's error, a timeout, or an error of the checkpoint or the finalizing write, a failure's write and, if it is retried, the push; the popped job is always found. The claim leaves the job claimed, and the last write, if it lands, completes it with the handler's value or honors a cancel, or fails it for the handler's error, an unflagged timeout or the operation's error; a retry stands in the delayed set under its backoff |
| WorkerProcess.Worker.RunLaneOnce | src/worker/worker.js:312-318 | A turn of the lane loop pops the minimum and takes exactly those steps on it, to the same effect, or finds the set empty and changes nothing |
| WorkerProcess.Worker.FindExpired | src/worker/worker.js:261-262 | Lists every PROCESSING document whose lock has expired, once each, and nothing else |
| WorkerProcess.Worker.RecoverStaleJobs | src/worker/worker.js:260-274 | A pass lists all expired locks of that moment and makes one write for every one of them, and a push for each it retries, and nothing else |
| WorkerProcess.Worker.RecoverOne | src/worker/worker.js:264-273 | Each expired job is failed in the name of the owner it was found with, by an unflagged error, and stands in the delayed set under its backoff exactly if that write landed and an attempt is left |
| WorkerProcess.Worker.DueJobs | src/queue/claim.js:48-49 | Lists every delayed job that is due, once each, and nothing else |
| WorkerProcess.Worker.PromoteDueDelayedJobs | src/queue/claim.js:47-59 | Lists the due jobs, makes one ZREM for each, and returns what the pass then holds: the jobs its own ZREMs removed |
| WorkerProcess.Worker.MoveOne | src/worker/worker.js:241-250 | A promoted job is always found, saved as QUEUED unless it was loaded so, and then pushed to the main set under its document's priority and the time of the push |
| WorkerProcess.Worker.PromoteReadyJobs | src/worker/worker.js:238-252 | The pass's own steps are one listing, one ZREM for each due job, and load, save and push for each one removed |
| Controller.Api.FindByKey | src/modules/jobs/jobs.controller.js:38-38 | Finds a document with the key exactly if there is one |
| Controller.Api.SubmitJob | src/modules/jobs/jobs.controller.js:16-105 | Incomplete requests and taken keys change nothing; otherwise the request's steps are lookup and creation, and, if no other submission took the key meanwhile, the push; either way the key is taken afterwards. An accepted job has the request's fields or their defaults; it is scheduled exactly if scheduledFor lay in the future, and then has that date and stands in the delayed set under it; if not, it has no schedule and stands in the main set under its priority and the time of the push |
| Controller.Api.Create | src/modules/jobs/jobs.controller.js:61-76 | The unique index decides a race: a fresh document with the request's fields or their defaults and nothing else, or a duplicate-key error |
| Controller.Api.CancelJob | src/modules/jobs/jobs.controller.js:130-185 | The reply follows the status loaded, for all seven statuses; not found and conflict change nothing; QUEUED and RETRYING lead to both ZREMs and the save, which leaves CANCELLED, PROCESSING to the save that leaves the request set |
| PriorityQueue.ExactScore | src/queue/queue.js:12-14 | When both terms stay within 2^53 the computed score is the exact integer |
| PriorityQueue.PresentDayIsExact | src/queue/queue.js:9-14 | Priorities 0 to 9000 are exact for all push times up to the year 2190 |
| PriorityQueue.FifoExactly | src/queue/queue.js:9-14 | For every priority and time, computeScore tells four consecutive milliseconds apart if and only if all four scores lie within 2^53 |
| PriorityQueue.TieAtPriority9006 | src/queue/queue.js:12-14 | At priority 9006 two pushes a millisecond apart tie |
| PriorityQueue.ScoreOrder | src/queue/queue.js:5-14 | Exact scores order two jobs by priority, then push time, if and only if the more urgent one did not come 1e12 ms per priority later |
| PriorityQueue.PriorityDominates | src/queue/queue.js:6-9 | For exact scores the lower priority number comes first if and only if its job was pushed less than 1e12 ms per priority later |
| PriorityQueue.PopIsFirst | src/queue/claim.js:25-33 | The pop takes the one job that is first in line by priority, push time and id |
| PriorityQueue.PushKeepsLine | src/queue/queue.js:18-21 | A push keeps the sorted set a faithful store of the line |
| PriorityQueue.RemoveKeepsLine | src/queue/queue.js:43-45 | So does a removal |
| PriorityQueue.DrainInLine | src/queue/claim.js:25-33 | Repeated pops serve everyone once, in line |
| MainQueue.PopTakesFirst | src/queue/claim.js:25-33 | In every run, after any pushes, pops and cancels, a lane pops the one job that is first by its document's priority, the time of its push and its id among all in the main set, as long as scores are exact and compatible |
| MainQueue.PopTakesFirstToday | src/queue/queue.js:5-21 | So it does in every run with priorities 0 to 9000 up to the year 2190, if the main set was empty at some time less than 1e12 ms ago |
| Scenarios.LessUrgentFirst | src/queue/queue.js:6-9 | A run from the empty system in which the next pop takes a less urgent job than one that waits |
| Llm.Generate | src/ai/llm.js:18-68 | The loop computes the chain's outcome, and makes exactly the calls up to the first reply that stops it |
| Llm.ChainStops | src/ai/llm.js:21-57 | If some reply stops the chain the outcome is the first such reply: its answer with all earlier failures in order, or its permanent error unchanged |
| Llm.ChainExhausts | src/ai/llm.js:59-67 | Otherwise it is an aggregate, retryable exactly if some failure was flagged true |
| Llm.FallbackUsedExactly | src/ai/llm.js:32-36 | fallbackUsed iff failedModels is non-empty, exactly unless the first model's name recurs and answers later |
| Llm.BuriedExactly | src/worker/worker.js:61-104 | A failed generate call buries the job exactly if its attempts are spent, a permanent error stopped the chain, or no failure was flagged retryable |
| Llm.RetriedExactly | src/ai/llm.js:46-67 | With a key, an AI job goes back to the queue if and only if attempts are left, every model was called and failed, none with an HTTP error that is neither 404, 408, 429 nor 5xx, and at least one by a network error, a timeout, 408, 429 or 5xx |
| Llm.CallMeans | src/ai/anthropicClient.js:33-88 | With a key a failed call is flagged true if and only if it is a network error, a timeout or an error with status 408, 429 or at least 500, unflagged if and only if an OK body did not parse, and flagged false otherwise; only an HTTP error has a status; an OK body is answered with its text |
| Llm.PermanentStatuses | src/ai/anthropicClient.js:33-88 | With a key exactly the HTTP errors below 500 other than 404, 408 and 429 stop the chain; without one every call does |
| Llm.BadBodiesBury | src/ai/anthropicClient.js:91-91 | Unparsable OK bodies from every model bury the job at once, although the same error alone would be retried |
| AiCalls.ModelCallsPerClaim | src/ai/llm.js:21-57 | In every run a job makes at most as many model calls as there are models for each time it is claimed, each handler's calls being those generate makes |
| AiCalls.ModelCallsBounded | src/ai/llm.js:21-57 | Level two: over a whole run that is at most models * max(1, maxAttempts), handlers that outlive their timeout included |
| RateLimiter.IncarnationAdmitsExactly | src/middlewares/rateLimiter.js:22-39 | In every trace each life of a key admits exactly min(n, maxRequests) of its n requests |
| RateLimiter.SlidingBound | src/middlewares/rateLimiter.js:11-51 | However long EXPIRE lags behind INCR, any half-open interval of one window length admits at most 2 * maxRequests - 1 requests (none for a limit of 0) |
| RateLimiter.BoundIsReached | src/middlewares/rateLimiter.js:24-29 | Every limit and window length attains that bound |
| RateLimiter.LimitHoldsOfAllIntervals | src/middlewares/rateLimiter.js:9-11 | No interval of one window length ever admits more than maxRequests if and only if maxRequests is at most 1 or the window is empty |
| RateLimiter.Limiter.RateLimit | src/middlewares/rateLimiter.js:12-39 | Whatever others do between its commands: a request is admitted exactly if it is one of the first maxRequests of its window; its commands are INCR and, exactly if it is the very first, EXPIRE, after which the window it opened is over or ends windowSeconds after that EXPIRE; a refused request is told the remaining time |
| RateLimiter.NextWindowOpens | src/middlewares/rateLimiter.js:24-31 | As EXPIRE is sent only by the request that created the key, an expiry once set is never put off: the first request from then on opens a new window and is admitted (unless maxRequests is 0), whatever came before it |
| RateLimiter.LockedOutExactly | src/middlewares/rateLimiter.js:22-30 | If no EXPIRE follows, because the process died after INCR or the command failed, every request of the key's user is refused for ever if and only if the quota is spent and the key has no expiry, or maxRequests is 0 |
| RateLimiter.RetryAfter | src/middlewares/rateLimiter.js:32-38 | A refused request is told the rest of the window to the nearest second if at least half a second of a set expiry is left, and a whole window otherwise |
| RateLimiter.Limiter.NeverOverdrawn | src/middlewares/rateLimiter.js:11-51 | The bound holds of the live counters after any calls |

## Left out

- Authentication, ownership checks (403) and the Redis health check of submitJob (503): one-branch facts about libraries and responses.
- getJobStatus and getQueueLength: they only read.
- HTTP response bodies; a submission's or cancel's reply is modelled by its kind.
- Kafka events, logging, heartbeats, swagger, environment, health endpoints: they do not touch job state.
- Handlers: a handler is any outcome (a value, an error with any flag, or none before the timeout) at any time; its side effects, its prompt and the text of the model are not modelled.
- The HTTP call of callClaude: only the set of its outcomes.
- The text of the error generate throws when all models failed: only its flag and its lack of a status.
- MongoDB, Redis and mongoose themselves: atomic per document and per command, with a unique index on idempotencyKey, is assumed.
- Driver errors: an error of a checkpoint read or finalizing write is modelled (`Fault`) as one whose write has not landed, and any other as the end of the activity (`Abort`, at level two of a lane's whole process); a write that lands but reports an error is not modelled.
- History timestamps are the times of the decisions they record, taken from the one clock; mongoose stamps them moments later.
- Note texts: entries carry a note's kind and the numbers it quotes, not the error message in it, which the document's error field holds.
- priority, maxAttempts and timeoutMs are integers, timeoutMs not negative and within the timer's range; fractional or negative values are not modelled.
- Job ids are numbers; fresh ones are any unused.
- The order of a listing of due or expired jobs: the model allows every order, so the results hold of the actual one.
- The number of lanes and the intervals of the background loops: any number of activities may start at any time.
- The rate limiter's fail-open branch for Redis errors, and the eviction of keys by Redis.
- Cluster.Stores.Await: the others are arbitrary steps of the transition system rather than other objects running Dafny code.
- Termination.MovesBounded: bounds moves of the pointer, not wall-clock time; how soon a loop runs is not modelled.
