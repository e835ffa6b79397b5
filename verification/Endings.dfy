/** Level one: what each step does to the document it is about, for every way an attempt can go. */
module Endings {
  import opened Jobs
  import opened Queue
  import opened Protocol
  import opened Tokens
  import opened Cancellation
  import opened Outcomes
  import opened Snapshots
  import opened Records

  /** Activity a is a lane that runs job j, and the lock in the document is its process's. */
  predicate RunsLocked(s: State, a: AgentId, j: JobId) {
    a in s.agents && s.agents[a].pc.LaneRunning? && s.agents[a].pc.job == j && Owned(s.docs, j, Some(s.agents[a].proc))
  }

  // -------------------------------------------------------------------------
  // The writes as steps
  // -------------------------------------------------------------------------

  /** The finalizing write of a handler that resolved, as a step. */
  lemma FinishStep(s: State, a: AgentId, w: WorkerId, pc: Pc)
    requires a in s.agents && s.agents[a] == Agent(w, pc) && pc.LaneChecked?
    ensures var update := if pc.wasCancelled then HonorCancellation else Complete(pc.value, pc.at);
            var entry := if pc.wasCancelled then Entry(Cancelled, Some(w), CancellationHonored, pc.at)
                         else Entry(Completed, Some(w), JobCompleted, pc.at);
            Do(s, Advance(a)) == s.(
              docs := if Owned(s.docs, pc.job, Some(w)) then
                        s.docs[pc.job := FinalizeWrite(s.docs[pc.job], update, entry)]
                      else s.docs,
              agents := s.agents - {a})
  {
  }

  lemma CheckStep(s: State, a: AgentId, w: WorkerId, j: JobId, mem: Doc, value: string)
    requires a in s.agents && s.agents[a] == Agent(w, LaneSettled(j, mem, value)) && j in s.docs
    ensures var next := LaneChecked(j, mem, value, s.docs[j].cancellationRequested, s.now);
            Do(s, Advance(a)) == s.(agents := Become(s.agents, a, w, Some(next)))
  {
  }

  /** The write of handleFailure as a step: the document as the verdict asks, if the owner still holds it,
      and the activity at its push or its next failure. */
  lemma FailStep(s: State, a: AgentId, w: WorkerId, pc: Pc, readyAt: Option<int>)
    requires a in s.agents && s.agents[a] == Agent(w, pc) && pc.Failing?
    requires readyAt == if pc.verdict.Reschedule? then Some(pc.verdict.readyAt) else None
    ensures var landed := Owned(s.docs, pc.job, pc.owner);
            var next := if landed && readyAt.Some? then Some(RetryPush(pc.job, readyAt.value, pc.cont))
                        else Continue(pc.cont, s.now);
            Do(s, Advance(a)) == s.(
              docs := if landed then
                        var e := VerdictEntry(pc.verdict, w, pc.at);
                        s.docs[pc.job := FinalizeWrite(s.docs[pc.job], VerdictUpdate(pc.verdict), e)]
                      else s.docs,
              agents := Become(s.agents, a, w, next))
  {
  }

  lemma RetryStep(s: State, a: AgentId, w: WorkerId, j: JobId, readyAt: int, cont: Cont)
    requires a in s.agents && s.agents[a] == Agent(w, RetryPush(j, readyAt, cont))
    ensures Do(s, Advance(a)).delayed == s.delayed[j := readyAt]
  {
  }

  lemma ClaimStep(s: State, a: AgentId, w: WorkerId, j: JobId, snap: Doc, at: int)
    requires a in s.agents && s.agents[a] == Agent(w, LaneLoaded(j, snap, at)) && j in s.docs
    ensures Do(s, Advance(a)) == s.(
              docs := s.docs[j := ClaimWrite(s.docs[j], snap, w, at)],
              agents := Become(s.agents, a, w, Some(LaneRunning(j, ClaimedCopy(snap, w, at), s.now))))
  {
  }

  lemma PromoteStep(s: State, a: AgentId, w: WorkerId, got: seq<JobId>, snap: Doc, at: int)
    requires a in s.agents && s.agents[a] == Agent(w, MoveLoaded(got, snap, at)) && got != [] && got[0] in s.docs
    ensures Do(s, Advance(a)) == s.(
              docs := s.docs[got[0] := PromoteWrite(s.docs[got[0]], snap, w, at)],
              agents := Become(s.agents, a, w, Some(MoveSaved(got, snap.priority))))
  {
  }

  // -------------------------------------------------------------------------
  // Failures
  // -------------------------------------------------------------------------

  /** From s, the next step of activity a fails job j for this error of this attempt, and, if that can be
      retried, the one after it puts the job in the delayed set until its backoff is over. */
  predicate FailsNext(s: State, a: AgentId, j: JobId, job: Doc, err: Error, at: int) {
    var s1 := Do(s, Advance(a));
    && j in s.docs && a in s.agents && j in s1.docs
    && FailedDoc(s.docs[j], s1.docs[j], s.agents[a].proc, job, err, at)
    && (Retryable(job, err) ==>
          var s2 := Do(s1, Advance(a));
          j in s2.delayed && s2.delayed[j] == at + ComputeBackoffMs(job.attempts))
  }

  lemma FailureLands(s: State, a: AgentId, j: JobId, owner: Option<WorkerId>, job: Doc, err: Error, at: int, cont: Cont)
    requires a in s.agents && s.agents[a].pc == FailPc(j, owner, job, err, at, cont) && Owned(s.docs, j, owner)
    ensures FailsNext(s, a, j, job, err, at)
  {
    var w, verdict := s.agents[a].proc, Decide(job, err, at);
    var readyAt := if verdict.Reschedule? then Some(verdict.readyAt) else None;
    FailureKeepsPromise(s.docs[j], job, err, w, at);
    FailStep(s, a, w, s.agents[a].pc, readyAt);
    if readyAt.Some? {
      RetryStep(Do(s, Advance(a)), a, w, j, readyAt.value, cont);
    }
  }

  /** A handler still running when its time is up is failed as retryable: RETRYING, and then delayed, if
      and only if an attempt is left, and DEAD_LETTER if not; and nothing happens before its time is up. */
  lemma TimeoutEnds(s: State, a: AgentId, j: JobId)
    requires RunsLocked(s, a, j)
    ensures var mem, since, s1 := s.agents[a].pc.mem, s.agents[a].pc.since, Do(s, Settle(a, TimesOut));
            if s.now < since + mem.timeoutMs then s1 == s
            else
              && s1.docs == s.docs
              && FailsNext(s1, a, j, mem, Error(Unset, TimedOutAfter(mem.timeoutMs)), s.now)
              && (Do(s1, Advance(a)).docs[j].status == Retrying <==> mem.attempts < mem.maxAttempts)
              && (Do(s1, Advance(a)).docs[j].status == DeadLetter <==> mem.attempts >= mem.maxAttempts)
  {
    var mem, s1 := s.agents[a].pc.mem, Do(s, Settle(a, TimesOut));
    if s.now >= s.agents[a].pc.since + mem.timeoutMs {
      FailureLands(s1, a, j, Some(s.agents[a].proc), mem, Error(Unset, TimedOutAfter(mem.timeoutMs)), s.now, EndPass);
    }
  }

  /** A handler that throws is failed for what it has thrown. */
  lemma ThrowEnds(s: State, a: AgentId, j: JobId, err: Error)
    requires RunsLocked(s, a, j)
    ensures Do(s, Settle(a, Throws(err))).docs == s.docs
    ensures FailsNext(Do(s, Settle(a, Throws(err))), a, j, s.agents[a].pc.mem, err, s.now)
  {
    FailureLands(Do(s, Settle(a, Throws(err))), a, j, Some(s.agents[a].proc), s.agents[a].pc.mem, err, s.now, EndPass);
  }

  /** So is a lane whose checkpoint read or finalizing write fails. */
  lemma FaultEnds(s: State, a: AgentId, j: JobId, err: Error)
    requires a in s.agents && (s.agents[a].pc.LaneSettled? || s.agents[a].pc.LaneChecked?) && s.agents[a].pc.job == j
    requires Owned(s.docs, j, Some(s.agents[a].proc))
    ensures Do(s, Fault(a, err)).docs == s.docs
    ensures FailsNext(Do(s, Fault(a, err)), a, j, s.agents[a].pc.mem, err, s.now)
  {
    FailureLands(Do(s, Fault(a, err)), a, j, Some(s.agents[a].proc), s.agents[a].pc.mem, err, s.now, EndPass);
  }

  /** An expired job at the head of a recovery's list is failed as retryable, in the name of the owner it
      was found with. */
  lemma RecoveryEnds(s: State, a: AgentId, w: WorkerId, found: seq<Stale>, asOf: int)
    requires a !in s.agents && asOf <= s.now && ListsStale(s.docs, found, asOf) && found != []
    ensures var Stale(j, d) := found[0];
            var s1 := Do(s, FindStale(a, w, found, asOf));
            && s1.docs == s.docs && j in s.docs && d == s.docs[j]
            && d.status == Processing && d.lockExpiresAt.Some? && d.lockExpiresAt.value < asOf
            && FailsNext(s1, a, j, d, Error(Unset, LockExpired(d.lockedBy)), s.now)
            && (Do(s1, Advance(a)).docs[j].status == Retrying <==> d.attempts < d.maxAttempts)
  {
    var Stale(j, d) := found[0];
    assert found[0] in found;
    FailureLands(Do(s, FindStale(a, w, found, asOf)), a, j, d.lockedBy, d, Error(Unset, LockExpired(d.lockedBy)), s.now,
      NextStale(found[1..]));
  }

  // -------------------------------------------------------------------------
  // Handlers that resolve
  // -------------------------------------------------------------------------

  /** The steps from the handler's end to the finalizing write. */
  function Finishes(a: AgentId, value: string): seq<Step> {
    [Settle(a, Resolves(value)), Advance(a), Advance(a)]
  }

  lemma FinishSteps(s: State, a: AgentId, j: JobId, value: string)
    requires RunsLocked(s, a, j)
    ensures var s1 := Do(s, Settle(a, Resolves(value)));
            var s2 := Do(s1, Advance(a));
            && s2.docs == s1.docs == s.docs && a in s2.agents && s2.agents[a].proc == s.agents[a].proc
            && s2.agents[a].pc == LaneChecked(j, s.agents[a].pc.mem, value, s.docs[j].cancellationRequested, s.now)
            && Run(s, Finishes(a, value)) == Do(s2, Advance(a))
  {
    var s1 := Do(s, Settle(a, Resolves(value)));
    assert s1 == s.(agents := s.agents[a := Agent(s.agents[a].proc, LaneSettled(j, s.agents[a].pc.mem, value))]);
    CheckStep(s1, a, s.agents[a].proc, j, s.agents[a].pc.mem, value);
    RunTwo(s1, Advance(a), Advance(a));
    assert Finishes(a, value)[1..] == [Advance(a), Advance(a)];
  }

  /** A handler that resolves leaves COMPLETED with its very value as the result, unless a cancellation has
      been requested by then: that leaves CANCELLED, and no result. */
  lemma ResolveEnds(s: State, a: AgentId, j: JobId, value: string)
    requires RunsLocked(s, a, j)
    ensures var s' := Run(s, Finishes(a, value));
            j in s'.docs &&
            if s.docs[j].cancellationRequested then HonoredDoc(s.docs[j], s'.docs[j], s.agents[a].proc, s.now)
            else CompletedDoc(s.docs[j], s'.docs[j], s.agents[a].proc, value, s.now)
  {
    FinishSteps(s, a, j, value);
    var s2 := Do(Do(s, Settle(a, Resolves(value))), Advance(a));
    FinishStep(s2, a, s.agents[a].proc, s2.agents[a].pc);
    CompletionKeepsPromise(s.docs[j], value, s.agents[a].proc, s.now);
  }

  /** The result then is that value in every continuation. */
  lemma ResultStays(s: State, a: AgentId, j: JobId, value: string, more: seq<Step>)
    requires Inv(s) && RunsLocked(s, a, j) && !s.docs[j].cancellationRequested
    ensures var s' := Run(Run(s, Finishes(a, value)), more);
            j in s'.docs && s'.docs[j].result == Some(value)
  {
    var s1 := Run(s, Finishes(a, value));
    ResolveEnds(s, a, j, value);
    RunKeeps(s, Finishes(a, value));
    assert DocOk(s.docs[j]);
    assert s1.docs[j].history == Push(s.docs[j].history, Entry(Completed, Some(s.agents[a].proc), JobCompleted, s.now));
    EndedIsFrozen(s1, j);
    FrozenForever(s1, more, j);
  }

  // -------------------------------------------------------------------------
  // Claims, promotions, cancels, submissions
  // -------------------------------------------------------------------------

  lemma LoadedFits(s: State, a: AgentId)
    requires InvSnap(s) && AllFit(s) && a in s.agents && s.agents[a].pc.LaneLoaded?
    ensures var LaneLoaded(j, snap, _) := s.agents[a].pc;
            && j in s.docs && snap.status != Processing && snap.lockedBy == None && snap.lockExpiresAt == None
            && snap.attempts == s.docs[j].attempts && snap.startedAt == s.docs[j].startedAt
            && snap.timeoutMs == s.docs[j].timeoutMs
  {
    assert PcOk(s.docs, s.agents[a].pc) && PcKnows(s.docs, s.agents[a].pc) && StartKnown(s.docs, s.agents[a].pc);
  }

  /** A claim does what it promises, in every reachable state; in particular, a recovery can find the job
      from more than 30 s and more than its timeout and 5 s later, and no sooner. */
  lemma ClaimStarts(before: seq<Step>, a: AgentId, time: int)
    requires a in Run(Init, before).agents && Run(Init, before).agents[a].pc.LaneLoaded?
    ensures var s := Run(Init, before);
            var LaneLoaded(j, _, at) := s.agents[a].pc;
            var s' := Do(s, Advance(a));
            && j in s.docs && j in s'.docs && ClaimedDoc(s.docs[j], s'.docs[j], s.agents[a].proc, at)
            && (Expired(s'.docs[j], time) <==> time > at + 30000 && time > at + s.docs[j].timeoutMs + 5000)
  {
    var s := Run(Init, before);
    InitSnap();
    InvSnapRun(Init, before);
    AllFitRun(Init, before);
    LoadedFits(s, a);
    var LaneLoaded(j, snap, at) := s.agents[a].pc;
    ClaimStep(s, a, s.agents[a].proc, j, snap, at);
    ClaimKeepsPromise(s.docs[j], snap, s.agents[a].proc, at);
  }

  /** ... and so does what the lane remembers of it. */
  lemma ClaimLeaves(before: seq<Step>, a: AgentId)
    requires a in Run(Init, before).agents && Run(Init, before).agents[a].pc.LaneLoaded?
    ensures var s := Run(Init, before);
            var LaneLoaded(j, snap, at) := s.agents[a].pc;
            var s' := Do(s, Advance(a));
            && j in s.docs && j in s'.docs && ClaimedDoc(s.docs[j], s'.docs[j], s.agents[a].proc, at)
            && snap.attempts == s.docs[j].attempts && snap.maxAttempts == s.docs[j].maxAttempts
            && snap.timeoutMs == s.docs[j].timeoutMs
  {
    ClaimStarts(before, a, 0);
    InitSnap();
    InvSnapRun(Init, before);
    AllFitRun(Init, before);
    LoadedFits(Run(Init, before), a);
    assert PcKnows(Run(Init, before).docs, Run(Init, before).agents[a].pc);
  }

  /** A promotion writes QUEUED, but not over a cancel that came between its load and its save of a
      scheduled job. */
  lemma PromotionRequeues(s: State, a: AgentId)
    requires PcsOk(s) && a in s.agents && s.agents[a].pc.MoveLoaded?
    requires s.agents[a].pc.got[0] in s.docs
    ensures var MoveLoaded(got, snap, at) := s.agents[a].pc;
            var s' := Do(s, Advance(a));
            got[0] in s'.docs && PromotedDoc(s.docs[got[0]], s'.docs[got[0]], snap, s.agents[a].proc, at)
  {
  }

  /** The flag a cancel has loaded as set is set. */
  predicate FlagKnown(docs: map<JobId, Doc>, pc: Pc) {
    pc.CancelFlag? && pc.snap.cancellationRequested ==> pc.job in docs && docs[pc.job].cancellationRequested
  }

  predicate FlagsKnown(s: State) {
    forall a | a in s.agents :: FlagKnown(s.docs, s.agents[a].pc)
  }

  lemma NextFlag(s: State, step: Step, a: AgentId)
    requires a in Do(s, step).agents && Do(s, step).agents[a].pc.CancelFlag?
    requires a in s.agents ==> FlagKnown(s.docs, s.agents[a].pc)
    ensures FlagKnown(s.docs, Do(s, step).agents[a].pc)
  {
    if Actor(step) != Some(a) {
      OnlyActorMoves(s, step, a);
    } else if step.Advance? {
      AdvanceNext(s, a);
      if !Waits(s.agents[a].pc) {
        NextFollows(s, s.agents[a].proc, s.agents[a].pc);
      }
    }
  }

  lemma {:induction false} FlagsKnownRun(s: State, steps: seq<Step>)
    requires FlagsKnown(s)
    ensures FlagsKnown(Run(s, steps))
    decreases steps
  {
    if steps != [] {
      var s' := Do(s, steps[0]);
      forall a | a in s'.agents ensures FlagKnown(s'.docs, s'.agents[a].pc) {
        if s'.agents[a].pc.CancelFlag? && s'.agents[a].pc.snap.cancellationRequested {
          NextFlag(s, steps[0], a);
          FlagStep(s, steps[0], s'.agents[a].pc.job);
        }
      }
      FlagsKnownRun(s', steps[1..]);
    }
  }

  /** A cancel's save does what it promises, in every reachable state: CANCELLED if it found the job QUEUED
      or RETRYING, the request if it found it PROCESSING. */
  lemma CancelSaves(before: seq<Step>, a: AgentId)
    requires a in Run(Init, before).agents
    requires Run(Init, before).agents[a].pc.CancelSave? || Run(Init, before).agents[a].pc.CancelFlag?
    ensures var s := Run(Init, before);
            var s', j, at := Do(s, Advance(a)), s.agents[a].pc.job, s.agents[a].pc.at;
            && j in s.docs && j in s'.docs
            && (s.agents[a].pc.CancelSave? ==> CancelledDoc(s.docs[j], s'.docs[j], at))
            && (s.agents[a].pc.CancelFlag? ==> RequestedDoc(s.docs[j], s'.docs[j], at))
  {
    var s := Run(Init, before);
    InitInv();
    RunKeeps(Init, before);
    FlagsKnownRun(Init, before);
    assert PcOk(s.docs, s.agents[a].pc) && FlagKnown(s.docs, s.agents[a].pc);
    ApiKeepsPromise(s.docs[s.agents[a].pc.job], s.agents[a].pc.snap, s.agents[a].pc.at);
  }

  lemma InsertMakes(s: State, a: AgentId, w: WorkerId, req: Request, scheduled: Option<int>, id: JobId)
    requires a in s.agents && s.agents[a] == Agent(w, Submitting(req, scheduled)) && id !in s.docs
    requires forall j | j in s.docs :: s.docs[j].idempotencyKey != req.idempotencyKey
    ensures var s' := Do(s, Insert(a, id));
            && id in s'.docs && NewlyMade(s'.docs[id], req, scheduled, s.now)
            && a in s'.agents && s'.agents[a] == Agent(w, Submitted(id, s'.docs[id].priority, scheduled))
            && s'.main == s.main && s'.delayed == s.delayed && s'.now == s.now
  {
    CreationKeepsPromise(req, scheduled, s.now);
  }

  lemma SubmitPushIs(s: State, a: AgentId, w: WorkerId, j: JobId, priority: int, scheduled: Option<int>)
    requires a in s.agents && s.agents[a] == Agent(w, Submitted(j, priority, scheduled))
    ensures var s' := Do(s, Advance(a));
            if scheduled.Some? then s'.delayed == s.delayed[j := scheduled.value] && s'.main == s.main
            else s'.main == s.main[j := ComputeScore(priority, s.now)] && s'.delayed == s.delayed
  {
  }

  lemma LookupGoesOn(s: State, a: AgentId, w: WorkerId, req: Request, time: int)
    requires a !in s.agents && req.jobType != "" && req.idempotencyKey != ""
    requires forall j | j in s.docs :: s.docs[j].idempotencyKey != req.idempotencyKey
    ensures var s' := Do(Do(s, Lookup(a, w, req)), Tick(time));
            && a in s'.agents && s'.agents[a] == Agent(w, Submitting(req, FutureSchedule(req, s.now)))
            && s'.docs == s.docs && s'.main == s.main && s'.delayed == s.delayed
  {
  }

  /** A submission makes the document the client asked for, scheduled exactly if the time it gave was
      still to come when the key was looked up, and pushes it where that belongs. */
  lemma SubmissionMakes(s: State, a: AgentId, w: WorkerId, req: Request, time: int, id: JobId)
    requires a !in s.agents && id !in s.docs && req.jobType != "" && req.idempotencyKey != ""
    requires forall j | j in s.docs :: s.docs[j].idempotencyKey != req.idempotencyKey
    ensures var later := req.scheduledFor.Some? && req.scheduledFor.value > s.now;
            var s1 := Do(Do(s, Lookup(a, w, req)), Tick(time));
            var s2 := Do(s1, Insert(a, id));
            var s3 := Do(s2, Advance(a));
            && id in s2.docs && NewlyMade(s2.docs[id], req, if later then req.scheduledFor else None, s1.now)
            && if later then id in s3.delayed && s3.delayed[id] == req.scheduledFor.value && s3.main == s.main
               else
                 && id in s3.main && s3.main[id] == ComputeScore(s2.docs[id].priority, s1.now)
                 && s3.delayed == s.delayed
  {
    var scheduled, s1 := FutureSchedule(req, s.now), Do(Do(s, Lookup(a, w, req)), Tick(time));
    LookupGoesOn(s, a, w, req, time);
    InsertMakes(s1, a, w, req, scheduled, id);
    var s2 := Do(s1, Insert(a, id));
    SubmitPushIs(s2, a, w, id, s2.docs[id].priority, scheduled);
  }
}
