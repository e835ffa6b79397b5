/** Cancelling: what is final, what is frozen, and what a request flag rules out, at level one. */
module Cancellation {
  import opened Jobs
  import opened Protocol
  import opened Tokens
  import opened Progress

  // -------------------------------------------------------------------------
  // A job without a pointer is out of the workers' reach for ever
  // -------------------------------------------------------------------------

  /** The job exists and its pointer is nowhere: in no set, in no activity's memory, and the
      document is not locked. */
  ghost predicate Frozen(s: State, j: JobId) {
    j in s.docs && forall p :: !At(s, j, p)
  }

  /** d' is d after any number of API writes and no worker write. */
  predicate OnlyApi(d: Doc, d': Doc) {
    && d' == d.(status := d'.status, cancellationRequested := d'.cancellationRequested, history := d'.history)
    && (d'.status == d.status || d'.status == Cancelled)
    && (d.cancellationRequested ==> d'.cancellationRequested)
    && WorkerEntries(d'.history) == WorkerEntries(d.history)
  }

  predicate ApiWriter(s: State, step: Step) {
    step.Advance? && step.a in s.agents && (s.agents[step.a].pc.CancelSave? || s.agents[step.a].pc.CancelFlag?)
  }

  lemma FrozenWrite(docs: map<JobId, Doc>, agent: Agent, j: JobId, d': Doc)
    requires j in docs && docs[j].lockedBy.None? && !Holds(agent.pc, j)
    requires PcOk(docs, agent.pc) && Written(docs, agent, j, d')
    ensures OnlyApi(docs[j], d')
    ensures !(agent.pc.CancelSave? || agent.pc.CancelFlag?) ==> d' == docs[j]
  {
  }

  lemma FrozenStep(s: State, step: Step, j: JobId)
    requires Inv(s) && Frozen(s, j)
    ensures Frozen(Do(s, step), j) && OnlyApi(s.docs[j], Do(s, step).docs[j])
    ensures !ApiWriter(s, step) ==> Do(s, step).docs[j] == s.docs[j]
  {
    var s' := Do(s, step);
    StepWrites(s, step, j);
    if step.Advance? && step.a in s.agents {
      assert !At(s, j, Hand(step.a)) && !At(s, j, Lock);
      FrozenWrite(s.docs, s.agents[step.a], j, s'.docs[j]);
    }
    forall p ensures !At(s', j, p) {
      if At(s', j, p) {
        StepDescends(s, step, j, p);
      }
    }
  }

  /** In every continuation a frozen job stays frozen, and all its document ever sees again are
      API writes: no claim, no promotion, no finalizing write. */
  lemma {:induction false} FrozenForever(s: State, steps: seq<Step>, j: JobId)
    requires Inv(s) && Frozen(s, j)
    ensures Frozen(Run(s, steps), j) && OnlyApi(s.docs[j], Run(s, steps).docs[j])
    decreases steps
  {
    if steps != [] {
      FrozenStep(s, steps[0], j);
      DoKeeps(s, steps[0]);
      FrozenForever(Do(s, steps[0]), steps[1..], j);
    }
  }

  // -------------------------------------------------------------------------
  // Final cancellation
  // -------------------------------------------------------------------------

  /** The next operation of activity a is a ZREM of cancelJob that removes job j. */
  predicate RemovesNext(s: State, a: AgentId, j: JobId) {
    a in s.agents &&
    match s.agents[a].pc
    case CancelMain(job, _) => job == j && j in s.main
    case CancelDelayed(job, _, _) => job == j && j in s.delayed
    case _ => false
  }

  lemma RemovalFreezes(s: State, a: AgentId, j: JobId)
    requires Inv(s) && RemovesNext(s, a, j)
    ensures Frozen(Do(s, Advance(a)), j) && Do(s, Advance(a)).docs == s.docs
  {
    var s' := Do(s, Advance(a));
    var from := if s.agents[a].pc.CancelMain? then Main else Delayed;
    assert At(s, j, from);
    forall p ensures !At(s', j, p) {
      assert At(s', j, p) ==> At(s, j, p) && p != from;
    }
  }

  /** If a ZREM of cancelJob removes the job, then in every continuation the workers leave the job
      alone: no claim is added, no worker entry, no change of owner, attempts, result or error. */
  lemma FinalCancellation(s: State, a: AgentId, j: JobId, steps: seq<Step>)
    requires Inv(s) && RemovesNext(s, a, j)
    ensures var s' := Run(Do(s, Advance(a)), steps);
            Frozen(s', j) && OnlyApi(s.docs[j], s'.docs[j])
  {
    RemovalFreezes(s, a, j);
    DoKeeps(s, Advance(a));
    FrozenForever(Do(s, Advance(a)), steps, j);
  }

  /** ... and once the save of that cancel lands, the job is CANCELLED for ever. */
  lemma CancelledForever(s: State, a: AgentId, j: JobId, between: seq<Step>, after: seq<Step>)
    requires Inv(s) && RemovesNext(s, a, j)
    requires var s' := Run(Do(s, Advance(a)), between);
             a in s'.agents && s'.agents[a].pc.CancelSave? && s'.agents[a].pc.job == j
    ensures var s' := Run(Do(s, Advance(a)), between);
            var s'' := Run(Do(s', Advance(a)), after);
            Frozen(s'', j) && s''.docs[j].status == Cancelled
  {
    DoKeeps(s, Advance(a));
    FinalCancellation(s, a, j, between);
    var s' := Run(Do(s, Advance(a)), between);
    RunKeeps(Do(s, Advance(a)), between);
    assert PcOk(s'.docs, s'.agents[a].pc);
    FrozenStep(s', Advance(a), j);
    DoKeeps(s', Advance(a));
    FrozenForever(Do(s', Advance(a)), after, j);
  }

  lemma PoppedIsClaimed(s: State, lane: AgentId, j: JobId)
    requires Inv(s) && lane in s.agents && s.agents[lane].pc == LanePopped(j)
    ensures var s2 := Run(s, [Advance(lane), Advance(lane)]);
            && j in s.docs && j in s2.docs
            && (s.docs[j].status != Processing ==> s2.docs[j].status == Processing)
            && s2.docs[j].attempts == s.docs[j].attempts + 1
  {
    assert At(s, j, Hand(lane));
    RunTwo(s, Advance(lane), Advance(lane));
    LoadedIsClaimed(Do(s, Advance(lane)), lane, j, s.docs[j], s.now);
  }

  lemma LoadedIsClaimed(s: State, lane: AgentId, j: JobId, snap: Doc, at: int)
    requires lane in s.agents && s.agents[lane].pc == LaneLoaded(j, snap, at) && j in s.docs && s.docs[j] == snap
    ensures var s' := Do(s, Advance(lane));
            && j in s'.docs && (snap.status != Processing ==> s'.docs[j].status == Processing)
            && s'.docs[j].attempts == snap.attempts + 1
  {
  }

  lemma CancelLands(s: State, canceller: AgentId, lane: AgentId, j: JobId)
    requires Inv(s) && canceller in s.agents && lane in s.agents && canceller != lane
    requires s.agents[canceller].pc.CancelSave? && s.agents[canceller].pc.job == j
    ensures var s1 := Do(s, Advance(canceller));
            && j in s.docs && j in s1.docs && s1.docs[j].status == Cancelled
            && s1.docs[j].attempts == s.docs[j].attempts
            && lane in s1.agents && s1.agents[lane] == s.agents[lane]
  {
    assert PcOk(s.docs, s.agents[canceller].pc);
  }

  /** A cancel whose ZREMs both miss is not final: the lane that popped the job overwrites it. */
  lemma RacingCancelIsOverwritten(s: State, canceller: AgentId, lane: AgentId, j: JobId)
    requires Inv(s) && canceller in s.agents && lane in s.agents
    requires s.agents[canceller].pc.CancelSave? && s.agents[canceller].pc.job == j
    requires s.agents[lane].pc == LanePopped(j)
    ensures var s1 := Do(s, Advance(canceller));
            var s3 := Run(s1, [Advance(lane), Advance(lane)]);
            && j in s1.docs && s1.docs[j].status == Cancelled && j in s.docs
            && j in s3.docs && s3.docs[j].status == Processing && s3.docs[j].attempts == s.docs[j].attempts + 1
  {
    CancelLands(s, canceller, lane, j);
    DoKeeps(s, Advance(canceller));
    PoppedIsClaimed(Do(s, Advance(canceller)), lane, j);
  }

  // -------------------------------------------------------------------------
  // Requested cancellation
  // -------------------------------------------------------------------------

  /** No lane has already read the flag of job j as unset. */
  predicate NoneUnaware(s: State, j: JobId) {
    forall a | a in s.agents && s.agents[a].pc.LaneChecked? && s.agents[a].pc.job == j :: s.agents[a].pc.wasCancelled
  }

  /** h' continues h without a COMPLETED entry. */
  predicate NotCompletedSince(h: seq<Entry>, h': seq<Entry>) {
    |h| <= |h'| && h'[..|h|] == h && forall i | |h| <= i < |h'| :: h'[i].status != Completed
  }

  predicate NoCompletion(d: Doc, d': Doc) {
    && (d'.status == Completed ==> d.status == Completed)
    && NotCompletedSince(d.history, d'.history)
  }

  lemma RequestedWrite(docs: map<JobId, Doc>, agent: Agent, j: JobId, d': Doc)
    requires j in docs && docs[j].cancellationRequested
    requires PcOk(docs, agent.pc) && Written(docs, agent, j, d')
    requires agent.pc.LaneChecked? && agent.pc.job == j ==> agent.pc.wasCancelled
    ensures d'.cancellationRequested && NoCompletion(docs[j], d')
  {
  }

  lemma ReachesCheckpoint(s: State, w: WorkerId, pc: Pc)
    requires !Waits(pc) && EffectOf(s, w, pc).next.Some? && EffectOf(s, w, pc).next.value.LaneChecked?
    ensures pc.LaneSettled?
  {
    NextFollows(s, w, pc);
  }

  lemma NoneUnawareStep(s: State, step: Step, j: JobId)
    requires j in s.docs && s.docs[j].cancellationRequested && NoneUnaware(s, j)
    ensures NoneUnaware(Do(s, step), j)
  {
    var s' := Do(s, step);
    forall b | b in s'.agents && s'.agents[b].pc.LaneChecked? && s'.agents[b].pc.job == j
      ensures s'.agents[b].pc.wasCancelled
    {
      if Actor(step) != Some(b) {
        OnlyActorMoves(s, step, b);
      } else if step == Advance(b) {
        if b in s.agents && !Waits(s.agents[b].pc) {
          ReachesCheckpoint(s, s.agents[b].proc, s.agents[b].pc);
        }
      } else {
        assert b in s.agents && s.agents[b] == s'.agents[b];
      }
    }
  }

  lemma FlagStep(s: State, step: Step, j: JobId)
    requires j in s.docs && s.docs[j].cancellationRequested
    ensures j in Do(s, step).docs && Do(s, step).docs[j].cancellationRequested
  {
    StepWrites(s, step, j);
  }

  /** A requested cancellation is never taken back. */
  lemma {:induction false} FlagStays(s: State, steps: seq<Step>, j: JobId)
    requires j in s.docs && s.docs[j].cancellationRequested
    ensures j in Run(s, steps).docs && Run(s, steps).docs[j].cancellationRequested
    decreases steps
  {
    if steps != [] {
      FlagStep(s, steps[0], j);
      FlagStays(Do(s, steps[0]), steps[1..], j);
    }
  }

  /** Once cancellation is requested and no lane is past its checkpoint unaware of it, the flag
      stays set and the job never becomes COMPLETED, through any retries and recoveries. */
  lemma {:induction false} NeverCompleted(s: State, steps: seq<Step>, j: JobId)
    requires Inv(s) && j in s.docs && s.docs[j].cancellationRequested && NoneUnaware(s, j)
    ensures j in Run(s, steps).docs && Run(s, steps).docs[j].cancellationRequested
    ensures NoCompletion(s.docs[j], Run(s, steps).docs[j])
    decreases steps
  {
    if steps != [] {
      var s' := Do(s, steps[0]);
      StepWrites(s, steps[0], j);
      if steps[0].Advance? && steps[0].a in s.agents {
        RequestedWrite(s.docs, s.agents[steps[0].a], j, s'.docs[j]);
      }
      NoneUnawareStep(s, steps[0], j);
      DoKeeps(s, steps[0]);
      NeverCompleted(s', steps[1..], j);
      CompletionTrans(s.docs[j].history, s'.docs[j].history, Run(s', steps[1..]).docs[j].history);
    }
  }

  lemma CompletionTrans(h: seq<Entry>, h': seq<Entry>, h'': seq<Entry>)
    requires NotCompletedSince(h, h') && NotCompletedSince(h', h'')
    ensures NotCompletedSince(h, h'')
  {
    assert h''[..|h|] == h''[..|h'|][..|h|];
    assert forall i | 0 <= i < |h'| :: h''[i] == h''[..|h'|][i];
  }
}
