/** Level one: exactly when a cancel is final, a finished job keeps its status, a lock is never taken
    off, and a job is never claimed again. */
module Finality {
  import opened Jobs
  import opened Protocol
  import opened Tokens
  import opened Safety
  import opened Cancellation
  import opened Outcomes
  import opened Timing
  import opened Snapshots
  import opened Completion
  import opened Reclaim

  // -------------------------------------------------------------------------
  // Who can still write to a locked document
  // -------------------------------------------------------------------------

  predicate EntryTouches(e: Stale, d: Doc, j: JobId, retry: bool) {
    e.job == j && e.snap.lockedBy == d.lockedBy && (retry ==> HasTries(e.snap))
  }

  predicate ContTouches(cont: Cont, d: Doc, j: JobId, retry: bool) {
    cont.NextStale? && exists e | e in cont.rest :: EntryTouches(e, d, j, retry)
  }

  predicate LaneTouches(agent: Agent, d: Doc, j: JobId, retry: bool)
    requires agent.pc.LaneRunning? || agent.pc.LaneSettled? || agent.pc.LaneChecked?
  {
    agent.pc.job == j && d.lockedBy == Some(agent.proc) && (retry ==> HasTries(agent.pc.mem))
  }

  /** The activity works on job j, or has it on its list, and its fence matches the lock. With `retry`,
      its write can be a RETRYING. */
  predicate Touches(agent: Agent, d: Doc, j: JobId, retry: bool) {
    match agent.pc
    case LaneRunning(_, _, _) => LaneTouches(agent, d, j, retry)
    case LaneSettled(_, _, _) => LaneTouches(agent, d, j, retry)
    case LaneChecked(_, _, _, _, _) => LaneTouches(agent, d, j, retry)
    case Failing(job, owner, _, verdict, _, cont) =>
      (job == j && d.lockedBy == owner && (retry ==> verdict.Reschedule?)) || ContTouches(cont, d, j, retry)
    case RetryPush(_, _, cont) => ContTouches(cont, d, j, retry)
    case _ => false
  }

  predicate Untouched(s: State, j: JobId, retry: bool) {
    j in s.docs && forall a | a in s.agents :: !Touches(s.agents[a], s.docs[j], j, retry)
  }

  /** A recovery scan would list the document once its lock has expired. */
  predicate Scannable(d: Doc, retry: bool) {
    d.status == Processing && (retry ==> HasTries(d))
  }

  /** The document is locked, no recovery scan looks for it, and nobody's fence matches. */
  predicate Abandoned(s: State, j: JobId, retry: bool) {
    j in s.docs && s.docs[j].lockedBy.Some? && !Scannable(s.docs[j], retry) && Untouched(s, j, retry)
  }

  // -------------------------------------------------------------------------
  // No fence starts to match
  // -------------------------------------------------------------------------

  lemma ContinueTouches(cont: Cont, d: Doc, j: JobId, w: WorkerId, now: int, retry: bool)
    requires Continue(cont, now).Some? && Touches(Agent(w, Continue(cont, now).value), d, j, retry)
    ensures ContTouches(cont, d, j, retry)
  {
    assert cont.rest[0] in cont.rest && forall e | e in cont.rest[1..] :: e in cont.rest;
    assert EntryTouches(cont.rest[0], d, j, retry) || exists e | e in cont.rest[1..] :: EntryTouches(e, d, j, retry);
  }

  /** Whose fence matches next, matched before, but for a lane that claims. */
  lemma NextTouches(s: State, w: WorkerId, pc: Pc, d: Doc, j: JobId, retry: bool)
    requires !Waits(pc) && EffectOf(s, w, pc).next.Some?
    requires Touches(Agent(w, EffectOf(s, w, pc).next.value), d, j, retry)
    ensures Touches(Agent(w, pc), d, j, retry) || (pc.LaneLoaded? && pc.job == j)
  {
    if pc.Failing? || pc.RetryPush? {
      if Continue(pc.cont, s.now).Some? && Touches(Agent(w, Continue(pc.cont, s.now).value), d, j, retry) {
        ContinueTouches(pc.cont, d, j, w, s.now, retry);
      }
    } else if !pc.LanePopped? && !pc.LaneLoaded? && !pc.LaneSettled? {
      PlainNext(s, w, pc);
    }
  }

  lemma ScanTouches(s: State, found: seq<Stale>, asOf: int, w: WorkerId, j: JobId, retry: bool)
    requires ListsStale(s.docs, found, asOf) && j in s.docs && StartStale(found, s.now).Some?
    requires Touches(Agent(w, StartStale(found, s.now).value), s.docs[j], j, retry)
    ensures Scannable(s.docs[j], retry)
  {
    ContinueTouches(NextStale(found), s.docs[j], j, w, s.now, retry);
  }

  lemma SettlerTouches(s: State, step: Step, a: AgentId, d: Doc, j: JobId, retry: bool)
    requires (step.Settle? || step.Fault?) && step.a == a && a in Do(s, step).agents
    requires Touches(Do(s, step).agents[a], d, j, retry)
    ensures a in s.agents && Touches(s.agents[a], d, j, retry)
  {
  }

  lemma StarterTouches(s: State, step: Step, a: AgentId, j: JobId, retry: bool)
    requires Actor(step) == Some(a) && !step.Advance? && a in Do(s, step).agents && j in s.docs
    requires !Scannable(s.docs[j], retry) && Touches(Do(s, step).agents[a], s.docs[j], j, retry)
    ensures a in s.agents && Touches(s.agents[a], s.docs[j], j, retry)
  {
    if step.Settle? || step.Fault? {
      SettlerTouches(s, step, a, s.docs[j], j, retry);
    } else if step.FindStale? && ListsStale(s.docs, step.found, step.asOf) && StartStale(step.found, s.now).Some?
       && Touches(Agent(step.w, StartStale(step.found, s.now).value), s.docs[j], j, retry) {
      ScanTouches(s, step.found, step.asOf, step.w, j, retry);
    }
  }

  lemma TouchedBefore(s: State, step: Step, a: AgentId, j: JobId, retry: bool)
    requires a in Do(s, step).agents && j in s.docs && !Scannable(s.docs[j], retry)
    requires a in s.agents ==> !Holds(s.agents[a].pc, j)
    requires Touches(Do(s, step).agents[a], s.docs[j], j, retry)
    ensures a in s.agents && Touches(s.agents[a], s.docs[j], j, retry)
  {
    if Actor(step) != Some(a) {
      OnlyActorMoves(s, step, a);
    } else if !step.Advance? {
      StarterTouches(s, step, a, j, retry);
    } else {
      AdvanceNext(s, a);
      if !Waits(s.agents[a].pc) {
        NextTouches(s, s.agents[a].proc, s.agents[a].pc, s.docs[j], j, retry);
      }
    }
  }

  lemma LockedNotHeld(s: State, j: JobId)
    requires Exclusive(s) && j in s.docs && s.docs[j].lockedBy.Some?
    ensures forall a | a in s.agents :: !Holds(s.agents[a].pc, j)
  {
    assert At(s, j, Lock);
    assert forall a | a in s.agents :: Holds(s.agents[a].pc, j) <==> At(s, j, Hand(a));
  }

  lemma SameTouches(agent: Agent, d: Doc, d': Doc, j: JobId, retry: bool)
    requires d'.lockedBy == d.lockedBy
    ensures Touches(agent, d', j, retry) == Touches(agent, d, j, retry)
  {
    if agent.pc.Failing? || agent.pc.RetryPush? {
      assert forall e :: EntryTouches(e, d', j, retry) == EntryTouches(e, d, j, retry);
    }
  }

  lemma NobodyTouches(s: State, step: Step, a: AgentId, j: JobId, retry: bool)
    requires Inv(s) && Abandoned(s, j, retry) && a in Do(s, step).agents
    ensures !Touches(Do(s, step).agents[a], s.docs[j], j, retry)
  {
    LockedNotHeld(s, j);
    if Touches(Do(s, step).agents[a], s.docs[j], j, retry) {
      TouchedBefore(s, step, a, j, retry);
    }
  }

  /** As long as only the API writes to it, an abandoned document stays abandoned. */
  lemma StaysAbandoned(s: State, step: Step, j: JobId, retry: bool)
    requires Inv(s) && Abandoned(s, j, retry)
    requires j in Do(s, step).docs && OnlyApi(s.docs[j], Do(s, step).docs[j])
    ensures Abandoned(Do(s, step), j, retry)
  {
    forall a | a in Do(s, step).agents ensures !Touches(Do(s, step).agents[a], Do(s, step).docs[j], j, retry) {
      NobodyTouches(s, step, a, j, retry);
      SameTouches(Do(s, step).agents[a], s.docs[j], Do(s, step).docs[j], j, retry);
    }
  }

  // -------------------------------------------------------------------------
  // Abandoned documents stay so
  // -------------------------------------------------------------------------

  /** A write to a locked document is an API write, or one that the fence lets through: it ends the job,
      or the activity can write a RETRYING. */
  lemma LockedWrite(docs: map<JobId, Doc>, agent: Agent, j: JobId, d': Doc)
    requires j in docs && docs[j].lockedBy.Some? && !Holds(agent.pc, j) && DocOk(docs[j])
    requires PcOk(docs, agent.pc) && Written(docs, agent, j, d')
    ensures OnlyApi(docs[j], d')
            || (Touches(agent, docs[j], j, false) && d'.attempts == docs[j].attempts
                && (PhaseOf(d'.history) == Done || Touches(agent, docs[j], j, true)))
  {
  }

  lemma LockedStep(s: State, step: Step, j: JobId, retry: bool)
    requires Inv(s) && Untouched(s, j, retry) && s.docs[j].lockedBy.Some?
    ensures j in Do(s, step).docs
    ensures OnlyApi(s.docs[j], Do(s, step).docs[j])
            || (retry && PhaseOf(Do(s, step).docs[j].history) == Done
                && Do(s, step).docs[j].attempts == s.docs[j].attempts)
  {
    StepWrites(s, step, j);
    if step.Advance? && step.a in s.agents {
      LockedNotHeld(s, j);
      assert PcOk(s.docs, s.agents[step.a].pc) && DocOk(s.docs[j]);
      LockedWrite(s.docs, s.agents[step.a], j, Do(s, step).docs[j]);
    }
  }

  lemma AbandonedStep(s: State, step: Step, j: JobId)
    requires Inv(s) && Abandoned(s, j, false)
    ensures Abandoned(Do(s, step), j, false) && OnlyApi(s.docs[j], Do(s, step).docs[j])
  {
    LockedStep(s, step, j, false);
    StaysAbandoned(s, step, j, false);
  }

  /** An abandoned document keeps its lock in every continuation, and sees API writes only. */
  lemma {:induction false} AbandonedForever(s: State, steps: seq<Step>, j: JobId)
    requires Inv(s) && Abandoned(s, j, false)
    ensures Abandoned(Run(s, steps), j, false) && OnlyApi(s.docs[j], Run(s, steps).docs[j])
    decreases steps
  {
    if steps != [] {
      AbandonedStep(s, steps[0], j);
      DoKeeps(s, steps[0]);
      AbandonedForever(Do(s, steps[0]), steps[1..], j);
    }
  }

  /** No pointer is left, or only a lock that nobody will take off for a retry. */
  ghost predicate Spent(s: State, j: JobId) {
    Frozen(s, j) || Abandoned(s, j, true)
  }

  lemma SpentStep(s: State, step: Step, j: JobId)
    requires Inv(s) && Spent(s, j)
    ensures Spent(Do(s, step), j) && Do(s, step).docs[j].attempts == s.docs[j].attempts
  {
    DoKeeps(s, step);
    if Frozen(s, j) {
      FrozenStep(s, step, j);
    } else {
      LockedStep(s, step, j, true);
      if PhaseOf(Do(s, step).docs[j].history) == Done {
        EndedIsFrozen(Do(s, step), j);
      } else {
        StaysAbandoned(s, step, j, true);
      }
    }
  }

  lemma {:induction false} SpentForever(s: State, steps: seq<Step>, j: JobId)
    requires Inv(s) && Spent(s, j)
    ensures Spent(Run(s, steps), j) && Run(s, steps).docs[j].attempts == s.docs[j].attempts
    decreases steps
  {
    if steps != [] {
      SpentStep(s, steps[0], j);
      DoKeeps(s, steps[0]);
      SpentForever(Do(s, steps[0]), steps[1..], j);
    }
  }

  // -------------------------------------------------------------------------
  // Whoever can write to a locked document, can take its lock off
  // -------------------------------------------------------------------------

  /** The lock of j is off, by a failure; with `retry`, activity a holds the job for its retry. */
  predicate Failed(s: State, a: AgentId, j: JobId, retry: bool) {
    && j in s.docs && s.docs[j].lockedBy.None? && s.docs[j].status in {Retrying, DeadLetter}
    && (retry ==> a in s.agents && s.agents[a].pc.RetryPush? && s.agents[a].pc.job == j)
  }

  predicate Strikes(s: State, a: AgentId, j: JobId, retry: bool) {
    && j in s.docs && s.docs[j].lockedBy.Some? && a in s.agents && s.agents[a].pc.Failing? && s.agents[a].pc.job == j
    && s.agents[a].pc.owner == s.docs[j].lockedBy && (retry ==> s.agents[a].pc.verdict.Reschedule?)
  }

  lemma StrikeLands(s: State, a: AgentId, j: JobId, retry: bool)
    requires Strikes(s, a, j, retry)
    ensures Failed(Do(s, Advance(a)), a, j, retry) && Run(s, [Advance(a)]) == Do(s, Advance(a))
    ensures Do(s, Advance(a)).docs[j].attempts == s.docs[j].attempts
  {
    assert Run(s, [Advance(a)]) == Run(Do(s, Advance(a)), []);
  }

  predicate OnLane(pc: Pc) {
    pc.LaneRunning? || pc.LaneSettled? || pc.LaneChecked?
  }

  /** The step in which a lane's handler, checkpoint or write fails. */
  function Fails(pc: Pc, a: AgentId): Step {
    if pc.LaneRunning? then Settle(a, Throws(Error(Unset, Text("")))) else Fault(a, Error(Unset, Text("")))
  }

  lemma LaneStrikes(s: State, a: AgentId, j: JobId, retry: bool)
    requires a in s.agents && OnLane(s.agents[a].pc) && j in s.docs && Touches(s.agents[a], s.docs[j], j, retry)
    ensures Strikes(Do(s, Fails(s.agents[a].pc, a)), a, j, retry)
    ensures Do(s, Fails(s.agents[a].pc, a)).docs == s.docs
  {
  }

  /** A recovery that has job j further down its list. */
  predicate Queues(s: State, a: AgentId, j: JobId, retry: bool) {
    && j in s.docs && s.docs[j].lockedBy.Some? && a in s.agents
    && (s.agents[a].pc.Failing? || s.agents[a].pc.RetryPush?) && ContTouches(s.agents[a].pc.cont, s.docs[j], j, retry)
    && (s.agents[a].pc.Failing? ==> s.agents[a].pc.job != j)
  }

  lemma ContinueQueues(cont: Cont, d: Doc, j: JobId, w: WorkerId, now: int, retry: bool)
    requires ContTouches(cont, d, j, retry)
    ensures Continue(cont, now).Some? && Continue(cont, now).value.Failing?
    ensures var pc := Continue(cont, now).value;
            || (pc.job == j && pc.owner == d.lockedBy && (retry ==> pc.verdict.Reschedule?))
            || ContTouches(pc.cont, d, j, retry)
  {
    var e :| e in cont.rest && EntryTouches(e, d, j, retry);
    assert cont.rest == [cont.rest[0]] + cont.rest[1..];
  }

  /** On to the next of its list; job j is untouched. */
  lemma QueueNext(s: State, w: WorkerId, pc: Pc, j: JobId, retry: bool)
    requires j in s.docs && (pc.Failing? || pc.RetryPush?) && (pc.Failing? ==> pc.job != j)
    requires ContTouches(pc.cont, s.docs[j], j, retry)
    ensures var e := EffectOf(s, w, pc);
            && j in e.docs && e.docs[j] == s.docs[j] && e.next.Some?
            && var pc' := e.next.value;
            && (pc'.Failing? || pc'.RetryPush?) && Work(pc') < Work(pc)
            && ((pc'.Failing? && pc'.job == j && pc'.owner == s.docs[j].lockedBy && (retry ==> pc'.verdict.Reschedule?))
                || ContTouches(pc'.cont, s.docs[j], j, retry))
  {
    ContinueQueues(pc.cont, s.docs[j], j, w, s.now, retry);
    NextWorks(s, w, pc);
  }

  lemma StillKnows(s: State, a: AgentId)
    requires InvSnap(s)
    ensures a in Do(s, Advance(a)).agents ==> PcKnows(Do(s, Advance(a)).docs, Do(s, Advance(a)).agents[a].pc)
  {
    InvSnapStep(s, Advance(a));
  }

  lemma QueueMoves(s: State, a: AgentId, j: JobId, retry: bool)
    requires Queues(s, a, j, retry)
    ensures var s' := Do(s, Advance(a));
            && a in s'.agents && (s'.agents[a].pc.Failing? || s'.agents[a].pc.RetryPush?)
            && j in s'.docs && s'.docs[j] == s.docs[j] && Work(s'.agents[a].pc) < Work(s.agents[a].pc)
            && (Strikes(s', a, j, retry) || ContTouches(s'.agents[a].pc.cont, s'.docs[j], j, retry))
  {
    QueueNext(s, s.agents[a].proc, s.agents[a].pc, j, retry);
  }

  lemma QueueAdvances(s: State, a: AgentId, j: JobId, retry: bool)
    requires InvSnap(s) && Queues(s, a, j, retry)
    ensures var s' := Do(s, Advance(a));
            && (Strikes(s', a, j, retry) || Queues(s', a, j, retry)) && s'.docs[j] == s.docs[j]
            && Work(s'.agents[a].pc) < Work(s.agents[a].pc)
  {
    QueueMoves(s, a, j, retry);
    StillKnows(s, a);
    QueueKnown(Do(s, Advance(a)), a, j, retry);
  }

  lemma QueueKnown(s: State, a: AgentId, j: JobId, retry: bool)
    requires a in s.agents && PcKnows(s.docs, s.agents[a].pc) && j in s.docs && s.docs[j].lockedBy.Some?
    requires s.agents[a].pc.Failing? || s.agents[a].pc.RetryPush?
    requires Strikes(s, a, j, retry) || ContTouches(s.agents[a].pc.cont, s.docs[j], j, retry)
    ensures Strikes(s, a, j, retry) || Queues(s, a, j, retry)
  {
  }

  lemma {:induction false} QueueStrikes(s: State, a: AgentId, j: JobId, retry: bool)
    returns (steps: seq<Step>, s': State)
    requires InvSnap(s) && Queues(s, a, j, retry)
    ensures Run(s, steps) == s' && Failed(s', a, j, retry) && s'.docs[j].attempts == s.docs[j].attempts
    decreases Work(s.agents[a].pc)
  {
    var s1 := Do(s, Advance(a));
    QueueAdvances(s, a, j, retry);
    InvSnapStep(s, Advance(a));
    if Strikes(s1, a, j, retry) {
      StrikeLands(s1, a, j, retry);
      steps, s' := [Advance(a), Advance(a)], Do(s1, Advance(a));
    } else {
      var rest;
      rest, s' := QueueStrikes(s1, a, j, retry);
      steps := [Advance(a)] + rest;
    }
  }

  /** Any activity whose fence matches can fail the job. */
  lemma ToucherFails(s: State, a: AgentId, j: JobId, retry: bool) returns (steps: seq<Step>, s': State)
    requires InvSnap(s) && j in s.docs && s.docs[j].lockedBy.Some?
    requires a in s.agents && Touches(s.agents[a], s.docs[j], j, retry)
    ensures Run(s, steps) == s' && Failed(s', a, j, retry) && s'.docs[j].attempts == s.docs[j].attempts
  {
    assert PcKnows(s.docs, s.agents[a].pc);
    if OnLane(s.agents[a].pc) {
      var fail := Fails(s.agents[a].pc, a);
      LaneStrikes(s, a, j, retry);
      StrikeLands(Do(s, fail), a, j, retry);
      steps, s' := [fail, Advance(a)], Do(Do(s, fail), Advance(a));
    } else if Strikes(s, a, j, retry) {
      StrikeLands(s, a, j, retry);
      steps, s' := [Advance(a)], Do(s, Advance(a));
    } else {
      steps, s' := QueueStrikes(s, a, j, retry);
    }
  }

  /** A recovery scan can fail a PROCESSING job once its lock has expired. */
  lemma ScanFails(s: State, j: JobId, retry: bool) returns (steps: seq<Step>, s': State, a: AgentId)
    requires InvSnap(s) && j in s.docs && Scannable(s.docs[j], retry)
    ensures Run(s, steps) == s' && Failed(s', a, j, retry) && s'.docs[j].attempts == s.docs[j].attempts
  {
    assert DocOk(s.docs[j]) && LockWhole(s.docs[j]);
    a := FreshId(s.agents.Keys);
    var time := s.docs[j].lockExpiresAt.value + 1;
    var s1 := Do(s, Tick(time));
    var scan := ScanFirst(s1, a, 0, j);
    var s2 := Do(s1, scan);
    assert Strikes(s2, a, j, retry);
    StrikeLands(s2, a, j, retry);
    steps, s' := [Tick(time)] + ([scan] + [Advance(a)]), Do(s2, Advance(a));
    assert ([scan] + [Advance(a)])[1..] == [Advance(a)];
    assert Run(s1, [scan] + [Advance(a)]) == Run(s2, [Advance(a)]);
    assert ([Tick(time)] + ([scan] + [Advance(a)]))[1..] == [scan] + [Advance(a)];
  }

  /** A locked document that is not abandoned can lose its lock to a failure. */
  lemma NotAbandonedFails(s: State, j: JobId, retry: bool) returns (steps: seq<Step>, s': State, a: AgentId)
    requires InvSnap(s) && j in s.docs && s.docs[j].lockedBy.Some? && !Abandoned(s, j, retry)
    ensures Run(s, steps) == s' && Failed(s', a, j, retry) && s'.docs[j].attempts == s.docs[j].attempts
  {
    if Scannable(s.docs[j], retry) {
      steps, s', a := ScanFails(s, j, retry);
    } else {
      a :| a in s.agents && Touches(s.agents[a], s.docs[j], j, retry);
      steps, s' := ToucherFails(s, a, j, retry);
    }
  }

  // -------------------------------------------------------------------------
  // Locks that are never taken off
  // -------------------------------------------------------------------------

  predicate KeepsLock(s: State, j: JobId, steps: seq<Step>)
    requires j in s.docs
  {
    j in Run(s, steps).docs && Run(s, steps).docs[j].lockedBy == s.docs[j].lockedBy
  }

  /** A lock stays in every continuation if and only if its document is not PROCESSING, so that no scan
      asks for it, and no activity has a fence that matches. */
  lemma LockStaysExactly(s: State, j: JobId)
    requires InvSnap(s) && j in s.docs && s.docs[j].lockedBy.Some?
    ensures (forall steps :: KeepsLock(s, j, steps)) <==> Abandoned(s, j, false)
  {
    if Abandoned(s, j, false) {
      forall steps ensures KeepsLock(s, j, steps) {
        AbandonedForever(s, steps, j);
      }
    } else {
      var steps, s', a := NotAbandonedFails(s, j, false);
      assert !KeepsLock(s, j, steps);
    }
  }

  // -------------------------------------------------------------------------
  // Final cancels
  // -------------------------------------------------------------------------

  predicate KeepsStatus(s: State, j: JobId, steps: seq<Step>)
    requires j in s.docs
  {
    j in Run(s, steps).docs && Run(s, steps).docs[j].status == s.docs[j].status
  }

  lemma PointerFails(s: State, j: JobId, p: Place) returns (steps: seq<Step>, s': State, a: AgentId)
    requires InvSnap(s) && At(s, j, p) && !p.Lock?
    ensures Run(s, steps) == s' && Failed(s', a, j, false)
  {
    var first, s1, b, w := PointerClaims(s, j, p);
    InvSnapRun(s, first);
    var second;
    a := b;
    second, s' := ToucherFails(s1, b, j, false);
    steps := first + second;
    RunAppend(s, first, second);
  }

  /** A CANCELLED job stays so in every continuation if and only if its pointer is nowhere, or only in a
      lock that no activity's fence matches. */
  lemma CancelIsFinalExactly(s: State, j: JobId)
    requires InvSnap(s) && j in s.docs && s.docs[j].status == Cancelled
    ensures (forall steps :: KeepsStatus(s, j, steps)) <==> Frozen(s, j) || Abandoned(s, j, false)
  {
    if Frozen(s, j) || Abandoned(s, j, false) {
      forall steps ensures KeepsStatus(s, j, steps) {
        if Frozen(s, j) {
          FrozenForever(s, steps, j);
        } else {
          AbandonedForever(s, steps, j);
        }
      }
    } else {
      var steps, s', a;
      if s.docs[j].lockedBy.Some? {
        steps, s', a := NotAbandonedFails(s, j, false);
      } else {
        var p :| At(s, j, p);
        steps, s', a := PointerFails(s, j, p);
      }
      assert !KeepsStatus(s, j, steps);
    }
  }

  // -------------------------------------------------------------------------
  // Jobs that are never claimed again
  // -------------------------------------------------------------------------

  /** The run claims job j once more. */
  predicate ClaimsMore(s: State, j: JobId, steps: seq<Step>)
    requires j in s.docs
  {
    j in Run(s, steps).docs && Claims(Run(s, steps).docs[j].history) > Claims(s.docs[j].history)
  }

  lemma LockedClaims(s: State, j: JobId) returns (steps: seq<Step>, s': State)
    requires InvSnap(s) && j in s.docs && s.docs[j].lockedBy.Some? && !Abandoned(s, j, true)
    ensures Run(s, steps) == s' && j in s'.docs && s'.docs[j].attempts == s.docs[j].attempts + 1
  {
    var first, s1, a := NotAbandonedFails(s, j, true);
    InvSnapRun(s, first);
    assert At(s1, j, Hand(a));
    var second, b, w;
    second, s', b, w := PointerClaims(s1, j, Hand(a));
    steps := first + second;
    RunAppend(s, first, second);
  }

  /** No continuation claims a job again, whatever its status says, if and only if its pointer is nowhere,
      or only in a lock that nobody can take off for a retry: no activity whose fence matches has
      attempts left, and no scan would find the job with attempts left. */
  lemma NeverClaimedAgainExactly(s: State, j: JobId)
    requires InvSnap(s) && j in s.docs
    ensures (forall steps :: !ClaimsMore(s, j, steps)) <==> Frozen(s, j) || Abandoned(s, j, true)
  {
    assert DocOk(s.docs[j]);
    if Spent(s, j) {
      forall steps ensures !ClaimsMore(s, j, steps) {
        SpentForever(s, steps, j);
        RunKeeps(s, steps);
        assert DocOk(Run(s, steps).docs[j]);
      }
    } else {
      var steps, s', b, w;
      if s.docs[j].lockedBy.Some? {
        steps, s' := LockedClaims(s, j);
      } else {
        var p :| At(s, j, p);
        steps, s', b, w := PointerClaims(s, j, p);
      }
      RunKeeps(s, steps);
      assert DocOk(s'.docs[j]);
      assert ClaimsMore(s, j, steps);
    }
  }

  // -------------------------------------------------------------------------
  // Finished jobs
  // -------------------------------------------------------------------------

  predicate Finished(status: Status) {
    status == Completed || status == DeadLetter
  }

  /** A job is COMPLETED or DEAD_LETTER only after a worker has said so. */
  predicate DocEnded(d: Doc) {
    Finished(d.status) ==> PhaseOf(d.history) == Done
  }

  predicate DocsEnded(s: State) {
    forall j | j in s.docs :: DocEnded(s.docs[j])
  }

  lemma WrittenEnded(docs: map<JobId, Doc>, agent: Agent, j: JobId, d': Doc)
    requires j in docs && DocEnded(docs[j]) && DocOk(docs[j]) && PcOk(docs, agent.pc)
    requires Holds(agent.pc, j) ==> HeldPhase(agent.pc, j, PhaseOf(docs[j].history))
    requires Written(docs, agent, j, d')
    ensures DocEnded(d')
  {
  }

  lemma OldDocEnded(s: State, step: Step, j: JobId)
    requires Inv(s) && DocsEnded(s) && j in s.docs
    ensures j in Do(s, step).docs && DocEnded(Do(s, step).docs[j])
  {
    StepWrites(s, step, j);
    if step.Advance? && step.a in s.agents {
      assert DocOk(s.docs[j]) && PcOk(s.docs, s.agents[step.a].pc);
      assert Holds(s.agents[step.a].pc, j) ==> At(s, j, Hand(step.a));
      WrittenEnded(s.docs, s.agents[step.a], j, Do(s, step).docs[j]);
    }
  }

  lemma {:induction false} DocsEndedRun(s: State, steps: seq<Step>)
    requires Inv(s) && DocsEnded(s)
    ensures DocsEnded(Run(s, steps))
    decreases steps
  {
    if steps != [] {
      var s' := Do(s, steps[0]);
      forall j | j in s'.docs ensures DocEnded(s'.docs[j]) {
        if j in s.docs {
          OldDocEnded(s, steps[0], j);
        } else {
          CreatedDoc(s, steps[0], j);
        }
      }
      DoKeeps(s, steps[0]);
      DocsEndedRun(s', steps[1..]);
    }
  }

  /** The activity is a cancel of job j that found it QUEUED or RETRYING. */
  predicate Cancels(pc: Pc, j: JobId) {
    match pc
    case CancelMain(job, _) => job == j
    case CancelDelayed(job, _, _) => job == j
    case CancelSave(job, _, _, _) => job == j
    case _ => false
  }

  predicate NobodyCancels(s: State, j: JobId) {
    forall a | a in s.agents :: !Cancels(s.agents[a].pc, j)
  }

  lemma NextCancels(s: State, w: WorkerId, pc: Pc, j: JobId)
    requires !Waits(pc) && EffectOf(s, w, pc).next.Some? && Cancels(EffectOf(s, w, pc).next.value, j)
    ensures Cancels(pc, j)
  {
    NextFollows(s, w, pc);
  }

  lemma NobodyStarts(s: State, step: Step, a: AgentId, j: JobId)
    requires NobodyCancels(s, j) && j in s.docs && Finished(s.docs[j].status) && a in Do(s, step).agents
    ensures !Cancels(Do(s, step).agents[a].pc, j)
  {
    if Actor(step) != Some(a) {
      OnlyActorMoves(s, step, a);
    } else if step.Advance? {
      AdvanceNext(s, a);
      if !Waits(s.agents[a].pc) && Cancels(Do(s, step).agents[a].pc, j) {
        NextCancels(s, s.agents[a].proc, s.agents[a].pc, j);
      }
    }
  }

  lemma NoCancelNoChange(docs: map<JobId, Doc>, agent: Agent, j: JobId, d': Doc)
    requires j in docs && docs[j].lockedBy.None? && !Holds(agent.pc, j) && !Cancels(agent.pc, j)
    requires PcOk(docs, agent.pc) && Written(docs, agent, j, d')
    ensures d'.status == docs[j].status
  {
  }

  lemma FinishedStep(s: State, step: Step, j: JobId)
    requires Inv(s) && Frozen(s, j) && Finished(s.docs[j].status) && NobodyCancels(s, j)
    ensures Frozen(Do(s, step), j) && Do(s, step).docs[j].status == s.docs[j].status && NobodyCancels(Do(s, step), j)
  {
    FrozenStep(s, step, j);
    StepWrites(s, step, j);
    if step.Advance? && step.a in s.agents {
      assert !At(s, j, Hand(step.a)) && !At(s, j, Lock) && PcOk(s.docs, s.agents[step.a].pc);
      NoCancelNoChange(s.docs, s.agents[step.a], j, Do(s, step).docs[j]);
    }
    forall a | a in Do(s, step).agents ensures !Cancels(Do(s, step).agents[a].pc, j) {
      NobodyStarts(s, step, a, j);
    }
  }

  lemma {:induction false} FinishedForever(s: State, steps: seq<Step>, j: JobId)
    requires Inv(s) && Frozen(s, j) && Finished(s.docs[j].status) && NobodyCancels(s, j)
    ensures KeepsStatus(s, j, steps)
    decreases steps
  {
    if steps != [] {
      FinishedStep(s, steps[0], j);
      DoKeeps(s, steps[0]);
      FinishedForever(Do(s, steps[0]), steps[1..], j);
    }
  }

  lemma CancelAdvances(s: State, a: AgentId, j: JobId)
    requires Inv(s) && a in s.agents && Cancels(s.agents[a].pc, j)
    ensures var s' := Do(s, Advance(a));
            if s.agents[a].pc.CancelSave? then j in s'.docs && s'.docs[j].status == Cancelled
            else a in s'.agents && Cancels(s'.agents[a].pc, j) && Work(s'.agents[a].pc) < Work(s.agents[a].pc)
  {
    assert PcOk(s.docs, s.agents[a].pc);
  }

  /** A cancel under way can run to its save, which says CANCELLED whatever the status is by then. */
  lemma {:induction false} CancelOverwrites(s: State, a: AgentId, j: JobId) returns (steps: seq<Step>)
    requires Inv(s) && a in s.agents && Cancels(s.agents[a].pc, j)
    ensures j in Run(s, steps).docs && Run(s, steps).docs[j].status == Cancelled
    decreases Work(s.agents[a].pc)
  {
    var s1 := Do(s, Advance(a));
    CancelAdvances(s, a, j);
    DoKeeps(s, Advance(a));
    if s.agents[a].pc.CancelSave? {
      steps := [Advance(a)];
      assert Run(s, steps) == Run(s1, []);
    } else {
      var rest := CancelOverwrites(s1, a, j);
      steps := [Advance(a)] + rest;
    }
  }

  /** In every reachable state, a COMPLETED or DEAD_LETTER job keeps that status in every continuation if
      and only if no cancel that found it QUEUED or RETRYING is still under way. */
  lemma FinishedStaysExactly(before: seq<Step>, j: JobId)
    requires j in Run(Init, before).docs && Finished(Run(Init, before).docs[j].status)
    ensures (forall steps :: KeepsStatus(Run(Init, before), j, steps)) <==> NobodyCancels(Run(Init, before), j)
  {
    var s := Run(Init, before);
    InitInv();
    RunKeeps(Init, before);
    DocsEndedRun(Init, before);
    assert DocEnded(s.docs[j]);
    EndedIsFrozen(s, j);
    if NobodyCancels(s, j) {
      forall steps ensures KeepsStatus(s, j, steps) {
        FinishedForever(s, steps, j);
      }
    } else {
      var a :| a in s.agents && Cancels(s.agents[a].pc, j);
      var steps := CancelOverwrites(s, a, j);
      assert !KeepsStatus(s, j, steps);
    }
  }

  // -------------------------------------------------------------------------
  // Requested cancellations
  // -------------------------------------------------------------------------

  /** The run adds a COMPLETED to the job's history, or makes it its status. */
  predicate Completes(s: State, j: JobId, steps: seq<Step>)
    requires j in s.docs
  {
    j in Run(s, steps).docs && !NoCompletion(s.docs[j], Run(s, steps).docs[j])
  }

  /** A live lane that has read the flag as unset completes the job by its next write. */
  lemma UnawareCompletes(s: State, a: AgentId, j: JobId)
    requires InvTimed(s) && a in s.agents && s.agents[a].pc.LaneChecked? && s.agents[a].pc.job == j
    requires !s.agents[a].pc.wasCancelled && j in s.docs
    ensures TimedRun(s, [Advance(a)]) && Completes(s, j, [Advance(a)])
  {
    assert AgentTimed(s.docs, s.dead, s.now, s.agents[a]);
    RunOne(s, Advance(a));
    assert TimedRun(Do(s, Advance(a)), []);
    var h := Do(s, Advance(a)).docs[j].history;
    assert h[|h| - 1].status == Completed;
  }

  /** Level two: once cancellation is requested, no timed continuation completes the job, through any
      retries and recoveries, if and only if no lane has read the flag before it was set. */
  lemma NeverCompletedExactly(s: State, j: JobId)
    requires InvTimed(s) && j in s.docs && s.docs[j].cancellationRequested
    ensures (forall steps | TimedRun(s, steps) :: !Completes(s, j, steps)) <==> NoneUnaware(s, j)
  {
    if NoneUnaware(s, j) {
      forall steps | TimedRun(s, steps) ensures !Completes(s, j, steps) {
        NeverCompleted(s, steps, j);
      }
    } else {
      var a :| a in s.agents && s.agents[a].pc.LaneChecked? && s.agents[a].pc.job == j
               && !s.agents[a].pc.wasCancelled;
      UnawareCompletes(s, a, j);
    }
  }

  /** The write that ends an attempt leaves a requested job CANCELLED if and only if the handler resolved
      and nothing failed after it; a failure leaves it RETRYING or DEAD_LETTER, request or no. */
  lemma AttemptEndsCancelledExactly(s: State, a: AgentId, j: JobId)
    requires j in s.docs && s.docs[j].cancellationRequested && NoneUnaware(s, j) && a in s.agents
    requires (s.agents[a].pc.LaneChecked? && LaneTouches(s.agents[a], s.docs[j], j, false)) || Strikes(s, a, j, false)
    ensures j in Do(s, Advance(a)).docs
    ensures Do(s, Advance(a)).docs[j].status == Cancelled <==> s.agents[a].pc.LaneChecked?
  {
  }
}
