/** Runs that lose no pointer: no activity vanishes while it holds a job, and nobody cancels a job
    that is not being processed. Lanes that hold nothing but a lock in the database may crash. In
    such runs every job is finished or in exactly one place, its status says which kind of place,
    and every step is a step of the lifecycle in README.md or none. */
module Lifecycle {
  import opened Jobs
  import opened Queue
  import opened Protocol
  import opened Tokens
  import opened Safety

  predicate HoldsSome(pc: Pc) {
    match pc
    case Submitted(_, _, _) => true
    case LanePopped(_) => true
    case LaneLoaded(_, _, _) => true
    case RetryPush(_, _, _) => true
    case Removing(_, got) => got != []
    case Moving(_) => true
    case MoveLoaded(_, _, _) => true
    case MoveSaved(_, _) => true
    case _ => false
  }

  predicate Lossless(s: State, step: Step) {
    match step
    case Abort(a) => a in s.agents ==> !HoldsSome(s.agents[a].pc)
    case Crash(w) => forall a | a in s.agents && s.agents[a].proc == w :: !HoldsSome(s.agents[a].pc)
    case BeginCancel(_, _, job) => job in s.docs ==> s.docs[job].status !in {Queued, Retrying}
    case _ => true
  }

  predicate LosslessRun(s: State, steps: seq<Step>)
    decreases steps
  {
    steps == [] || (Lossless(s, steps[0]) && LosslessRun(Do(s, steps[0]), steps[1..]))
  }

  // -------------------------------------------------------------------------
  // The lifecycle of README.md
  // -------------------------------------------------------------------------

  /** The arrows of the lifecycle diagram, with the promotion of a RETRYING job back to the queue. */
  predicate LifecycleArrow(from: Status, to: Status) {
    match from
    case Queued => to == Processing
    case Processing => to in {Completed, Retrying, DeadLetter, Cancelled}
    case Retrying => to == Queued
    case _ => false
  }

  /** d' follows d by one arrow: a claim counts an attempt and takes the lock, leaving PROCESSING
      gives the lock back, and CANCELLED needs a request. */
  predicate LifecycleStep(d: Doc, d': Doc) {
    && LifecycleArrow(d.status, d'.status)
    && (d'.status == Processing ==> d'.attempts == d.attempts + 1 && d.lockedBy.None? && d'.lockedBy.Some?)
    && (d.status == Processing ==> d'.attempts == d.attempts && d.lockedBy.Some? && d'.lockedBy.None?)
    && (d'.status == Cancelled ==> d.cancellationRequested)
    && (d.status == Retrying ==> d'.attempts == d.attempts)
  }

  /** Nothing the lifecycle knows of changes. */
  predicate Stutter(d: Doc, d': Doc) {
    d'.status == d.status && d'.attempts == d.attempts && d'.lockedBy == d.lockedBy
  }

  // -------------------------------------------------------------------------
  // The invariant
  // -------------------------------------------------------------------------

  predicate StatusFits(status: Status, phase: Phase) {
    match phase
    case Fresh => status == Queued
    case Ready => status == Queued
    case Running => status == Processing
    case Waiting => status == Retrying
    case Done => Final(status)
    case _ => false
  }

  predicate DocLife(d: Doc) {
    StatusFits(d.status, PhaseOf(d.history))
  }

  predicate PcLife(docs: map<JobId, Doc>, pc: Pc) {
    match pc
    case CancelMain(_, _) => false
    case CancelDelayed(_, _, _) => false
    case CancelSave(_, _, _, _) => false
    case LaneLoaded(job, snap, _) => job in docs && snap.status == docs[job].status
    case MoveLoaded(got, snap, _) => got != [] && got[0] in docs && snap.status == docs[got[0]].status
    case LaneChecked(job, _, _, wasCancelled, _) => wasCancelled ==> job in docs && docs[job].cancellationRequested
    case _ => true
  }

  predicate PcsLife(s: State) {
    forall a | a in s.agents :: PcLife(s.docs, s.agents[a].pc)
  }

  ghost predicate Somewhere(s: State, j: JobId) {
    exists p :: At(s, j, p)
  }

  ghost predicate Accounted(s: State, j: JobId)
    requires j in s.docs
  {
    Final(s.docs[j].status) || Somewhere(s, j)
  }

  ghost predicate InvLife(s: State) {
    && Inv(s)
    && (forall j | j in s.docs :: DocLife(s.docs[j]))
    && PcsLife(s)
    && (forall j | j in s.docs :: Accounted(s, j))
  }

  // -------------------------------------------------------------------------
  // Documents and activities
  // -------------------------------------------------------------------------

  lemma ClaimLife(d: Doc, snap: Doc, w: WorkerId, at: int)
    requires DocLife(d) && BeforeClaim(PhaseOf(d.history)) && d.lockedBy.None?
    requires snap.status == d.status && snap.attempts == d.attempts && snap.lockedBy == None
    ensures DocLife(ClaimWrite(d, snap, w, at)) && LifecycleStep(d, ClaimWrite(d, snap, w, at))
  {
  }

  lemma FinishLife(d: Doc, value: string, wasCancelled: bool, w: WorkerId, at: int)
    requires DocLife(d) && DocOk(d) && d.lockedBy.Some? && (wasCancelled ==> d.cancellationRequested)
    ensures var d' := FinalizeWrite(d, FinishUpdate(value, wasCancelled, at), FinishEntry(wasCancelled, w, at));
            DocLife(d') && LifecycleStep(d, d')
  {
  }

  lemma ResolveLife(d: Doc, verdict: Verdict, w: WorkerId, at: int)
    requires DocLife(d) && DocOk(d) && d.lockedBy.Some?
    ensures var d' := FinalizeWrite(d, VerdictUpdate(verdict), VerdictEntry(verdict, w, at));
            DocLife(d') && LifecycleStep(d, d')
  {
  }

  lemma PromoteLife(d: Doc, snap: Doc, w: WorkerId, at: int)
    requires DocLife(d) && DocOk(d) && BeforePromotion(PhaseOf(d.history)) && snap.status == d.status
    ensures var d' := PromoteWrite(d, snap, w, at);
            DocLife(d') && (LifecycleStep(d, d') || Stutter(d, d'))
  {
  }

  lemma WrittenDocLife(docs: map<JobId, Doc>, agent: Agent, j: JobId, d': Doc)
    requires j in docs && Written(docs, agent, j, d') && DocOk(docs[j]) && DocLife(docs[j])
    requires PcOk(docs, agent.pc) && PcLife(docs, agent.pc)
    requires Holds(agent.pc, j) ==> HeldPhase(agent.pc, j, PhaseOf(docs[j].history)) && docs[j].lockedBy.None?
    ensures DocLife(d') && (LifecycleStep(docs[j], d') || Stutter(docs[j], d'))
    ensures docs[j].cancellationRequested ==> d'.cancellationRequested
    ensures Holds(agent.pc, j) || docs[j].lockedBy.Some? || Stutter(docs[j], d')
  {
    var d, w := docs[j], agent.proc;
    if d' != d {
      match agent.pc
      case LaneLoaded(_, snap, at) => ClaimLife(d, snap, w, at);
      case LaneChecked(_, _, value, wasCancelled, at) => FinishLife(d, value, wasCancelled, w, at);
      case Failing(_, _, _, verdict, at, _) => ResolveLife(d, verdict, w, at);
      case MoveLoaded(_, snap, at) => PromoteLife(d, snap, w, at);
      case CancelFlag(_, snap, at) =>
    }
  }

  lemma WrittenLife(s: State, a: AgentId, j: JobId, d': Doc)
    requires InvLife(s) && a in s.agents && j in s.docs && Written(s.docs, s.agents[a], j, d')
    ensures DocLife(d') && (LifecycleStep(s.docs[j], d') || Stutter(s.docs[j], d'))
    ensures s.docs[j].cancellationRequested ==> d'.cancellationRequested
    ensures Holds(s.agents[a].pc, j) || At(s, j, Lock) || Stutter(s.docs[j], d')
  {
    assert DocOk(s.docs[j]) && DocLife(s.docs[j]) && PcOk(s.docs, s.agents[a].pc) && PcLife(s.docs, s.agents[a].pc);
    if Holds(s.agents[a].pc, j) {
      assert At(s, j, Hand(a)) && !At(s, j, Lock);
    }
    WrittenDocLife(s.docs, s.agents[a], j, d');
  }

  lemma DocsLifeStep(s: State, step: Step, j: JobId)
    requires InvLife(s) && j in Do(s, step).docs
    ensures DocLife(Do(s, step).docs[j])
    ensures j in s.docs ==> LifecycleStep(s.docs[j], Do(s, step).docs[j]) || Stutter(s.docs[j], Do(s, step).docs[j])
    ensures j in s.docs && s.docs[j].cancellationRequested ==> Do(s, step).docs[j].cancellationRequested
  {
    if j !in s.docs {
      NewDocs(s, step);
      assert Do(s, step).docs[j] == NewDoc(s.agents[step.a].pc.req, s.agents[step.a].pc.scheduled, s.now);
    } else {
      StepWrites(s, step, j);
      if step.Advance? && step.a in s.agents {
        WrittenLife(s, step.a, j, Do(s, step).docs[j]);
      }
    }
  }

  /** A bystander's snapshot keeps the status of a job it holds. */
  lemma BystanderLife(s: State, a: AgentId, b: AgentId)
    requires InvLife(s) && a in s.agents && b in s.agents && a != b
    ensures PcLife(AdvanceStep(s, a).docs, s.agents[b].pc)
  {
    var pc := s.agents[b].pc;
    assert PcLife(s.docs, pc);
    if pc.LaneLoaded? || pc.MoveLoaded? || (pc.LaneChecked? && pc.wasCancelled) {
      var j := if pc.MoveLoaded? then pc.got[0] else pc.job;
      AdvanceWrites(s, a, j);
      WrittenLife(s, a, j, AdvanceStep(s, a).docs[j]);
      if !pc.LaneChecked? {
        assert At(s, j, Hand(b));
        NotHeld(s, j, Hand(b), a);
      }
    }
  }

  lemma ActorLife(s: State, w: WorkerId, pc: Pc)
    requires PcLife(s.docs, pc) && PcOk(s.docs, pc)
    ensures var e := EffectOf(s, w, pc); e.next.Some? && !Waits(pc) ==> PcLife(e.docs, e.next.value)
  {
    if pc.Failing? || pc.RetryPush? {
      ContinueOk(s.docs, pc.cont, s.now);
    }
  }

  lemma AdvancePcsLife(s: State, a: AgentId)
    requires InvLife(s)
    ensures PcsLife(AdvanceStep(s, a))
  {
    var s' := AdvanceStep(s, a);
    forall b | b in s'.agents ensures PcLife(s'.docs, s'.agents[b].pc) {
      assert a in s.agents && b in s.agents ==> PcLife(s.docs, s.agents[b].pc) && PcOk(s.docs, s.agents[b].pc);
      if a in s.agents && b != a {
        BystanderLife(s, a, b);
      } else if a in s.agents {
        ActorLife(s, s.agents[a].proc, s.agents[a].pc);
      }
    }
  }

  lemma PcLifeMono(docs: map<JobId, Doc>, docs': map<JobId, Doc>, pc: Pc)
    requires PcLife(docs, pc) && forall j | j in docs :: j in docs' && docs'[j] == docs[j]
    ensures PcLife(docs', pc)
  {
  }

  lemma LookupPcsLife(s: State, step: Step)
    requires step.Lookup? && PcsLife(s)
    ensures PcsLife(Do(s, step))
  {
    OthersStay(s, step, step.a);
    assert Do(s, step) != s ==> Do(s, step).agents == s.agents[step.a := Do(s, step).agents[step.a]];
  }

  lemma SubmitPcsLife(s: State, step: Step)
    requires (step.Lookup? || step.Insert?) && PcsLife(s)
    ensures PcsLife(Do(s, step))
  {
    if step.Lookup? {
      LookupPcsLife(s, step);
    } else {
      var s' := Do(s, step);
      InsertInserts(s, step.a, step.id);
      forall b | b in s'.agents ensures PcLife(s'.docs, s'.agents[b].pc) {
        if s'.agents[b] == s.agents[b] {
          PcLifeMono(s.docs, s'.docs, s.agents[b].pc);
        }
      }
    }
  }

  lemma CancelPcsLife(s: State, step: Step)
    requires step.BeginCancel? && Lossless(s, step) && PcsLife(s)
    ensures PcsLife(Do(s, step))
  {
  }

  lemma WorkerPcsLife(s: State, step: Step)
    requires (step.Pop? || step.ListDue? || step.FindStale?) && PcsLife(s)
    ensures PcsLife(Do(s, step))
  {
  }

  lemma LanePcsLife(s: State, step: Step)
    requires (step.Settle? || step.Fault?) && PcsLife(s)
    ensures PcsLife(Do(s, step))
  {
  }

  lemma PassivePcsLife(s: State, step: Step)
    requires (step.Abort? || step.Crash? || step.Tick?) && PcsLife(s)
    ensures PcsLife(Do(s, step))
  {
  }

  /** The other steps write no document, and leave an activity alone or put it where PcLife asks
      nothing. */
  lemma OtherPcsLife(s: State, step: Step)
    requires !step.Advance? && Lossless(s, step) && PcsLife(s)
    ensures PcsLife(Do(s, step))
  {
    if step.Lookup? || step.Insert? {
      SubmitPcsLife(s, step);
    } else if step.BeginCancel? {
      CancelPcsLife(s, step);
    } else if step.Pop? || step.ListDue? || step.FindStale? {
      WorkerPcsLife(s, step);
    } else if step.Settle? || step.Fault? {
      LanePcsLife(s, step);
    } else {
      PassivePcsLife(s, step);
    }
  }

  // -------------------------------------------------------------------------
  // No pointer is lost
  // -------------------------------------------------------------------------

  ghost predicate Kept(s': State, j: JobId) {
    j in s'.docs && Accounted(s', j)
  }

  lemma IsAt(s: State, j: JobId, p: Place)
    requires At(s, j, p)
    ensures Somewhere(s, j)
  {
  }

  lemma LaneHeldLives(s: State, a: AgentId, j: JobId)
    requires a in s.agents && j in s.docs && Holds(s.agents[a].pc, j)
    requires PcOk(s.docs, s.agents[a].pc)
    requires s.agents[a].pc.Submitted? || s.agents[a].pc.LanePopped? || s.agents[a].pc.LaneLoaded?
             || s.agents[a].pc.RetryPush?
    ensures Somewhere(AdvanceStep(s, a), j)
  {
    var s' := AdvanceStep(s, a);
    match s.agents[a].pc
    case Submitted(_, _, scheduled) => IsAt(s', j, if scheduled.Some? then Delayed else Main);
    case LanePopped(_) => IsAt(s', j, Hand(a));
    case LaneLoaded(_, _, _) => IsAt(s', j, Lock);
    case RetryPush(_, _, _) => IsAt(s', j, Delayed);
  }

  lemma MoverHeldLives(s: State, a: AgentId, j: JobId)
    requires a in s.agents && j in s.docs && Holds(s.agents[a].pc, j) && PcOk(s.docs, s.agents[a].pc)
    requires forall k | Holds(s.agents[a].pc, k) :: k in s.docs
    requires s.agents[a].pc.Removing? || s.agents[a].pc.Moving? || s.agents[a].pc.MoveLoaded?
             || s.agents[a].pc.MoveSaved?
    ensures Somewhere(AdvanceStep(s, a), j)
  {
    var s' := AdvanceStep(s, a);
    match s.agents[a].pc
    case Removing(_, _) => IsAt(s', j, Hand(a));
    case Moving(got) => assert Holds(s.agents[a].pc, got[0]); IsAt(s', j, Hand(a));
    case MoveLoaded(got, _, _) => assert Holds(s.agents[a].pc, got[0]); IsAt(s', j, Hand(a));
    case MoveSaved(got, _) => IsAt(s', j, if j == got[0] then Main else Hand(a));
  }

  /** An activity puts a job it holds somewhere, or goes on holding it. */
  lemma HeldLives(s: State, a: AgentId, j: JobId)
    requires Inv(s) && a in s.agents && j in s.docs && Holds(s.agents[a].pc, j)
    ensures Somewhere(AdvanceStep(s, a), j)
  {
    var pc := s.agents[a].pc;
    assert PcOk(s.docs, pc);
    if pc.Submitted? || pc.LanePopped? || pc.LaneLoaded? || pc.RetryPush? {
      LaneHeldLives(s, a, j);
    } else {
      forall k | Holds(pc, k) ensures k in s.docs {
        assert At(s, k, Hand(a));
      }
      MoverHeldLives(s, a, j);
    }
  }

  /** A finalizing write ends the job, or leaves it in the writer's hands. */
  lemma LockLives(s: State, a: AgentId, j: JobId)
    requires a in s.agents && j in s.docs && At(s, j, Lock)
    ensures Kept(AdvanceStep(s, a), j)
  {
    var s' := AdvanceStep(s, a);
    AdvanceWrites(s, a, j);
    if s'.docs[j].lockedBy.Some? {
      IsAt(s', j, Lock);
    } else if !Final(s'.docs[j].status) {
      assert s.agents[a].pc.Failing? && s.agents[a].pc.verdict.Reschedule?;
      IsAt(s', j, Hand(a));
    }
  }

  lemma QueuedLives(s: State, a: AgentId, j: JobId, p: Place)
    requires a in s.agents && PcLife(s.docs, s.agents[a].pc) && p in {Main, Delayed} && At(s, j, p)
    ensures Somewhere(AdvanceStep(s, a), j)
  {
    var s' := AdvanceStep(s, a);
    var pc := s.agents[a].pc;
    if pc.Removing? && p == Delayed && pc.todo != [] && pc.todo[0] == j {
      IsAt(s', j, Hand(a));
    } else {
      IsAt(s', j, p);
    }
  }

  lemma AdvanceLives(s: State, a: AgentId, j: JobId, p: Place)
    requires InvLife(s) && a in s.agents && j in s.docs && At(s, j, p)
    ensures Kept(AdvanceStep(s, a), j)
  {
    AdvanceWrites(s, a, j);
    assert PcLife(s.docs, s.agents[a].pc);
    match p
    case Main => QueuedLives(s, a, j, p);
    case Delayed => QueuedLives(s, a, j, p);
    case Lock => LockLives(s, a, j);
    case Hand(b) =>
      if b == a {
        HeldLives(s, a, j);
      } else {
        OnlyActorMoves(s, Advance(a), b);
        IsAt(AdvanceStep(s, a), j, p);
      }
  }

  lemma HolderKeepsHold(pc: Pc, j: JobId)
    requires Holds(pc, j)
    ensures HoldsSome(pc)
  {
  }

  lemma PopLives(s: State, a: AgentId, w: WorkerId, j: JobId)
    requires j in s.main
    ensures Somewhere(PopStep(s, a, w), j)
  {
    IsAt(PopStep(s, a, w), j, if a !in s.agents && MinMember(s.main) == j then Hand(a) else Main);
  }

  lemma HandLives(s: State, step: Step, j: JobId, a: AgentId)
    requires !step.Advance? && Lossless(s, step) && At(s, j, Hand(a))
    ensures At(Do(s, step), j, Hand(a))
  {
    HolderKeepsHold(s.agents[a].pc, j);
  }

  lemma OtherLives(s: State, step: Step, j: JobId, p: Place)
    requires !step.Advance? && Lossless(s, step) && j in s.docs && At(s, j, p)
    ensures Somewhere(Do(s, step), j)
  {
    if p.Hand? {
      HandLives(s, step, j, p.a);
      IsAt(Do(s, step), j, p);
    } else if step.Pop? && p == Main {
      PopLives(s, step.a, step.w, j);
    } else {
      IsAt(Do(s, step), j, p);
    }
  }

  lemma AccountedStep(s: State, step: Step, j: JobId)
    requires InvLife(s) && Lossless(s, step) && j in Do(s, step).docs
    ensures Accounted(Do(s, step), j)
  {
    var s' := Do(s, step);
    if j !in s.docs {
      NewDocs(s, step);
      IsAt(s', j, Hand(step.a));
    } else {
      DocsLifeStep(s, step, j);
      assert Accounted(s, j);
      if Somewhere(s, j) {
        var p :| At(s, j, p);
        if step.Advance? && step.a in s.agents {
          AdvanceLives(s, step.a, j, p);
        } else if step.Advance? {
          IsAt(s', j, p);
        } else {
          OtherLives(s, step, j, p);
        }
      }
    }
  }

  lemma InvLifeStep(s: State, step: Step)
    requires InvLife(s) && Lossless(s, step)
    ensures InvLife(Do(s, step))
  {
    DoKeeps(s, step);
    forall j | j in Do(s, step).docs ensures DocLife(Do(s, step).docs[j]) && Accounted(Do(s, step), j) {
      DocsLifeStep(s, step, j);
      AccountedStep(s, step, j);
    }
    if step.Advance? {
      AdvancePcsLife(s, step.a);
    } else {
      OtherPcsLife(s, step);
    }
  }

  lemma {:induction false} InvLifeRun(s: State, steps: seq<Step>)
    requires InvLife(s) && LosslessRun(s, steps)
    ensures InvLife(Run(s, steps))
    decreases steps
  {
    if steps != [] {
      InvLifeStep(s, steps[0]);
      InvLifeRun(Do(s, steps[0]), steps[1..]);
    }
  }

  // -------------------------------------------------------------------------
  // What that gives
  // -------------------------------------------------------------------------

  /** The status a job has wherever its pointer is. */
  predicate StatusAt(s: State, j: JobId, p: Place, status: Status)
    requires At(s, j, p)
  {
    match p
    case Main => status == Queued
    case Delayed => status in {Queued, Retrying}
    case Lock => status == Processing
    case Hand(a) =>
      match s.agents[a].pc
      case Submitted(_, _, _) => status == Queued
      case LanePopped(_) => status == Queued
      case LaneLoaded(_, _, _) => status == Queued
      case RetryPush(_, _, _) => status == Retrying
      case _ => status in {Queued, Retrying}
  }

  /** Every created job is finished and nowhere, or in exactly one place, which fits its status. */
  lemma NothingIsLost(steps: seq<Step>, j: JobId)
    requires LosslessRun(Init, steps) && j in Run(Init, steps).docs
    ensures var s := Run(Init, steps);
            if Final(s.docs[j].status) then forall p :: !At(s, j, p)
            else exists p :: At(s, j, p) && StatusAt(s, j, p, s.docs[j].status) && forall q :: At(s, j, q) ==> q == p
  {
    InitInv();
    InvLifeRun(Init, steps);
    PlaceFits(Run(Init, steps), j);
  }

  lemma PlaceFits(s: State, j: JobId)
    requires InvLife(s) && j in s.docs
    ensures if Final(s.docs[j].status) then forall p :: !At(s, j, p)
            else exists p :: At(s, j, p) && StatusAt(s, j, p, s.docs[j].status) && forall q :: At(s, j, q) ==> q == p
  {
    assert DocLife(s.docs[j]) && Accounted(s, j);
    forall p | At(s, j, p) ensures StatusAt(s, j, p, s.docs[j].status) {
      assert PlacePhase(s, j, p, PhaseOf(s.docs[j].history));
    }
  }

  /** Every step of such a run takes every job along one arrow of the lifecycle, or none. */
  lemma RefinesLifecycle(steps: seq<Step>, step: Step, j: JobId)
    requires LosslessRun(Init, steps) && j in Run(Init, steps).docs
    ensures var s := Run(Init, steps);
            && j in Do(s, step).docs
            && (LifecycleStep(s.docs[j], Do(s, step).docs[j]) || Stutter(s.docs[j], Do(s, step).docs[j]))
  {
    InitInv();
    InvLifeRun(Init, steps);
    StepWrites(Run(Init, steps), step, j);
    DocsLifeStep(Run(Init, steps), step, j);
  }
}
