/** Level two: one clock, a crash takes a whole process and its id is never used again, and a live
    lane spends at most 5000 ms outside its handler. */
module Timing {
  import opened Jobs
  import opened Protocol
  import opened Tokens
  import opened Progress
  import opened Safety

  // -------------------------------------------------------------------------
  // The assumptions
  // -------------------------------------------------------------------------

  /** Part of one pass of a worker lane, from BZPOPMIN to the last write or push. */
  predicate IsLane(pc: Pc) {
    match pc
    case LanePopped(_) => true
    case LaneLoaded(_, _, _) => true
    case LaneRunning(_, _, _) => true
    case LaneSettled(_, _, _) => true
    case LaneChecked(_, _, _, _, _) => true
    case Failing(_, _, _, _, _, cont) => cont.EndPass?
    case RetryPush(_, _, cont) => cont.EndPass?
    case _ => false
  }

  /** Between the claim's save and the finalizing write of a lane. */
  predicate Claimed(pc: Pc) {
    match pc
    case LaneRunning(_, _, _) => true
    case LaneSettled(_, _, _) => true
    case LaneChecked(_, _, _, _, _) => true
    case Failing(_, _, _, _, _, cont) => cont.EndPass?
    case _ => false
  }

  predicate ClaimedFor(agent: Agent, j: JobId) {
    Claimed(agent.pc) && agent.pc.job == j
  }

  /** The handler race ends after timeoutMs, everything else takes 5000 ms at most; the clock of a
      claim starts where its lock is computed. */
  function Deadline(pc: Pc): Option<int> {
    if pc.LaneLoaded? then Some(pc.at + pc.snap.timeoutMs + LOCK_BUFFER_MS)
    else if Claimed(pc) then Some(OrElse(pc.mem.startedAt, 0) + pc.mem.timeoutMs + LOCK_BUFFER_MS)
    else None
  }

  predicate InTime(s: State, time: int) {
    forall a | a in s.agents && Deadline(s.agents[a].pc).Some? :: time <= Deadline(s.agents[a].pc).value
  }

  predicate Timed(s: State, step: Step) {
    match step
    case Lookup(_, w, _) => w !in s.dead
    case BeginCancel(_, w, _) => w !in s.dead
    case Pop(_, w) => w !in s.dead
    case ListDue(_, w, _, _) => w !in s.dead
    case FindStale(_, w, _, _) => w !in s.dead
    case Abort(a) => a in s.agents ==> !IsLane(s.agents[a].pc)
    case Tick(time) => time > s.now ==> InTime(s, time)
    case _ => true
  }

  predicate TimedRun(s: State, steps: seq<Step>)
    decreases steps
  {
    steps == [] || (Timed(s, steps[0]) && TimedRun(Do(s, steps[0]), steps[1..]))
  }

  // -------------------------------------------------------------------------
  // The invariant
  // -------------------------------------------------------------------------

  /** The verdict handleFailure reached about the job object it was given. */
  predicate VerdictFits(verdict: Verdict, mem: Doc) {
    match verdict
    case Reschedule(_, note, _) => mem.attempts < mem.maxAttempts && !note.Exhausted?
    case Bury(note, _) => note.Exhausted? ==> mem.attempts >= mem.maxAttempts
  }

  /** The claim a lane works on is the one in the document, under a lock that outlasts the lane. */
  predicate ClaimOk(docs: map<JobId, Doc>, agent: Agent) {
    Claimed(agent.pc) ==>
      var mem := agent.pc.mem;
      && agent.pc.job in docs
      && var d := docs[agent.pc.job];
      && d.lockedBy == Some(agent.proc)
      && d.attempts == mem.attempts && d.maxAttempts == mem.maxAttempts
      && mem.startedAt.Some?
      && d.lockExpiresAt == Some(mem.startedAt.value + LockDuration(mem.timeoutMs))
      && (agent.pc.Failing? ==> agent.pc.owner == Some(agent.proc))
  }

  predicate LoadOk(docs: map<JobId, Doc>, pc: Pc) {
    pc.LaneLoaded? ==>
      pc.job in docs && pc.snap.maxAttempts == docs[pc.job].maxAttempts && pc.snap.lockExpiresAt == None
  }

  /** A recovery's snapshot belongs to a dead owner, and is of the claim in the document for as
      long as that owner's lock is there. */
  predicate EntryOk(docs: map<JobId, Doc>, dead: set<WorkerId>, e: Stale) {
    && e.job in docs && e.snap.lockedBy.Some? && e.snap.lockedBy.value in dead
    && e.snap.maxAttempts == docs[e.job].maxAttempts
    && (docs[e.job].lockedBy == e.snap.lockedBy ==> docs[e.job].attempts == e.snap.attempts)
  }

  predicate RecoveryOk(docs: map<JobId, Doc>, dead: set<WorkerId>, pc: Pc) {
    match pc
    case Failing(job, owner, mem, _, _, NextStale(rest)) =>
      && owner == mem.lockedBy && EntryOk(docs, dead, Stale(job, mem))
      && forall e | e in rest :: EntryOk(docs, dead, e)
    case RetryPush(_, _, NextStale(rest)) => forall e | e in rest :: EntryOk(docs, dead, e)
    case _ => true
  }

  predicate AgentTimed(docs: map<JobId, Doc>, dead: set<WorkerId>, now: int, agent: Agent) {
    && agent.proc !in dead
    && ClaimOk(docs, agent) && LoadOk(docs, agent.pc) && RecoveryOk(docs, dead, agent.pc)
    && (agent.pc.Failing? ==> VerdictFits(agent.pc.verdict, agent.pc.mem))
    && (Deadline(agent.pc).Some? ==> now <= Deadline(agent.pc).value)
  }

  /** The claims a document has seen, by phase. */
  predicate DocCounted(d: Doc) {
    var phase := PhaseOf(d.history);
    && (phase == Fresh ==> d.attempts == 0)
    && (phase == Ready || phase == Waiting ==> d.attempts == 0 || d.attempts < d.maxAttempts)
    && d.attempts <= MaxClaims(d)
    && (SaysExhausted(d.history) ==> phase == Done && d.attempts == MaxClaims(d))
  }

  predicate DocTimed(d: Doc) {
    DocCounted(d) && (d.lockedBy.None? <==> d.lockExpiresAt.None?)
  }

  predicate OneLane(s: State) {
    forall a, b | a in s.agents && b in s.agents && Claimed(s.agents[a].pc)
                  && ClaimedFor(s.agents[b], s.agents[a].pc.job) ::
      a == b
  }

  ghost predicate LaneBehind(s: State, j: JobId) {
    exists a :: a in s.agents && ClaimedFor(s.agents[a], j)
  }

  /** A lock held by a live process has a live lane behind it. */
  ghost predicate LocksLive(s: State) {
    forall j | j in s.docs && s.docs[j].lockedBy.Some? && s.docs[j].lockedBy.value !in s.dead ::
      LaneBehind(s, j)
  }

  predicate AgentsTimed(s: State) {
    forall a | a in s.agents :: AgentTimed(s.docs, s.dead, s.now, s.agents[a])
  }

  predicate DocsTimed(s: State) {
    forall j | j in s.docs :: DocTimed(s.docs[j])
  }

  ghost predicate InvTimed(s: State) {
    Inv(s) && AgentsTimed(s) && DocsTimed(s) && OneLane(s) && LocksLive(s)
  }

  // -------------------------------------------------------------------------
  // What a write to a document leaves alone
  // -------------------------------------------------------------------------

  predicate SameLock(d: Doc, d': Doc) {
    d'.lockedBy == d.lockedBy && d'.lockExpiresAt == d.lockExpiresAt && d'.attempts == d.attempts
  }

  /** Nobody else touches the lock behind a live lane. */
  lemma LockKept(s: State, a: AgentId, b: AgentId, d': Doc)
    requires InvTimed(s) && a in s.agents && b in s.agents && a != b && Claimed(s.agents[b].pc)
    requires s.agents[b].pc.job in s.docs && Written(s.docs, s.agents[a], s.agents[b].pc.job, d')
    ensures SameLock(s.docs[s.agents[b].pc.job], d')
  {
    var j := s.agents[b].pc.job;
    assert AgentTimed(s.docs, s.dead, s.now, s.agents[a]) && AgentTimed(s.docs, s.dead, s.now, s.agents[b]);
    assert At(s, j, Lock) && !At(s, j, Hand(a));
  }

  /** Attempts change only by a claim, which puts a live owner on the lock. */
  lemma AttemptsKept(s: State, a: AgentId, j: JobId, d': Doc)
    requires InvTimed(s) && a in s.agents && j in s.docs && Written(s.docs, s.agents[a], j, d')
    ensures d'.lockedBy == s.docs[j].lockedBy || d'.lockedBy.None? || d'.lockedBy.value !in s.dead
    ensures d'.attempts == s.docs[j].attempts || (d'.lockedBy.Some? && d'.lockedBy.value !in s.dead)
  {
    assert AgentTimed(s.docs, s.dead, s.now, s.agents[a]) && PcOk(s.docs, s.agents[a].pc);
  }

  // -------------------------------------------------------------------------
  // Documents
  // -------------------------------------------------------------------------

  lemma ClaimDocTimed(d: Doc, snap: Doc, w: WorkerId, at: int)
    requires DocCounted(d) && DocOk(d) && BeforeClaim(PhaseOf(d.history)) && snap.attempts == d.attempts
    ensures DocCounted(ClaimWrite(d, snap, w, at))
    ensures DocTimed(d) && snap.lockedBy == None && snap.lockExpiresAt == None ==> DocTimed(ClaimWrite(d, snap, w, at))
  {
  }

  lemma ResolveDocTimed(d: Doc, mem: Doc, verdict: Verdict, w: WorkerId, at: int)
    requires DocCounted(d) && DocOk(d) && d.lockedBy.Some?
    requires VerdictFits(verdict, mem) && mem.attempts == d.attempts && mem.maxAttempts == d.maxAttempts
    ensures DocTimed(FinalizeWrite(d, VerdictUpdate(verdict), VerdictEntry(verdict, w, at)))
  {
    RunningWasClaimed(d.history);
  }

  /** A job that runs has been claimed. */
  lemma {:induction false} RunningWasClaimed(h: seq<Entry>)
    requires PhaseOf(h) in {Running, Waiting, Done}
    ensures Claims(h) >= 1
  {
    var init, e := h[..|h| - 1], h[|h| - 1];
    if PhaseOf(init) in {Running, Waiting, Done} {
      RunningWasClaimed(init);
    }
  }

  lemma FinishDocTimed(d: Doc, value: string, wasCancelled: bool, w: WorkerId, at: int)
    requires DocCounted(d) && DocOk(d) && d.lockedBy.Some?
    ensures DocTimed(FinalizeWrite(d, FinishUpdate(value, wasCancelled, at), FinishEntry(wasCancelled, w, at)))
  {
  }

  lemma PromoteDocTimed(d: Doc, snap: Doc, w: WorkerId, at: int)
    requires DocCounted(d) && DocOk(d) && BeforePromotion(PhaseOf(d.history))
    ensures DocCounted(PromoteWrite(d, snap, w, at))
    ensures DocTimed(d) ==> DocTimed(PromoteWrite(d, snap, w, at))
  {
  }

  lemma ApiDocTimed(d: Doc, snap: Doc, at: int)
    requires DocCounted(d) && DocOk(d)
    ensures DocCounted(CancelWrite(d, snap, at)) && DocCounted(FlagWrite(d, snap, at))
    ensures DocTimed(d) ==> DocTimed(CancelWrite(d, snap, at)) && DocTimed(FlagWrite(d, snap, at))
  {
  }

  lemma WrittenDocTimed(s: State, a: AgentId, j: JobId, d': Doc)
    requires InvTimed(s) && a in s.agents && j in s.docs && Written(s.docs, s.agents[a], j, d')
    ensures DocTimed(d')
  {
    var d, w := s.docs[j], s.agents[a].proc;
    assert DocOk(d) && DocTimed(d) && PcOk(s.docs, s.agents[a].pc) && AgentTimed(s.docs, s.dead, s.now, s.agents[a]);
    assert Holds(s.agents[a].pc, j) ==> At(s, j, Hand(a));
    if d' != d {
      match s.agents[a].pc
      case LaneLoaded(_, snap, at) => ClaimDocTimed(d, snap, w, at);
      case LaneChecked(_, _, value, wasCancelled, at) => FinishDocTimed(d, value, wasCancelled, w, at);
      case Failing(_, _, mem, verdict, at, _) => ResolveDocTimed(d, mem, verdict, w, at);
      case MoveLoaded(_, snap, at) => PromoteDocTimed(d, snap, w, at);
      case CancelSave(_, snap, _, at) => ApiDocTimed(d, snap, at);
      case CancelFlag(_, snap, at) => ApiDocTimed(d, snap, at);
    }
  }

  lemma NewDocTimed(s: State, step: Step, j: JobId)
    requires j !in s.docs && j in Do(s, step).docs
    ensures DocTimed(Do(s, step).docs[j])
  {
    CreatedDoc(s, step, j);
  }

  lemma OldDocTimed(s: State, step: Step, j: JobId)
    requires InvTimed(s) && j in s.docs
    ensures j in Do(s, step).docs && DocTimed(Do(s, step).docs[j])
  {
    StepWrites(s, step, j);
    if step.Advance? && step.a in s.agents {
      WrittenDocTimed(s, step.a, j, Do(s, step).docs[j]);
    }
  }

  lemma DocsTimedStep(s: State, step: Step)
    requires InvTimed(s)
    ensures DocsTimed(Do(s, step))
  {
    forall j | j in Do(s, step).docs ensures DocTimed(Do(s, step).docs[j]) {
      if j in s.docs {
        OldDocTimed(s, step, j);
      } else {
        NewDocTimed(s, step, j);
      }
    }
  }

  // -------------------------------------------------------------------------
  // Activities
  // -------------------------------------------------------------------------

  lemma EntryKept(s: State, a: AgentId, docs': map<JobId, Doc>, dead': set<WorkerId>, e: Stale)
    requires InvTimed(s) && a in s.agents && EntryOk(s.docs, s.dead, e) && s.dead <= dead'
    requires e.job in docs' && Written(s.docs, s.agents[a], e.job, docs'[e.job])
    ensures EntryOk(docs', dead', e)
  {
    AttemptsKept(s, a, e.job, docs'[e.job]);
    FixedFields(s.docs, s.agents[a], e.job, docs'[e.job]);
  }

  ghost predicate AllWritten(s: State, a: AgentId, docs': map<JobId, Doc>)
    requires a in s.agents
  {
    forall j | j in s.docs :: j in docs' && Written(s.docs, s.agents[a], j, docs'[j])
  }

  lemma BystanderTimed(s: State, a: AgentId, b: AgentId, docs': map<JobId, Doc>)
    requires InvTimed(s) && a in s.agents && b in s.agents && a != b && AllWritten(s, a, docs')
    ensures AgentTimed(docs', s.dead, s.now, s.agents[b])
  {
    var agent := s.agents[b];
    var pc := agent.pc;
    assert AgentTimed(s.docs, s.dead, s.now, agent);
    if Claimed(pc) {
      LockKept(s, a, b, docs'[pc.job]);
      FixedFields(s.docs, s.agents[a], pc.job, docs'[pc.job]);
    } else if pc.LaneLoaded? {
      FixedFields(s.docs, s.agents[a], pc.job, docs'[pc.job]);
    } else if pc.Failing? {
      EntryKept(s, a, docs', s.dead, Stale(pc.job, pc.mem));
      RestKept(s, a, docs', pc.cont.rest);
    } else if pc.RetryPush? && pc.cont.NextStale? {
      RestKept(s, a, docs', pc.cont.rest);
    }
  }

  lemma RestKept(s: State, a: AgentId, docs': map<JobId, Doc>, rest: seq<Stale>)
    requires InvTimed(s) && a in s.agents && AllWritten(s, a, docs')
    requires forall e | e in rest :: EntryOk(s.docs, s.dead, e)
    ensures forall e | e in rest :: EntryOk(docs', s.dead, e)
  {
    forall e | e in rest ensures EntryOk(docs', s.dead, e) {
      EntryKept(s, a, docs', s.dead, e);
    }
  }

  lemma StartStaleTimed(docs: map<JobId, Doc>, dead: set<WorkerId>, now: int, w: WorkerId, rest: seq<Stale>)
    requires w !in dead && forall e | e in rest :: EntryOk(docs, dead, e)
    ensures StartStale(rest, now).Some? ==> AgentTimed(docs, dead, now, Agent(w, StartStale(rest, now).value))
  {
  }

  lemma ContinueTimed(docs: map<JobId, Doc>, dead: set<WorkerId>, now: int, w: WorkerId, cont: Cont)
    requires w !in dead && (cont.NextStale? ==> forall e | e in cont.rest :: EntryOk(docs, dead, e))
    ensures Continue(cont, now).Some? ==> AgentTimed(docs, dead, now, Agent(w, Continue(cont, now).value))
  {
    if cont.NextStale? {
      StartStaleTimed(docs, dead, now, w, cont.rest);
    }
  }

  /** Where its next step leaves an activity fits the documents that step leaves. */
  predicate NextTimed(s: State, agent: Agent) {
    var e := EffectOf(s, agent.proc, agent.pc);
    e.next.Some? ==> AgentTimed(e.docs, s.dead, s.now, Agent(agent.proc, e.next.value))
  }

  lemma LoadTimed(s: State, a: AgentId)
    requires InvTimed(s) && a in s.agents && s.agents[a].pc.LanePopped?
    ensures NextTimed(s, s.agents[a])
  {
    var j := s.agents[a].pc.job;
    assert At(s, j, Hand(a)) && DocTimed(s.docs[j]) && DocOk(s.docs[j]);
    assert !At(s, j, Lock);
    assert AgentTimed(s.docs, s.dead, s.now, s.agents[a]);
  }

  lemma ClaimTimed(s: State, agent: Agent)
    requires AgentTimed(s.docs, s.dead, s.now, agent) && PcOk(s.docs, agent.pc) && agent.pc.LaneLoaded?
    ensures NextTimed(s, agent)
  {
  }

  lemma FailNextTimed(s: State, docs': map<JobId, Doc>, w: WorkerId, job: JobId, verdict: Verdict, cont: Cont)
    requires w !in s.dead && (cont.NextStale? ==> forall e | e in cont.rest :: EntryOk(docs', s.dead, e))
    ensures FailNext(s, job, verdict, cont).Some? ==>
              AgentTimed(docs', s.dead, s.now, Agent(w, FailNext(s, job, verdict, cont).value))
  {
    ContinueTimed(docs', s.dead, s.now, w, cont);
  }

  lemma ResolveTimed(s: State, a: AgentId)
    requires InvTimed(s) && a in s.agents && s.agents[a].pc.Failing?
    ensures NextTimed(s, s.agents[a])
  {
    var Agent(w, Failing(job, _, _, verdict, _, cont)) := s.agents[a];
    var docs' := EffectOf(s, w, s.agents[a].pc).docs;
    assert AgentTimed(s.docs, s.dead, s.now, s.agents[a]);
    if cont.NextStale? {
      forall j | j in s.docs ensures j in docs' && Written(s.docs, s.agents[a], j, docs'[j]) {
        EffectWrites(s, s.agents[a], j);
      }
      RestKept(s, a, docs', cont.rest);
    }
    FailNextTimed(s, docs', w, job, verdict, cont);
    ContinueTimed(docs', s.dead, s.now, w, cont);
  }

  lemma RetryPushTimed(s: State, agent: Agent)
    requires AgentTimed(s.docs, s.dead, s.now, agent) && agent.pc.RetryPush?
    ensures NextTimed(s, agent)
  {
    ContinueTimed(s.docs, s.dead, s.now, agent.proc, agent.pc.cont);
  }

  lemma CheckTimed(s: State, agent: Agent)
    requires AgentTimed(s.docs, s.dead, s.now, agent) && agent.pc.LaneSettled?
    ensures NextTimed(s, agent)
  {
  }

  /** Positions that say nothing about claims. */
  predicate Plain(pc: Pc) {
    !Claimed(pc) && !pc.LaneLoaded? && !pc.Failing? && !pc.RetryPush?
  }

  lemma PlainNext(s: State, w: WorkerId, pc: Pc)
    requires !pc.LanePopped? && !pc.LaneLoaded? && !pc.LaneSettled? && !pc.Failing? && !pc.RetryPush? && !Waits(pc)
    ensures EffectOf(s, w, pc).next.Some? ==> Plain(EffectOf(s, w, pc).next.value)
  {
  }

  lemma ActorTimed(s: State, a: AgentId)
    requires InvTimed(s) && a in s.agents && !Waits(s.agents[a].pc)
    ensures NextTimed(s, s.agents[a])
  {
    var agent := s.agents[a];
    assert AgentTimed(s.docs, s.dead, s.now, agent) && PcOk(s.docs, agent.pc);
    if agent.pc.LanePopped? {
      LoadTimed(s, a);
    } else if agent.pc.LaneLoaded? {
      ClaimTimed(s, agent);
    } else if agent.pc.LaneSettled? {
      CheckTimed(s, agent);
    } else if agent.pc.Failing? {
      ResolveTimed(s, a);
    } else if agent.pc.RetryPush? {
      RetryPushTimed(s, agent);
    } else {
      PlainNext(s, agent.proc, agent.pc);
    }
  }

  lemma AdvanceTimed(s: State, a: AgentId)
    requires InvTimed(s) && a in s.agents && !Waits(s.agents[a].pc)
    ensures AgentsTimed(AdvanceStep(s, a))
  {
    var s' := AdvanceStep(s, a);
    forall j | j in s.docs ensures j in s'.docs && Written(s.docs, s.agents[a], j, s'.docs[j]) {
      AdvanceWrites(s, a, j);
    }
    ActorTimed(s, a);
    forall b | b in s'.agents && b != a ensures AgentTimed(s'.docs, s'.dead, s'.now, s'.agents[b]) {
      OnlyActorMoves(s, Advance(a), b);
      BystanderTimed(s, a, b, s'.docs);
    }
  }

  lemma LaneLockHolds(s: State, a: AgentId)
    requires InvTimed(s) && a in s.agents && Claimed(s.agents[a].pc)
    ensures s.agents[a].pc.job in s.docs && !Expired(s.docs[s.agents[a].pc.job], s.now)
  {
    assert AgentTimed(s.docs, s.dead, s.now, s.agents[a]);
  }

  /** An expired lock has lost its owner: a live lane would have finished before. */
  lemma ExpiredOwnerDead(s: State, j: JobId, asOf: int)
    requires InvTimed(s) && j in s.docs && Expired(s.docs[j], asOf) && asOf <= s.now
    ensures s.docs[j].lockedBy.Some? && s.docs[j].lockedBy.value in s.dead
  {
    assert DocOk(s.docs[j]);
    forall a | a in s.agents ensures !ClaimedFor(s.agents[a], j) {
      if Claimed(s.agents[a].pc) {
        LaneLockHolds(s, a);
      }
    }
  }

  lemma FindStaleTimed(s: State, a: AgentId, w: WorkerId, found: seq<Stale>, asOf: int)
    requires InvTimed(s) && w !in s.dead
    ensures AgentsTimed(FindStaleStep(s, a, w, found, asOf))
  {
    if asOf <= s.now && ListsStale(s.docs, found, asOf) {
      forall e | e in found ensures EntryOk(s.docs, s.dead, e) {
        ExpiredOwnerDead(s, e.job, asOf);
      }
      StartStaleTimed(s.docs, s.dead, s.now, w, found);
    }
  }

  /** Timed facts survive new documents, new deaths of other processes, and time within deadlines. */
  lemma AgentTimedMono(docs: map<JobId, Doc>, docs': map<JobId, Doc>, dead: set<WorkerId>, dead': set<WorkerId>,
                       now: int, now': int, agent: Agent)
    requires AgentTimed(docs, dead, now, agent) && dead <= dead' && agent.proc !in dead'
    requires forall j | j in docs :: j in docs' && docs'[j] == docs[j]
    requires Deadline(agent.pc).Some? ==> now' <= Deadline(agent.pc).value
    ensures AgentTimed(docs', dead', now', agent)
  {
  }

  /** From its handler on, a lane can go to its checkpoint or fail, and stay in time. */
  lemma LaneGoesOn(docs: map<JobId, Doc>, dead: set<WorkerId>, now: int, agent: Agent, err: Error, value: string)
    requires AgentTimed(docs, dead, now, agent)
    requires agent.pc.LaneRunning? || agent.pc.LaneSettled? || agent.pc.LaneChecked?
    ensures AgentTimed(docs, dead, now, Agent(agent.proc, LaneSettled(agent.pc.job, agent.pc.mem, value)))
    ensures AgentTimed(docs, dead, now,
                       Agent(agent.proc, FailPc(agent.pc.job, Some(agent.proc), agent.pc.mem, err, now, EndPass)))
  {
  }

  function SettleError(mem: Doc, outcome: Outcome): Error {
    if outcome.Throws? then outcome.err else Error(Unset, TimedOutAfter(mem.timeoutMs))
  }

  lemma SettleTimed(s: State, a: AgentId, outcome: Outcome)
    requires AgentsTimed(s)
    ensures AgentsTimed(SettleStep(s, a, outcome))
  {
    if a in s.agents && s.agents[a].pc.LaneRunning? {
      LaneGoesOn(s.docs, s.dead, s.now, s.agents[a], SettleError(s.agents[a].pc.mem, outcome),
        if outcome.Resolves? then outcome.value else "");
    }
  }

  lemma FaultTimed(s: State, a: AgentId, err: Error)
    requires AgentsTimed(s)
    ensures AgentsTimed(FaultStep(s, a, err))
  {
    if a in s.agents && (s.agents[a].pc.LaneSettled? || s.agents[a].pc.LaneChecked?) {
      LaneGoesOn(s.docs, s.dead, s.now, s.agents[a], err, "");
    }
  }

  lemma InsertsTimed(s: State, s': State)
    requires InvTimed(s) && Inserts(s, s')
    ensures AgentsTimed(s')
  {
    forall b | b in s'.agents ensures AgentTimed(s'.docs, s'.dead, s'.now, s'.agents[b]) {
      assert AgentTimed(s.docs, s.dead, s.now, s.agents[b]);
      if s'.agents[b] == s.agents[b] {
        AgentTimedMono(s.docs, s'.docs, s.dead, s'.dead, s.now, s'.now, s.agents[b]);
      }
    }
  }

  lemma PassiveTimed(s: State, step: Step)
    requires InvTimed(s) && Timed(s, step) && (step.Abort? || step.Crash? || step.Tick?)
    ensures AgentsTimed(Do(s, step))
  {
    var s' := Do(s, step);
    forall b | b in s'.agents ensures AgentTimed(s'.docs, s'.dead, s'.now, s'.agents[b]) {
      assert b in s.agents && s'.agents[b] == s.agents[b] && AgentTimed(s.docs, s.dead, s.now, s.agents[b]);
      AgentTimedMono(s.docs, s'.docs, s.dead, s'.dead, s.now, s'.now, s.agents[b]);
    }
  }

  lemma StartTimed(s: State, step: Step)
    requires AgentsTimed(s) && Timed(s, step) && (step.Lookup? || step.BeginCancel? || step.Pop? || step.ListDue?)
    ensures AgentsTimed(Do(s, step))
  {
    forall b | b in Do(s, step).agents && b in s.agents && Do(s, step).agents[b] == s.agents[b]
      ensures AgentTimed(s.docs, s.dead, s.now, Do(s, step).agents[b])
    {
    }
  }

  lemma AgentsTimedStep(s: State, step: Step)
    requires InvTimed(s) && Timed(s, step)
    ensures AgentsTimed(Do(s, step))
  {
    match step
    case Advance(a) => if a in s.agents && !Waits(s.agents[a].pc) { AdvanceTimed(s, a); }
    case FindStale(a, w, found, asOf) => FindStaleTimed(s, a, w, found, asOf);
    case Settle(a, outcome) => SettleTimed(s, a, outcome);
    case Fault(a, err) => FaultTimed(s, a, err);
    case Insert(a, id) =>
      InsertInserts(s, a, id);
      InsertsTimed(s, Do(s, step));
    case Abort(_) => PassiveTimed(s, step);
    case Crash(_) => PassiveTimed(s, step);
    case Tick(_) => PassiveTimed(s, step);
    case _ => StartTimed(s, step);
  }

  // -------------------------------------------------------------------------
  // One lane per claim, one claim per live lock
  // -------------------------------------------------------------------------

  lemma NextClaimed(s: State, w: WorkerId, pc: Pc)
    requires PcOk(s.docs, pc) && !Waits(pc) && EffectOf(s, w, pc).next.Some? && Claimed(EffectOf(s, w, pc).next.value)
    ensures (pc.LaneSettled? || pc.LaneLoaded?) && EffectOf(s, w, pc).next.value.job == pc.job
  {
    if pc.Failing? || pc.RetryPush? {
      ContinueOk(s.docs, pc.cont, s.now);
    } else if !pc.LanePopped? && !pc.LaneLoaded? && !pc.LaneSettled? {
      PlainNext(s, w, pc);
    }
  }

  /** A new claimed position belongs to a lane that was claimed for the same job, or held it. */
  lemma BecomesClaimed(s: State, step: Step, a: AgentId)
    requires a in Do(s, step).agents && Claimed(Do(s, step).agents[a].pc) && PcsOk(s)
    ensures a in s.agents
    ensures ClaimedFor(s.agents[a], Do(s, step).agents[a].pc.job)
            || (s.agents[a].pc.LaneLoaded? && s.agents[a].pc.job == Do(s, step).agents[a].pc.job)
  {
    if Actor(step) != Some(a) {
      OnlyActorMoves(s, step, a);
    } else if step.Advance? && a in s.agents && !Waits(s.agents[a].pc) {
      assert PcOk(s.docs, s.agents[a].pc);
      NextClaimed(s, s.agents[a].proc, s.agents[a].pc);
    }
  }

  /** Holding the job on the way to its claim, or working on the claim. */
  predicate Hosts(agent: Agent, j: JobId) {
    ClaimedFor(agent, j) || (agent.pc.LaneLoaded? && agent.pc.job == j)
  }

  lemma OneHost(s: State, a: AgentId, b: AgentId, j: JobId)
    requires InvTimed(s) && a in s.agents && b in s.agents && Hosts(s.agents[a], j) && Hosts(s.agents[b], j)
    ensures a == b
  {
    assert AgentTimed(s.docs, s.dead, s.now, s.agents[a]) && AgentTimed(s.docs, s.dead, s.now, s.agents[b]);
    assert At(s, j, if Claimed(s.agents[a].pc) then Lock else Hand(a));
    assert At(s, j, if Claimed(s.agents[b].pc) then Lock else Hand(b));
  }

  lemma OneLaneFrom(s: State, s': State)
    requires InvTimed(s)
    requires forall a | a in s'.agents && Claimed(s'.agents[a].pc) ::
               a in s.agents && Hosts(s.agents[a], s'.agents[a].pc.job)
    ensures OneLane(s')
  {
    forall a, b | a in s'.agents && b in s'.agents && Claimed(s'.agents[a].pc)
                  && ClaimedFor(s'.agents[b], s'.agents[a].pc.job)
      ensures a == b
    {
      OneHost(s, a, b, s'.agents[a].pc.job);
    }
  }

  lemma ClaimedWereHosts(s: State, step: Step)
    requires PcsOk(s)
    ensures forall a | a in Do(s, step).agents && Claimed(Do(s, step).agents[a].pc) ::
              a in s.agents && Hosts(s.agents[a], Do(s, step).agents[a].pc.job)
  {
    forall a | a in Do(s, step).agents && Claimed(Do(s, step).agents[a].pc)
      ensures a in s.agents && Hosts(s.agents[a], Do(s, step).agents[a].pc.job)
    {
      BecomesClaimed(s, step, a);
    }
  }

  /** A claimed lane goes on until its finalizing write, which takes the lock off. */
  lemma LaneAdvances(s: State, a: AgentId, j: JobId)
    requires a in s.agents && ClaimedFor(s.agents[a], j) && ClaimOk(s.docs, s.agents[a])
    requires j in AdvanceStep(s, a).docs && AdvanceStep(s, a).docs[j].lockedBy == s.docs[j].lockedBy
    ensures a in AdvanceStep(s, a).agents && ClaimedFor(AdvanceStep(s, a).agents[a], j)
  {
  }

  lemma LaneSettles(s: State, step: Step, a: AgentId, j: JobId)
    requires Actor(step) == Some(a) && !step.Advance? && Timed(s, step)
    requires a in s.agents && ClaimedFor(s.agents[a], j)
    ensures a in Do(s, step).agents && ClaimedFor(Do(s, step).agents[a], j)
  {
  }

  /** The lane behind a live lock stays there until the lock goes. */
  lemma LaneStays(s: State, step: Step, a: AgentId, j: JobId)
    requires Timed(s, step) && a in s.agents && ClaimedFor(s.agents[a], j) && ClaimOk(s.docs, s.agents[a])
    requires j in Do(s, step).docs && Do(s, step).docs[j].lockedBy == s.docs[j].lockedBy
    requires s.agents[a].proc !in Do(s, step).dead
    ensures a in Do(s, step).agents && ClaimedFor(Do(s, step).agents[a], j)
  {
    if Actor(step) == Some(a) && step.Advance? {
      LaneAdvances(s, a, j);
    } else if Actor(step) == Some(a) {
      LaneSettles(s, step, a, j);
    } else {
      OnlyActorMoves(s, step, a);
    }
  }

  /** A lock that appears is the claim of the lane that takes the step. */
  lemma LockAppears(s: State, step: Step, j: JobId)
    requires j in s.docs && j in Do(s, step).docs && Do(s, step).docs[j].lockedBy.Some?
    requires Do(s, step).docs[j].lockedBy != s.docs[j].lockedBy
    ensures step.Advance? && step.a in Do(s, step).agents && ClaimedFor(Do(s, step).agents[step.a], j)
  {
    StepWrites(s, step, j);
    assert s.agents[step.a].pc.LaneLoaded?;
  }

  lemma NewDocUnlocked(s: State, step: Step, j: JobId)
    requires j !in s.docs && j in Do(s, step).docs
    ensures Do(s, step).docs[j].lockedBy.None?
  {
    NewDocs(s, step);
  }

  lemma LockStays(s: State, step: Step, j: JobId)
    requires LocksLive(s) && AgentsTimed(s) && Timed(s, step) && j in s.docs && j in Do(s, step).docs
    requires s.docs[j].lockedBy.Some? && Do(s, step).docs[j].lockedBy == s.docs[j].lockedBy
    requires s.docs[j].lockedBy.value !in Do(s, step).dead
    ensures LaneBehind(Do(s, step), j)
  {
    assert s.dead <= Do(s, step).dead;
    var a :| a in s.agents && ClaimedFor(s.agents[a], j);
    assert AgentTimed(s.docs, s.dead, s.now, s.agents[a]);
    LaneStays(s, step, a, j);
  }

  lemma LocksLiveStep(s: State, step: Step)
    requires InvTimed(s) && Timed(s, step)
    ensures LocksLive(Do(s, step))
  {
    var s' := Do(s, step);
    forall j | j in s'.docs && s'.docs[j].lockedBy.Some? && s'.docs[j].lockedBy.value !in s'.dead
      ensures LaneBehind(s', j)
    {
      if j !in s.docs {
        NewDocUnlocked(s, step, j);
      } else if s'.docs[j].lockedBy == s.docs[j].lockedBy {
        LockStays(s, step, j);
      } else {
        LockAppears(s, step, j);
      }
    }
  }

  // -------------------------------------------------------------------------
  // Every timed run keeps the invariant
  // -------------------------------------------------------------------------

  lemma InvTimedStep(s: State, step: Step)
    requires InvTimed(s) && Timed(s, step)
    ensures InvTimed(Do(s, step))
  {
    DoKeeps(s, step);
    AgentsTimedStep(s, step);
    DocsTimedStep(s, step);
    ClaimedWereHosts(s, step);
    OneLaneFrom(s, Do(s, step));
    LocksLiveStep(s, step);
  }

  lemma {:induction false} InvTimedRun(s: State, steps: seq<Step>)
    requires InvTimed(s) && TimedRun(s, steps)
    ensures InvTimed(Run(s, steps))
    decreases steps
  {
    if steps != [] {
      InvTimedStep(s, steps[0]);
      InvTimedRun(Do(s, steps[0]), steps[1..]);
    }
  }

  lemma TimedFromInit(steps: seq<Step>)
    requires TimedRun(Init, steps)
    ensures InvTimed(Run(Init, steps))
  {
    InitInv();
    InvTimedRun(Init, steps);
  }

  // -------------------------------------------------------------------------
  // What that gives
  // -------------------------------------------------------------------------

  /** At most one live lane is between its claim and its finalizing write for a job. */
  lemma AtMostOneLane(steps: seq<Step>, a: AgentId, b: AgentId, j: JobId)
    requires TimedRun(Init, steps)
    requires a in Run(Init, steps).agents && ClaimedFor(Run(Init, steps).agents[a], j)
    requires b in Run(Init, steps).agents && ClaimedFor(Run(Init, steps).agents[b], j)
    ensures a == b
  {
    TimedFromInit(steps);
  }

  /** The finalizing write of a live lane always lands: its lock outlasts it. */
  lemma LaneWriteLands(steps: seq<Step>, a: AgentId)
    requires TimedRun(Init, steps)
    requires a in Run(Init, steps).agents && Claimed(Run(Init, steps).agents[a].pc)
    ensures var s := Run(Init, steps); Owned(s.docs, s.agents[a].pc.job, Some(s.agents[a].proc))
  {
    TimedFromInit(steps);
    var s := Run(Init, steps);
    assert AgentTimed(s.docs, s.dead, s.now, s.agents[a]);
  }

  /** A recovery's write lands only on the claim of a dead process, never on a live lane's, and on
      the very claim it decided about. */
  lemma RecoverySparesLiveLanes(steps: seq<Step>, r: AgentId, b: AgentId)
    requires TimedRun(Init, steps)
    requires var s := Run(Init, steps);
             && r in s.agents && s.agents[r].pc.Failing? && s.agents[r].pc.cont.NextStale?
             && Owned(s.docs, s.agents[r].pc.job, s.agents[r].pc.owner)
    ensures var s := Run(Init, steps);
            && s.agents[r].pc.owner.Some? && s.agents[r].pc.owner.value in s.dead
            && s.docs[s.agents[r].pc.job].attempts == s.agents[r].pc.mem.attempts
            && (b in s.agents ==> !ClaimedFor(s.agents[b], s.agents[r].pc.job))
  {
    TimedFromInit(steps);
    var s := Run(Init, steps);
    assert AgentTimed(s.docs, s.dead, s.now, s.agents[r]);
    if b in s.agents {
      assert AgentTimed(s.docs, s.dead, s.now, s.agents[b]);
    }
  }

  /** A job is claimed at most max(1, maxAttempts) times, waits for a retry only while claims are
      left, and was claimed exactly that often if it was buried as exhausted. */
  lemma ClaimsBounded(steps: seq<Step>, j: JobId)
    requires TimedRun(Init, steps) && j in Run(Init, steps).docs
    ensures var d := Run(Init, steps).docs[j];
            && Claims(d.history) <= MaxClaims(d)
            && (PhaseOf(d.history) == Waiting ==> Claims(d.history) < d.maxAttempts)
            && (SaysExhausted(d.history) ==> Claims(d.history) == MaxClaims(d))
  {
    TimedFromInit(steps);
    var d := Run(Init, steps).docs[j];
    assert DocTimed(d) && DocOk(d);
    if PhaseOf(d.history) == Waiting {
      RunningWasClaimed(d.history);
    }
  }
}
