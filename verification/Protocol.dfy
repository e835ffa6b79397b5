/** The job protocol as a transition system. One step is one awaited operation of one activity:
    a submit or cancel request, one pass of a worker lane over one job, one promotion pass, or one
    recovery pass. Everything an activity does between two awaited operations belongs to the step
    before it. A step that is not possible leaves the state as it is, so every sequence of steps
    is a run (src/worker/worker.js, src/modules/jobs/jobs.controller.js, src/queue/claim.js). */
module Protocol {
  import opened Jobs
  import opened Queue

  type AgentId = nat

  /** A document found by a recovery scan, as it was when it was found. */
  datatype Stale = Stale(job: JobId, snap: Doc)

  /** What follows handleFailure: the end of the lane's pass, or the rest of the recovery scan. */
  datatype Cont = EndPass | NextStale(rest: seq<Stale>)

  datatype Outcome = Resolves(value: string) | Throws(err: Error) | TimesOut

  /** Where an activity is, with its local variables; each name tells the last operation done or
      the one awaited next. */
  datatype Pc =
    | Submitting(req: Request, scheduled: Option<int>)
    | Submitted(job: JobId, priority: int, scheduled: Option<int>)
    | CancelMain(job: JobId, snap: Doc)
    | CancelDelayed(job: JobId, snap: Doc, removed: bool)
    | CancelSave(job: JobId, snap: Doc, removed: bool, at: int)
    | CancelFlag(job: JobId, snap: Doc, at: int)
    | LanePopped(job: JobId)
    | LaneLoaded(job: JobId, snap: Doc, at: int)
    | LaneRunning(job: JobId, mem: Doc, since: int)
    | LaneSettled(job: JobId, mem: Doc, value: string)
    | LaneChecked(job: JobId, mem: Doc, value: string, wasCancelled: bool, at: int)
    | Failing(job: JobId, owner: Option<WorkerId>, mem: Doc, verdict: Verdict, at: int, cont: Cont)
    | RetryPush(job: JobId, readyAt: int, cont: Cont)
    | Removing(todo: seq<JobId>, got: seq<JobId>)
    | Moving(got: seq<JobId>)
    | MoveLoaded(got: seq<JobId>, snap: Doc, at: int)
    | MoveSaved(got: seq<JobId>, priority: int)

  datatype Agent = Agent(proc: WorkerId, pc: Pc)

  datatype State = State(
    docs: map<JobId, Doc>,
    main: ZSet,
    delayed: ZSet,
    now: int,
    agents: map<AgentId, Agent>,
    dead: set<WorkerId>)

  datatype Step =
    | Lookup(a: AgentId, w: WorkerId, req: Request)
    | Insert(a: AgentId, id: JobId)
    | BeginCancel(a: AgentId, w: WorkerId, job: JobId)
    | Pop(a: AgentId, w: WorkerId)
    | ListDue(a: AgentId, w: WorkerId, due: seq<JobId>, asOf: int)
    | FindStale(a: AgentId, w: WorkerId, found: seq<Stale>, asOf: int)
    | Settle(a: AgentId, outcome: Outcome)
    | Fault(a: AgentId, err: Error)
    | Advance(a: AgentId)
    | Abort(a: AgentId)
    | Crash(w: WorkerId)
    | Tick(time: int)

  const Init := State(map[], map[], map[], 0, map[], {})

  /** The activity goes on at `next`, or is over. */
  function Become(agents: map<AgentId, Agent>, a: AgentId, w: WorkerId, next: Option<Pc>): map<AgentId, Agent> {
    if next.Some? then agents[a := Agent(w, next.value)] else agents - {a}
  }

  /** What the next awaited operation of an activity does to the stores, and where it leaves the
      activity. */
  datatype Effect = Effect(docs: map<JobId, Doc>, main: ZSet, delayed: ZSet, next: Option<Pc>)

  function Apply(s: State, a: AgentId, w: WorkerId, e: Effect): State {
    State(e.docs, e.main, e.delayed, s.now, Become(s.agents, a, w, e.next), s.dead)
  }

  function Goto(s: State, next: Option<Pc>): Effect {
    Effect(s.docs, s.main, s.delayed, next)
  }

  function Write(s: State, job: JobId, doc: Doc, next: Option<Pc>): Effect {
    Effect(s.docs[job := doc], s.main, s.delayed, next)
  }

  // -------------------------------------------------------------------------
  // submitJob
  // -------------------------------------------------------------------------

  predicate KeyTaken(docs: map<JobId, Doc>, key: string) {
    exists j | j in docs :: docs[j].idempotencyKey == key
  }

  function LookupStep(s: State, a: AgentId, w: WorkerId, req: Request): State {
    if a in s.agents || !WellFormed(req) || KeyTaken(s.docs, req.idempotencyKey) then s
    else s.(agents := s.agents[a := Agent(w, Submitting(req, FutureSchedule(req, s.now)))])
  }

  // The unique index on idempotencyKey rejects the second of two racing creations.
  function InsertStep(s: State, a: AgentId, id: JobId): State {
    if a !in s.agents || !s.agents[a].pc.Submitting? || id in s.docs then s
    else
      var Agent(w, Submitting(req, scheduled)) := s.agents[a];
      if KeyTaken(s.docs, req.idempotencyKey) then s.(agents := s.agents - {a})
      else
        var doc := NewDoc(req, scheduled, s.now);
        s.(
          docs := s.docs[id := doc],
          agents := s.agents[a := Agent(w, Submitted(id, doc.priority, scheduled))])
  }

  function SubmitPush(s: State, job: JobId, priority: int, scheduled: Option<int>): Effect {
    if scheduled.Some? then Effect(s.docs, s.main, s.delayed[job := scheduled.value], None)
    else Effect(s.docs, s.main[job := ComputeScore(priority, s.now)], s.delayed, None)
  }

  // -------------------------------------------------------------------------
  // cancelJob
  // -------------------------------------------------------------------------

  function BeginCancelStep(s: State, a: AgentId, w: WorkerId, job: JobId): State {
    if a in s.agents || job !in s.docs then s
    else
      var snap := s.docs[job];
      if snap.status in {Queued, Retrying} then
        s.(agents := s.agents[a := Agent(w, CancelMain(job, snap))])
      else if snap.status == Processing then
        s.(agents := s.agents[a := Agent(w, CancelFlag(job, snap, s.now))])
      else s
  }

  function CancelZremMain(s: State, job: JobId, snap: Doc): Effect {
    Effect(s.docs, s.main - {job}, s.delayed, Some(CancelDelayed(job, snap, job in s.main)))
  }

  function CancelZremDelayed(s: State, job: JobId, snap: Doc, removed: bool): Effect {
    Effect(s.docs, s.main, s.delayed - {job}, Some(CancelSave(job, snap, removed || job in s.delayed, s.now)))
  }

  // -------------------------------------------------------------------------
  // runLane and processJob
  // -------------------------------------------------------------------------

  function PopStep(s: State, a: AgentId, w: WorkerId): State {
    if a in s.agents || s.main == map[] then s
    else
      var job := MinMember(s.main);
      s.(main := s.main - {job}, agents := s.agents[a := Agent(w, LanePopped(job))])
  }

  function Load(s: State, job: JobId): Effect {
    Goto(s, if job in s.docs then Some(LaneLoaded(job, s.docs[job], s.now)) else None)
  }

  function Claim(s: State, w: WorkerId, job: JobId, snap: Doc, at: int): Effect
    requires job in s.docs
  {
    Write(s, job, ClaimWrite(s.docs[job], snap, w, at), Some(LaneRunning(job, ClaimedCopy(snap, w, at), s.now)))
  }

  function FailPc(job: JobId, owner: Option<WorkerId>, mem: Doc, err: Error, now: int, cont: Cont): Pc {
    Failing(job, owner, mem, Decide(mem, err, now), now, cont)
  }

  function SettleStep(s: State, a: AgentId, outcome: Outcome): State {
    if a !in s.agents || !s.agents[a].pc.LaneRunning? then s
    else
      var Agent(w, LaneRunning(job, mem, since)) := s.agents[a];
      match outcome
      case Resolves(value) => s.(agents := s.agents[a := Agent(w, LaneSettled(job, mem, value))])
      case Throws(err) => s.(agents := s.agents[a := Agent(w, FailPc(job, Some(w), mem, err, s.now, EndPass))])
      case TimesOut =>
        if s.now < since + mem.timeoutMs then s
        else
          var err := Error(Unset, TimedOutAfter(mem.timeoutMs));
          s.(agents := s.agents[a := Agent(w, FailPc(job, Some(w), mem, err, s.now, EndPass))])
  }

  function Check(s: State, job: JobId, mem: Doc, value: string): Effect {
    Goto(s, Some(LaneChecked(job, mem, value, job in s.docs && s.docs[job].cancellationRequested, s.now)))
  }

  // A database error thrown by the checkpoint read or the finalizing write, which then has not
  // landed, is caught like a handler error.
  function FaultStep(s: State, a: AgentId, err: Error): State {
    if a !in s.agents || !(s.agents[a].pc.LaneSettled? || s.agents[a].pc.LaneChecked?) then s
    else
      var Agent(w, pc) := s.agents[a];
      s.(agents := s.agents[a := Agent(w, FailPc(pc.job, Some(w), pc.mem, err, s.now, EndPass))])
  }

  // -------------------------------------------------------------------------
  // finalizeJob: the owner-conditional write
  // -------------------------------------------------------------------------

  predicate Owned(docs: map<JobId, Doc>, job: JobId, owner: Option<WorkerId>) {
    job in docs && docs[job].lockedBy == owner
  }

  function FinishUpdate(value: string, wasCancelled: bool, at: int): Update {
    if wasCancelled then HonorCancellation else Complete(value, at)
  }

  function FinishEntry(wasCancelled: bool, w: WorkerId, at: int): Entry {
    if wasCancelled then Entry(Cancelled, Some(w), CancellationHonored, at)
    else Entry(Completed, Some(w), JobCompleted, at)
  }

  function Finish(s: State, w: WorkerId, job: JobId, value: string, wasCancelled: bool, at: int): Effect {
    if !Owned(s.docs, job, Some(w)) then Goto(s, None)
    else
      var doc := FinalizeWrite(s.docs[job], FinishUpdate(value, wasCancelled, at), FinishEntry(wasCancelled, w, at));
      Write(s, job, doc, None)
  }

  // -------------------------------------------------------------------------
  // handleFailure and recoverStaleJobs
  // -------------------------------------------------------------------------

  function LockLost(snap: Doc): Error {
    Error(Unset, LockExpired(snap.lockedBy))
  }

  function StartStale(rest: seq<Stale>, now: int): Option<Pc> {
    if rest == [] then None
    else
      var e := rest[0];
      Some(FailPc(e.job, e.snap.lockedBy, e.snap, LockLost(e.snap), now, NextStale(rest[1..])))
  }

  function Continue(cont: Cont, now: int): Option<Pc> {
    if cont.EndPass? then None else StartStale(cont.rest, now)
  }

  function FailNext(s: State, job: JobId, verdict: Verdict, cont: Cont): Option<Pc> {
    if verdict.Reschedule? then Some(RetryPush(job, verdict.readyAt, cont)) else Continue(cont, s.now)
  }

  function Resolve(s: State, w: WorkerId, job: JobId, owner: Option<WorkerId>, verdict: Verdict, at: int,
                   cont: Cont): Effect {
    if !Owned(s.docs, job, owner) then Goto(s, Continue(cont, s.now))
    else
      var doc := FinalizeWrite(s.docs[job], VerdictUpdate(verdict), VerdictEntry(verdict, w, at));
      Write(s, job, doc, FailNext(s, job, verdict, cont))
  }

  function PushRetry(s: State, job: JobId, readyAt: int, cont: Cont): Effect {
    Effect(s.docs, s.main, s.delayed[job := readyAt], Continue(cont, s.now))
  }

  predicate Expired(d: Doc, asOf: int) {
    d.status == Processing && d.lockExpiresAt.Some? && d.lockExpiresAt.value < asOf
  }

  /** `found` lists, in some order, exactly the documents a scan as of `asOf` finds. */
  predicate ListsStale(docs: map<JobId, Doc>, found: seq<Stale>, asOf: int) {
    && NoDup(found)
    && (forall e | e in found :: e.job in docs && docs[e.job] == e.snap && Expired(e.snap, asOf))
    && (forall j | j in docs && Expired(docs[j], asOf) :: Stale(j, docs[j]) in found)
  }

  function FindStaleStep(s: State, a: AgentId, w: WorkerId, found: seq<Stale>, asOf: int): State {
    if a in s.agents || asOf > s.now || !ListsStale(s.docs, found, asOf) then s
    else s.(agents := Become(s.agents, a, w, StartStale(found, s.now)))
  }

  // -------------------------------------------------------------------------
  // promoteDueDelayedJobs and promoteReadyJobs
  // -------------------------------------------------------------------------

  function StartMoving(got: seq<JobId>): Option<Pc> {
    if got == [] then None else Some(Moving(got))
  }

  function StartRemoving(todo: seq<JobId>, got: seq<JobId>): Option<Pc> {
    if todo == [] then StartMoving(got) else Some(Removing(todo, got))
  }

  function ListDueStep(s: State, a: AgentId, w: WorkerId, due: seq<JobId>, asOf: int): State {
    if a in s.agents || asOf > s.now || !ListsDue(s.delayed, due, asOf) then s
    else s.(agents := Become(s.agents, a, w, StartRemoving(due, [])))
  }

  function Remove(s: State, todo: seq<JobId>, got: seq<JobId>): Effect
    requires todo != []
  {
    Effect(s.docs, s.main, s.delayed - {todo[0]},
      StartRemoving(todo[1..], if todo[0] in s.delayed then got + [todo[0]] else got))
  }

  function MoveLoad(s: State, got: seq<JobId>): Effect
    requires got != []
  {
    Goto(s, if got[0] in s.docs then Some(MoveLoaded(got, s.docs[got[0]], s.now)) else StartMoving(got[1..]))
  }

  function MoveSave(s: State, w: WorkerId, got: seq<JobId>, snap: Doc, at: int): Effect
    requires got != [] && got[0] in s.docs
  {
    Write(s, got[0], PromoteWrite(s.docs[got[0]], snap, w, at), Some(MoveSaved(got, snap.priority)))
  }

  function MovePush(s: State, got: seq<JobId>, priority: int): Effect
    requires got != []
  {
    Effect(s.docs, s.main[got[0] := ComputeScore(priority, s.now)], s.delayed, StartMoving(got[1..]))
  }

  // -------------------------------------------------------------------------
  // Steps and runs
  // -------------------------------------------------------------------------

  /** The next awaited operation. Jobs are never deleted and passes never go on with an empty list,
      so the activity ends for lack of a document or a list only in states no run reaches. */
  function EffectOf(s: State, w: WorkerId, pc: Pc): Effect {
    match pc
    case Submitted(job, priority, scheduled) => SubmitPush(s, job, priority, scheduled)
    case CancelMain(job, snap) => CancelZremMain(s, job, snap)
    case CancelDelayed(job, snap, removed) => CancelZremDelayed(s, job, snap, removed)
    case CancelSave(job, snap, _, at) =>
      if job in s.docs then Write(s, job, CancelWrite(s.docs[job], snap, at), None) else Goto(s, None)
    case CancelFlag(job, snap, at) =>
      if job in s.docs then Write(s, job, FlagWrite(s.docs[job], snap, at), None) else Goto(s, None)
    case LanePopped(job) => Load(s, job)
    case LaneLoaded(job, snap, at) => if job in s.docs then Claim(s, w, job, snap, at) else Goto(s, None)
    case LaneSettled(job, mem, value) => Check(s, job, mem, value)
    case LaneChecked(job, _, value, wasCancelled, at) => Finish(s, w, job, value, wasCancelled, at)
    case Failing(job, owner, _, verdict, at, cont) => Resolve(s, w, job, owner, verdict, at, cont)
    case RetryPush(job, readyAt, cont) => PushRetry(s, job, readyAt, cont)
    case Removing(todo, got) => if todo != [] then Remove(s, todo, got) else Goto(s, None)
    case Moving(got) => if got != [] then MoveLoad(s, got) else Goto(s, None)
    case MoveLoaded(got, snap, at) =>
      if got != [] && got[0] in s.docs then MoveSave(s, w, got, snap, at) else Goto(s, None)
    case MoveSaved(got, priority) => if got != [] then MovePush(s, got, priority) else Goto(s, None)
    case _ => Goto(s, Some(pc))
  }

  /** A submission waits for its Insert and a running handler for its Settle; every other activity
      goes on by itself. */
  predicate Waits(pc: Pc) {
    pc.Submitting? || pc.LaneRunning?
  }

  function AdvanceStep(s: State, a: AgentId): State {
    if a !in s.agents || Waits(s.agents[a].pc) then s
    else Apply(s, a, s.agents[a].proc, EffectOf(s, s.agents[a].proc, s.agents[a].pc))
  }

  function CrashStep(s: State, w: WorkerId): State {
    s.(
      agents := map a | a in s.agents && s.agents[a].proc != w :: s.agents[a],
      dead := s.dead + {w})
  }

  function Do(s: State, step: Step): State {
    match step
    case Lookup(a, w, req) => LookupStep(s, a, w, req)
    case Insert(a, id) => InsertStep(s, a, id)
    case BeginCancel(a, w, job) => BeginCancelStep(s, a, w, job)
    case Pop(a, w) => PopStep(s, a, w)
    case ListDue(a, w, due, asOf) => ListDueStep(s, a, w, due, asOf)
    case FindStale(a, w, found, asOf) => FindStaleStep(s, a, w, found, asOf)
    case Settle(a, outcome) => SettleStep(s, a, outcome)
    case Fault(a, err) => FaultStep(s, a, err)
    case Advance(a) => AdvanceStep(s, a)
    case Abort(a) => s.(agents := s.agents - {a})
    case Crash(w) => CrashStep(s, w)
    case Tick(time) => s.(now := Max(s.now, time))
  }

  function Run(s: State, steps: seq<Step>): State
    decreases steps
  {
    if steps == [] then s else Run(Do(s, steps[0]), steps[1..])
  }

  lemma {:induction false} RunAppend(s: State, first: seq<Step>, second: seq<Step>)
    ensures Run(s, first + second) == Run(Run(s, first), second)
    decreases first
  {
    if first == [] {
      assert first + second == second;
    } else {
      assert (first + second)[1..] == first[1..] + second;
      RunAppend(Do(s, first[0]), first[1..], second);
    }
  }

  lemma RunOne(s: State, step: Step)
    ensures Run(s, [step]) == Do(s, step)
  {
    assert Run(s, [step]) == Run(Do(s, step), []);
  }

  lemma RunTwo(s: State, first: Step, second: Step)
    ensures Run(s, [first, second]) == Do(Do(s, first), second)
  {
    assert [first, second][1..] == [second];
    RunOne(Do(s, first), second);
  }

  // -------------------------------------------------------------------------
  // All the ways a document changes
  // -------------------------------------------------------------------------

  /** The document of job j after activity `agent` takes its next step: as it was, or with the one
      write that step makes to it. */
  predicate Written(docs: map<JobId, Doc>, agent: Agent, j: JobId, d': Doc)
    requires j in docs
  {
    var d := docs[j];
    var w := agent.proc;
    d' == d ||
    match agent.pc
    case LaneLoaded(job, snap, at) => job == j && d' == ClaimWrite(d, snap, w, at)
    case LaneChecked(job, _, value, wasCancelled, at) =>
      && job == j && d.lockedBy == Some(w)
      && d' == FinalizeWrite(d, FinishUpdate(value, wasCancelled, at), FinishEntry(wasCancelled, w, at))
    case Failing(job, owner, _, verdict, at, _) =>
      && job == j && d.lockedBy == owner
      && d' == FinalizeWrite(d, VerdictUpdate(verdict), VerdictEntry(verdict, w, at))
    case MoveLoaded(got, snap, at) => got != [] && got[0] == j && d' == PromoteWrite(d, snap, w, at)
    case CancelSave(job, snap, _, at) => job == j && d' == CancelWrite(d, snap, at)
    case CancelFlag(job, snap, at) => job == j && d' == FlagWrite(d, snap, at)
    case _ => false
  }

  /** The positions whose next operation writes a document. */
  predicate Writes(pc: Pc) {
    pc.LaneLoaded? || pc.LaneChecked? || pc.Failing? || pc.MoveLoaded? || pc.CancelSave? || pc.CancelFlag?
  }

  lemma EffectReads(s: State, w: WorkerId, pc: Pc)
    requires !Writes(pc)
    ensures EffectOf(s, w, pc).docs == s.docs
  {
  }

  lemma EffectWrites(s: State, agent: Agent, j: JobId)
    requires j in s.docs
    ensures var docs' := EffectOf(s, agent.proc, agent.pc).docs;
            j in docs' && Written(s.docs, agent, j, docs'[j])
  {
    if !Writes(agent.pc) {
      EffectReads(s, agent.proc, agent.pc);
    }
  }

  lemma AdvanceWrites(s: State, a: AgentId, j: JobId)
    requires j in s.docs && a in s.agents
    ensures j in AdvanceStep(s, a).docs && Written(s.docs, s.agents[a], j, AdvanceStep(s, a).docs[j])
  {
    EffectWrites(s, s.agents[a], j);
  }

  lemma StepWrites(s: State, step: Step, j: JobId)
    requires j in s.docs
    ensures j in Do(s, step).docs
    ensures if step.Advance? && step.a in s.agents then Written(s.docs, s.agents[step.a], j, Do(s, step).docs[j])
            else Do(s, step).docs[j] == s.docs[j]
  {
    if step.Advance? && step.a in s.agents {
      AdvanceWrites(s, step.a, j);
    }
  }

  /** No write changes what a submission fixed. */
  lemma FixedFields(docs: map<JobId, Doc>, agent: Agent, j: JobId, d': Doc)
    requires j in docs && Written(docs, agent, j, d')
    ensures d'.maxAttempts == docs[j].maxAttempts && d'.timeoutMs == docs[j].timeoutMs
    ensures d'.priority == docs[j].priority && d'.idempotencyKey == docs[j].idempotencyKey
    ensures d'.scheduledFor == docs[j].scheduledFor
  {
  }

  /** The activity a step belongs to. */
  function Actor(step: Step): Option<AgentId> {
    match step
    case Crash(_) => None
    case Tick(_) => None
    case _ => Some(step.a)
  }

  /** What an Insert leaves in place. */
  predicate Inserts(s: State, s': State) {
    && s'.now == s.now && s'.dead == s.dead && s'.main == s.main && s'.delayed == s.delayed
    && (forall j | j in s.docs :: j in s'.docs && s'.docs[j] == s.docs[j])
    && (forall b | b in s'.agents :: b in s.agents && s'.agents[b].proc == s.agents[b].proc)
    && (forall b | b in s'.agents :: s'.agents[b] == s.agents[b] || s'.agents[b].pc.Submitted?)
  }

  lemma InsertInserts(s: State, a: AgentId, id: JobId)
    ensures Inserts(s, InsertStep(s, a, id))
  {
  }

  /** Which position can come after which. */
  predicate Follows(pc: Pc, next: Pc) {
    match next
    case CancelDelayed(_, _, _) => pc.CancelMain? && next.job == pc.job
    case CancelSave(_, _, _, _) => pc.CancelDelayed? && next.job == pc.job
    case LaneLoaded(_, _, _) => pc.LanePopped?
    case LaneRunning(_, _, _) => pc.LaneLoaded?
    case LaneChecked(_, _, _, _, _) => pc.LaneSettled?
    case Failing(_, _, _, _, _, _) => pc.Failing? || pc.RetryPush?
    case RetryPush(_, _, _) => pc.Failing?
    case Removing(_, _) => pc.Removing?
    case Moving(_) => pc.Removing? || pc.Moving? || pc.MoveSaved?
    case MoveLoaded(_, _, _) => pc.Moving?
    case MoveSaved(_, _) => pc.MoveLoaded?
    case _ => false
  }

  lemma RecoveryFollows(s: State, w: WorkerId, pc: Pc)
    requires (pc.Failing? || pc.RetryPush?) && EffectOf(s, w, pc).next.Some?
    ensures Follows(pc, EffectOf(s, w, pc).next.value)
  {
  }

  lemma NextFollows(s: State, w: WorkerId, pc: Pc)
    requires !Waits(pc) && EffectOf(s, w, pc).next.Some?
    ensures Follows(pc, EffectOf(s, w, pc).next.value)
  {
    if pc.Failing? || pc.RetryPush? {
      RecoveryFollows(s, w, pc);
    }
  }

  /** Where a step leaves the activity that takes it. */
  lemma AdvanceNext(s: State, a: AgentId)
    requires a in AdvanceStep(s, a).agents
    ensures a in s.agents
    ensures if Waits(s.agents[a].pc) then AdvanceStep(s, a).agents[a] == s.agents[a]
            else var next := EffectOf(s, s.agents[a].proc, s.agents[a].pc).next;
              next.Some? && AdvanceStep(s, a).agents[a] == Agent(s.agents[a].proc, next.value)
  {
  }

  lemma OthersStay(s: State, step: Step, a: AgentId)
    requires Actor(step) == Some(a)
    ensures forall b | b in s.agents && b != a :: b in Do(s, step).agents && Do(s, step).agents[b] == s.agents[b]
  {
    forall b | b in s.agents && b != a ensures b in Do(s, step).agents && Do(s, step).agents[b] == s.agents[b] {
      OnlyActorMoves(s, step, b);
    }
  }

  lemma OnlyActorMoves(s: State, step: Step, b: AgentId)
    requires Actor(step) != Some(b)
    ensures b in Do(s, step).agents ==> b in s.agents && Do(s, step).agents[b] == s.agents[b]
    ensures b in s.agents && !step.Crash? ==> b in Do(s, step).agents
  {
  }
}
