/** Level one: what the job objects in the activities' memories still say truly of the documents. */
module Snapshots {
  import opened Jobs
  import opened Protocol
  import opened Tokens
  import opened Timing

  /** A memory of a job is of that job, and of a claim if it is one of a claimed job. */
  predicate Remembers(docs: map<JobId, Doc>, j: JobId, mem: Doc, claimed: bool) {
    && j in docs && mem.maxAttempts == docs[j].maxAttempts && mem.timeoutMs == docs[j].timeoutMs
    && (claimed ==> mem.attempts >= 1)
  }

  /** A recovery lists a job once. */
  predicate DistinctJobs(rest: seq<Stale>) {
    forall i, k | 0 <= i < k < |rest| :: rest[i].job != rest[k].job
  }

  predicate ListKnows(docs: map<JobId, Doc>, rest: seq<Stale>) {
    DistinctJobs(rest) && forall e | e in rest :: Remembers(docs, e.job, e.snap, true)
  }

  predicate ContKnows(docs: map<JobId, Doc>, job: JobId, cont: Cont) {
    cont.NextStale? ==> ListKnows(docs, cont.rest) && forall e | e in cont.rest :: e.job != job
  }

  predicate PcKnows(docs: map<JobId, Doc>, pc: Pc) {
    match pc
    case LaneLoaded(job, snap, _) =>
      Remembers(docs, job, snap, false) && snap.lockExpiresAt == None && snap.status != Processing
    case LaneRunning(job, mem, _) => Remembers(docs, job, mem, true)
    case LaneSettled(job, mem, _) => Remembers(docs, job, mem, true)
    case LaneChecked(job, mem, _, _, _) => Remembers(docs, job, mem, true)
    case Failing(job, _, mem, verdict, _, cont) =>
      Remembers(docs, job, mem, true) && VerdictFits(verdict, mem) && ContKnows(docs, job, cont)
    case RetryPush(job, _, cont) => ContKnows(docs, job, cont)
    case _ => true
  }

  predicate HasTries(mem: Doc) {
    mem.attempts < mem.maxAttempts
  }

  predicate PcsKnow(s: State) {
    forall a | a in s.agents :: PcKnows(s.docs, s.agents[a].pc)
  }

  predicate LocksWhole(s: State) {
    forall j | j in s.docs :: LockWhole(s.docs[j])
  }

  /** An owner comes with an expiry time, and goes with it. */
  predicate LockWhole(d: Doc) {
    d.lockedBy.None? <==> d.lockExpiresAt.None?
  }

  ghost predicate InvSnap(s: State) {
    Inv(s) && PcsKnow(s) && LocksWhole(s)
  }

  // -------------------------------------------------------------------------
  // Every step keeps it
  // -------------------------------------------------------------------------

  predicate SameLimits(docs: map<JobId, Doc>, docs': map<JobId, Doc>) {
    forall j | j in docs ::
      j in docs' && docs'[j].maxAttempts == docs[j].maxAttempts && docs'[j].timeoutMs == docs[j].timeoutMs
  }

  lemma LimitsKept(s: State, step: Step)
    ensures SameLimits(s.docs, Do(s, step).docs)
  {
    forall j | j in s.docs
      ensures j in Do(s, step).docs && Do(s, step).docs[j].maxAttempts == s.docs[j].maxAttempts
      ensures Do(s, step).docs[j].timeoutMs == s.docs[j].timeoutMs
    {
      StepWrites(s, step, j);
      if step.Advance? && step.a in s.agents {
        FixedFields(s.docs, s.agents[step.a], j, Do(s, step).docs[j]);
      }
    }
  }

  lemma PcKnowsMono(docs: map<JobId, Doc>, docs': map<JobId, Doc>, pc: Pc)
    requires PcKnows(docs, pc) && SameLimits(docs, docs')
    ensures PcKnows(docs', pc)
  {
  }

  lemma StartKnows(docs: map<JobId, Doc>, rest: seq<Stale>, now: int)
    requires ListKnows(docs, rest)
    ensures StartStale(rest, now).Some? ==> PcKnows(docs, StartStale(rest, now).value)
  {
    if rest != [] {
      assert forall e | e in rest[1..] :: e in rest;
      assert forall i | 0 <= i < |rest| - 1 :: rest[1..][i] == rest[i + 1];
    }
  }

  lemma ContinueKnows(docs: map<JobId, Doc>, job: JobId, cont: Cont, now: int)
    requires ContKnows(docs, job, cont)
    ensures Continue(cont, now).Some? ==> PcKnows(docs, Continue(cont, now).value)
  {
    if cont.NextStale? {
      StartKnows(docs, cont.rest, now);
    }
  }

  lemma LoadKnowsUnlocked(s: State, a: AgentId)
    requires Inv(s) && LocksWhole(s) && a in s.agents && s.agents[a].pc.LanePopped?
    ensures var next := EffectOf(s, s.agents[a].proc, s.agents[a].pc).next; next.Some? ==> PcKnows(s.docs, next.value)
  {
    var j := s.agents[a].pc.job;
    assert At(s, j, Hand(a)) && !At(s, j, Lock);
    assert j in s.docs ==> DocOk(s.docs[j]) && LockWhole(s.docs[j]);
  }

  lemma NextKnows(s: State, w: WorkerId, pc: Pc)
    requires PcKnows(s.docs, pc) && !Waits(pc) && !pc.LanePopped?
    ensures EffectOf(s, w, pc).next.Some? ==> PcKnows(s.docs, EffectOf(s, w, pc).next.value)
  {
    if pc.Failing? || pc.RetryPush? {
      ContinueKnows(s.docs, pc.job, pc.cont, s.now);
    } else if !pc.LaneLoaded? && !pc.LaneSettled? {
      PlainNext(s, w, pc);
    }
  }

  lemma AdvanceKnows(s: State, a: AgentId)
    requires InvSnap(s) && a in AdvanceStep(s, a).agents
    ensures PcKnows(s.docs, AdvanceStep(s, a).agents[a].pc)
  {
    AdvanceNext(s, a);
    if s.agents[a].pc.LanePopped? {
      LoadKnowsUnlocked(s, a);
    } else if !Waits(s.agents[a].pc) {
      NextKnows(s, s.agents[a].proc, s.agents[a].pc);
    }
  }

  lemma ScanKnows(s: State, found: seq<Stale>, asOf: int)
    requires DocsOk(s) && ListsStale(s.docs, found, asOf)
    ensures ListKnows(s.docs, found)
  {
    forall e | e in found ensures Remembers(s.docs, e.job, e.snap, true) {
      assert DocOk(s.docs[e.job]);
      RunningWasClaimed(s.docs[e.job].history);
    }
    forall i, k | 0 <= i < k < |found| ensures found[i].job != found[k].job {
      assert found[i] in found && found[k] in found;
    }
  }

  lemma FindStaleKnows(s: State, a: AgentId, w: WorkerId, found: seq<Stale>, asOf: int)
    requires DocsOk(s) && PcsKnow(s) && a in FindStaleStep(s, a, w, found, asOf).agents
    ensures PcKnows(s.docs, FindStaleStep(s, a, w, found, asOf).agents[a].pc)
  {
    if ListsStale(s.docs, found, asOf) {
      ScanKnows(s, found, asOf);
      StartKnows(s.docs, found, s.now);
    }
  }

  lemma FailureKnows(s: State, step: Step, a: AgentId)
    requires (step.Settle? || step.Fault?) && a in Do(s, step).agents && a in s.agents
    requires PcKnows(s.docs, s.agents[a].pc)
    ensures PcKnows(s.docs, Do(s, step).agents[a].pc)
  {
  }

  /** The new position fits the documents before the step, and so those after it. */
  lemma PcKnowsStep(s: State, step: Step, a: AgentId)
    requires InvSnap(s) && a in Do(s, step).agents
    ensures PcKnows(s.docs, Do(s, step).agents[a].pc)
  {
    if Actor(step) != Some(a) {
      OnlyActorMoves(s, step, a);
    } else if step.Settle? || step.Fault? {
      FailureKnows(s, step, a);
    } else if step.Advance? {
      AdvanceKnows(s, a);
    } else if step.FindStale? {
      FindStaleKnows(s, a, step.w, step.found, step.asOf);
    } else {
      StarterKnows(s, step, a);
    }
  }

  lemma StarterKnows(s: State, step: Step, a: AgentId)
    requires PcsKnow(s) && Actor(step) == Some(a) && a in Do(s, step).agents
    requires step.Lookup? || step.Insert? || step.BeginCancel? || step.Pop? || step.ListDue? || step.Abort?
    ensures PcKnows(s.docs, Do(s, step).agents[a].pc)
  {
  }

  lemma LockWritten(docs: map<JobId, Doc>, agent: Agent, j: JobId, d': Doc)
    requires j in docs && LockWhole(docs[j]) && PcOk(docs, agent.pc) && PcKnows(docs, agent.pc)
    requires Written(docs, agent, j, d')
    ensures LockWhole(d')
  {
  }

  lemma LockWholeStep(s: State, step: Step, j: JobId)
    requires InvSnap(s) && j in Do(s, step).docs
    ensures LockWhole(Do(s, step).docs[j])
  {
    if j in s.docs {
      StepWrites(s, step, j);
      if step.Advance? && step.a in s.agents {
        LockWritten(s.docs, s.agents[step.a], j, Do(s, step).docs[j]);
      }
    } else {
      NewDocTimed(s, step, j);
    }
  }

  lemma InvSnapStep(s: State, step: Step)
    requires InvSnap(s)
    ensures InvSnap(Do(s, step))
  {
    DoKeeps(s, step);
    LimitsKept(s, step);
    forall j | j in Do(s, step).docs ensures LockWhole(Do(s, step).docs[j]) {
      LockWholeStep(s, step, j);
    }
    forall a | a in Do(s, step).agents ensures PcKnows(Do(s, step).docs, Do(s, step).agents[a].pc) {
      PcKnowsStep(s, step, a);
      PcKnowsMono(s.docs, Do(s, step).docs, Do(s, step).agents[a].pc);
    }
  }

  /** In every run, whatever activities remember of a job is of that job and of a claim it has had,
      recoveries have a job on their lists once, and a lane loads only unlocked documents. */
  lemma {:induction false} InvSnapRun(s: State, steps: seq<Step>)
    requires InvSnap(s)
    ensures InvSnap(Run(s, steps))
    decreases steps
  {
    if steps != [] {
      InvSnapStep(s, steps[0]);
      InvSnapRun(Do(s, steps[0]), steps[1..]);
    }
  }

  lemma InitSnap()
    ensures InvSnap(Init)
  {
    InitInv();
  }
}
