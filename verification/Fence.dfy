/** Level one: what the attempts limit hangs on. The fence is the id of a process, not of a claim, so
    a recovery that waited too long can take a newer claim of the same process for the one it
    decided about. */
module Fence {
  import opened Jobs
  import opened Queue
  import opened Protocol
  import opened Tokens
  import opened Progress
  import opened Safety
  import opened Timing
  import opened Snapshots
  import opened Reclaim

  // -------------------------------------------------------------------------
  // Enough: every landed failure is about the claim it lands on
  // -------------------------------------------------------------------------

  predicate Fenced(s: State, step: Step) {
    step.Advance? && step.a in s.agents && s.agents[step.a].pc.Failing?
    && Owned(s.docs, s.agents[step.a].pc.job, s.agents[step.a].pc.owner)
    ==> s.docs[s.agents[step.a].pc.job].attempts == s.agents[step.a].pc.mem.attempts
  }

  predicate FencedRun(s: State, steps: seq<Step>)
    decreases steps
  {
    steps == [] || (Fenced(s, steps[0]) && FencedRun(Do(s, steps[0]), steps[1..]))
  }

  ghost predicate InvFenced(s: State) {
    InvSnap(s) && forall j | j in s.docs :: DocCounted(s.docs[j])
  }

  lemma WrittenCounted(s: State, a: AgentId, j: JobId, d': Doc)
    requires InvFenced(s) && Fenced(s, Advance(a)) && a in s.agents && j in s.docs
    requires Written(s.docs, s.agents[a], j, d')
    ensures DocCounted(d')
  {
    var d, w := s.docs[j], s.agents[a].proc;
    assert DocOk(d) && DocCounted(d) && PcOk(s.docs, s.agents[a].pc) && PcKnows(s.docs, s.agents[a].pc);
    assert Holds(s.agents[a].pc, j) ==> At(s, j, Hand(a));
    if d' != d {
      match s.agents[a].pc
      case LaneLoaded(_, snap, at) => ClaimDocTimed(d, snap, w, at);
      case LaneChecked(_, _, value, wasCancelled, at) => FinishDocTimed(d, value, wasCancelled, w, at);
      case Failing(_, _, mem, verdict, at, _) => ResolveDocTimed(d, mem, verdict, w, at);
      case MoveLoaded(_, snap, at) => PromoteDocTimed(d, snap, w, at);
      case CancelSave(_, snap, _, at) => ApiDocTimed(d, snap, at);
      case CancelFlag(_, snap, at) => ApiDocTimed(d, snap, at);
    }
  }

  lemma DocsCountedStep(s: State, step: Step, j: JobId)
    requires InvFenced(s) && Fenced(s, step) && j in Do(s, step).docs
    ensures DocCounted(Do(s, step).docs[j])
  {
    if j in s.docs {
      StepWrites(s, step, j);
      if step.Advance? && step.a in s.agents {
        WrittenCounted(s, step.a, j, Do(s, step).docs[j]);
      }
    } else {
      NewDocTimed(s, step, j);
    }
  }

  lemma InvFencedStep(s: State, step: Step)
    requires InvFenced(s) && Fenced(s, step)
    ensures InvFenced(Do(s, step))
  {
    InvSnapStep(s, step);
    forall j | j in Do(s, step).docs ensures DocCounted(Do(s, step).docs[j]) {
      DocsCountedStep(s, step, j);
    }
  }

  lemma {:induction false} InvFencedRun(s: State, steps: seq<Step>)
    requires InvFenced(s) && FencedRun(s, steps)
    ensures InvFenced(Run(s, steps))
    decreases steps
  {
    if steps != [] {
      InvFencedStep(s, steps[0]);
      InvFencedRun(Do(s, steps[0]), steps[1..]);
    }
  }

  /** Without any timing assumption: if every failure that lands is about the claim it lands on, a job
      is claimed at most max(1, maxAttempts) times, and exactly so often if buried as exhausted. */
  lemma FencedClaimsBounded(steps: seq<Step>, j: JobId)
    requires FencedRun(Init, steps) && j in Run(Init, steps).docs
    ensures var d := Run(Init, steps).docs[j];
            Claims(d.history) <= MaxClaims(d) && (SaysExhausted(d.history) ==> Claims(d.history) == MaxClaims(d))
  {
    InitSnap();
    InvFencedRun(Init, steps);
    assert DocCounted(Run(Init, steps).docs[j]) && DocOk(Run(Init, steps).docs[j]);
  }

  /** The timing assumptions of level two are one way to get there. */
  lemma {:induction false} TimedIsFenced(s: State, steps: seq<Step>)
    requires InvTimed(s) && TimedRun(s, steps)
    ensures FencedRun(s, steps)
    decreases steps
  {
    if steps != [] {
      var step := steps[0];
      if step.Advance? && step.a in s.agents && s.agents[step.a].pc.Failing? {
        assert AgentTimed(s.docs, s.dead, s.now, s.agents[step.a]);
      }
      InvTimedStep(s, step);
      TimedIsFenced(Do(s, step), steps[1..]);
    }
  }

  // -------------------------------------------------------------------------
  // With a single attempt nothing can go wrong
  // -------------------------------------------------------------------------

  predicate DocOnce(d: Doc) {
    d.maxAttempts <= 1 ==>
      var phase := PhaseOf(d.history);
      d.attempts <= 1 && phase != Waiting && (phase == Fresh || phase == Ready ==> d.attempts == 0)
  }

  ghost predicate InvOnce(s: State) {
    InvSnap(s) && forall j | j in s.docs :: DocOnce(s.docs[j])
  }

  lemma FailOnce(d: Doc, pc: Pc, w: WorkerId)
    requires DocOnce(d) && DocOk(d) && d.lockedBy.Some? && pc.Failing?
    requires pc.mem.maxAttempts == d.maxAttempts && pc.mem.attempts >= 1 && VerdictFits(pc.verdict, pc.mem)
    ensures DocOnce(FinalizeWrite(d, VerdictUpdate(pc.verdict), VerdictEntry(pc.verdict, w, pc.at)))
  {
  }

  lemma OtherOnce(docs: map<JobId, Doc>, agent: Agent, j: JobId, d': Doc)
    requires j in docs && DocOnce(docs[j]) && DocOk(docs[j]) && PcOk(docs, agent.pc) && !agent.pc.Failing?
    requires Holds(agent.pc, j) ==> HeldPhase(agent.pc, j, PhaseOf(docs[j].history))
    requires Written(docs, agent, j, d')
    ensures DocOnce(d')
  {
  }

  lemma WrittenOnce(s: State, a: AgentId, j: JobId, d': Doc)
    requires InvOnce(s) && a in s.agents && j in s.docs && Written(s.docs, s.agents[a], j, d')
    ensures DocOnce(d')
  {
    var pc := s.agents[a].pc;
    assert DocOk(s.docs[j]) && DocOnce(s.docs[j]) && PcOk(s.docs, pc) && PcKnows(s.docs, pc);
    if !pc.Failing? {
      assert Holds(pc, j) ==> At(s, j, Hand(a));
      OtherOnce(s.docs, s.agents[a], j, d');
    } else if d' != s.docs[j] {
      FailOnce(s.docs[j], pc, s.agents[a].proc);
    }
  }

  lemma OldDocOnce(s: State, step: Step, j: JobId)
    requires InvOnce(s) && j in s.docs
    ensures j in Do(s, step).docs && DocOnce(Do(s, step).docs[j])
  {
    StepWrites(s, step, j);
    if step.Advance? && step.a in s.agents {
      WrittenOnce(s, step.a, j, Do(s, step).docs[j]);
    }
  }

  lemma NewDocOnce(req: Request, scheduled: Option<int>, now: int)
    ensures DocOnce(NewDoc(req, scheduled, now))
  {
  }

  lemma DocOnceStep(s: State, step: Step, j: JobId)
    requires InvOnce(s) && j in Do(s, step).docs
    ensures DocOnce(Do(s, step).docs[j])
  {
    if j in s.docs {
      OldDocOnce(s, step, j);
    } else {
      CreatedDoc(s, step, j);
      NewDocOnce(s.agents[step.a].pc.req, s.agents[step.a].pc.scheduled, s.now);
    }
  }

  lemma {:induction false} InvOnceRun(s: State, steps: seq<Step>)
    requires InvOnce(s)
    ensures InvOnce(Run(s, steps))
    decreases steps
  {
    if steps != [] {
      InvSnapStep(s, steps[0]);
      forall j | j in Do(s, steps[0]).docs ensures DocOnce(Do(s, steps[0]).docs[j]) {
        DocOnceStep(s, steps[0], j);
      }
      InvOnceRun(Do(s, steps[0]), steps[1..]);
    }
  }

  // -------------------------------------------------------------------------
  // With more, one late write of a recovery is enough to break the limit
  // -------------------------------------------------------------------------

  function Req(n: int): Request {
    Request("report", "key", None, Some(n), Some(1000), None)
  }

  function Made(n: int): Doc {
    NewDoc(Req(n), None, 0)
  }

  function Taken(n: int): Doc {
    ClaimWrite(Made(n), Made(n), 1, 0)
  }

  const LATE: int := 30001

  function LateVerdict(n: int): Verdict {
    Decide(Taken(n), LockLost(Taken(n)), LATE)
  }

  function Recovering(w: WorkerId, n: int): Agent {
    Agent(w, Failing(0, Some(1), Taken(n), LateVerdict(n), LATE, NextStale([])))
  }

  function InQueue(n: int): State {
    State(map[0 := Made(n)], map[0 := ComputeScore(5, 0)], map[], 0, map[], {})
  }

  function Orphaned(n: int): State {
    State(map[0 := Taken(n)], map[], map[], LATE, map[], {})
  }

  function Scanned(n: int): State {
    State(map[0 := Taken(n)], map[], map[], LATE, map[1 := Recovering(2, n), 2 := Recovering(3, n)], {})
  }

  function Submit(n: int): seq<Step> {
    [Lookup(0, 0, Req(n)), Insert(0, 0), Advance(0)]
  }

  const CLAIM := [Pop(0, 1), Advance(0), Advance(0)]

  const RUN_OUT := CLAIM + [Abort(0), Tick(LATE)]

  /** Process 1 runs the only job. */
  function InHandler(n: int): State {
    State(map[0 := Taken(n)], map[], map[], 0, map[0 := Agent(1, LaneRunning(0, ClaimedCopy(Made(n), 1, 0), 0))], {})
  }

  function Scan(n: int): seq<Step> {
    [FindStale(1, 2, [Stale(0, Taken(n))], LATE), FindStale(2, 3, [Stale(0, Taken(n))], LATE)]
  }

  lemma TakenFields(n: int)
    ensures Taken(n).status == Processing && Taken(n).lockedBy == Some(1) && Taken(n).lockExpiresAt == Some(30000)
    ensures Taken(n).attempts == 1 && Taken(n).maxAttempts == n && (n >= 2 ==> LateVerdict(n).Reschedule?)
  {
  }

  lemma Inserts(n: int)
    ensures Do(Do(Init, Lookup(0, 0, Req(n))), Insert(0, 0))
         == State(map[0 := Made(n)], map[], map[], 0, map[0 := Agent(0, Submitted(0, 5, None))], {})
  {
    var s1 := Do(Init, Lookup(0, 0, Req(n)));
    assert s1 == State(map[], map[], map[], 0, map[0 := Agent(0, Submitting(Req(n), None))], {});
  }

  lemma Submits(n: int)
    ensures Run(Init, Submit(n)) == InQueue(n)
  {
    Inserts(n);
    var s1 := Do(Init, Lookup(0, 0, Req(n)));
    RunTwo(s1, Insert(0, 0), Advance(0));
    assert Submit(n)[1..] == [Insert(0, 0), Advance(0)];
    assert Do(Do(s1, Insert(0, 0)), Advance(0)).agents == map[];
  }

  lemma Runs(n: int)
    ensures Run(InQueue(n), CLAIM) == InHandler(n)
  {
    var s1 := Do(InQueue(n), Pop(0, 1));
    assert s1 == State(map[0 := Made(n)], map[], map[], 0, map[0 := Agent(1, LanePopped(0))], {});
    var s2 := Do(s1, Advance(0));
    assert s2.agents == map[0 := Agent(1, LaneLoaded(0, Made(n), 0))];
    assert Do(s2, Advance(0)).agents == InHandler(n).agents;
    RunTwo(s1, Advance(0), Advance(0));
    assert CLAIM[1..] == [Advance(0), Advance(0)];
  }

  /** Process 1 claims the job, its lane is gone, and its lock runs out. */
  lemma LockRunsOut(n: int)
    ensures Run(InQueue(n), RUN_OUT) == Orphaned(n)
  {
    Runs(n);
    RunAppend(InQueue(n), CLAIM, [Abort(0), Tick(LATE)]);
    assert Do(InHandler(n), Abort(0)).agents == map[];
    RunTwo(InHandler(n), Abort(0), Tick(LATE));
  }

  /** Two recoveries find the same claim. */
  lemma Scans(n: int)
    ensures Run(Orphaned(n), Scan(n)) == Scanned(n)
  {
    TakenFields(n);
    assert ListsStale(Orphaned(n).docs, [Stale(0, Taken(n))], LATE);
    assert [Stale(0, Taken(n))][1..] == [];
    assert StartStale([Stale(0, Taken(n))], LATE) == Some(Recovering(2, n).pc);
    var s1 := Do(Orphaned(n), Scan(n)[0]);
    assert s1.agents == map[1 := Recovering(2, n)];
    var s2 := Do(s1, Scan(n)[1]);
    assert s2 == Scanned(n);
    assert Run(Orphaned(n), Scan(n)) == Run(s1, [Scan(n)[1]]) == Run(s2, []);
  }

  lemma ReachesScanned(n: int) returns (steps: seq<Step>)
    ensures Run(Init, steps) == Scanned(n) && InvSnap(Scanned(n))
  {
    Submits(n);
    LockRunsOut(n);
    RunAppend(Init, Submit(n), RUN_OUT);
    Scans(n);
    RunAppend(Init, Submit(n) + RUN_OUT, Scan(n));
    steps := Submit(n) + RUN_OUT + Scan(n);
    InitSnap();
    InvSnapRun(Init, steps);
  }

  /** Recovery r is about to reschedule a claim of process w. */
  predicate Pending(s: State, r: AgentId, w: WorkerId, j: JobId) {
    && r in s.agents && s.agents[r].pc.Failing? && s.agents[r].pc.job == j && s.agents[r].pc.owner == Some(w)
    && s.agents[r].pc.verdict.Reschedule?
  }

  /** Activity a is about to push a retry of job j, which has been claimed k times of n. */
  predicate Retries(s: State, a: AgentId, j: JobId, k: int, n: int) {
    && a in s.agents && s.agents[a].pc.RetryPush? && s.agents[a].pc.job == j
    && j in s.docs && s.docs[j].attempts == k && s.docs[j].maxAttempts == n
  }

  lemma LandsAgain(s: State, r: AgentId, w: WorkerId, j: JobId)
    requires Inv(s) && Pending(s, r, w, j) && Owned(s.docs, j, Some(w))
    ensures Retries(Do(s, Advance(r)), r, j, s.docs[j].attempts, s.docs[j].maxAttempts)
    ensures Do(s, Advance(r)).agents[r].pc.readyAt == s.agents[r].pc.verdict.readyAt && Do(s, Advance(r)).now == s.now
  {
  }

  /** While one activity holds the job for its retry, a recovery that decided about an old claim of
      process w is still to write. If w claims the retry, that write lands on the new claim. */
  lemma StaleWriteLands(s: State, r: AgentId, a: AgentId, w: WorkerId, j: JobId, k: int, n: int)
    returns (steps: seq<Step>, s': State)
    requires InvSnap(s) && Pending(s, r, w, j) && Retries(s, a, j, k, n)
    ensures Run(s, steps) == s' && j in s'.docs && s'.docs[j].attempts == k + 2 && s'.docs[j].maxAttempts == n
  {
    var first, s1, at := PushedClaims(s, a, w, j);
    assert s1.agents[r] == s.agents[r];
    var s2 := Do(s1, Advance(r));
    LandsAgain(s1, r, w, j);
    DoKeeps(s1, Advance(r));
    var third, s3, at' := PushedClaims(s2, r, w, j);
    steps, s' := first + ([Advance(r)] + third), s3;
    RunAppend(s, first, [Advance(r)] + third);
    assert ([Advance(r)] + third)[1..] == third;
  }

  const ANY_ERROR := Error(Unset, Text(""))

  lemma HandlerThrows(s: State, b: AgentId, w: WorkerId, j: JobId)
    requires RunsClaim(s, b, w, j) && HasTries(s.agents[b].pc.mem)
    ensures var s' := Do(s, Settle(b, Throws(ANY_ERROR)));
            && s'.docs == s.docs && s'.now == s.now && Pending(s', b, w, j)
            && s'.agents[b].pc.verdict.readyAt == s.now + ComputeBackoffMs(s.agents[b].pc.mem.attempts)
  {
  }

  /** A handler that throws, with an attempt left. */
  lemma ClaimFails(s: State, b: AgentId, w: WorkerId, j: JobId) returns (steps: seq<Step>, s': State)
    requires InvSnap(s) && RunsClaim(s, b, w, j) && s.docs[j].attempts < s.docs[j].maxAttempts
    ensures Run(s, steps) == s' && Retries(s', b, j, s.docs[j].attempts, s.docs[j].maxAttempts)
    ensures s'.agents[b].pc.readyAt == s'.now + ComputeBackoffMs(s.docs[j].attempts)
    ensures forall c | c in s.agents && c != b :: c in s'.agents && s'.agents[c] == s.agents[c]
  {
    var settle := Settle(b, Throws(ANY_ERROR));
    assert PcKnows(s.docs, s.agents[b].pc);
    HandlerThrows(s, b, w, j);
    DoKeeps(s, settle);
    LandsAgain(Do(s, settle), b, w, j);
    OthersStay(s, settle, b);
    OthersStay(Do(s, settle), Advance(b), b);
    RunTwo(s, settle, Advance(b));
    steps, s' := [settle, Advance(b)], Do(Do(s, settle), Advance(b));
  }

  /** Process w claims the retry, and fails. */
  lemma OneMoreClaim(s: State, r: AgentId, a: AgentId, w: WorkerId, j: JobId, k: int, n: int)
    returns (steps: seq<Step>, s': State, b: AgentId)
    requires InvSnap(s) && Pending(s, r, w, j) && Retries(s, a, j, k, n) && k + 1 < n
    ensures Run(s, steps) == s' && Pending(s', r, w, j) && Retries(s', b, j, k + 1, n)
  {
    var first, s1, at := PushedClaims(s, a, w, j);
    b :| RunsClaim(s1, b, w, j);
    InvSnapRun(s, first);
    assert s1.agents[r] == s.agents[r];
    var second;
    second, s' := ClaimFails(s1, b, w, j);
    assert s'.agents[r] == s.agents[r];
    steps := first + second;
    RunAppend(s, first, second);
  }

  /** Claims by process w that fail use up all attempts but one, and the late write is still to come. */
  lemma {:induction false} UseUp(s: State, r: AgentId, a: AgentId, w: WorkerId, j: JobId, k: int, n: int)
    returns (steps: seq<Step>, s': State, a': AgentId)
    requires InvSnap(s) && Pending(s, r, w, j) && Retries(s, a, j, k, n) && k < n
    ensures Run(s, steps) == s' && InvSnap(s') && Pending(s', r, w, j) && Retries(s', a', j, n - 1, n)
    decreases n - k
  {
    if k == n - 1 {
      return [], s, a;
    }
    var first, s1, b := OneMoreClaim(s, r, a, w, j, k, n);
    InvSnapRun(s, first);
    var second;
    second, s', a' := UseUp(s1, r, b, w, j, k + 1, n);
    steps := first + second;
    RunAppend(s, first, second);
  }

  /** The run gives a job with this limit more claims than the limit allows. */
  predicate Exceeds(steps: seq<Step>, j: JobId, n: int) {
    var docs := Run(Init, steps).docs;
    j in docs && docs[j].maxAttempts == n && docs[j].attempts > MaxClaims(docs[j])
  }

  lemma ReachesRetry(n: int) returns (steps: seq<Step>, s: State)
    requires n >= 2
    ensures Run(Init, steps) == s && InvSnap(s) && Pending(s, 2, 1, 0) && Retries(s, 1, 0, 1, n)
  {
    var prefix := ReachesScanned(n);
    TakenFields(n);
    LandsAgain(Scanned(n), 1, 1, 0);
    OnlyActorMoves(Scanned(n), Advance(1), 2);
    InvSnapStep(Scanned(n), Advance(1));
    steps, s := prefix + [Advance(1)], Do(Scanned(n), Advance(1));
    RunAppend(Init, prefix, [Advance(1)]);
    assert Run(Scanned(n), [Advance(1)]) == Run(s, []);
  }

  lemma CanExceed(n: int) returns (steps: seq<Step>)
    requires n >= 2
    ensures Exceeds(steps, 0, n)
  {
    var first, s1 := ReachesRetry(n);
    var second, s2, a := UseUp(s1, 2, 1, 1, 0, 1, n);
    var third, s3 := StaleWriteLands(s2, 2, a, 1, 0, n - 1, n);
    steps := first + (second + third);
    RunAppend(Init, first, second + third);
    RunAppend(s1, second, third);
  }

  lemma CannotExceed(steps: seq<Step>, j: JobId, n: int)
    requires n <= 1
    ensures !Exceeds(steps, j, n)
  {
    InitSnap();
    InvOnceRun(Init, steps);
    assert j in Run(Init, steps).docs ==> DocOnce(Run(Init, steps).docs[j]);
  }

  /** At level one, "a job is tried at most max(1, maxAttempts) times" holds of the jobs with a
      maxAttempts of at most 1, and for every greater one some run breaks it. */
  lemma LimitHoldsExactly(n: int)
    ensures (forall steps, j :: !Exceeds(steps, j, n)) <==> n <= 1
  {
    if n <= 1 {
      forall steps, j ensures !Exceeds(steps, j, n) {
        CannotExceed(steps, j, n);
      }
    } else {
      var steps := CanExceed(n);
    }
  }
}
