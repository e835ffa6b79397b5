/** Runs from the empty system, at level one, in which the promises that need a condition are broken. */
module Scenarios {
  import opened Jobs
  import opened Queue
  import opened Protocol
  import opened Tokens
  import opened Cancellation
  import opened Backoff
  import opened Snapshots
  import opened Completion
  import opened Reclaim
  import opened Fence
  import opened Finality
  import opened PriorityQueue

  // -------------------------------------------------------------------------
  // Cancels that race with a claim
  // -------------------------------------------------------------------------

  const CANCEL := CancelSave(0, Made(3), false, 0)

  /** A cancel read QUEUED, and both its ZREMs missed the job a lane had just popped. */
  const RACING := State(
    map[0 := Made(3)], map[], map[], 0, map[0 := Agent(1, LanePopped(0)), 5 := Agent(0, CANCEL)], {})

  const RACE := [BeginCancel(5, 0, 0), Pop(0, 1), Advance(5), Advance(5)]

  /** The lane has claimed the job in the meantime. */
  const CLAIMED := State(
    map[0 := Taken(3)], map[], map[], 0,
    map[0 := Agent(1, LaneRunning(0, ClaimedCopy(Made(3), 1, 0), 0)), 5 := Agent(0, CANCEL)], {})

  lemma Races()
    ensures Run(InQueue(3), RACE) == RACING
  {
    var s1 := Do(InQueue(3), RACE[0]);
    assert s1.agents == map[5 := Agent(0, CancelMain(0, Made(3)))];
    var s2 := Do(s1, RACE[1]);
    assert s2 == State(map[0 := Made(3)], map[], map[], 0,
      map[0 := Agent(1, LanePopped(0)), 5 := Agent(0, CancelMain(0, Made(3)))], {});
    var s3 := Do(s2, Advance(5));
    assert s3 == State(map[0 := Made(3)], map[], map[], 0,
      map[0 := Agent(1, LanePopped(0)), 5 := Agent(0, CancelDelayed(0, Made(3), false))], {});
    assert Do(s3, Advance(5)) == RACING;
    assert Run(InQueue(3), RACE) == Run(s1, [Pop(0, 1), Advance(5), Advance(5)])
      == Run(s2, [Advance(5), Advance(5)]) == Run(s3, [Advance(5)]) == Run(RACING, []);
  }

  lemma ReachesRacing() returns (steps: seq<Step>)
    ensures Run(Init, steps) == RACING && InvSnap(RACING)
  {
    Submits(3);
    Races();
    RunAppend(Init, Submit(3), RACE);
    steps := Submit(3) + RACE;
    InitSnap();
    InvSnapRun(Init, steps);
  }

  /** In the first run job j has this status, and in its continuation that one. */
  predicate Overwritten(first: seq<Step>, second: seq<Step>, j: JobId, before: Status, after: Status) {
    && j in Run(Init, first).docs && Run(Init, first).docs[j].status == before
    && j in Run(Run(Init, first), second).docs && Run(Run(Init, first), second).docs[j].status == after
  }

  lemma OverwrittenBy(first: seq<Step>, more: seq<Step>, s: State, second: seq<Step>, j: JobId, before: Status,
                      after: Status)
    requires Run(Init, first) == s && j in Run(s, more).docs && Run(s, more).docs[j].status == before
    requires j in Run(Run(s, more), second).docs && Run(Run(s, more), second).docs[j].status == after
    ensures Overwritten(first + more, second, j, before, after)
  {
    RunAppend(Init, first, more);
  }

  lemma RaceOverwrites(prefix: seq<Step>, s: State, canceller: AgentId, lane: AgentId, j: JobId)
    requires Run(Init, prefix) == s && Inv(s) && canceller in s.agents && lane in s.agents
    requires s.agents[canceller].pc.CancelSave? && s.agents[canceller].pc.job == j && s.agents[lane].pc == LanePopped(j)
    ensures Overwritten(prefix + [Advance(canceller)], [Advance(lane), Advance(lane)], j, Cancelled, Processing)
  {
    RacingCancelIsOverwritten(s, canceller, lane, j);
    RunOne(s, Advance(canceller));
    OverwrittenBy(prefix, [Advance(canceller)], s, [Advance(lane), Advance(lane)], j, Cancelled, Processing);
  }

  lemma SomeRace() returns (steps: seq<Step>, s: State)
    ensures Run(Init, steps) == s && Inv(s) && 5 in s.agents && 0 in s.agents
    ensures s.agents[5].pc.CancelSave? && s.agents[5].pc.job == 0 && s.agents[0].pc == LanePopped(0)
  {
    steps := ReachesRacing();
    s := RACING;
  }

  /** A CANCELLED job is claimed. */
  lemma CancelIsOverwritten() returns (first: seq<Step>, second: seq<Step>)
    ensures Overwritten(first, second, 0, Cancelled, Processing)
  {
    var prefix, s := SomeRace();
    RaceOverwrites(prefix, s, 5, 0, 0);
    first, second := prefix + [Advance(5)], [Advance(0), Advance(0)];
  }

  const LOADED := RACING.(agents := map[0 := Agent(1, LaneLoaded(0, Made(3), 0)), 5 := Agent(0, CANCEL)])

  lemma LaneLoadsMeanwhile()
    ensures Do(RACING, Advance(0)) == LOADED
  {
    assert Do(RACING, Advance(0)).agents == LOADED.agents;
  }

  lemma LaneSavesMeanwhile()
    ensures Do(LOADED, Advance(0)) == CLAIMED
  {
    assert Do(LOADED, Advance(0)).agents == CLAIMED.agents;
  }

  lemma LaneClaimsMeanwhile()
    ensures Run(RACING, [Advance(0), Advance(0)]) == CLAIMED
  {
    LaneLoadsMeanwhile();
    LaneSavesMeanwhile();
    RunTwo(RACING, Advance(0), Advance(0));
  }

  lemma ReachesClaimed() returns (steps: seq<Step>)
    ensures Run(Init, steps) == CLAIMED && InvSnap(CLAIMED)
  {
    var prefix := ReachesRacing();
    LaneClaimsMeanwhile();
    RunAppend(Init, prefix, [Advance(0), Advance(0)]);
    steps := prefix + [Advance(0), Advance(0)];
    InitSnap();
    InvSnapRun(Init, steps);
  }

  const FINISH := [Settle(0, Resolves("")), Advance(0), Advance(0)]

  const MEMORY := ClaimedCopy(Made(3), 1, 0)

  lemma HandlerResolves()
    ensures Run(CLAIMED, [FINISH[0], FINISH[1]])
         == CLAIMED.(agents := map[0 := Agent(1, LaneChecked(0, MEMORY, "", false, 0)), 5 := Agent(0, CANCEL)])
  {
    var s1 := Do(CLAIMED, FINISH[0]);
    assert s1 == CLAIMED.(agents := map[0 := Agent(1, LaneSettled(0, MEMORY, "")), 5 := Agent(0, CANCEL)]);
    RunTwo(CLAIMED, FINISH[0], FINISH[1]);
  }

  lemma Finishes()
    ensures var s := Run(CLAIMED, FINISH);
            s.docs.Keys == {0} && s.docs[0].status == Completed && 5 in s.agents && s.agents[5] == Agent(0, CANCEL)
  {
    HandlerResolves();
    TakenFields(3);
    RunAppend(CLAIMED, [FINISH[0], FINISH[1]], [Advance(0)]);
    assert [FINISH[0], FINISH[1]] + [Advance(0)] == FINISH;
    RunOne(Run(CLAIMED, [FINISH[0], FINISH[1]]), Advance(0));
  }

  /** A COMPLETED job is cancelled. */
  lemma ResultIsOverwritten() returns (first: seq<Step>, second: seq<Step>)
    ensures Overwritten(first, second, 0, Completed, Cancelled)
  {
    var prefix := ReachesClaimed();
    Finishes();
    InvSnapRun(CLAIMED, FINISH);
    second := CancelOverwrites(Run(CLAIMED, FINISH), 5, 0);
    OverwrittenBy(prefix, FINISH, CLAIMED, second, 0, Completed, Cancelled);
    first := prefix + FINISH;
  }

  lemma Abandons()
    ensures var s := Run(CLAIMED, [Abort(0), Advance(5)]);
            0 in s.docs && s.docs[0].status == Cancelled && Abandoned(s, 0, false)
  {
    var s1 := Do(CLAIMED, Abort(0));
    assert s1.agents == map[5 := Agent(0, CANCEL)];
    TakenFields(3);
    var s2 := Do(s1, Advance(5));
    assert s2.agents == map[];
    assert Run(CLAIMED, [Abort(0), Advance(5)]) == Run(s1, [Advance(5)]) == Run(s2, []);
  }

  /** A job whose lane is lost between its claim and the save of such a cancel: it is CANCELLED for ever,
      and locked for ever. */
  lemma LockIsStuck() returns (steps: seq<Step>)
    ensures StuckCancelled(steps, 0)
  {
    var prefix := ReachesClaimed();
    Abandons();
    RunAppend(Init, prefix, [Abort(0), Advance(5)]);
    var s := Run(CLAIMED, [Abort(0), Advance(5)]);
    InvSnapRun(CLAIMED, [Abort(0), Advance(5)]);
    LockStaysExactly(s, 0);
    CancelIsFinalExactly(s, 0);
    steps := prefix + [Abort(0), Advance(5)];
  }

  ghost predicate StuckCancelled(steps: seq<Step>, j: JobId) {
    var s := Run(Init, steps);
    && j in s.docs && s.docs[j].status == Cancelled && s.docs[j].lockedBy.Some?
    && (forall more :: KeepsLock(s, j, more)) && (forall more :: KeepsStatus(s, j, more))
  }

  // -------------------------------------------------------------------------
  // A promoter with an old list
  // -------------------------------------------------------------------------

  /** Job 0 is in the delayed set, due in the future, with that many of three attempts used. */
  predicate Delays(s: State, attempts: nat) {
    && 0 in s.docs && s.docs[0].attempts == attempts && s.docs[0].maxAttempts == 3
    && 0 in s.delayed && s.delayed[0] > s.now
  }

  lemma {:induction false} BackoffPositive(attempts: nat)
    ensures ComputeBackoffMs(attempts) > 0
  {
    if attempts > 1 {
      Pow2Positive(attempts - 1);
    }
  }

  lemma {:induction false} Pow2Positive(n: nat)
    ensures Pow2(n) >= 1
  {
    if n > 0 {
      Pow2Positive(n - 1);
    }
  }

  lemma Pushes(s: State, b: AgentId, attempts: nat)
    requires Inv(s) && Retries(s, b, 0, attempts, 3) && s.agents[b].pc.readyAt > s.now
    ensures Delays(Do(s, Advance(b)), attempts)
  {
    ClaimsKept(s, Advance(b), 0);
  }

  /** A running claim fails, and the job goes to the delayed set. */
  lemma FailsToDelayed(s: State, b: AgentId, w: WorkerId, attempts: nat) returns (steps: seq<Step>, s': State)
    requires InvSnap(s) && RunsClaim(s, b, w, 0) && s.docs[0].attempts == attempts < s.docs[0].maxAttempts == 3
    ensures Run(s, steps) == s' && Delays(s', attempts)
    ensures forall c | c in s.agents && c != b :: c in s'.agents && s'.agents[c] == s.agents[c]
  {
    var first, s1 := ClaimFails(s, b, w, 0);
    RunKeeps(s, first);
    BackoffPositive(attempts);
    Pushes(s1, b, attempts);
    OthersStay(s1, Advance(b), b);
    s' := Do(s1, Advance(b));
    steps := first + [Advance(b)];
    RunAppend(s, first, [Advance(b)]);
    RunOne(s1, Advance(b));
  }

  lemma FirstRetry() returns (steps: seq<Step>, s: State)
    ensures Run(Init, steps) == s && InvSnap(s) && Delays(s, 1)
  {
    Submits(3);
    InitSnap();
    InvSnapRun(Init, Submit(3));
    var first, s1 := MainClaims(InQueue(3), 0, 1, 0);
    var b :| RunsClaim(s1, b, 1, 0);
    InvSnapRun(InQueue(3), first);
    var second;
    second, s := FailsToDelayed(s1, b, 1, 1);
    steps := Submit(3) + (first + second);
    RunAppend(InQueue(3), first, second);
    RunAppend(Init, Submit(3), first + second);
    InvSnapRun(Init, steps);
  }

  /** A promoter lists the job, and it is first on the list. */
  lemma Lists(s: State, w: WorkerId) returns (list: Step, a: AgentId)
    requires 0 in s.delayed && s.delayed[0] <= s.now
    ensures list.ListDue? && Actor(list) == Some(a) && AboutToTake(Do(s, list), a, 0) && a !in s.agents
    ensures Do(s, list).delayed == s.delayed && Do(s, list).now == s.now && Do(s, list).docs == s.docs
  {
    a := FreshId(s.agents.Keys);
    list := ListFirst(s, a, w, 0);
  }

  /** Two promoters list the job when it is due; the first to remove it has it. */
  lemma TwoList(s: State) returns (steps: seq<Step>, s': State, late: AgentId, early: AgentId)
    requires Delays(s, 1)
    ensures Run(s, steps) == s' && s'.docs == s.docs && s'.delayed == s.delayed
    ensures early != late && AboutToTake(s', early, 0) && AboutToTake(s', late, 0)
  {
    var tick := Tick(s.delayed[0]);
    var s1 := Do(s, tick);
    var list, list';
    list, late := Lists(s1, 2);
    var s2 := Do(s1, list);
    list', early := Lists(s2, 3);
    OthersStay(s2, list', early);
    s' := Do(s2, list');
    steps := [tick] + [list, list'];
    RunOne(s, tick);
    RunTwo(s1, list, list');
    RunAppend(s, [tick], [list, list']);
  }

  /** The first promoter takes the job, and a lane claims it, while the other still lists it. */
  lemma TakesAndClaims(s: State, early: AgentId, late: AgentId) returns (steps: seq<Step>, s': State, b: AgentId)
    requires Inv(s) && AboutToTake(s, early, 0) && late in s.agents && late != early && s.agents[late].pc.Removing?
    ensures Run(s, steps) == s' && RunsClaim(s', b, 1, 0) && b != late
    ensures late in s'.agents && s'.agents[late] == s.agents[late]
    ensures 0 in s.docs && s'.docs[0].attempts == s.docs[0].attempts + 1
    ensures s'.docs[0].maxAttempts == s.docs[0].maxAttempts
  {
    Taking(s, early, 0);
    var rest;
    rest, s' := TakenClaims(s, early, 1, 0);
    b :| RunsClaim(s', b, 1, 0);
    steps := [Advance(early)] + rest;
  }

  /** ... and fails it. */
  lemma SecondRetry(s: State, early: AgentId, late: AgentId) returns (steps: seq<Step>, s': State)
    requires InvSnap(s) && 0 in s.docs && AboutToTake(s, early, 0)
    requires late in s.agents && late != early && s.agents[late].pc.Removing?
    requires s.docs[0].attempts == 1 && s.docs[0].maxAttempts == 3
    ensures Run(s, steps) == s' && Delays(s', 2) && late in s'.agents && s'.agents[late] == s.agents[late]
  {
    var first, s1, b := TakesAndClaims(s, early, late);
    InvSnapRun(s, first);
    var second;
    second, s' := FailsToDelayed(s1, b, 1, 2);
    steps := first + second;
    RunAppend(s, first, second);
  }

  lemma EarlyTakeReachable() returns (steps: seq<Step>, a: AgentId)
    ensures AboutToTake(Run(Init, steps), a, 0) && Run(Init, steps).delayed[0] > Run(Init, steps).now
  {
    var first, s1 := FirstRetry();
    var second, s2, late, early := TwoList(s1);
    InvSnapRun(s1, second);
    var third, s3 := SecondRetry(s2, early, late);
    steps, a := first + (second + third), late;
    RunAppend(Init, first, second + third);
    RunAppend(s1, second, third);
  }

  /** A retry is claimed before its readyAt. */
  lemma RetryIsClaimedEarly() returns (steps: seq<Step>)
    ensures 0 in Run(Init, steps).docs && !Paced(Run(Init, steps).docs[0].history)
  {
    var before, a := EarlyTakeReachable();
    InitInv();
    InvDueRun(Init, before);
    var more := EarlyTakeClaimsEarly(Run(Init, before), a, 1, 0);
    steps := before + ([Advance(a)] + more);
    RunAppend(Init, before, [Advance(a)] + more);
  }

  // -------------------------------------------------------------------------
  // A requested cancellation and a failing attempt
  // -------------------------------------------------------------------------

  const REQUEST := CLAIM + [BeginCancel(5, 0, 0), Advance(5)]

  /** Process 1 runs the only job, whose cancellation has been requested. */
  const REQUESTED := State(
    map[0 := FlagWrite(Taken(3), Taken(3), 0)], map[], map[], 0, map[0 := Agent(1, LaneRunning(0, MEMORY, 0))], {})

  lemma Requests()
    ensures Run(InHandler(3), [BeginCancel(5, 0, 0), Advance(5)]) == REQUESTED
  {
    TakenFields(3);
    var s1 := Do(InHandler(3), BeginCancel(5, 0, 0));
    assert s1.agents == map[0 := Agent(1, LaneRunning(0, MEMORY, 0)), 5 := Agent(0, CancelFlag(0, Taken(3), 0))];
    assert Do(s1, Advance(5)).agents == REQUESTED.agents;
    RunTwo(InHandler(3), BeginCancel(5, 0, 0), Advance(5));
  }

  lemma ReachesRequested() returns (steps: seq<Step>, s: State)
    ensures Run(Init, steps) == s && InvSnap(s) && RunsClaim(s, 0, 1, 0)
    ensures s.docs[0].cancellationRequested && s.docs[0].attempts == 1 && s.docs[0].maxAttempts == 3
  {
    Submits(3);
    Runs(3);
    Requests();
    TakenFields(3);
    RunAppend(InQueue(3), CLAIM, [BeginCancel(5, 0, 0), Advance(5)]);
    RunAppend(Init, Submit(3), REQUEST);
    steps, s := Submit(3) + REQUEST, REQUESTED;
    InitSnap();
    InvSnapRun(Init, steps);
  }

  /** The request is on, and the job is in its given attempt. */
  predicate Attempts(s: State, attempt: nat) {
    && 0 in s.docs && s.docs[0].cancellationRequested && s.docs[0].attempts == attempt
    && exists b, w | b in s.agents && s.agents[b].proc == w :: RunsClaim(s, b, w, 0)
  }

  /** The first attempt fails after the request, and a second one starts. */
  lemma RequestedRunsAgain() returns (first: seq<Step>, second: seq<Step>)
    ensures Attempts(Run(Init, first), 1) && Attempts(Run(Run(Init, first), second), 2)
  {
    var s;
    first, s := ReachesRequested();
    var fail, s1 := ClaimFails(s, 0, 1, 0);
    InvSnapRun(s, fail);
    var claim, s2, at := PushedClaims(s1, 0, 1, 0);
    second := fail + claim;
    RunAppend(s, fail, claim);
    FlagStays(s, second, 0);
    var b :| RunsClaim(s2, b, 1, 0);
  }

  // -------------------------------------------------------------------------
  // A less urgent job that is served first
  // -------------------------------------------------------------------------

  const LATER := 1_000_000_000_001

  function Job(key: string, priority: int): Request {
    Request("report", key, Some(priority), None, None, None)
  }

  lemma Creates(s: State, req: Request, id: JobId)
    requires s.agents == map[] && id !in s.docs && WellFormed(req) && req.scheduledFor.None?
    requires !KeyTaken(s.docs, req.idempotencyKey)
    ensures var doc := NewDoc(req, None, s.now);
            Run(s, [Lookup(0, 0, req), Insert(0, id)])
            == s.(docs := s.docs[id := doc], agents := map[0 := Agent(0, Submitted(id, doc.priority, None))])
  {
    var s1 := Do(s, Lookup(0, 0, req));
    assert s1 == s.(agents := map[0 := Agent(0, Submitting(req, None))]);
    RunTwo(s, Lookup(0, 0, req), Insert(0, id));
  }

  lemma OneSubmit(s: State, key: string, priority: int, id: JobId)
    requires s.agents == map[] && id !in s.docs && !KeyTaken(s.docs, key) && key != ""
    ensures var doc := NewDoc(Job(key, priority), None, s.now);
            Run(s, [Lookup(0, 0, Job(key, priority)), Insert(0, id), Advance(0)])
            == s.(docs := s.docs[id := doc], main := s.main[id := ComputeScore(priority, s.now)])
  {
    var req := Job(key, priority);
    Creates(s, req, id);
    var s2 := Run(s, [Lookup(0, 0, req), Insert(0, id)]);
    assert Do(s2, Advance(0)).agents == map[];
    RunAppend(s, [Lookup(0, 0, req), Insert(0, id)], [Advance(0)]);
    assert [Lookup(0, 0, req), Insert(0, id)] + [Advance(0)] == [Lookup(0, 0, req), Insert(0, id), Advance(0)];
    RunOne(s2, Advance(0));
  }

  lemma LowerScoreFirst(z: ZSet)
    requires z.Keys == {0, 1} && z[0] < z[1]
    ensures MinMember(z) == 0
  {
  }

  lemma ScoresInverted()
    ensures ComputeScore(1, 0) < ComputeScore(0, LATER)
  {
    PriorityDominates(Key(0, LATER), Key(1, 0));
    ScoreOrder(Key(0, LATER), Key(1, 0));
    ExactScore(Key(1, 0));
    ExactScore(Key(0, LATER));
  }

  function FirstSubmit(): seq<Step> {
    [Lookup(0, 0, Job("a", 1)), Insert(0, 0), Advance(0)]
  }

  function SecondSubmit(): seq<Step> {
    [Lookup(0, 0, Job("b", 0)), Insert(0, 1), Advance(0)]
  }

  lemma SubmitsTwo() returns (steps: seq<Step>)
    ensures var s := Run(Init, steps);
            && s.main == map[0 := ComputeScore(1, 0), 1 := ComputeScore(0, LATER)] && s.docs.Keys == {0, 1}
            && s.docs[0].priority == 1 && s.docs[1].priority == 0
  {
    OneSubmit(Init, "a", 1, 0);
    var s1 := Do(Run(Init, FirstSubmit()), Tick(LATER));
    assert s1.docs[0].idempotencyKey == "a" != "b";
    OneSubmit(s1, "b", 0, 1);
    steps := FirstSubmit() + ([Tick(LATER)] + SecondSubmit());
    RunAppend(Init, FirstSubmit(), [Tick(LATER)] + SecondSubmit());
    RunAppend(Run(Init, FirstSubmit()), [Tick(LATER)], SecondSubmit());
    RunOne(Run(Init, FirstSubmit()), Tick(LATER));
  }

  /** Job 0 has priority 1 and job 1, pushed more than 1e12 ms later, the more urgent priority 0; both
      wait in the main set, and the next pop takes job 0. */
  lemma LessUrgentFirst() returns (steps: seq<Step>)
    ensures var s := Run(Init, steps);
            && s.main.Keys == s.docs.Keys == {0, 1} && s.docs[1].priority < s.docs[0].priority && MinMember(s.main) == 0
  {
    steps := SubmitsTwo();
    ScoresInverted();
    LowerScoreFirst(Run(Init, steps).main);
  }
}
