/** Level one, the other way round: as long as a pointer to a job exists outside a lock, the workers
    can still claim the job; so the guards of the safety results cannot be left out. */
module Reclaim {
  import opened Jobs
  import opened Queue
  import opened Protocol
  import opened Tokens
  import opened Completion
  import opened Backoff

  // -------------------------------------------------------------------------
  // Taking a pointer to the main set
  // -------------------------------------------------------------------------

  /** d' is d but for API or promotion writes. */
  predicate SameClaims(d: Doc, d': Doc) {
    d'.attempts == d.attempts && d'.maxAttempts == d.maxAttempts && Earliest(d'.history) == Earliest(d.history)
  }

  /** The steps lead from s to s' without a claim of j, touch no activity of s but a, and take j from the
      delayed set only when it is due. */
  ghost predicate Onward(s: State, steps: seq<Step>, s': State, a: AgentId, j: JobId) {
    && Run(s, steps) == s' && Inv(s') && s.dead == s'.dead && PunctualRun(s, steps, j)
    && j in s.docs && j in s'.docs && SameClaims(s.docs[j], s'.docs[j])
    && forall b | b in s.agents && b != a :: b in s'.agents && s'.agents[b] == s.agents[b]
  }

  lemma OnwardTrans(s: State, first: seq<Step>, s1: State, second: seq<Step>, s2: State, a: AgentId, b: AgentId,
                    j: JobId)
    requires Onward(s, first, s1, a, j) && Onward(s1, second, s2, b, j) && (b == a || b !in s.agents)
    ensures Onward(s, first + second, s2, a, j)
  {
    RunAppend(s, first, second);
    PunctualAppend(s, first, second, j);
  }

  lemma ClaimsKept(s: State, step: Step, j: JobId)
    requires PcsOk(s) && j in s.docs
    requires step.Advance? && step.a in s.agents ==> !s.agents[step.a].pc.Failing? && !s.agents[step.a].pc.LaneLoaded?
    ensures j in Do(s, step).docs && SameClaims(s.docs[j], Do(s, step).docs[j])
  {
    StepWrites(s, step, j);
    if step.Advance? && step.a in s.agents {
      FixedFields(s.docs, s.agents[step.a], j, Do(s, step).docs[j]);
      EarliestKept(s, step.a, j);
    }
  }

  /** A step of an activity that is neither failing nor about to claim. */
  lemma StepOnward(s: State, step: Step, a: AgentId, j: JobId)
    requires Inv(s) && j in s.docs && Actor(step) == Some(a) && Punctual(s, step, j)
    requires step.Advance? && a in s.agents ==> !s.agents[a].pc.Failing? && !s.agents[a].pc.LaneLoaded?
    ensures Onward(s, [step], Do(s, step), a, j)
  {
    RunOne(s, step);
    PunctualOne(s, step, j);
    DoKeeps(s, step);
    ClaimsKept(s, step, j);
    OthersStay(s, step, a);
  }

  predicate Mover(pc: Pc) {
    pc.Removing? || pc.Moving? || pc.MoveLoaded? || pc.MoveSaved?
  }

  predicate Carries(s: State, a: AgentId, j: JobId) {
    a in s.agents && Mover(s.agents[a].pc) && j in s.agents[a].pc.got
  }

  lemma RemoverKeeps(s: State, a: AgentId, j: JobId)
    requires Carries(s, a, j) && s.agents[a].pc.Removing? && s.agents[a].pc.todo != []
    ensures Carries(AdvanceStep(s, a), a, j)
  {
    var Removing(todo, got) := s.agents[a].pc;
    assert todo[0] in s.delayed ==> j in got + [todo[0]];
  }

  /** A promoter keeps the jobs it took until it pushes them. */
  lemma MoverKeeps(s: State, a: AgentId, j: JobId)
    requires Carries(s, a, j) && !s.agents[a].pc.Removing? && s.agents[a].pc.got[0] in s.docs
    ensures j in AdvanceStep(s, a).main || Carries(AdvanceStep(s, a), a, j)
  {
    var got := s.agents[a].pc.got;
    assert got == [got[0]] + got[1..];
  }

  lemma CarrierAdvances(s: State, a: AgentId, j: JobId)
    requires Inv(s) && Carries(s, a, j)
    ensures AdvanceStep(s, a).now == s.now
    ensures j in AdvanceStep(s, a).main
            || (Carries(AdvanceStep(s, a), a, j) && Work(AdvanceStep(s, a).agents[a].pc) < Work(s.agents[a].pc))
  {
    assert PcOk(s.docs, s.agents[a].pc);
    if s.agents[a].pc.Removing? {
      RemoverKeeps(s, a, j);
    } else {
      assert At(s, s.agents[a].pc.got[0], Hand(a));
      MoverKeeps(s, a, j);
    }
    NextWorks(s, s.agents[a].proc, s.agents[a].pc);
  }

  lemma CarrierOnward(s: State, a: AgentId, j: JobId)
    requires Inv(s) && Carries(s, a, j)
    ensures Onward(s, [Advance(a)], Do(s, Advance(a)), a, j)
  {
    assert At(s, j, Hand(a)) && !At(s, j, Delayed);
    StepOnward(s, Advance(a), a, j);
  }

  lemma {:induction false} MoverDelivers(s: State, a: AgentId, j: JobId) returns (steps: seq<Step>, s': State)
    requires Inv(s) && Carries(s, a, j)
    ensures Onward(s, steps, s', a, j) && j in s'.main && s'.now == s.now
    decreases Work(s.agents[a].pc)
  {
    CarrierOnward(s, a, j);
    CarrierAdvances(s, a, j);
    steps, s' := [Advance(a)], Do(s, Advance(a));
    if j !in s'.main {
      var s1 := s';
      var rest;
      rest, s' := MoverDelivers(s1, a, j);
      OnwardTrans(s, [Advance(a)], s1, rest, s', a, a, j);
      steps := [Advance(a)] + rest;
    }
  }

  // -------------------------------------------------------------------------
  // Popping and claiming it
  // -------------------------------------------------------------------------

  /** Lane b of process w works on the claim in the document of job j. */
  predicate RunsClaim(s: State, b: AgentId, w: WorkerId, j: JobId) {
    && b in s.agents && s.agents[b].proc == w && s.agents[b].pc.LaneRunning? && s.agents[b].pc.job == j
    && j in s.docs && s.docs[j].lockedBy == Some(w) && s.agents[b].pc.mem.attempts == s.docs[j].attempts
  }

  /** A lane of process w has just claimed job j, at time `at`. */
  ghost predicate ClaimsNow(s: State, steps: seq<Step>, s': State, a: AgentId, w: WorkerId, j: JobId, at: int) {
    && Run(s, steps) == s' && Inv(s') && s.dead == s'.dead && PunctualRun(s, steps, j)
    && j in s.docs && j in s'.docs && (exists b :: RunsClaim(s', b, w, j))
    && s'.docs[j].attempts == s.docs[j].attempts + 1 && s'.docs[j].maxAttempts == s.docs[j].maxAttempts
    && (Paced(s'.docs[j].history) ==> NotBefore(s.docs[j].history, at))
    && forall b | b in s.agents && b != a :: b in s'.agents && s'.agents[b] == s.agents[b]
  }

  lemma LaneClaims(s: State, a: AgentId, j: JobId)
    requires Inv(s) && a in s.agents && s.agents[a].pc.LaneLoaded? && s.agents[a].pc.job == j
    ensures ClaimsNow(s, [Advance(a)], Do(s, Advance(a)), a, s.agents[a].proc, j, s.agents[a].pc.at)
  {
    ClaimWrites(s, a, j);
    RunOne(s, Advance(a));
    PunctualOne(s, Advance(a), j);
    DoKeeps(s, Advance(a));
    OthersStay(s, Advance(a), a);
  }

  lemma ClaimWrites(s: State, a: AgentId, j: JobId)
    requires PcsOk(s) && a in s.agents && s.agents[a].pc.LaneLoaded? && s.agents[a].pc.job == j
    ensures var s' := Do(s, Advance(a));
            && s'.dead == s.dead && j in s.docs && j in s'.docs && RunsClaim(s', a, s.agents[a].proc, j)
            && s'.docs[j].attempts == s.docs[j].attempts + 1 && s'.docs[j].maxAttempts == s.docs[j].maxAttempts
            && (Paced(s'.docs[j].history) ==> NotBefore(s.docs[j].history, s.agents[a].pc.at))
  {
    assert PcOk(s.docs, s.agents[a].pc);
  }

  lemma OnwardClaims(s: State, first: seq<Step>, s1: State, second: seq<Step>, s2: State, a: AgentId, b: AgentId,
                     w: WorkerId, j: JobId, at: int)
    requires Onward(s, first, s1, a, j) && ClaimsNow(s1, second, s2, b, w, j, at) && (b == a || b !in s.agents)
    ensures ClaimsNow(s, first + second, s2, a, w, j, at)
  {
    RunAppend(s, first, second);
    PunctualAppend(s, first, second, j);
  }

  lemma PoppedClaims(s: State, a: AgentId, j: JobId) returns (steps: seq<Step>, s': State)
    requires Inv(s) && a in s.agents && s.agents[a].pc == LanePopped(j)
    ensures ClaimsNow(s, steps, s', a, s.agents[a].proc, j, s.now)
  {
    assert At(s, j, Hand(a));
    var s1 := Do(s, Advance(a));
    StepOnward(s, Advance(a), a, j);
    LaneClaims(s1, a, j);
    steps, s' := [Advance(a)] + [Advance(a)], Do(s1, Advance(a));
    OnwardClaims(s, [Advance(a)], s1, [Advance(a)], s', a, a, s.agents[a].proc, j, s.now);
  }

  /** Lanes of process w pop what comes before j, and then j. */
  lemma {:induction false} MainClaims(s: State, a: AgentId, w: WorkerId, j: JobId) returns (steps: seq<Step>, s': State)
    requires Inv(s) && j in s.main
    ensures ClaimsNow(s, steps, s', a, w, j, s.now)
    decreases |s.main|
  {
    assert At(s, j, Main);
    var b := FreshId(s.agents.Keys + {a});
    var s1 := Do(s, Pop(b, w));
    StepOnward(s, Pop(b, w), b, j);
    var rest;
    if MinMember(s.main) == j {
      rest, s' := PoppedClaims(s1, b, j);
      OnwardClaims(s, [Pop(b, w)], s1, rest, s', b, b, w, j, s.now);
    } else {
      assert s1.main.Keys == s.main.Keys - {MinMember(s.main)};
      rest, s' := MainClaims(s1, b, w, j);
      OnwardClaims(s, [Pop(b, w)], s1, rest, s', b, b, w, j, s.now);
    }
    steps := [Pop(b, w)] + rest;
  }

  lemma CarriedClaims(s: State, a: AgentId, w: WorkerId, j: JobId) returns (steps: seq<Step>, s': State)
    requires Inv(s) && Carries(s, a, j)
    ensures ClaimsNow(s, steps, s', a, w, j, s.now)
  {
    var first, s1 := MoverDelivers(s, a, j);
    var second;
    second, s' := MainClaims(s1, a, w, j);
    steps := first + second;
    OnwardClaims(s, first, s1, second, s', a, a, w, j, s.now);
  }

  // -------------------------------------------------------------------------
  // Promoting it
  // -------------------------------------------------------------------------

  lemma TickOnward(s: State, time: int, a: AgentId, j: JobId)
    requires Inv(s) && j in s.docs
    ensures Onward(s, [Tick(time)], s.(now := Max(s.now, time)), a, j)
  {
    RunOne(s, Tick(time));
    PunctualOne(s, Tick(time), j);
    DoKeeps(s, Tick(time));
  }

  /** Job j is in the delayed set, and the next that promoter a tries to remove from it. */
  predicate AboutToTake(s: State, a: AgentId, j: JobId) {
    && j in s.delayed && a in s.agents && s.agents[a].pc.Removing?
    && s.agents[a].pc.todo != [] && s.agents[a].pc.todo[0] == j
  }

  lemma TakesFirst(s: State, a: AgentId, j: JobId)
    requires AboutToTake(s, a, j)
    ensures Carries(Do(s, Advance(a)), a, j)
  {
    assert j in s.agents[a].pc.got + [j];
  }

  lemma DelayedTaken(s: State, a: AgentId, w: WorkerId, j: JobId) returns (steps: seq<Step>, s': State)
    requires Inv(s) && j in s.delayed && s.delayed[j] <= s.now && a !in s.agents
    ensures Onward(s, steps, s', a, j) && Carries(s', a, j)
  {
    assert At(s, j, Delayed);
    var list := ListFirst(s, a, w, j);
    var s1 := Do(s, list);
    StepOnward(s, list, a, j);
    TakesFirst(s1, a, j);
    s' := Do(s1, Advance(a));
    StepOnward(s1, Advance(a), a, j);
    OnwardTrans(s, [list], s1, [Advance(a)], s', a, a, j);
    steps := [list] + [Advance(a)];
  }

  lemma DelayedClaims(s: State, a: AgentId, w: WorkerId, j: JobId)
    returns (steps: seq<Step>, s': State, at: int)
    requires Inv(s) && j in s.delayed
    ensures ClaimsNow(s, steps, s', a, w, j, at)
  {
    assert At(s, j, Delayed);
    var b := FreshId(s.agents.Keys + {a});
    var tick := [Tick(s.delayed[j])];
    var s1 := s.(now := Max(s.now, s.delayed[j]));
    TickOnward(s, s.delayed[j], b, j);
    var take, s2 := DelayedTaken(s1, b, w, j);
    OnwardTrans(s, tick, s1, take, s2, b, b, j);
    var claim;
    claim, s' := CarriedClaims(s2, b, w, j);
    at := s2.now;
    OnwardClaims(s, tick + take, s2, claim, s', b, b, w, j, at);
    steps := tick + take + claim;
  }

  // -------------------------------------------------------------------------
  // From anywhere
  // -------------------------------------------------------------------------

  predicate Pusher(s: State, a: AgentId, j: JobId) {
    a in s.agents && (s.agents[a].pc.RetryPush? || s.agents[a].pc.Submitted?) && s.agents[a].pc.job == j
  }

  lemma PusherPushes(s: State, a: AgentId, j: JobId)
    requires Pusher(s, a, j)
    ensures j in Do(s, Advance(a)).delayed || j in Do(s, Advance(a)).main
  {
  }

  lemma PusherHolds(s: State, a: AgentId, j: JobId)
    requires Inv(s) && Pusher(s, a, j)
    ensures j in s.docs
  {
    assert At(s, j, Hand(a));
  }

  lemma PushOnward(s: State, a: AgentId, j: JobId)
    requires Inv(s) && Pusher(s, a, j)
    ensures Onward(s, [Advance(a)], Do(s, Advance(a)), a, j)
    ensures j in Do(s, Advance(a)).delayed || j in Do(s, Advance(a)).main
  {
    PusherHolds(s, a, j);
    PusherPushes(s, a, j);
    StepOnward(s, Advance(a), a, j);
  }

  lemma PushedClaims(s: State, a: AgentId, w: WorkerId, j: JobId) returns (steps: seq<Step>, s': State, at: int)
    requires Inv(s) && Pusher(s, a, j)
    ensures ClaimsNow(s, steps, s', a, w, j, at)
  {
    var s1 := Do(s, Advance(a));
    PushOnward(s, a, j);
    var rest;
    if j in s1.delayed {
      rest, s', at := DelayedClaims(s1, a, w, j);
    } else {
      rest, s' := MainClaims(s1, a, w, j);
      at := s1.now;
    }
    steps := [Advance(a)] + rest;
    OnwardClaims(s, [Advance(a)], s1, rest, s', a, a, w, j, at);
  }

  lemma HeldClaims(s: State, a: AgentId, w: WorkerId, j: JobId)
    returns (steps: seq<Step>, s': State, who: WorkerId, at: int)
    requires Inv(s) && a in s.agents && Holds(s.agents[a].pc, j)
    ensures ClaimsNow(s, steps, s', a, who, j, at)
  {
    who, at := w, s.now;
    if s.agents[a].pc.LanePopped? {
      who := s.agents[a].proc;
      steps, s' := PoppedClaims(s, a, j);
    } else if s.agents[a].pc.LaneLoaded? {
      who, at := s.agents[a].proc, s.agents[a].pc.at;
      LaneClaims(s, a, j);
      steps, s' := [Advance(a)], Do(s, Advance(a));
    } else if Mover(s.agents[a].pc) {
      steps, s' := CarriedClaims(s, a, w, j);
    } else {
      steps, s', at := PushedClaims(s, a, w, j);
    }
  }

  /** Wherever outside a lock the pointer of a job is, some continuation claims the job. */
  lemma PointerClaims(s: State, j: JobId, p: Place) returns (steps: seq<Step>, s': State, b: AgentId, who: WorkerId)
    requires Inv(s) && At(s, j, p) && !p.Lock?
    ensures Run(s, steps) == s' && RunsClaim(s', b, who, j)
    ensures j in s.docs && s'.docs[j].attempts == s.docs[j].attempts + 1
  {
    var at;
    who := 0;
    match p {
      case Main => steps, s' := MainClaims(s, 0, who, j);
      case Delayed => steps, s', at := DelayedClaims(s, 0, who, j);
      case Hand(a) => steps, s', who, at := HeldClaims(s, a, 0, j);
    }
    b :| RunsClaim(s', b, who, j);
  }

  /** What a promoter that has taken job j holds, and nobody else's position. */
  lemma Taking(s: State, a: AgentId, j: JobId)
    requires Inv(s) && AboutToTake(s, a, j)
    ensures var s' := Do(s, Advance(a));
            && Inv(s') && Carries(s', a, j) && s'.now == s.now
            && j in s.docs && j in s'.docs && SameClaims(s.docs[j], s'.docs[j])
            && forall b | b in s.agents && b != a :: b in s'.agents && s'.agents[b] == s.agents[b]
  {
    assert At(s, j, Delayed);
    DoKeeps(s, Advance(a));
    ClaimsKept(s, Advance(a), j);
    OthersStay(s, Advance(a), a);
    TakesFirst(s, a, j);
  }

  /** Once the promoter has taken it, the job can be claimed at once. */
  lemma TakenClaims(s: State, a: AgentId, w: WorkerId, j: JobId) returns (steps: seq<Step>, s': State)
    requires Inv(s) && AboutToTake(s, a, j)
    ensures ClaimsNow(Do(s, Advance(a)), steps, s', a, w, j, s.now)
  {
    Taking(s, a, j);
    steps, s' := CarriedClaims(Do(s, Advance(a)), a, w, j);
  }

  /** A promoter that takes an entry before its score lets the job be claimed before its time, with no
      other untimely take of the job. */
  lemma EarlyTakeClaimsEarly(s: State, a: AgentId, w: WorkerId, j: JobId) returns (steps: seq<Step>)
    requires InvDue(s) && AboutToTake(s, a, j) && s.delayed[j] > s.now
    ensures PunctualRun(Do(s, Advance(a)), steps, j) && !DocPaced(Run(Do(s, Advance(a)), steps), j)
  {
    assert At(s, j, Delayed) && ScoreFits(s, j, Delayed);
    Taking(s, a, j);
    var s';
    steps, s' := TakenClaims(s, a, w, j);
  }

  /** After the take, no run that takes job j only when it is due claims it before its time, if and only
      if the entry taken was due. */
  lemma TimelyTakeExactly(s: State, a: AgentId, j: JobId)
    requires InvDue(s) && InvPaced(s, j) && AboutToTake(s, a, j)
    ensures (forall steps | PunctualRun(Do(s, Advance(a)), steps, j) :: DocPaced(Run(Do(s, Advance(a)), steps), j))
       <==> s.delayed[j] <= s.now
  {
    var s' := Do(s, Advance(a));
    if s.delayed[j] <= s.now {
      InvPacedStep(s, Advance(a), j);
      forall steps | PunctualRun(s', steps, j) ensures DocPaced(Run(s', steps), j) {
        InvPacedRun(s', steps, j);
      }
    } else {
      var steps := EarlyTakeClaimsEarly(s, a, 0, j);
    }
  }
}
