/** Level two, no pointer lost: while some worker process is alive, every reachable state has a
    finite continuation that finishes every job. */
module Completion {
  import opened Jobs
  import opened Queue
  import opened Protocol
  import opened Tokens
  import opened Safety
  import opened Timing
  import opened Lifecycle
  import opened Termination

  ghost predicate Good(s: State) {
    InvTimed(s) && InvLife(s)
  }

  predicate Path(s: State, steps: seq<Step>) {
    TimedRun(s, steps) && LosslessRun(s, steps)
  }

  /** The steps are a timed, lossless run without crashes from s to s', and no job has moved up. */
  ghost predicate Leads(s: State, steps: seq<Step>, s': State) {
    && Path(s, steps) && Run(s, steps) == s'
    && Good(s') && s'.dead == s.dead && s.docs.Keys <= s'.docs.Keys
    && forall j | j in s.docs :: Meter(s', j) <= Meter(s, j)
  }

  lemma {:induction false} PathAppend(s: State, first: seq<Step>, second: seq<Step>)
    requires Path(s, first) && Path(Run(s, first), second)
    ensures Path(s, first + second)
    decreases first
  {
    if first == [] {
      assert first + second == second;
    } else {
      assert (first + second)[1..] == first[1..] + second;
      PathAppend(Do(s, first[0]), first[1..], second);
    }
  }

  lemma LeadsTrans(s: State, first: seq<Step>, s': State, second: seq<Step>, s'': State)
    requires Leads(s, first, s') && Leads(s', second, s'')
    ensures Leads(s, first + second, s'')
  {
    PathAppend(s, first, second);
    RunAppend(s, first, second);
  }

  lemma StepMeters(s: State, step: Step)
    requires InvTimed(s)
    ensures s.docs.Keys <= Do(s, step).docs.Keys
    ensures forall j | j in s.docs :: Meter(Do(s, step), j) <= Meter(s, j)
  {
    forall j | j in s.docs ensures j in Do(s, step).docs && Meter(Do(s, step), j) <= Meter(s, j) {
      MeterStep(s, step, j);
    }
  }

  lemma OneStep(s: State, step: Step)
    requires Timed(s, step) && Lossless(s, step)
    ensures Path(s, [step]) && Run(s, [step]) == Do(s, step)
  {
    assert Run(s, [step]) == Run(Do(s, step), []);
  }

  lemma StepGood(s: State, step: Step)
    requires Good(s) && Timed(s, step) && Lossless(s, step)
    ensures Good(Do(s, step))
  {
    InvTimedStep(s, step);
    InvLifeStep(s, step);
  }

  lemma DeadKept(s: State, step: Step)
    requires !step.Crash?
    ensures Do(s, step).dead == s.dead
  {
  }

  lemma StepLeads(s: State, step: Step)
    requires Good(s) && Timed(s, step) && Lossless(s, step) && !step.Crash?
    ensures Leads(s, [step], Do(s, step))
  {
    OneStep(s, step);
    StepGood(s, step);
    StepMeters(s, step);
    DeadKept(s, step);
  }

  // -------------------------------------------------------------------------
  // An activity runs out
  // -------------------------------------------------------------------------

  function ContWork(cont: Cont): nat {
    if cont.EndPass? then 0 else 2 * |cont.rest|
  }

  /** A bound on the steps an activity still has to take. */
  function Work(pc: Pc): nat {
    match pc
    case Submitting(_, _) => 2
    case Submitted(_, _, _) => 1
    case CancelMain(_, _) => 3
    case CancelDelayed(_, _, _) => 2
    case CancelSave(_, _, _, _) => 1
    case CancelFlag(_, _, _) => 1
    case LanePopped(_) => 6
    case LaneLoaded(_, _, _) => 5
    case LaneRunning(_, _, _) => 4
    case LaneSettled(_, _, _) => 3
    case LaneChecked(_, _, _, _, _) => 2
    case Failing(_, _, _, _, _, cont) => 2 + ContWork(cont)
    case RetryPush(_, _, cont) => 1 + ContWork(cont)
    case Removing(todo, got) => 4 * |todo| + 3 * |got| + 3
    case Moving(got) => 3 * |got| + 2
    case MoveLoaded(got, _, _) => 3 * |got| + 1
    case MoveSaved(got, _) => 3 * |got|
  }

  lemma FreshId(used: set<nat>) returns (id: nat)
    ensures id !in used
    ensures forall u | u in used :: u < id
  {
    if used == {} {
      id := 0;
    } else {
      var u :| u in used;
      var below := FreshId(used - {u});
      id := if below > u then below else u + 1;
      assert forall v | v in used :: v == u || v in used - {u};
    }
  }

  /** The step an activity takes next, with a handler that resolves at once. */
  predicate IsNext(s: State, a: AgentId, step: Step) {
    a in s.agents &&
    match s.agents[a].pc
    case Submitting(_, _) => step.Insert? && step.a == a && step.id !in s.docs
    case LaneRunning(_, _, _) => step.Settle? && step.a == a && step.outcome.Resolves?
    case _ => step == Advance(a)
  }

  /** The activity is over, or has less to do and is no submission. */
  predicate Closer(next: Option<Pc>, pc: Pc) {
    next.Some? ==> Work(next.value) < Work(pc) && !next.value.Submitting?
  }

  lemma ContinueWorks(cont: Cont, now: int)
    ensures Continue(cont, now).Some? ==> Work(Continue(cont, now).value) <= ContWork(cont)
    ensures Continue(cont, now).Some? ==> !Continue(cont, now).value.Submitting?
  {
  }

  lemma RecoveryWorks(s: State, w: WorkerId, pc: Pc)
    requires pc.Failing? || pc.RetryPush?
    ensures Closer(EffectOf(s, w, pc).next, pc)
  {
    ContinueWorks(pc.cont, s.now);
  }

  lemma RemoverWorks(s: State, w: WorkerId, pc: Pc)
    requires pc.Removing?
    ensures Closer(EffectOf(s, w, pc).next, pc)
  {
  }

  lemma MoverWorks(s: State, w: WorkerId, pc: Pc)
    requires pc.Moving? || pc.MoveLoaded? || pc.MoveSaved?
    ensures Closer(EffectOf(s, w, pc).next, pc)
  {
  }

  lemma NextWorks(s: State, w: WorkerId, pc: Pc)
    requires !Waits(pc)
    ensures Closer(EffectOf(s, w, pc).next, pc)
  {
    if pc.Failing? || pc.RetryPush? {
      RecoveryWorks(s, w, pc);
    } else if pc.Removing? {
      RemoverWorks(s, w, pc);
    } else if pc.Moving? || pc.MoveLoaded? || pc.MoveSaved? {
      MoverWorks(s, w, pc);
    }
  }

  lemma NextStep(s: State, a: AgentId) returns (step: Step)
    requires a in s.agents
    ensures IsNext(s, a, step)
  {
    match s.agents[a].pc
    case Submitting(_, _) =>
      var id := FreshId(s.docs.Keys);
      step := Insert(a, id);
    case LaneRunning(_, _, _) => step := Settle(a, Resolves(""));
    case _ => step := Advance(a);
  }

  lemma AdvanceFrame(s: State, a: AgentId)
    requires a in s.agents
    ensures AdvanceStep(s, a).agents - {a} == s.agents - {a}
  {
  }

  lemma NextFrame(s: State, a: AgentId, step: Step)
    requires IsNext(s, a, step)
    ensures Do(s, step).agents - {a} == s.agents - {a}
  {
    if step.Advance? {
      AdvanceFrame(s, a);
    }
  }

  lemma AdvanceCloser(s: State, a: AgentId)
    requires a in s.agents && !Waits(s.agents[a].pc) && a in AdvanceStep(s, a).agents
    ensures Work(AdvanceStep(s, a).agents[a].pc) < Work(s.agents[a].pc) && !AdvanceStep(s, a).agents[a].pc.Submitting?
  {
    NextWorks(s, s.agents[a].proc, s.agents[a].pc);
  }

  /** The next step of an activity touches no other, and brings it closer to its end. */
  lemma NextCloser(s: State, a: AgentId, step: Step)
    requires IsNext(s, a, step)
    ensures Do(s, step).agents - {a} == s.agents - {a}
    ensures a in Do(s, step).agents ==> Work(Do(s, step).agents[a].pc) < Work(s.agents[a].pc)
    ensures a in Do(s, step).agents ==> !Do(s, step).agents[a].pc.Submitting?
    ensures !s.agents[a].pc.Submitting? ==> Do(s, step).docs.Keys == s.docs.Keys
  {
    NextFrame(s, a, step);
    if step.Advance? && a in Do(s, step).agents {
      AdvanceCloser(s, a);
    }
    if !s.agents[a].pc.Submitting? {
      KeysKept(s, step);
    }
  }

  lemma KeysKept(s: State, step: Step)
    requires !step.Insert?
    ensures Do(s, step).docs.Keys == s.docs.Keys
  {
    forall j | j in s.docs ensures j in Do(s, step).docs {
      StepWrites(s, step, j);
    }
    NewDocs(s, step);
  }

  lemma NextAllowed(s: State, a: AgentId, step: Step)
    requires IsNext(s, a, step)
    ensures Timed(s, step) && Lossless(s, step) && !step.Crash?
  {
  }

  lemma LeadsNowhere(s: State)
    requires Good(s)
    ensures Leads(s, [], s)
  {
  }

  /** Any activity can be run to its end, and nothing else happens meanwhile. */
  lemma {:induction false} RunOut(s: State, a: AgentId) returns (steps: seq<Step>, s': State)
    requires Good(s) && a in s.agents
    ensures Leads(s, steps, s') && s'.agents == s.agents - {a}
    ensures !s.agents[a].pc.Submitting? ==> s'.docs.Keys == s.docs.Keys
    decreases Work(s.agents[a].pc)
  {
    var step := NextStep(s, a);
    var s1 := Do(s, step);
    NextAllowed(s, a, step);
    StepLeads(s, step);
    NextCloser(s, a, step);
    if a in s1.agents {
      var rest;
      rest, s' := RunOut(s1, a);
      steps := [step] + rest;
      LeadsTrans(s, [step], s1, rest, s');
    } else {
      steps, s' := [step], s1;
      assert s1.agents == s1.agents - {a};
    }
  }

  lemma {:induction false} RunAllOut(s: State) returns (steps: seq<Step>, s': State)
    requires Good(s)
    ensures Leads(s, steps, s') && s'.agents == map[]
    decreases |s.agents|
  {
    if s.agents == map[] {
      LeadsNowhere(s);
      return [], s;
    }
    var a :| a in s.agents;
    var first, s1 := RunOut(s, a);
    assert s1.agents.Keys == s.agents.Keys - {a};
    var second;
    second, s' := RunAllOut(s1);
    steps := first + second;
    LeadsTrans(s, first, s1, second, s');
  }

  // -------------------------------------------------------------------------
  // The fuel of all jobs together
  // -------------------------------------------------------------------------

  ghost function Total(s: State, js: set<JobId>): int
    requires js <= s.docs.Keys
  {
    if js == {} then 0 else var j :| j in js; Meter(s, j) + Total(s, js - {j})
  }

  lemma MetersNatural(s: State)
    requires InvTimed(s)
    ensures forall j | j in s.docs :: 0 <= Meter(s, j)
  {
    forall j | j in s.docs ensures 0 <= Meter(s, j) {
      MeterRange(s, j);
    }
  }

  lemma {:induction false} TotalBounds(s: State, s': State, js: set<JobId>)
    requires js <= s.docs.Keys && js <= s'.docs.Keys
    requires forall j | j in js :: 0 <= Meter(s', j) <= Meter(s, j)
    ensures 0 <= Total(s', js) <= Total(s, js)
    ensures (exists j :: j in js && Meter(s', j) < Meter(s, j)) ==> Total(s', js) < Total(s, js)
  {
    if js != {} {
      var j :| j in js && Total(s, js) == Meter(s, j) + Total(s, js - {j})
               && Total(s', js) == Meter(s', j) + Total(s', js - {j});
      TotalBounds(s, s', js - {j});
      assert forall k | k in js :: k == j || k in js - {j};
    }
  }

  // -------------------------------------------------------------------------
  // Something can always move
  // -------------------------------------------------------------------------

  lemma {:induction false} Enumerate(js: set<JobId>) returns (r: seq<JobId>)
    ensures NoDup(r) && forall j :: j in r <==> j in js
  {
    if js == {} {
      return [];
    }
    var j :| j in js;
    var rest := Enumerate(js - {j});
    r := [j] + rest;
  }

  lemma EnumerateFrom(js: set<JobId>, j: JobId) returns (r: seq<JobId>)
    requires j in js
    ensures r != [] && r[0] == j && NoDup(r) && forall k :: k in r <==> k in js
  {
    var rest := Enumerate(js - {j});
    r := [j] + rest;
  }

  lemma LeavesPlace(s: State, step: Step, j: JobId, p: Place)
    requires InvTimed(s) && j in s.docs && At(s, j, p) && !At(Do(s, step), j, p)
    ensures j in Do(s, step).docs && Meter(Do(s, step), j) < Meter(s, j)
  {
    MeterStep(s, step, j);
  }

  /** From a quiet state: pop the first job of the main set. */
  lemma MoveMain(s: State, w: WorkerId) returns (steps: seq<Step>, s': State, j: JobId)
    requires Good(s) && s.agents == map[] && w !in s.dead && s.main != map[]
    ensures Leads(s, steps, s') && s'.docs.Keys == s.docs.Keys
    ensures j in s.docs && Meter(s', j) < Meter(s, j)
    ensures 0 in s'.agents && s'.agents.Keys == {0} && !s'.agents[0].pc.Submitting?
  {
    var step := Pop(0, w);
    j := MinMember(s.main);
    assert At(s, j, Main);
    steps, s' := [step], Do(s, step);
    StepLeads(s, step);
    LeavesPlace(s, step, j, Main);
    KeysKept(s, step);
  }

  /** A step of the only activity moves job j from where it is. */
  lemma SoleStep(s: State, before: seq<Step>, s1: State, step: Step, j: JobId, p: Place)
    requires Good(s) && Leads(s, before, s1) && s1.docs.Keys == s.docs.Keys
    requires j in s.docs && At(s1, j, p) && !At(Do(s1, step), j, p)
    requires Timed(s1, step) && Lossless(s1, step) && !step.Crash? && !step.Insert?
    ensures Leads(s, before + [step], Do(s1, step)) && Do(s1, step).docs.Keys == s.docs.Keys
    ensures Meter(Do(s1, step), j) < Meter(s, j)
  {
    StepLeads(s1, step);
    LeavesPlace(s1, step, j, p);
    KeysKept(s1, step);
    LeadsTrans(s, before, s1, [step], Do(s1, step));
  }

  lemma QuietStep(s: State, before: seq<Step>, s1: State, step: Step)
    requires Good(s) && Leads(s, before, s1) && s1.docs.Keys == s.docs.Keys
    requires Timed(s1, step) && Lossless(s1, step) && !step.Crash? && !step.Insert?
    ensures Leads(s, before + [step], Do(s1, step)) && Do(s1, step).docs.Keys == s.docs.Keys
  {
    StepLeads(s1, step);
    KeysKept(s1, step);
    LeadsTrans(s, before, s1, [step], Do(s1, step));
  }

  /** From a quiet state: wait until `time`. */
  lemma Wait(s: State, time: int) returns (s': State)
    requires Good(s) && s.agents == map[]
    ensures Leads(s, [Tick(time)], s') && s' == s.(now := Max(s.now, time))
  {
    s' := Do(s, Tick(time));
    StepLeads(s, Tick(time));
  }

  /** A promotion pass that has a due job first on its list. */
  lemma ListFirst(s: State, a: AgentId, w: WorkerId, j: JobId) returns (step: Step)
    requires a !in s.agents && j in s.delayed && s.delayed[j] <= s.now
    ensures step.ListDue? && step.a == a && step.w == w && Do(s, step).delayed == s.delayed
    ensures Do(s, step).agents.Keys == s.agents.Keys + {a} && Do(s, step).agents[a].pc.Removing?
    ensures Do(s, step).agents[a].pc.todo != [] && Do(s, step).agents[a].pc.todo[0] == j
  {
    var due := EnumerateFrom((set k | k in s.delayed && s.delayed[k] <= s.now), j);
    step := ListDue(a, w, due, s.now);
    assert ListsDue(s.delayed, due, s.now);
  }

  lemma TakeFirst(s: State, j: JobId)
    requires s.agents.Keys == {0} && s.agents[0].pc.Removing? && s.agents[0].pc.todo != []
    requires s.agents[0].pc.todo[0] == j
    requires j in s.delayed
    ensures !At(Do(s, Advance(0)), j, Delayed)
    ensures Do(s, Advance(0)).agents.Keys == {0} && !Do(s, Advance(0)).agents[0].pc.Submitting?
  {
  }

  lemma WaitAndList(s: State, w: WorkerId, j: JobId) returns (steps: seq<Step>, s': State)
    requires Good(s) && s.agents == map[] && w !in s.dead && j in s.delayed
    ensures Leads(s, steps, s') && s'.docs.Keys == s.docs.Keys && j in s'.delayed && s'.agents.Keys == {0}
    ensures s'.agents[0].pc.Removing? && s'.agents[0].pc.todo != [] && s'.agents[0].pc.todo[0] == j
  {
    var s1 := Wait(s, s.delayed[j]);
    var list := ListFirst(s1, 0, w, j);
    QuietStep(s, [Tick(s.delayed[j])], s1, list);
    steps, s' := [Tick(s.delayed[j])] + [list], Do(s1, list);
  }

  /** From a quiet state: wait for a delayed job, and promote it first. */
  lemma MoveDelayed(s: State, w: WorkerId, j: JobId) returns (steps: seq<Step>, s': State)
    requires Good(s) && s.agents == map[] && w !in s.dead && j in s.delayed
    ensures Leads(s, steps, s') && s'.docs.Keys == s.docs.Keys
    ensures j in s.docs && Meter(s', j) < Meter(s, j)
    ensures 0 in s'.agents && s'.agents.Keys == {0} && !s'.agents[0].pc.Submitting?
  {
    assert At(s, j, Delayed);
    var before, s1 := WaitAndList(s, w, j);
    TakeFirst(s1, j);
    assert At(s1, j, Delayed);
    SoleStep(s, before, s1, Advance(0), j, Delayed);
    steps, s' := before + [Advance(0)], Do(s1, Advance(0));
  }

  lemma QuietLockDead(s: State, j: JobId)
    requires Good(s) && s.agents == map[] && j in s.docs && s.docs[j].lockedBy.Some?
    ensures s.docs[j].lockedBy.value in s.dead
    ensures s.docs[j].status == Processing && s.docs[j].lockExpiresAt.Some?
  {
    assert DocLife(s.docs[j]) && DocOk(s.docs[j]) && DocTimed(s.docs[j]);
  }

  /** A recovery pass that has a job with an expired lock first on its list. */
  lemma ScanFirst(s: State, a: AgentId, w: WorkerId, j: JobId) returns (step: Step)
    requires a !in s.agents && j in s.docs && Expired(s.docs[j], s.now)
    ensures step.FindStale? && step.a == a && step.w == w && Do(s, step).docs == s.docs
    ensures Do(s, step).agents.Keys == s.agents.Keys + {a} && Do(s, step).agents[a].pc.Failing?
    ensures var pc := Do(s, step).agents[a].pc;
            pc.job == j && pc.owner == s.docs[j].lockedBy && pc.verdict == Decide(s.docs[j], LockLost(s.docs[j]), s.now)
  {
    var ids := EnumerateFrom((set k | k in s.docs && Expired(s.docs[k], s.now)), j);
    var found := seq(|ids|, i requires 0 <= i < |ids| =>
                     Stale(ids[i], if ids[i] in s.docs then s.docs[ids[i]] else s.docs[j]));
    forall i | 0 <= i < |ids| ensures ids[i] in s.docs && Expired(s.docs[ids[i]], s.now) {
      assert ids[i] in ids;
    }
    assert forall i | 0 <= i < |ids| :: found[i] == Stale(ids[i], s.docs[ids[i]]);
    forall k | k in s.docs && Expired(s.docs[k], s.now) ensures Stale(k, s.docs[k]) in found {
      assert k in ids;
      var i :| 0 <= i < |ids| && ids[i] == k;
      assert found[i] == Stale(k, s.docs[k]);
    }
    assert ListsStale(s.docs, found, s.now);
    step := FindStale(a, w, found, s.now);
  }

  lemma ResolveFirst(s: State, j: JobId)
    requires s.agents.Keys == {0} && s.agents[0].pc.Failing? && s.agents[0].pc.job == j
    requires j in s.docs && s.agents[0].pc.owner == s.docs[j].lockedBy
    ensures !At(Do(s, Advance(0)), j, Lock)
    ensures Do(s, Advance(0)).agents.Keys <= {0}
    ensures 0 in Do(s, Advance(0)).agents ==> !Do(s, Advance(0)).agents[0].pc.Submitting?
  {
    NextWorks(s, s.agents[0].proc, s.agents[0].pc);
  }

  /** From a quiet state: wait for the lock of a dead owner to expire, and recover that job first. */
  lemma MoveLocked(s: State, w: WorkerId, j: JobId) returns (steps: seq<Step>, s': State)
    requires Good(s) && s.agents == map[] && w !in s.dead && j in s.docs && s.docs[j].lockedBy.Some?
    ensures Leads(s, steps, s') && s'.docs.Keys == s.docs.Keys
    ensures Meter(s', j) < Meter(s, j)
    ensures s'.agents.Keys <= {0} && (0 in s'.agents ==> !s'.agents[0].pc.Submitting?)
  {
    QuietLockDead(s, j);
    var time := s.docs[j].lockExpiresAt.value + 1;
    var s1 := Wait(s, time);
    var scan := ScanFirst(s1, 0, w, j);
    QuietStep(s, [Tick(time)], s1, scan);
    var s2 := Do(s1, scan);
    ResolveFirst(s2, j);
    assert At(s2, j, Lock);
    SoleStep(s, [Tick(time)] + [scan], s2, Advance(0), j, Lock);
    steps, s' := [Tick(time)] + [scan] + [Advance(0)], Do(s2, Advance(0));
  }

  // -------------------------------------------------------------------------
  // Every job can finish
  // -------------------------------------------------------------------------

  /** Let the only activity run out. */
  lemma Settled(s: State, before: seq<Step>, s1: State, j: JobId) returns (steps: seq<Step>, s': State)
    requires Good(s) && Leads(s, before, s1) && s1.docs.Keys == s.docs.Keys
    requires j in s.docs && Meter(s1, j) < Meter(s, j)
    requires s1.agents.Keys <= {0} && (0 in s1.agents ==> !s1.agents[0].pc.Submitting?)
    ensures Leads(s, steps, s') && s'.docs.Keys == s.docs.Keys && s'.agents == map[]
    ensures Total(s', s.docs.Keys) < Total(s, s.docs.Keys)
  {
    if 0 in s1.agents {
      var rest;
      rest, s' := RunOut(s1, 0);
      assert s'.agents.Keys == s1.agents.Keys - {0} == {};
      steps := before + rest;
      LeadsTrans(s, before, s1, rest, s');
    } else {
      assert s1.agents.Keys == {};
      steps, s' := before, s1;
    }
    assert Meter(s', j) < Meter(s, j);
    MetersNatural(s');
    TotalBounds(s, s', s.docs.Keys);
  }

  /** One job at least takes a step down the ladder, and the system is quiet again. */
  lemma MakeProgress(s: State, w: WorkerId, k: JobId) returns (steps: seq<Step>, s': State)
    requires Good(s) && s.agents == map[] && w !in s.dead && k in s.docs && !Final(s.docs[k].status)
    ensures Leads(s, steps, s') && s'.docs.Keys == s.docs.Keys && s'.agents == map[]
    ensures Total(s', s.docs.Keys) < Total(s, s.docs.Keys)
  {
    assert Accounted(s, k);
    var p :| At(s, k, p);
    var first, s1, j;
    if s.main != map[] {
      first, s1, j := MoveMain(s, w);
    } else if p == Delayed {
      j := k;
      first, s1 := MoveDelayed(s, w, k);
    } else {
      j := k;
      first, s1 := MoveLocked(s, w, k);
    }
    steps, s' := Settled(s, first, s1, j);
  }

  lemma {:induction false} FinishAll(s: State, w: WorkerId) returns (steps: seq<Step>, s': State)
    requires Good(s) && s.agents == map[] && w !in s.dead
    ensures Leads(s, steps, s') && forall j | j in s'.docs :: Final(s'.docs[j].status)
    decreases Total(s, s.docs.Keys)
  {
    if forall j | j in s.docs :: Final(s.docs[j].status) {
      LeadsNowhere(s);
      return [], s;
    }
    var k :| k in s.docs && !Final(s.docs[k].status);
    var first, s1 := MakeProgress(s, w, k);
    MetersNatural(s);
    TotalBounds(s, s, s.docs.Keys);
    var second;
    second, s' := FinishAll(s1, w);
    steps := first + second;
    LeadsTrans(s, first, s1, second, s');
  }

  lemma GoodFromInit(steps: seq<Step>)
    requires Path(Init, steps)
    ensures Good(Run(Init, steps))
  {
    InitInv();
    InvTimedRun(Init, steps);
    InvLifeRun(Init, steps);
  }

  /** From every reachable state in which some process w is alive there is a finite continuation,
      within the timing assumptions and without losing a pointer, after which every job, those then
      being submitted included, is COMPLETED, DEAD_LETTER or CANCELLED. */
  lemma EveryJobCanFinish(steps: seq<Step>, w: WorkerId)
    requires Path(Init, steps) && w !in Run(Init, steps).dead
    ensures exists more :: Path(Run(Init, steps), more)
              && Run(Init, steps).docs.Keys <= Run(Run(Init, steps), more).docs.Keys
              && forall j | j in Run(Run(Init, steps), more).docs :: Final(Run(Run(Init, steps), more).docs[j].status)
  {
    GoodFromInit(steps);
    var s := Run(Init, steps);
    var first, s1 := RunAllOut(s);
    var second, s2 := FinishAll(s1, w);
    LeadsTrans(s, first, s1, second, s2);
    assert Path(s, first + second) && Run(s, first + second) == s2;
  }
}
