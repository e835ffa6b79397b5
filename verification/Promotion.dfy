/** Concurrent promotion passes over one delayed set, among anything else that goes on
    (src/queue/claim.js:47-59). */
module Promotion {
  import opened Jobs
  import opened Queue
  import opened Protocol

  function DueSet(z: ZSet, asOf: int): set<JobId> {
    set j | j in z && z[j] <= asOf
  }

  /** Any step but one that adds to the delayed set or cancels from it; a listing is as of a time when
      exactly `due` of the members the set had at first are due. */
  predicate PassStep(s: State, step: Step, all: ZSet, due: set<JobId>) {
    match step
    case ListDue(a, _, _, asOf) => DueSet(all, asOf) == due
    case Advance(a) =>
      a in s.agents ==> (
        match s.agents[a].pc
        case Submitted(_, _, scheduled) => scheduled.None?
        case RetryPush(_, _, _) => false
        case CancelDelayed(job, _, _) => job !in s.delayed
        case _ => true)
    case _ => true
  }

  predicate PassRun(s: State, steps: seq<Step>, all: ZSet, due: set<JobId>)
    decreases steps
  {
    steps == [] || (PassStep(s, steps[0], all, due) && PassRun(Do(s, steps[0]), steps[1..], all, due))
  }

  // -------------------------------------------------------------------------
  // What the passes take
  // -------------------------------------------------------------------------

  /** A ZREM of pass `a` that removed a job, which the pass then returns. */
  datatype Taken = Taken(a: AgentId, job: JobId)

  function TakenBy(s: State, step: Step): seq<Taken> {
    if step.Advance? && step.a in s.agents && s.agents[step.a].pc.Removing? && s.agents[step.a].pc.todo != []
       && s.agents[step.a].pc.todo[0] in s.delayed
    then [Taken(step.a, s.agents[step.a].pc.todo[0])]
    else []
  }

  function AllTaken(s: State, steps: seq<Step>): seq<Taken>
    decreases steps
  {
    if steps == [] then [] else TakenBy(s, steps[0]) + AllTaken(Do(s, steps[0]), steps[1..])
  }

  /** A pass reaches the end of its list. */
  predicate Ends(s: State, step: Step) {
    match step
    case ListDue(a, _, due, asOf) => a !in s.agents && asOf <= s.now && ListsDue(s.delayed, due, asOf) && due == []
    case Advance(a) => a in s.agents && s.agents[a].pc.Removing? && |s.agents[a].pc.todo| == 1
    case _ => false
  }

  predicate SomeEnds(s: State, steps: seq<Step>)
    decreases steps
  {
    steps != [] && (Ends(s, steps[0]) || SomeEnds(Do(s, steps[0]), steps[1..]))
  }

  function JobsOf(log: seq<Taken>): seq<JobId> {
    seq(|log|, i requires 0 <= i < |log| => log[i].job)
  }

  // -------------------------------------------------------------------------
  // The invariant
  // -------------------------------------------------------------------------

  /** A pass still scanning has all due jobs that are left on its list, and returns what it took. */
  predicate Scans(s: State, pc: Pc, a: AgentId, due: set<JobId>, log: seq<Taken>) {
    pc.Removing? ==>
      && pc.todo != []
      && (forall j | j in pc.todo :: j in due)
      && (forall j | j in due && j in s.delayed :: j in pc.todo)
      && (forall j | j in pc.got :: Taken(a, j) in log)
  }

  predicate Covered(s: State, all: ZSet, due: set<JobId>, log: seq<Taken>, ended: bool) {
    && (forall j | j in s.delayed :: j in all && s.delayed[j] == all[j])
    && NoDup(JobsOf(log))
    && (forall j | j in all :: j in s.delayed <==> j !in JobsOf(log))
    && (forall j | j in JobsOf(log) :: j in all && j in due)
    && (forall a | a in s.agents :: Scans(s, s.agents[a].pc, a, due, log))
    && (ended ==> forall j | j in s.delayed :: j !in due)
  }

  lemma JobsAppend(log: seq<Taken>, t: Taken)
    ensures JobsOf(log + [t]) == JobsOf(log) + [t.job]
    ensures forall j :: j in JobsOf(log + [t]) <==> j in JobsOf(log) || j == t.job
    ensures NoDup(JobsOf(log)) && t.job !in JobsOf(log) ==> NoDup(JobsOf(log + [t]))
  {
  }

  /** Steps that leave the delayed set alone. */
  lemma QuietDelayed(s: State, w: WorkerId, pc: Pc)
    requires !pc.Submitted? && !pc.RetryPush? && !pc.CancelDelayed? && !pc.Removing?
    ensures EffectOf(s, w, pc).delayed == s.delayed
  {
    match pc
    case Failing(_, _, _, _, _, _) =>
    case LaneChecked(_, _, _, _, _) =>
    case CancelMain(_, _) =>
    case _ =>
  }

  lemma AdvanceDelayed(s: State, a: AgentId, all: ZSet, due: set<JobId>)
    requires a in s.agents && PassStep(s, Advance(a), all, due) && !s.agents[a].pc.Removing?
    ensures AdvanceStep(s, a).delayed == s.delayed
  {
    var pc := s.agents[a].pc;
    if !pc.Submitted? && !pc.RetryPush? && !pc.CancelDelayed? {
      QuietDelayed(s, s.agents[a].proc, pc);
    }
  }

  lemma NextScans(s: State, w: WorkerId, pc: Pc)
    requires EffectOf(s, w, pc).next.Some? && EffectOf(s, w, pc).next.value.Removing? && !Waits(pc)
    ensures pc.Removing?
  {
    NextFollows(s, w, pc);
  }

  lemma AdvanceScans(s: State, a: AgentId)
    requires a in AdvanceStep(s, a).agents && AdvanceStep(s, a).agents[a].pc.Removing?
    ensures a in s.agents && s.agents[a].pc.Removing?
  {
    AdvanceNext(s, a);
    if !Waits(s.agents[a].pc) {
      NextScans(s, s.agents[a].proc, s.agents[a].pc);
    }
  }

  /** A step that is neither a listing nor a ZREM of a pass. */
  lemma OtherCovers(s: State, step: Step, all: ZSet, due: set<JobId>, log: seq<Taken>, ended: bool)
    requires Covered(s, all, due, log, ended) && PassStep(s, step, all, due) && !step.ListDue?
    requires step.Advance? && step.a in s.agents ==> !s.agents[step.a].pc.Removing?
    ensures Covered(Do(s, step), all, due, log, ended)
  {
    assert Do(s, step).delayed == s.delayed by {
      if step.Advance? && step.a in s.agents {
        AdvanceDelayed(s, step.a, all, due);
      }
    }
    forall a | a in Do(s, step).agents ensures Scans(Do(s, step), Do(s, step).agents[a].pc, a, due, log) {
      if Do(s, step).agents[a].pc.Removing? {
        StillScans(s, step, a);
        assert Scans(s, s.agents[a].pc, a, due, log);
      }
    }
  }

  lemma StillScans(s: State, step: Step, a: AgentId)
    requires a in Do(s, step).agents && Do(s, step).agents[a].pc.Removing? && !step.ListDue?
    requires step.Advance? && step.a in s.agents ==> !s.agents[step.a].pc.Removing?
    ensures a in s.agents && s.agents[a] == Do(s, step).agents[a]
  {
    if Actor(step) != Some(a) {
      OnlyActorMoves(s, step, a);
    } else if step.Advance? {
      AdvanceScans(s, a);
    }
  }

  lemma ListCovers(s: State, step: Step, all: ZSet, due: set<JobId>, log: seq<Taken>, ended: bool)
    requires Covered(s, all, due, log, ended) && step.ListDue? && PassStep(s, step, all, due)
    ensures Covered(Do(s, step), all, due, log, ended || Ends(s, step))
  {
    var s' := Do(s, step);
    assert s'.delayed == s.delayed;
    assert forall j :: j in due <==> j in all && all[j] <= step.asOf by {
      assert DueSet(all, step.asOf) == due;
    }
    forall a | a in s'.agents ensures Scans(s', s'.agents[a].pc, a, due, log) {
      if a in s.agents {
        assert s'.agents[a] == s.agents[a] && Scans(s, s.agents[a].pc, a, due, log);
      }
    }
  }

  /** What one ZREM of a pass does. */
  lemma RemoveEffect(s: State, a: AgentId)
    requires a in s.agents && s.agents[a].pc.Removing? && s.agents[a].pc.todo != []
    ensures var s' := AdvanceStep(s, a);
            var todo, got := s.agents[a].pc.todo, s.agents[a].pc.got;
            && s'.delayed == s.delayed - {todo[0]}
            && (forall b | b in s'.agents && b != a :: b in s.agents && s'.agents[b] == s.agents[b])
            && (a in s'.agents && s'.agents[a].pc.Removing? ==>
                  && todo[1..] != []
                  && s'.agents[a].pc == Removing(todo[1..], if todo[0] in s.delayed then got + [todo[0]] else got))
  {
  }

  lemma ScansOn(s: State, s': State, pc: Pc, a: AgentId, due: set<JobId>, log: seq<Taken>, more: seq<Taken>)
    requires Scans(s, pc, a, due, log) && forall j | j in s'.delayed :: j in s.delayed
    ensures Scans(s', pc, a, due, log + more)
  {
  }

  lemma RemoverScans(s: State, a: AgentId, due: set<JobId>, log: seq<Taken>)
    requires a in s.agents && s.agents[a].pc.Removing? && Scans(s, s.agents[a].pc, a, due, log)
    requires a in AdvanceStep(s, a).agents
    ensures Scans(AdvanceStep(s, a), AdvanceStep(s, a).agents[a].pc, a, due, log + TakenBy(s, Advance(a)))
  {
    RemoveEffect(s, a);
    var todo := s.agents[a].pc.todo;
    assert todo == [todo[0]] + todo[1..];
  }

  lemma RemoveCovers(s: State, a: AgentId, all: ZSet, due: set<JobId>, log: seq<Taken>, ended: bool)
    requires Covered(s, all, due, log, ended) && a in s.agents && s.agents[a].pc.Removing?
    ensures Covered(AdvanceStep(s, a), all, due, log + TakenBy(s, Advance(a)), ended || Ends(s, Advance(a)))
  {
    var s' := AdvanceStep(s, a);
    var todo := s.agents[a].pc.todo;
    assert Scans(s, s.agents[a].pc, a, due, log);
    RemoveEffect(s, a);
    JobsAppend(log, Taken(a, todo[0]));
    assert log + [] == log;
    forall b | b in s'.agents ensures Scans(s', s'.agents[b].pc, b, due, log + TakenBy(s, Advance(a))) {
      if b == a {
        RemoverScans(s, a, due, log);
      } else {
        ScansOn(s, s', s.agents[b].pc, b, due, log, TakenBy(s, Advance(a)));
      }
    }
    if |todo| == 1 {
      assert todo == [todo[0]];
    }
  }

  lemma StepCovers(s: State, step: Step, all: ZSet, due: set<JobId>, log: seq<Taken>, ended: bool)
    requires Covered(s, all, due, log, ended) && PassStep(s, step, all, due)
    ensures Covered(Do(s, step), all, due, log + TakenBy(s, step), ended || Ends(s, step))
  {
    if step.ListDue? {
      ListCovers(s, step, all, due, log, ended);
      assert log + TakenBy(s, step) == log;
    } else if step.Advance? && step.a in s.agents && s.agents[step.a].pc.Removing? {
      RemoveCovers(s, step.a, all, due, log, ended);
    } else {
      OtherCovers(s, step, all, due, log, ended);
      assert log + TakenBy(s, step) == log;
    }
  }

  lemma {:induction false} PassesCover(s: State, steps: seq<Step>, all: ZSet, due: set<JobId>, log: seq<Taken>,
                                       ended: bool)
    requires Covered(s, all, due, log, ended) && PassRun(s, steps, all, due)
    ensures Covered(Run(s, steps), all, due, log + AllTaken(s, steps), ended || SomeEnds(s, steps))
    decreases steps
  {
    if steps == [] {
      assert log + AllTaken(s, steps) == log;
    } else {
      StepCovers(s, steps[0], all, due, log, ended);
      PassesCover(Do(s, steps[0]), steps[1..], all, due, log + TakenBy(s, steps[0]), ended || Ends(s, steps[0]));
      assert log + AllTaken(s, steps) == log + TakenBy(s, steps[0]) + AllTaken(Do(s, steps[0]), steps[1..]);
    }
  }

  /** Any number of passes over one delayed set, interleaved with each other and with all that neither
      adds to the set nor cancels from it, passes cut short included: no job is taken twice, by one
      pass or by two; only due jobs are taken, and nothing else leaves the set. Once some pass has
      reached the end of its list, all due jobs have been taken and exactly the others are left. A
      pass that is scanning is going to return only what it took itself. */
  lemma PassesPartition(s: State, steps: seq<Step>, due: set<JobId>)
    requires (forall a | a in s.agents :: !s.agents[a].pc.Removing?) && due <= s.delayed.Keys
    requires PassRun(s, steps, s.delayed, due)
    ensures var s', log := Run(s, steps), AllTaken(s, steps);
            && NoDup(JobsOf(log))
            && (forall j | j in JobsOf(log) :: j in due)
            && (forall j :: j in s'.delayed <==> j in s.delayed && j !in JobsOf(log))
            && (SomeEnds(s, steps) ==>
                  (forall j :: j in JobsOf(log) <==> j in due) && s'.delayed.Keys == s.delayed.Keys - due)
            && (forall a, j | a in s'.agents && s'.agents[a].pc.Removing? && j in s'.agents[a].pc.got ::
                  Taken(a, j) in log)
  {
    var s', log := Run(s, steps), AllTaken(s, steps);
    PassesCover(s, steps, s.delayed, due, [], false);
    assert [] + log == log;
    forall a, j | a in s'.agents && s'.agents[a].pc.Removing? && j in s'.agents[a].pc.got ensures Taken(a, j) in log {
      assert Scans(s', s'.agents[a].pc, a, due, log);
    }
  }
}
