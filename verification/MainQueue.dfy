/** The main set over whole runs, at level one: it is a queue ordered by the priority of the document,
    the time of the push, and the id. */
module MainQueue {
  import opened Jobs
  import opened Queue
  import opened Protocol
  import opened PriorityQueue

  /** Who is in the main set after a step, and since when: a push puts a job in line under its
      priority and the time, a pop or a removal takes it out. */
  function NextLine(s: State, q: Line, step: Step): Line {
    match step
    case Pop(a, _) => if a in s.agents || s.main == map[] then q else q - {MinMember(s.main)}
    case Advance(a) =>
      if a !in s.agents then q
      else (
        match s.agents[a].pc
        case Submitted(job, priority, None) => q[job := Key(priority, s.now)]
        case MoveSaved(got, priority) => if got == [] then q else q[got[0] := Key(priority, s.now)]
        case CancelMain(job, _) => q - {job}
        case _ => q)
    case _ => q
  }

  function LineAfter(s: State, q: Line, steps: seq<Step>): Line
    decreases steps
  {
    if steps == [] then q else LineAfter(Do(s, steps[0]), NextLine(s, q, steps[0]), steps[1..])
  }

  predicate HasPriority(docs: map<JobId, Doc>, j: JobId, priority: int) {
    j in docs && docs[j].priority == priority
  }

  /** A push uses the priority of the document. */
  predicate KnowsPriority(docs: map<JobId, Doc>, pc: Pc) {
    match pc
    case Submitted(job, priority, _) => HasPriority(docs, job, priority)
    case MoveLoaded(got, snap, _) => got != [] && HasPriority(docs, got[0], snap.priority)
    case MoveSaved(got, priority) => got != [] && HasPriority(docs, got[0], priority)
    case _ => true
  }

  predicate LineFits(docs: map<JobId, Doc>, q: Line) {
    forall j | j in q :: HasPriority(docs, j, q[j].priority)
  }

  predicate AgentsKnow(s: State) {
    forall a | a in s.agents :: KnowsPriority(s.docs, s.agents[a].pc)
  }

  predicate InvLine(s: State, q: Line) {
    Stores(s.main, q) && LineFits(s.docs, q) && AgentsKnow(s)
  }

  lemma PriorityKept(s: State, step: Step, j: JobId)
    requires j in s.docs
    ensures HasPriority(Do(s, step).docs, j, s.docs[j].priority)
  {
    StepWrites(s, step, j);
    if step.Advance? && step.a in s.agents {
      FixedFields(s.docs, s.agents[step.a], j, Do(s, step).docs[j]);
    }
  }

  lemma NextKnowsPriority(s: State, w: WorkerId, pc: Pc)
    requires KnowsPriority(s.docs, pc) && !Waits(pc)
    ensures EffectOf(s, w, pc).next.Some? ==> KnowsPriority(s.docs, EffectOf(s, w, pc).next.value)
  {
    if !pc.Moving? && !pc.MoveLoaded? && EffectOf(s, w, pc).next.Some? {
      OthersPushNothing(s, w, pc);
    }
  }

  lemma OthersPushNothing(s: State, w: WorkerId, pc: Pc)
    requires !Waits(pc) && !pc.Moving? && !pc.MoveLoaded? && EffectOf(s, w, pc).next.Some?
    ensures var next := EffectOf(s, w, pc).next.value; !next.Submitted? && !next.MoveLoaded? && !next.MoveSaved?
  {
    NextFollows(s, w, pc);
  }

  predicate SamePriorities(docs: map<JobId, Doc>, docs': map<JobId, Doc>) {
    forall j | j in docs :: HasPriority(docs', j, docs[j].priority)
  }

  lemma PrioritiesKept(s: State, step: Step)
    ensures SamePriorities(s.docs, Do(s, step).docs)
  {
    forall j | j in s.docs ensures HasPriority(Do(s, step).docs, j, s.docs[j].priority) {
      PriorityKept(s, step, j);
    }
  }

  /** What is known of the documents of before is known of those of after. */
  lemma KnowsOn(docs: map<JobId, Doc>, docs': map<JobId, Doc>, pc: Pc)
    requires KnowsPriority(docs, pc) && SamePriorities(docs, docs')
    ensures KnowsPriority(docs', pc)
  {
  }

  lemma StarterKnows(s: State, step: Step, a: AgentId)
    requires !step.Advance? && Actor(step) == Some(a) && a in Do(s, step).agents
    requires a in s.agents ==> KnowsPriority(s.docs, s.agents[a].pc)
    ensures KnowsPriority(Do(s, step).docs, Do(s, step).agents[a].pc)
  {
    PrioritiesKept(s, step);
    if a in s.agents {
      KnowsOn(s.docs, Do(s, step).docs, s.agents[a].pc);
    }
  }

  lemma AdvancerKnows(s: State, a: AgentId)
    requires a in AdvanceStep(s, a).agents && a in s.agents && KnowsPriority(s.docs, s.agents[a].pc)
    ensures KnowsPriority(s.docs, AdvanceStep(s, a).agents[a].pc)
  {
    AdvanceNext(s, a);
    if !Waits(s.agents[a].pc) {
      NextKnowsPriority(s, s.agents[a].proc, s.agents[a].pc);
    }
  }

  lemma KnowsStep(s: State, step: Step, a: AgentId)
    requires AgentsKnow(s) && a in Do(s, step).agents
    ensures KnowsPriority(Do(s, step).docs, Do(s, step).agents[a].pc)
  {
    PrioritiesKept(s, step);
    if Actor(step) != Some(a) {
      OnlyActorMoves(s, step, a);
      KnowsOn(s.docs, Do(s, step).docs, s.agents[a].pc);
    } else if !step.Advance? {
      StarterKnows(s, step, a);
    } else {
      AdvanceNext(s, a);
      AdvancerKnows(s, a);
      KnowsOn(s.docs, Do(s, step).docs, Do(s, step).agents[a].pc);
    }
  }

  predicate MovesMain(pc: Pc) {
    (pc.Submitted? && pc.scheduled.None?) || pc.MoveSaved? || pc.CancelMain?
  }

  lemma MainKept(s: State, w: WorkerId, pc: Pc)
    requires !MovesMain(pc)
    ensures EffectOf(s, w, pc).main == s.main
  {
    match pc
    case Failing(_, _, _, _, _, _) =>
    case LaneChecked(_, _, _, _, _) =>
    case Removing(_, _) =>
    case _ =>
  }

  lemma AdvanceStores(s: State, a: AgentId, q: Line)
    requires Stores(s.main, q) && a in s.agents && KnowsPriority(s.docs, s.agents[a].pc)
    ensures Stores(AdvanceStep(s, a).main, NextLine(s, q, Advance(a)))
  {
    var Agent(w, pc) := s.agents[a];
    if !MovesMain(pc) {
      MainKept(s, w, pc);
    } else {
      match pc
      case Submitted(job, priority, _) => PushStores(s.main, q, job, Key(priority, s.now));
      case MoveSaved(got, priority) => PushStores(s.main, q, got[0], Key(priority, s.now));
      case CancelMain(job, _) => RemoveStores(s.main, q, job);
    }
  }

  lemma OtherStores(s: State, step: Step, q: Line)
    requires Stores(s.main, q) && !step.Advance?
    ensures Stores(Do(s, step).main, NextLine(s, q, step))
  {
    if step.Pop? && step.a !in s.agents && s.main != map[] {
      RemoveStores(s.main, q, MinMember(s.main));
    }
  }

  lemma LineFitsStep(s: State, step: Step, q: Line)
    requires InvLine(s, q)
    ensures LineFits(Do(s, step).docs, NextLine(s, q, step))
  {
    forall j | j in NextLine(s, q, step) ensures HasPriority(Do(s, step).docs, j, NextLine(s, q, step)[j].priority) {
      if step.Advance? && step.a in s.agents {
        assert KnowsPriority(s.docs, s.agents[step.a].pc);
      }
      assert HasPriority(s.docs, j, NextLine(s, q, step)[j].priority);
      PriorityKept(s, step, j);
    }
  }

  lemma InvLineStep(s: State, step: Step, q: Line)
    requires InvLine(s, q)
    ensures InvLine(Do(s, step), NextLine(s, q, step))
  {
    LineFitsStep(s, step, q);
    if !step.Advance? {
      OtherStores(s, step, q);
    } else if step.a in s.agents {
      AdvanceStores(s, step.a, q);
    }
    forall a | a in Do(s, step).agents ensures KnowsPriority(Do(s, step).docs, Do(s, step).agents[a].pc) {
      KnowsStep(s, step, a);
    }
  }

  lemma {:induction false} InvLineRun(s: State, steps: seq<Step>, q: Line)
    requires InvLine(s, q)
    ensures InvLine(Run(s, steps), LineAfter(s, q, steps))
    decreases steps
  {
    if steps != [] {
      InvLineStep(s, steps[0], q);
      InvLineRun(Do(s, steps[0]), steps[1..], NextLine(s, q, steps[0]));
    }
  }

  /** Job j, taken off the main set by the new activity a, is the only first of the line q. */
  predicate TakesFirst(s: State, q: Line, a: AgentId, w: WorkerId, j: JobId) {
    && Do(s, Pop(a, w)) == s.(main := s.main - {j}, agents := s.agents[a := Agent(w, LanePopped(j))])
    && First(q, j) && forall k | k in q && First(q, k) :: k == j
  }

  lemma PopsFirst(s: State, q: Line, a: AgentId, w: WorkerId)
    requires SameOrder(s.main, q) && a !in s.agents && s.main != map[]
    ensures TakesFirst(s, q, a, w, MinMember(s.main))
  {
    PopIsFirst(s.main, q);
  }

  /** The line holds exactly the members of the main set, under the priorities of their documents. */
  predicate IsLine(s: State, q: Line) {
    q.Keys == s.main.Keys && LineFits(s.docs, q)
  }

  /** In every run, with any pushes, pops and cancels before, a lane pops the one job that is first in
      line by the priority in its document, the time it was pushed, and its id, among all that are in
      the main set, as long as their scores are exact and no urgent one came too late. */
  lemma PopTakesFirst(steps: seq<Step>, a: AgentId, w: WorkerId)
    requires a !in Run(Init, steps).agents && Run(Init, steps).main != map[]
    requires Orderly(LineAfter(Init, map[], steps))
    ensures IsLine(Run(Init, steps), LineAfter(Init, map[], steps))
    ensures exists j :: TakesFirst(Run(Init, steps), LineAfter(Init, map[], steps), a, w, j)
  {
    InvLineRun(Init, steps, map[]);
    StoredInOrder(Run(Init, steps).main, LineAfter(Init, map[], steps));
    PopsFirst(Run(Init, steps), LineAfter(Init, map[], steps), a, w);
  }

  // -------------------------------------------------------------------------
  // With priorities and times as they are
  // -------------------------------------------------------------------------

  /** Who is in line was pushed since `since`. */
  predicate PushedSince(s: State, q: Line, since: int) {
    since <= s.now && forall j | j in q :: since <= q[j].pushedAt <= s.now
  }

  lemma PushedSinceStep(s: State, step: Step, q: Line, since: int)
    requires PushedSince(s, q, since)
    ensures PushedSince(Do(s, step), NextLine(s, q, step), since)
  {
    assert s.now <= Do(s, step).now;
  }

  lemma {:induction false} PushedSinceRun(s: State, steps: seq<Step>, q: Line, since: int)
    requires PushedSince(s, q, since)
    ensures PushedSince(Run(s, steps), LineAfter(s, q, steps), since)
    decreases steps
  {
    if steps != [] {
      PushedSinceStep(s, steps[0], q, since);
      PushedSinceRun(Do(s, steps[0]), steps[1..], NextLine(s, q, steps[0]), since);
    }
  }

  lemma {:induction false} TimeNotNegative(s: State, steps: seq<Step>)
    requires s.now >= 0
    ensures Run(s, steps).now >= 0
    decreases steps
  {
    if steps != [] {
      assert Do(s, steps[0]).now >= s.now;
      TimeNotNegative(Do(s, steps[0]), steps[1..]);
    }
  }

  lemma OrderlyToday(s: State, q: Line, since: int)
    requires PushedSince(s, q, since) && LineFits(s.docs, q) && 0 <= since
    requires s.now - since < PRIORITY_WEIGHT && s.now <= 7_000_000_000_000
    requires forall j | j in s.docs :: 0 <= s.docs[j].priority <= 9000
    ensures Orderly(q)
  {
    forall j | j in q ensures ExactKey(q[j]) {
      assert HasPriority(s.docs, j, q[j].priority);
      PresentDayIsExact(q[j]);
    }
    forall j, k | j in q && k in q ensures Compatible(q[j], q[k]) {
      CloseIsCompatible(q[j], q[k]);
    }
  }

  /** In every run with priorities 0 to 9000, up to the year 2190, a lane pops the one job that is first
      by priority, time of the push and id, if the main set was empty at some time less than 1e12 ms,
      some thirty years, ago. */
  lemma PopTakesFirstToday(before: seq<Step>, after: seq<Step>, a: AgentId, w: WorkerId)
    requires var s0, s := Run(Init, before), Run(Run(Init, before), after);
             && s0.main == map[] && s.main != map[] && a !in s.agents
             && s.now - s0.now < PRIORITY_WEIGHT && s.now <= 7_000_000_000_000
             && forall j | j in s.docs :: 0 <= s.docs[j].priority <= 9000
    ensures var s0, s := Run(Init, before), Run(Run(Init, before), after);
            && IsLine(s, LineAfter(s0, map[], after))
            && exists j :: TakesFirst(s, LineAfter(s0, map[], after), a, w, j)
  {
    var s0 := Run(Init, before);
    InvLineRun(Init, before, map[]);
    InvLineRun(s0, after, map[]);
    TimeNotNegative(Init, before);
    PushedSinceRun(s0, after, map[], s0.now);
    OrderlyToday(Run(s0, after), LineAfter(s0, map[], after), s0.now);
    StoredInOrder(Run(s0, after).main, LineAfter(s0, map[], after));
    PopsFirst(Run(s0, after), LineAfter(s0, map[], after), a, w);
  }
}
