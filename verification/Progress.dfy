/** Every step moves a job's pointer strictly down a ladder of places; only a claim goes back up,
    and it spends one claim. */
module Progress {
  import opened Jobs
  import opened Protocol
  import opened Tokens

  const LADDER := 10

  /** How far down the ladder an activity at `pc` has brought job j. */
  function HandRank(pc: Pc, j: JobId): nat {
    match pc
    case RetryPush(_, _, _) => 8
    case Submitted(_, _, _) => 8
    case Removing(_, _) => 6
    case Moving(_) => 6
    case MoveLoaded(got, _, _) => if got != [] && got[0] == j then 5 else 6
    case MoveSaved(got, _) => if got != [] && got[0] == j then 4 else 6
    case LanePopped(_) => 2
    case LaneLoaded(_, _, _) => 1
    case _ => 0
  }

  function Rank(s: State, j: JobId, p: Place): nat
    requires At(s, j, p)
  {
    match p
    case Lock => 9
    case Delayed => 7
    case Main => 3
    case Hand(a) => HandRank(s.agents[a].pc, j)
  }

  function MaxClaims(d: Doc): int {
    Max(1, d.maxAttempts)
  }

  /** The lexicographic measure (claims left, rank) as one number. */
  function Fuel(s: State, j: JobId, p: Place): int
    requires j in s.docs && At(s, j, p)
  {
    LADDER * (MaxClaims(s.docs[j]) - s.docs[j].attempts) + Rank(s, j, p)
  }

  /** From p in s to q in s': the pointer stayed, or moved strictly down. */
  predicate Descends(s: State, s': State, j: JobId, p: Place, q: Place) {
    && j in s.docs && j in s'.docs && At(s, j, p) && At(s', j, q)
    && s'.docs[j].maxAttempts == s.docs[j].maxAttempts
    && (Fuel(s', j, q) < Fuel(s, j, p)
        || (p == q && Rank(s', j, q) == Rank(s, j, p) && s'.docs[j].attempts == s.docs[j].attempts))
  }

  ghost predicate Descended(s: State, s': State, j: JobId, q: Place) {
    exists p :: Descends(s, s', j, p, q)
  }

  lemma Stayed(s: State, s': State, j: JobId, q: Place)
    requires j in s.docs && j in s'.docs && At(s, j, q) && At(s', j, q)
    requires s'.docs[j].attempts == s.docs[j].attempts && s'.docs[j].maxAttempts == s.docs[j].maxAttempts
    requires Rank(s', j, q) <= Rank(s, j, q)
    ensures Descended(s, s', j, q)
  {
    assert Descends(s, s', j, q, q);
  }

  lemma ClaimDescends(s: State, a: AgentId, j: JobId, q: Place)
    requires Exclusive(s) && PcsOk(s) && a in s.agents && s.agents[a].pc.LaneLoaded?
    requires j in s.docs && At(AdvanceStep(s, a), j, q)
    ensures Descended(s, AdvanceStep(s, a), j, q)
  {
    var s' := AdvanceStep(s, a);
    assert PcOk(s.docs, s.agents[a].pc);
    if j == s.agents[a].pc.job {
      assert At(s, j, Hand(a));
      assert At(s', j, q) ==> q == Lock by {
        if !q.Lock? && q != Hand(a) {
          assert At(s, j, q);
        }
      }
      assert Descends(s, s', j, Hand(a), Lock);
    } else {
      Stayed(s, s', j, q);
    }
  }

  lemma FailDescends(s: State, a: AgentId, j: JobId, q: Place)
    requires PcsOk(s) && a in s.agents && s.agents[a].pc.Failing?
    requires j in s.docs && At(AdvanceStep(s, a), j, q)
    ensures Descended(s, AdvanceStep(s, a), j, q)
  {
    var s' := AdvanceStep(s, a);
    var Agent(w, Failing(job, owner, mem, verdict, at, cont)) := s.agents[a];
    assert PcOk(s.docs, s.agents[a].pc);
    if q == Hand(a) {
      FailPushes(s, a, w, job, owner, verdict, at, cont, j);
      assert Descends(s, s', j, Lock, q);
    } else {
      FailFrame(s, a, w, job, owner, verdict, at, cont, j, q);
      Stayed(s, s', j, q);
    }
  }

  lemma FailPushes(s: State, a: AgentId, w: WorkerId, job: JobId, owner: Option<WorkerId>, verdict: Verdict, at: int,
                   cont: Cont, j: JobId)
    requires PcsOk(s) && a in s.agents && owner.Some? && ContOk(cont)
    requires At(Apply(s, a, w, Resolve(s, w, job, owner, verdict, at, cont)), j, Hand(a))
    ensures j == job && At(s, j, Lock)
    ensures Apply(s, a, w, Resolve(s, w, job, owner, verdict, at, cont)).agents[a].pc.RetryPush?
    ensures Apply(s, a, w, Resolve(s, w, job, owner, verdict, at, cont)).docs[j].attempts == s.docs[j].attempts
    ensures Apply(s, a, w, Resolve(s, w, job, owner, verdict, at, cont)).docs[j].maxAttempts == s.docs[j].maxAttempts
  {
    ContinueOk(s.docs, cont, s.now);
  }

  lemma FailFrame(s: State, a: AgentId, w: WorkerId, job: JobId, owner: Option<WorkerId>, verdict: Verdict, at: int,
                  cont: Cont, j: JobId, q: Place)
    requires a in s.agents && j in s.docs && q != Hand(a)
    requires At(Apply(s, a, w, Resolve(s, w, job, owner, verdict, at, cont)), j, q)
    ensures At(s, j, q) && Rank(Apply(s, a, w, Resolve(s, w, job, owner, verdict, at, cont)), j, q) == Rank(s, j, q)
    ensures Apply(s, a, w, Resolve(s, w, job, owner, verdict, at, cont)).docs[j].attempts == s.docs[j].attempts
    ensures Apply(s, a, w, Resolve(s, w, job, owner, verdict, at, cont)).docs[j].maxAttempts == s.docs[j].maxAttempts
  {
  }

  lemma MoveLoadDescends(s: State, a: AgentId, j: JobId, q: Place)
    requires PcsOk(s) && a in s.agents && s.agents[a].pc.Moving?
    requires j in s.docs && At(AdvanceStep(s, a), j, q)
    ensures Descended(s, AdvanceStep(s, a), j, q)
  {
    assert PcOk(s.docs, s.agents[a].pc);
    Stayed(s, AdvanceStep(s, a), j, q);
  }

  lemma MoveSaveFrame(s: State, a: AgentId)
    requires PcsOk(s) && a in s.agents && s.agents[a].pc.MoveLoaded?
    ensures var s', pc := AdvanceStep(s, a), s.agents[a].pc;
            && s'.main == s.main && s'.delayed == s.delayed
            && (forall b | b in s'.agents && b != a :: b in s.agents && s'.agents[b] == s.agents[b])
            && (a in s'.agents ==> s'.agents[a].pc.MoveSaved? && s'.agents[a].pc.got == pc.got)
            && forall j | j in s.docs :: j in s'.docs && s'.docs[j].lockedBy == s.docs[j].lockedBy
                 && s'.docs[j].attempts == s.docs[j].attempts && s'.docs[j].maxAttempts == s.docs[j].maxAttempts
  {
    assert PcOk(s.docs, s.agents[a].pc);
  }

  lemma MoveSaveDescends(s: State, a: AgentId, j: JobId, q: Place)
    requires PcsOk(s) && a in s.agents && s.agents[a].pc.MoveLoaded?
    requires j in s.docs && At(AdvanceStep(s, a), j, q)
    ensures Descended(s, AdvanceStep(s, a), j, q)
  {
    MoveSaveFrame(s, a);
    Stayed(s, AdvanceStep(s, a), j, q);
  }

  lemma MovePushDescends(s: State, a: AgentId, j: JobId, q: Place)
    requires PcsOk(s) && a in s.agents && s.agents[a].pc.MoveSaved?
    requires j in s.docs && At(AdvanceStep(s, a), j, q)
    ensures Descended(s, AdvanceStep(s, a), j, q)
  {
    var s' := AdvanceStep(s, a);
    assert PcOk(s.docs, s.agents[a].pc);
    if q == Main && j == s.agents[a].pc.got[0] {
      assert Descends(s, s', j, Hand(a), q);
    } else {
      Stayed(s, s', j, q);
    }
  }

  lemma RemoveDescends(s: State, a: AgentId, j: JobId, q: Place)
    requires PcsOk(s) && a in s.agents && s.agents[a].pc.Removing?
    requires j in s.docs && At(AdvanceStep(s, a), j, q)
    ensures Descended(s, AdvanceStep(s, a), j, q)
  {
    var Agent(w, Removing(todo, got)) := s.agents[a];
    var s' := AdvanceStep(s, a);
    assert PcOk(s.docs, s.agents[a].pc);
    if q == Hand(a) && todo[0] in s.delayed && j == todo[0] {
      assert Descends(s, s', j, Delayed, q);
    } else {
      assert q == Hand(a) ==> j in got;
      Stayed(s, s', j, q);
    }
  }

  lemma PushDescends(s: State, a: AgentId, j: JobId, q: Place)
    requires PcsOk(s) && a in s.agents && (s.agents[a].pc.Submitted? || s.agents[a].pc.RetryPush?)
    requires j in s.docs && At(AdvanceStep(s, a), j, q)
    ensures Descended(s, AdvanceStep(s, a), j, q)
  {
    var s' := AdvanceStep(s, a);
    assert PcOk(s.docs, s.agents[a].pc);
    if s.agents[a].pc.RetryPush? {
      ContinueOk(s.docs, s.agents[a].pc.cont, s.now);
    }
    if j == s.agents[a].pc.job && q in {Main, Delayed} {
      assert Descends(s, s', j, Hand(a), q);
    } else {
      Stayed(s, s', j, q);
    }
  }

  lemma LoadDescends(s: State, a: AgentId, j: JobId, q: Place)
    requires a in s.agents && (s.agents[a].pc.LanePopped? || s.agents[a].pc.LaneSettled?)
    requires j in s.docs && At(AdvanceStep(s, a), j, q)
    ensures Descended(s, AdvanceStep(s, a), j, q)
  {
    Stayed(s, AdvanceStep(s, a), j, q);
  }

  lemma FinishDescends(s: State, a: AgentId, w: WorkerId, job: JobId, value: string, wasCancelled: bool, at: int,
                       j: JobId, q: Place)
    requires j in s.docs && At(Apply(s, a, w, Finish(s, w, job, value, wasCancelled, at)), j, q)
    ensures Descended(s, Apply(s, a, w, Finish(s, w, job, value, wasCancelled, at)), j, q)
  {
    Stayed(s, Apply(s, a, w, Finish(s, w, job, value, wasCancelled, at)), j, q);
  }

  lemma CancelDescends(s: State, a: AgentId, j: JobId, q: Place)
    requires PcsOk(s) && a in s.agents
    requires s.agents[a].pc.CancelMain? || s.agents[a].pc.CancelDelayed? || s.agents[a].pc.CancelSave?
             || s.agents[a].pc.CancelFlag?
    requires j in s.docs && At(AdvanceStep(s, a), j, q)
    ensures Descended(s, AdvanceStep(s, a), j, q)
  {
    assert PcOk(s.docs, s.agents[a].pc);
    Stayed(s, AdvanceStep(s, a), j, q);
  }

  lemma AdvanceDescends(s: State, a: AgentId, j: JobId, q: Place)
    requires Exclusive(s) && PcsOk(s) && j in s.docs && At(AdvanceStep(s, a), j, q)
    ensures Descended(s, AdvanceStep(s, a), j, q)
  {
    if a !in s.agents {
      Stayed(s, s, j, q);
    } else {
      match s.agents[a].pc
      case Submitting(_, _) => Stayed(s, s, j, q);
      case Submitted(_, _, _) => PushDescends(s, a, j, q);
      case CancelMain(_, _) => CancelDescends(s, a, j, q);
      case CancelDelayed(_, _, _) => CancelDescends(s, a, j, q);
      case CancelSave(_, _, _, _) => CancelDescends(s, a, j, q);
      case CancelFlag(_, _, _) => CancelDescends(s, a, j, q);
      case LanePopped(_) => LoadDescends(s, a, j, q);
      case LaneLoaded(_, _, _) => ClaimDescends(s, a, j, q);
      case LaneRunning(_, _, _) => Stayed(s, s, j, q);
      case LaneSettled(_, _, _) => LoadDescends(s, a, j, q);
      case LaneChecked(job, _, value, wasCancelled, at) =>
        FinishDescends(s, a, s.agents[a].proc, job, value, wasCancelled, at, j, q);
      case Failing(_, _, _, _, _, _) => FailDescends(s, a, j, q);
      case RetryPush(_, _, _) => PushDescends(s, a, j, q);
      case Removing(_, _) => RemoveDescends(s, a, j, q);
      case Moving(_) => MoveLoadDescends(s, a, j, q);
      case MoveLoaded(_, _, _) => MoveSaveDescends(s, a, j, q);
      case MoveSaved(_, _) => MovePushDescends(s, a, j, q);
    }
  }

  lemma PopDescends(s: State, a: AgentId, w: WorkerId, j: JobId, q: Place)
    requires j in s.docs && At(PopStep(s, a, w), j, q)
    ensures Descended(s, PopStep(s, a, w), j, q)
  {
    var s' := PopStep(s, a, w);
    if a !in s.agents && s.main != map[] && q == Hand(a) {
      assert Descends(s, s', j, Main, q);
    } else {
      Stayed(s, s', j, q);
    }
  }

  lemma StartDescends(s: State, step: Step, j: JobId, q: Place)
    requires j in s.docs && At(Do(s, step), j, q)
    requires step.Lookup? || step.BeginCancel? || step.ListDue? || step.FindStale?
    ensures Descended(s, Do(s, step), j, q)
  {
    Stayed(s, Do(s, step), j, q);
  }

  lemma SettleDescends(s: State, step: Step, j: JobId, q: Place)
    requires j in s.docs && At(Do(s, step), j, q)
    requires step.Settle? || step.Fault? || step.Insert?
    ensures Descended(s, Do(s, step), j, q)
  {
    Stayed(s, Do(s, step), j, q);
  }

  /** Whatever step is taken, a job that has a pointer afterwards had one before, no lower on the
      ladder; so a pointer once gone never comes back. */
  lemma StepDescends(s: State, step: Step, j: JobId, q: Place)
    requires Exclusive(s) && PcsOk(s) && j in s.docs && At(Do(s, step), j, q)
    ensures Descended(s, Do(s, step), j, q)
  {
    match step
    case Pop(a, w) => PopDescends(s, a, w, j, q);
    case Advance(a) => AdvanceDescends(s, a, j, q);
    case Settle(_, _) => SettleDescends(s, step, j, q);
    case Fault(_, _) => SettleDescends(s, step, j, q);
    case Insert(_, _) => SettleDescends(s, step, j, q);
    case Abort(_) => Stayed(s, Do(s, step), j, q);
    case Crash(_) => Stayed(s, Do(s, step), j, q);
    case Tick(_) => Stayed(s, Do(s, step), j, q);
    case _ => StartDescends(s, step, j, q);
  }
}
