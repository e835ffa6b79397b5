/** Level one: any interleaving, any cancel, and any activity may vanish at any point. Each job's
    pointer is in at most one place, and every document tells a correct story. */
module Tokens {
  import opened Jobs
  import opened Queue
  import opened Protocol

  // -------------------------------------------------------------------------
  // Where the pointer to a job can be
  // -------------------------------------------------------------------------

  /** The main set, the delayed set, the lock in the document, or the memory of one activity. */
  datatype Place = Main | Delayed | Lock | Hand(a: AgentId)

  /** Whether an activity at `pc` holds the job: it took the pointer out of a set, or created or
      unlocked the document, and has not yet put the pointer anywhere. */
  predicate Holds(pc: Pc, j: JobId) {
    match pc
    case Submitted(job, _, _) => job == j
    case LanePopped(job) => job == j
    case LaneLoaded(job, _, _) => job == j
    case RetryPush(job, _, _) => job == j
    case Removing(_, got) => j in got
    case Moving(got) => j in got
    case MoveLoaded(got, _, _) => j in got
    case MoveSaved(got, _) => j in got
    case _ => false
  }

  predicate At(s: State, j: JobId, p: Place) {
    match p
    case Main => j in s.main
    case Delayed => j in s.delayed
    case Lock => j in s.docs && s.docs[j].lockedBy.Some?
    case Hand(a) => a in s.agents && Holds(s.agents[a].pc, j)
  }

  ghost predicate Exclusive(s: State) {
    forall j, p, q :: At(s, j, p) && At(s, j, q) ==> p == q
  }

  // -------------------------------------------------------------------------
  // What holds of documents, places and activities
  // -------------------------------------------------------------------------

  /** A document tells a correct story, is locked exactly while its story says it runs, counts its
      claims, and is never PROCESSING without an owner. */
  predicate DocOk(d: Doc) {
    var phase := PhaseOf(d.history);
    && phase != Unborn && phase != Corrupt
    && (d.lockedBy.Some? <==> phase == Running)
    && d.attempts == Claims(d.history)
    && (d.status == Processing ==> d.lockedBy.Some?)
  }

  predicate BeforeClaim(phase: Phase) {
    phase == Fresh || phase == Ready
  }

  predicate BeforePromotion(phase: Phase) {
    phase == Fresh || phase == Waiting
  }

  /** The phase a job is in while the activity at `pc` holds it. */
  predicate HeldPhase(pc: Pc, j: JobId, phase: Phase) {
    match pc
    case Submitted(_, _, _) => phase == Fresh
    case LanePopped(_) => BeforeClaim(phase)
    case LaneLoaded(_, _, _) => BeforeClaim(phase)
    case RetryPush(_, _, _) => phase == Waiting
    case MoveSaved(got, _) => if got != [] && j == got[0] then phase == Ready else BeforePromotion(phase)
    case _ => BeforePromotion(phase)
  }

  predicate PlacePhase(s: State, j: JobId, p: Place, phase: Phase)
    requires At(s, j, p)
  {
    match p
    case Main => BeforeClaim(phase)
    case Delayed => BeforePromotion(phase)
    case Lock => phase == Running
    case Hand(a) => HeldPhase(s.agents[a].pc, j, phase)
  }

  predicate StaleOk(rest: seq<Stale>) {
    forall e | e in rest :: e.snap.lockedBy.Some?
  }

  predicate ContOk(cont: Cont) {
    cont.NextStale? ==> StaleOk(cont.rest)
  }

  predicate PcOk(docs: map<JobId, Doc>, pc: Pc) {
    match pc
    case LaneLoaded(job, snap, _) =>
      job in docs && snap.attempts == docs[job].attempts && snap.lockedBy == None
    case LaneRunning(job, _, _) => job in docs
    case LaneSettled(job, _, _) => job in docs
    case LaneChecked(job, _, _, _, _) => job in docs
    case Failing(_, owner, _, _, _, cont) => owner.Some? && ContOk(cont)
    case RetryPush(_, _, cont) => ContOk(cont)
    case CancelMain(job, snap) => job in docs && snap.status in {Queued, Retrying}
    case CancelDelayed(job, snap, _) => job in docs && snap.status in {Queued, Retrying}
    case CancelSave(job, snap, _, _) => job in docs && snap.status in {Queued, Retrying}
    case CancelFlag(job, snap, _) => job in docs && snap.status == Processing
    case Removing(todo, got) => todo != [] && NoDup(got)
    case Moving(got) => got != [] && NoDup(got)
    case MoveLoaded(got, _, _) => got != [] && NoDup(got)
    case MoveSaved(got, _) => got != [] && NoDup(got)
    case _ => true
  }

  ghost predicate Placed(s: State) {
    forall j, p :: At(s, j, p) ==> j in s.docs && PlacePhase(s, j, p, PhaseOf(s.docs[j].history))
  }

  predicate DocsOk(s: State) {
    forall j | j in s.docs :: DocOk(s.docs[j])
  }

  predicate PcsOk(s: State) {
    forall a | a in s.agents :: PcOk(s.docs, s.agents[a].pc)
  }

  ghost predicate Inv(s: State) {
    Exclusive(s) && Placed(s) && DocsOk(s) && PcsOk(s)
  }

  // -------------------------------------------------------------------------
  // Every step keeps the invariant
  // -------------------------------------------------------------------------

  lemma AbortKeeps(s: State, a: AgentId)
    requires Inv(s)
    ensures Inv(s.(agents := s.agents - {a}))
  {
    var s' := s.(agents := s.agents - {a});
    assert forall j, p :: At(s', j, p) ==> At(s, j, p);
  }

  lemma CrashKeeps(s: State, w: WorkerId)
    requires Inv(s)
    ensures Inv(CrashStep(s, w))
  {
    var s' := CrashStep(s, w);
    assert forall j, p :: At(s', j, p) ==> At(s, j, p);
  }

  lemma TickKeeps(s: State, time: int)
    requires Inv(s)
    ensures Inv(s.(now := Max(s.now, time)))
  {
    var s' := s.(now := Max(s.now, time));
    assert forall j, p :: At(s', j, p) ==> At(s, j, p);
  }

  /** Every job but j, and every activity but a, is as it was; a holds no new job but j. */
  ghost predicate Local(s: State, s': State, a: AgentId, j: JobId) {
    && (forall k :: k != j ==> (k in s'.main <==> k in s.main) && (k in s'.delayed <==> k in s.delayed))
    && (forall k :: k != j ==> (k in s'.docs <==> k in s.docs))
    && (forall k | k in s.docs && k != j :: s'.docs[k] == s.docs[k])
    && (j in s.docs ==> j in s'.docs)
    && (forall b :: b != a ==> (b in s'.agents <==> b in s.agents))
    && (forall b | b in s.agents && b != a :: s'.agents[b] == s.agents[b])
    && (forall k :: k != j && At(s', k, Hand(a)) ==> At(s, k, Hand(a)))
  }

  lemma LocalAt(s: State, s': State, a: AgentId, j: JobId, k: JobId, p: Place)
    requires Local(s, s', a, j)
    requires At(s', k, p)
    requires k != j || (p.Hand? && p.a != a)
    ensures At(s, k, p)
  {
  }

  lemma LocalExclusive(s: State, s': State, a: AgentId, j: JobId, to: Place)
    requires Exclusive(s) && Local(s, s', a, j)
    requires forall p | At(s', j, p) :: p == to
    ensures Exclusive(s')
  {
    forall k, p, q | At(s', k, p) && At(s', k, q) ensures p == q {
      if k != j {
        LocalAt(s, s', a, j, k, p);
        LocalAt(s, s', a, j, k, q);
      }
    }
  }

  lemma LocalPlaced(s: State, s': State, a: AgentId, j: JobId, to: Place)
    requires Placed(s) && Local(s, s', a, j) && j in s'.docs
    requires forall p | At(s', j, p) :: p == to && PlacePhase(s', j, p, PhaseOf(s'.docs[j].history))
    requires forall k | k != j && At(s', k, Hand(a)) && k in s.docs ::
               PlacePhase(s', k, Hand(a), PhaseOf(s.docs[k].history))
    ensures Placed(s')
  {
    forall k, p | At(s', k, p) ensures k in s'.docs && PlacePhase(s', k, p, PhaseOf(s'.docs[k].history)) {
      if k != j {
        LocalAt(s, s', a, j, k, p);
        assert At(s, k, p);
      }
    }
  }

  lemma LocalPcs(s: State, s': State, a: AgentId, j: JobId)
    requires PcsOk(s) && Local(s, s', a, j)
    requires a in s'.agents ==> PcOk(s'.docs, s'.agents[a].pc)
    requires forall b | b in s.agents && b != a && s.agents[b].pc.LaneLoaded? && s.agents[b].pc.job == j
                        && j in s.docs ::
               s'.docs[j].attempts == s.docs[j].attempts
    ensures PcsOk(s')
  {
    forall b | b in s'.agents && b != a ensures PcOk(s'.docs, s'.agents[b].pc) {
      assert PcOk(s.docs, s.agents[b].pc);
    }
  }

  // -------------------------------------------------------------------------
  // Steps that write the document of a job whose pointer the writer holds or unlocks
  // -------------------------------------------------------------------------

  predicate NextHolds(next: Option<Pc>, j: JobId) {
    next.Some? && Holds(next.value, j)
  }

  /** The activity's other jobs stay with it, in phases its new position allows. */
  ghost predicate KeepsOthers(pc: Pc, next: Option<Pc>, j: JobId) {
    forall k | k != j && NextHolds(next, k) ::
      Holds(pc, k) && forall phase :: HeldPhase(pc, k, phase) ==> HeldPhase(next.value, k, phase)
  }

  lemma WriteIsLocal(s: State, a: AgentId, w: WorkerId, j: JobId, doc: Doc, next: Option<Pc>)
    requires a in s.agents && j in s.docs && KeepsOthers(s.agents[a].pc, next, j)
    ensures Local(s, Apply(s, a, w, Write(s, j, doc, next)), a, j)
  {
  }

  lemma SoleHolder(s: State, j: JobId, from: Place, b: AgentId)
    requires Exclusive(s) && At(s, j, from)
    requires b in s.agents && Holds(s.agents[b].pc, j)
    ensures from == Hand(b)
  {
    assert At(s, j, Hand(b));
  }

  /** After the write the job is where the document and the activity say, and nowhere else. */
  lemma WritePlaces(s: State, a: AgentId, w: WorkerId, j: JobId, doc: Doc, next: Option<Pc>, from: Place, to: Place)
    requires Inv(s) && a in s.agents && At(s, j, from) && from in {Lock, Hand(a)} && j in s.docs
    requires KeepsOthers(s.agents[a].pc, next, j)
    requires doc.lockedBy.Some? ==> to == Lock
    requires NextHolds(next, j) ==> to == Hand(a)
    ensures forall p | At(Apply(s, a, w, Write(s, j, doc, next)), j, p) :: p == to
  {
    var s' := Apply(s, a, w, Write(s, j, doc, next));
    forall p | At(s', j, p) ensures p == to {
      if !p.Lock? && p != Hand(a) {
        assert At(s, j, p);
      }
    }
  }

  lemma NotHeld(s: State, j: JobId, from: Place, b: AgentId)
    requires Exclusive(s) && At(s, j, from) && b in s.agents && from != Hand(b)
    ensures !Holds(s.agents[b].pc, j)
  {
    assert At(s, j, Hand(b)) <==> Holds(s.agents[b].pc, j);
  }

  lemma WriteKeeps(s: State, a: AgentId, w: WorkerId, j: JobId, doc: Doc, next: Option<Pc>, from: Place)
    requires Inv(s) && a in s.agents && At(s, j, from) && from in {Lock, Hand(a)} && j in s.docs
    requires KeepsOthers(s.agents[a].pc, next, j)
    requires DocOk(doc) && !(doc.lockedBy.Some? && NextHolds(next, j))
    requires next.Some? ==> PcOk(s.docs[j := doc], next.value)
    requires NextHolds(next, j) ==> HeldPhase(next.value, j, PhaseOf(doc.history))
    ensures Inv(Apply(s, a, w, Write(s, j, doc, next)))
  {
    var s' := Apply(s, a, w, Write(s, j, doc, next));
    var to := if doc.lockedBy.Some? then Lock else Hand(a);
    WriteIsLocal(s, a, w, j, doc, next);
    WritePlaces(s, a, w, j, doc, next, from, to);
    LocalExclusive(s, s', a, j, to);
    LocalPlaced(s, s', a, j, to);
    forall b | b in s.agents && s.agents[b].pc.LaneLoaded? && s.agents[b].pc.job == j ensures b == a {
      SoleHolder(s, j, from, b);
    }
    LocalPcs(s, s', a, j);
  }

  lemma ClaimKeeps(s: State, a: AgentId, job: JobId, snap: Doc, at: int)
    requires Inv(s) && a in s.agents && s.agents[a].pc == LaneLoaded(job, snap, at)
    ensures job in s.docs && Inv(Apply(s, a, s.agents[a].proc, Claim(s, s.agents[a].proc, job, snap, at)))
  {
    assert At(s, job, Hand(a)) && PcOk(s.docs, s.agents[a].pc);
    WriteKeeps(s, a, s.agents[a].proc, job, ClaimWrite(s.docs[job], snap, s.agents[a].proc, at),
      Some(LaneRunning(job, ClaimedCopy(snap, s.agents[a].proc, at), s.now)), Hand(a));
  }

  lemma FinishKeeps(s: State, a: AgentId)
    requires Inv(s) && a in s.agents && s.agents[a].pc.LaneChecked?
    ensures Inv(AdvanceStep(s, a))
  {
    var Agent(w, LaneChecked(job, _, value, wasCancelled, at)) := s.agents[a];
    if Owned(s.docs, job, Some(w)) {
      assert At(s, job, Lock);
      WriteKeeps(s, a, w, job,
        FinalizeWrite(s.docs[job], FinishUpdate(value, wasCancelled, at), FinishEntry(wasCancelled, w, at)),
        None, Lock);
    } else {
      AbortKeeps(s, a);
    }
  }

  lemma FailDoc(d: Doc, verdict: Verdict, w: WorkerId, at: int)
    requires DocOk(d) && d.lockedBy.Some?
    ensures var d' := FinalizeWrite(d, VerdictUpdate(verdict), VerdictEntry(verdict, w, at));
            DocOk(d') && d'.lockedBy.None? && (verdict.Reschedule? ==> PhaseOf(d'.history) == Waiting)
  {
  }

  lemma FailNextOk(s: State, docs: map<JobId, Doc>, job: JobId, verdict: Verdict, cont: Cont)
    requires ContOk(cont)
    ensures FailNext(s, job, verdict, cont).Some? ==> PcOk(docs, FailNext(s, job, verdict, cont).value)
    ensures forall k :: NextHolds(FailNext(s, job, verdict, cont), k) ==> k == job && verdict.Reschedule?
    ensures verdict.Reschedule? ==> FailNext(s, job, verdict, cont).value.RetryPush?
  {
    ContinueOk(docs, cont, s.now);
  }

  lemma FailLands(s: State, a: AgentId, w: WorkerId, job: JobId, owner: Option<WorkerId>, mem: Doc,
                  verdict: Verdict, at: int, cont: Cont)
    requires Inv(s) && a in s.agents && s.agents[a].pc == Failing(job, owner, mem, verdict, at, cont)
    requires Owned(s.docs, job, owner)
    ensures Inv(Apply(s, a, w, Resolve(s, w, job, owner, verdict, at, cont)))
  {
    assert PcOk(s.docs, s.agents[a].pc) && At(s, job, Lock);
    var doc := FinalizeWrite(s.docs[job], VerdictUpdate(verdict), VerdictEntry(verdict, w, at));
    FailDoc(s.docs[job], verdict, w, at);
    FailNextOk(s, s.docs[job := doc], job, verdict, cont);
    WriteKeeps(s, a, w, job, doc, FailNext(s, job, verdict, cont), Lock);
  }

  lemma FailMisses(s: State, a: AgentId, w: WorkerId, cont: Cont)
    requires Inv(s) && ContOk(cont)
    ensures Inv(s.(agents := Become(s.agents, a, w, Continue(cont, s.now))))
  {
    ContinueOk(s.docs, cont, s.now);
    AgentKeeps(s, a, w, Continue(cont, s.now));
  }

  lemma FailKeeps(s: State, a: AgentId)
    requires Inv(s) && a in s.agents && s.agents[a].pc.Failing?
    ensures Inv(AdvanceStep(s, a))
  {
    var Agent(w, Failing(job, owner, mem, verdict, at, cont)) := s.agents[a];
    if Owned(s.docs, job, owner) {
      FailLands(s, a, w, job, owner, mem, verdict, at, cont);
    } else {
      assert PcOk(s.docs, s.agents[a].pc);
      FailMisses(s, a, w, cont);
    }
  }

  lemma ContinueOk(docs: map<JobId, Doc>, cont: Cont, now: int)
    requires ContOk(cont)
    ensures Continue(cont, now).Some? ==>
              Continue(cont, now).value.Failing? && PcOk(docs, Continue(cont, now).value)
  {
  }

  lemma MoveSaveKeeps(s: State, a: AgentId)
    requires Inv(s) && a in s.agents && s.agents[a].pc.MoveLoaded?
    ensures Inv(AdvanceStep(s, a))
  {
    var Agent(w, MoveLoaded(got, snap, at)) := s.agents[a];
    assert PcOk(s.docs, s.agents[a].pc) && At(s, got[0], Hand(a));
    WriteKeeps(s, a, w, got[0], PromoteWrite(s.docs[got[0]], snap, w, at), Some(MoveSaved(got, snap.priority)),
               Hand(a));
  }

  // -------------------------------------------------------------------------
  // Steps that write nothing
  // -------------------------------------------------------------------------

  /** Only the activity's position changes; it may let go of jobs but takes none. */
  lemma AgentKeeps(s: State, a: AgentId, w: WorkerId, next: Option<Pc>)
    requires Inv(s)
    requires forall k | NextHolds(next, k) :: At(s, k, Hand(a))
               && forall phase :: HeldPhase(s.agents[a].pc, k, phase) ==> HeldPhase(next.value, k, phase)
    requires next.Some? ==> PcOk(s.docs, next.value)
    ensures Inv(s.(agents := Become(s.agents, a, w, next)))
  {
    var s' := s.(agents := Become(s.agents, a, w, next));
    forall j, p | At(s', j, p) ensures At(s, j, p) && PlacePhase(s', j, p, PhaseOf(s.docs[j].history)) {
      assert At(s, j, p);
    }
  }

  /** Job j's pointer goes to `to`, or nowhere. */
  lemma QueueKeeps(s: State, s': State, a: AgentId, j: JobId, to: Place)
    requires Inv(s) && Local(s, s', a, j) && s'.docs == s.docs
    requires forall p | At(s', j, p) :: p == to && j in s.docs && PlacePhase(s', j, p, PhaseOf(s.docs[j].history))
    requires forall k | k != j && At(s', k, Hand(a)) && k in s.docs ::
               PlacePhase(s', k, Hand(a), PhaseOf(s.docs[k].history))
    requires a in s'.agents ==> PcOk(s.docs, s'.agents[a].pc)
    ensures Inv(s')
  {
    LocalExclusive(s, s', a, j, to);
    forall k, p | At(s', k, p) ensures k in s'.docs && PlacePhase(s', k, p, PhaseOf(s'.docs[k].history)) {
      if k != j {
        LocalAt(s, s', a, j, k, p);
        assert At(s, k, p);
      }
    }
    LocalPcs(s, s', a, j);
  }

  lemma SubmitPushKeeps(s: State, a: AgentId)
    requires Inv(s) && a in s.agents && s.agents[a].pc.Submitted?
    ensures Inv(AdvanceStep(s, a))
  {
    var Agent(w, Submitted(job, priority, scheduled)) := s.agents[a];
    var s' := AdvanceStep(s, a);
    var to := if scheduled.Some? then Delayed else Main;
    assert At(s, job, Hand(a));
    forall p | At(s', job, p) ensures p == to {
      if p != to {
        assert At(s, job, p);
      }
    }
    QueueKeeps(s, s', a, job, to);
  }

  lemma RetryPushKeeps(s: State, a: AgentId)
    requires Inv(s) && a in s.agents && s.agents[a].pc.RetryPush?
    ensures Inv(AdvanceStep(s, a))
  {
    var Agent(w, RetryPush(job, readyAt, cont)) := s.agents[a];
    var s' := AdvanceStep(s, a);
    assert PcOk(s.docs, s.agents[a].pc) && At(s, job, Hand(a));
    ContinueOk(s.docs, cont, s.now);
    forall p | At(s', job, p) ensures p == Delayed {
      if p != Delayed {
        assert At(s, job, p);
      }
    }
    QueueKeeps(s, s', a, job, Delayed);
  }

  lemma PopKeeps(s: State, a: AgentId, w: WorkerId)
    requires Inv(s)
    ensures Inv(PopStep(s, a, w))
  {
    if a !in s.agents && s.main != map[] {
      var s' := PopStep(s, a, w);
      var job := MinMember(s.main);
      assert At(s, job, Main);
      forall p | At(s', job, p) ensures p == Hand(a) {
        if p != Hand(a) {
          assert At(s, job, p);
        }
      }
      QueueKeeps(s, s', a, job, Hand(a));
    }
  }

  lemma CancelMainKeeps(s: State, a: AgentId)
    requires Inv(s) && a in s.agents && s.agents[a].pc.CancelMain?
    ensures Inv(AdvanceStep(s, a))
  {
    var s' := AdvanceStep(s, a);
    assert PcOk(s.docs, s.agents[a].pc);
    forall j, p | At(s', j, p) ensures At(s, j, p) && PlacePhase(s', j, p, PhaseOf(s.docs[j].history)) {
      assert At(s, j, p);
    }
  }

  lemma CancelDelayedKeeps(s: State, a: AgentId)
    requires Inv(s) && a in s.agents && s.agents[a].pc.CancelDelayed?
    ensures Inv(AdvanceStep(s, a))
  {
    var s' := AdvanceStep(s, a);
    assert PcOk(s.docs, s.agents[a].pc);
    forall j, p | At(s', j, p) ensures At(s, j, p) && PlacePhase(s', j, p, PhaseOf(s.docs[j].history)) {
      assert At(s, j, p);
    }
  }

  lemma RemovingNext(docs: map<JobId, Doc>, todo: seq<JobId>, got: seq<JobId>)
    requires NoDup(got)
    ensures StartRemoving(todo, got).Some? ==> PcOk(docs, StartRemoving(todo, got).value)
    ensures forall k :: NextHolds(StartRemoving(todo, got), k) <==> k in got
    ensures forall k, phase | StartRemoving(todo, got).Some? ::
              HeldPhase(StartRemoving(todo, got).value, k, phase) <==> BeforePromotion(phase)
  {
  }

  /** A member of the delayed set passes into the memory of activity a. */
  lemma TakeDelayed(s: State, a: AgentId, w: WorkerId, job: JobId, next: Option<Pc>)
    requires Inv(s) && a in s.agents && job in s.delayed && s.agents[a].pc.Removing?
    requires next.Some? ==> PcOk(s.docs, next.value)
    requires forall k | NextHolds(next, k) :: k == job || Holds(s.agents[a].pc, k)
    requires forall k, phase | NextHolds(next, k) && BeforePromotion(phase) :: HeldPhase(next.value, k, phase)
    ensures Inv(s.(delayed := s.delayed - {job}, agents := Become(s.agents, a, w, next)))
  {
    var s' := s.(delayed := s.delayed - {job}, agents := Become(s.agents, a, w, next));
    assert At(s, job, Delayed);
    forall p | At(s', job, p) ensures p == Hand(a) {
      if p != Hand(a) {
        assert At(s, job, p);
      }
    }
    QueueKeeps(s, s', a, job, Hand(a));
  }

  lemma RemoveTakes(s: State, a: AgentId, w: WorkerId, todo: seq<JobId>, got: seq<JobId>)
    requires Inv(s) && a in s.agents && s.agents[a].pc == Removing(todo, got) && todo != [] && todo[0] in s.delayed
    ensures Inv(Apply(s, a, w, Remove(s, todo, got)))
  {
    var job := todo[0];
    assert At(s, job, Delayed) && PcOk(s.docs, s.agents[a].pc);
    NotHeld(s, job, Delayed, a);
    assert forall k :: k in got + [job] ==> k == job || k in got;
    RemovingNext(s.docs, todo[1..], got + [job]);
    TakeDelayed(s, a, w, job, StartRemoving(todo[1..], got + [job]));
  }

  lemma RemoveKeeps(s: State, a: AgentId)
    requires Inv(s) && a in s.agents && s.agents[a].pc.Removing?
    ensures Inv(AdvanceStep(s, a))
  {
    var Agent(w, Removing(todo, got)) := s.agents[a];
    assert PcOk(s.docs, s.agents[a].pc);
    if todo[0] in s.delayed {
      RemoveTakes(s, a, w, todo, got);
    } else {
      assert s.delayed - {todo[0]} == s.delayed;
      AgentKeeps(s, a, w, StartRemoving(todo[1..], got));
    }
  }

  lemma MovePushFrame(s: State, a: AgentId)
    requires a in s.agents && s.agents[a].pc.MoveSaved? && PcOk(s.docs, s.agents[a].pc)
    ensures var s', got := AdvanceStep(s, a), s.agents[a].pc.got;
            && Local(s, s', a, got[0]) && s'.docs == s.docs && s'.delayed == s.delayed
            && !At(s', got[0], Hand(a))
            && (forall b | b in s'.agents && b != a :: b in s.agents && s'.agents[b] == s.agents[b])
            && (a in s'.agents ==>
                  s'.agents[a].pc.Moving? && s'.agents[a].pc.got == got[1..] && PcOk(s.docs, s'.agents[a].pc))
  {
  }

  lemma MovePushKeeps(s: State, a: AgentId)
    requires Inv(s) && a in s.agents && s.agents[a].pc.MoveSaved?
    ensures Inv(AdvanceStep(s, a))
  {
    var s', got := AdvanceStep(s, a), s.agents[a].pc.got;
    assert PcOk(s.docs, s.agents[a].pc) && At(s, got[0], Hand(a));
    MovePushFrame(s, a);
    forall p | At(s', got[0], p) ensures p == Main {
      if p != Main {
        assert At(s, got[0], p);
      }
    }
    QueueKeeps(s, s', a, got[0], Main);
  }

  lemma MoveLoadKeeps(s: State, a: AgentId)
    requires Inv(s) && a in s.agents && s.agents[a].pc.Moving?
    ensures Inv(AdvanceStep(s, a))
  {
    var Agent(w, Moving(got)) := s.agents[a];
    assert PcOk(s.docs, s.agents[a].pc) && At(s, got[0], Hand(a));
    AgentKeeps(s, a, w, Some(MoveLoaded(got, s.docs[got[0]], s.now)));
  }

  lemma LoadKeeps(s: State, a: AgentId)
    requires Inv(s) && a in s.agents && s.agents[a].pc.LanePopped?
    ensures Inv(AdvanceStep(s, a))
  {
    var Agent(w, LanePopped(job)) := s.agents[a];
    assert At(s, job, Hand(a)) && DocOk(s.docs[job]);
    assert s.docs[job].lockedBy.None? by {
      if s.docs[job].lockedBy.Some? {
        assert At(s, job, Lock);
      }
    }
    AgentKeeps(s, a, w, Some(LaneLoaded(job, s.docs[job], s.now)));
  }

  // -------------------------------------------------------------------------
  // API writes: no pointer moves, no claim is touched
  // -------------------------------------------------------------------------

  lemma ApiWriteKeeps(s: State, a: AgentId, w: WorkerId, j: JobId, doc: Doc)
    requires Inv(s) && a in s.agents && j in s.docs
    requires DocOk(doc) && PhaseOf(doc.history) == PhaseOf(s.docs[j].history)
    requires doc.lockedBy == s.docs[j].lockedBy && doc.attempts == s.docs[j].attempts
    ensures Inv(Apply(s, a, w, Write(s, j, doc, None)))
  {
    var s' := Apply(s, a, w, Write(s, j, doc, None));
    forall k, p | At(s', k, p) ensures At(s, k, p) && PlacePhase(s', k, p, PhaseOf(s'.docs[k].history)) {
      assert At(s, k, p);
    }
    LocalPcs(s, s', a, j);
  }

  lemma CancelSaveKeeps(s: State, a: AgentId)
    requires Inv(s) && a in s.agents && (s.agents[a].pc.CancelSave? || s.agents[a].pc.CancelFlag?)
    ensures Inv(AdvanceStep(s, a))
  {
    var Agent(w, pc) := s.agents[a];
    assert PcOk(s.docs, pc);
    ApiWriteKeeps(s, a, w, pc.job,
      if pc.CancelSave? then CancelWrite(s.docs[pc.job], pc.snap, pc.at)
      else FlagWrite(s.docs[pc.job], pc.snap, pc.at));
  }

  lemma InsertIsLocal(s: State, s': State, a: AgentId, id: JobId, w: WorkerId, doc: Doc, pc: Pc)
    requires Inv(s) && a in s.agents && id !in s.docs
    requires s' == s.(docs := s.docs[id := doc], agents := s.agents[a := Agent(w, pc)])
    requires forall k | Holds(pc, k) :: k == id
    ensures Local(s, s', a, id)
    ensures forall p | At(s', id, p) && doc.lockedBy.None? :: p == Hand(a)
  {
    forall p | At(s', id, p) && doc.lockedBy.None? ensures p == Hand(a) {
      assert !At(s, id, p);
    }
  }

  lemma InsertCreates(s: State, a: AgentId, id: JobId, w: WorkerId, doc: Doc, pc: Pc)
    requires Inv(s) && a in s.agents && id !in s.docs
    requires DocOk(doc) && PhaseOf(doc.history) == Fresh && pc.Submitted? && pc.job == id
    ensures Inv(s.(docs := s.docs[id := doc], agents := s.agents[a := Agent(w, pc)]))
  {
    var s' := s.(docs := s.docs[id := doc], agents := s.agents[a := Agent(w, pc)]);
    InsertIsLocal(s, s', a, id, w, doc, pc);
    LocalExclusive(s, s', a, id, Hand(a));
    LocalPlaced(s, s', a, id, Hand(a));
    LocalPcs(s, s', a, id);
  }

  lemma InsertKeeps(s: State, a: AgentId, id: JobId)
    requires Inv(s)
    ensures Inv(InsertStep(s, a, id))
  {
    if a in s.agents && s.agents[a].pc.Submitting? && id !in s.docs {
      var Agent(w, Submitting(req, scheduled)) := s.agents[a];
      if KeyTaken(s.docs, req.idempotencyKey) {
        AbortKeeps(s, a);
      } else {
        var doc := NewDoc(req, scheduled, s.now);
        InsertCreates(s, a, id, w, doc, Submitted(id, doc.priority, scheduled));
      }
    }
  }

  // -------------------------------------------------------------------------
  // The remaining steps
  // -------------------------------------------------------------------------

  lemma SettleKeeps(s: State, a: AgentId, outcome: Outcome)
    requires Inv(s)
    ensures Inv(SettleStep(s, a, outcome))
  {
    var s' := SettleStep(s, a, outcome);
    if s' != s {
      assert PcOk(s.docs, s.agents[a].pc);
      AgentKeeps(s, a, s.agents[a].proc, Some(s'.agents[a].pc));
    }
  }

  lemma FaultKeeps(s: State, a: AgentId, err: Error)
    requires Inv(s)
    ensures Inv(FaultStep(s, a, err))
  {
    var s' := FaultStep(s, a, err);
    if s' != s {
      AgentKeeps(s, a, s.agents[a].proc, Some(s'.agents[a].pc));
    }
  }

  lemma CheckKeeps(s: State, a: AgentId)
    requires Inv(s) && a in s.agents && s.agents[a].pc.LaneSettled?
    ensures Inv(AdvanceStep(s, a))
  {
    assert PcOk(s.docs, s.agents[a].pc);
    AgentKeeps(s, a, s.agents[a].proc, Some(AdvanceStep(s, a).agents[a].pc));
  }

  lemma AdvanceKeeps(s: State, a: AgentId)
    requires Inv(s)
    ensures Inv(AdvanceStep(s, a))
  {
    if a in s.agents {
      match s.agents[a].pc
      case Submitting(_, _) =>
      case Submitted(_, _, _) => SubmitPushKeeps(s, a);
      case CancelMain(_, _) => CancelMainKeeps(s, a);
      case CancelDelayed(_, _, _) => CancelDelayedKeeps(s, a);
      case CancelSave(_, _, _, _) => CancelSaveKeeps(s, a);
      case CancelFlag(_, _, _) => CancelSaveKeeps(s, a);
      case LanePopped(_) => LoadKeeps(s, a);
      case LaneLoaded(job, snap, at) => ClaimKeeps(s, a, job, snap, at);
      case LaneRunning(_, _, _) =>
      case LaneSettled(_, _, _) => CheckKeeps(s, a);
      case LaneChecked(_, _, _, _, _) => FinishKeeps(s, a);
      case Failing(_, _, _, _, _, _) => FailKeeps(s, a);
      case RetryPush(_, _, _) => RetryPushKeeps(s, a);
      case Removing(_, _) => RemoveKeeps(s, a);
      case Moving(_) => MoveLoadKeeps(s, a);
      case MoveLoaded(_, _, _) => MoveSaveKeeps(s, a);
      case MoveSaved(_, _) => MovePushKeeps(s, a);
    }
  }

  lemma StartKeeps(s: State, a: AgentId, w: WorkerId, next: Option<Pc>)
    requires Inv(s)
    requires next.Some? ==> PcOk(s.docs, next.value) && forall k :: !Holds(next.value, k)
    ensures Inv(s.(agents := Become(s.agents, a, w, next)))
  {
    AgentKeeps(s, a, w, next);
  }

  lemma FindStaleKeeps(s: State, a: AgentId, w: WorkerId, found: seq<Stale>, asOf: int)
    requires Inv(s)
    ensures Inv(FindStaleStep(s, a, w, found, asOf))
  {
    if ListsStale(s.docs, found, asOf) {
      forall e | e in found ensures e.snap.lockedBy.Some? {
        assert DocOk(s.docs[e.job]);
      }
      StartKeeps(s, a, w, StartStale(found, s.now));
    }
  }

  lemma BeginCancelKeeps(s: State, a: AgentId, w: WorkerId, job: JobId)
    requires Inv(s)
    ensures Inv(BeginCancelStep(s, a, w, job))
  {
    var s' := BeginCancelStep(s, a, w, job);
    if s' != s {
      StartKeeps(s, a, w, Some(s'.agents[a].pc));
    }
  }

  lemma DoKeeps(s: State, step: Step)
    requires Inv(s)
    ensures Inv(Do(s, step))
  {
    match step
    case Lookup(a, w, req) => StartKeeps(s, a, w, Some(Submitting(req, FutureSchedule(req, s.now))));
    case Insert(a, id) => InsertKeeps(s, a, id);
    case BeginCancel(a, w, job) => BeginCancelKeeps(s, a, w, job);
    case Pop(a, w) => PopKeeps(s, a, w);
    case ListDue(a, w, due, asOf) => StartKeeps(s, a, w, StartRemoving(due, []));
    case FindStale(a, w, found, asOf) => FindStaleKeeps(s, a, w, found, asOf);
    case Settle(a, outcome) => SettleKeeps(s, a, outcome);
    case Fault(a, err) => FaultKeeps(s, a, err);
    case Advance(a) => AdvanceKeeps(s, a);
    case Abort(a) => AbortKeeps(s, a);
    case Crash(w) => CrashKeeps(s, w);
    case Tick(time) => TickKeeps(s, time);
  }

  lemma {:induction false} RunKeeps(s: State, steps: seq<Step>)
    requires Inv(s)
    ensures Inv(Run(s, steps))
    decreases steps
  {
    if steps != [] {
      DoKeeps(s, steps[0]);
      RunKeeps(Do(s, steps[0]), steps[1..]);
    }
  }

  lemma InitInv()
    ensures Inv(Init)
  {
  }
}
