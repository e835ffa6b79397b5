/** Level one: what a document's fields say, and that they stop changing. */
module Outcomes {
  import opened Jobs
  import opened Protocol
  import opened Tokens
  import opened Safety
  import opened Cancellation

  // -------------------------------------------------------------------------
  // Histories only grow
  // -------------------------------------------------------------------------

  lemma HistoryStep(s: State, step: Step, j: JobId)
    requires j in s.docs
    ensures j in Do(s, step).docs && s.docs[j].history <= Do(s, step).docs[j].history
  {
    StepWrites(s, step, j);
  }

  /** No step ever drops, changes or reorders a history entry. */
  lemma {:induction false} HistoryOnlyGrows(s: State, steps: seq<Step>, j: JobId)
    requires j in s.docs
    ensures j in Run(s, steps).docs && s.docs[j].history <= Run(s, steps).docs[j].history
    decreases steps
  {
    if steps != [] {
      HistoryStep(s, steps[0], j);
      HistoryOnlyGrows(Do(s, steps[0]), steps[1..], j);
    }
  }

  // -------------------------------------------------------------------------
  // Fields and history agree
  // -------------------------------------------------------------------------

  /** Some worker-written entry has this status. */
  predicate Says(h: seq<Entry>, status: Status) {
    exists e | e in WorkerEntries(h) :: e.status == status
  }

  lemma SaysPush(h: seq<Entry>, e: Entry, status: Status)
    ensures Says(Push(h, e), status) <==> Says(h, status) || (e.workerId.Some? && e.status == status)
  {
    if e.workerId.Some? {
      assert e in WorkerEntries(Push(h, e));
    }
    assert forall f | f in WorkerEntries(h) :: f in WorkerEntries(Push(h, e));
  }

  /** There is a result, and a completion time, exactly if the job was completed, even if a late cancel
      has changed its status since; an error exactly if some attempt failed, even if a later one
      completed; a start time exactly if the job was claimed. */
  predicate FieldsFit(d: Doc) {
    && (d.result.Some? <==> Says(d.history, Completed))
    && (d.completedAt.Some? <==> Says(d.history, Completed))
    && (d.error.Some? <==> Says(d.history, Retrying) || Says(d.history, DeadLetter))
    && (d.startedAt.Some? <==> Claims(d.history) > 0)
  }

  /** A lane about to claim has loaded the start time of the document. */
  predicate StartKnown(docs: map<JobId, Doc>, pc: Pc) {
    pc.LaneLoaded? ==> pc.job in docs && pc.snap.startedAt == docs[pc.job].startedAt
  }

  predicate AllFit(s: State) {
    && (forall j | j in s.docs :: FieldsFit(s.docs[j]))
    && (forall a | a in s.agents :: StartKnown(s.docs, s.agents[a].pc))
  }

  ghost predicate InvFit(s: State) {
    Inv(s) && AllFit(s)
  }

  lemma PushSays(h: seq<Entry>, e: Entry)
    ensures forall status | status in {Completed, Retrying, DeadLetter} ::
              Says(Push(h, e), status) <==> Says(h, status) || (e.workerId.Some? && e.status == status)
  {
    SaysPush(h, e, Completed);
    SaysPush(h, e, Retrying);
    SaysPush(h, e, DeadLetter);
  }

  lemma FinalizeFits(d: Doc, u: Update, e: Entry)
    requires FieldsFit(d) && e.workerId.Some?
    requires match u
             case Complete(_, _) => e.status == Completed
             case HonorCancellation => e.status == Cancelled
             case Fail(status, _) => e.status == status && status in {Retrying, DeadLetter}
    ensures FieldsFit(FinalizeWrite(d, u, e))
  {
    PushSays(d.history, e);
  }

  lemma ClaimFits(d: Doc, snap: Doc, w: WorkerId, at: int)
    requires FieldsFit(d) && (snap.startedAt.Some? ==> d.startedAt.Some?)
    ensures FieldsFit(ClaimWrite(d, snap, w, at)) && ClaimWrite(d, snap, w, at).startedAt.Some?
  {
    PushSays(d.history, Entry(Processing, Some(w), Attempt(snap.attempts + 1), at));
  }

  lemma OtherFits(d: Doc, snap: Doc, w: WorkerId, at: int)
    requires FieldsFit(d)
    ensures FieldsFit(PromoteWrite(d, snap, w, at))
    ensures FieldsFit(CancelWrite(d, snap, at)) && FieldsFit(FlagWrite(d, snap, at))
  {
    PushSays(d.history, Entry(Queued, Some(w), Promoted, at));
    PushSays(d.history, Entry(Cancelled, None, CancelledByUser, at));
    PushSays(d.history, Entry(snap.status, None, CancellationRequested, at));
  }

  lemma WrittenFits(docs: map<JobId, Doc>, agent: Agent, j: JobId, d': Doc)
    requires j in docs && FieldsFit(docs[j]) && StartKnown(docs, agent.pc) && Written(docs, agent, j, d')
    ensures FieldsFit(d')
    ensures !(agent.pc.LaneLoaded? && agent.pc.job == j) ==> d'.startedAt == docs[j].startedAt
  {
    var d, w := docs[j], agent.proc;
    if d' != d {
      match agent.pc
      case LaneLoaded(_, snap, at) => ClaimFits(d, snap, w, at);
      case LaneChecked(_, _, value, wasCancelled, at) =>
        FinalizeFits(d, FinishUpdate(value, wasCancelled, at), FinishEntry(wasCancelled, w, at));
      case Failing(_, _, _, verdict, at, _) => FinalizeFits(d, VerdictUpdate(verdict), VerdictEntry(verdict, w, at));
      case MoveLoaded(_, snap, at) => OtherFits(d, snap, w, at);
      case CancelSave(_, snap, _, at) => OtherFits(d, snap, w, at);
      case CancelFlag(_, snap, at) => OtherFits(d, snap, w, at);
    }
  }

  lemma DocFitsStep(s: State, step: Step, j: JobId)
    requires AllFit(s) && j in s.docs
    ensures j in Do(s, step).docs && FieldsFit(Do(s, step).docs[j])
    ensures Do(s, step).docs[j].startedAt == s.docs[j].startedAt
            || (step.Advance? && step.a in s.agents && s.agents[step.a].pc.LaneLoaded? && s.agents[step.a].pc.job == j)
  {
    StepWrites(s, step, j);
    if step.Advance? && step.a in s.agents {
      WrittenFits(s.docs, s.agents[step.a], j, Do(s, step).docs[j]);
    }
  }

  lemma NewDocFits(s: State, step: Step, j: JobId)
    requires j !in s.docs && j in Do(s, step).docs
    ensures FieldsFit(Do(s, step).docs[j])
  {
    CreatedDoc(s, step, j);
  }

  lemma LoadsFirst(s: State, w: WorkerId, pc: Pc)
    requires EffectOf(s, w, pc).next.Some? && EffectOf(s, w, pc).next.value.LaneLoaded? && !Waits(pc) && !pc.LaneLoaded?
    ensures pc.LanePopped?
  {
    NextFollows(s, w, pc);
  }

  lemma AdvanceKnows(s: State, a: AgentId)
    requires a in s.agents && a in AdvanceStep(s, a).agents && AdvanceStep(s, a).agents[a].pc.LaneLoaded?
    requires !s.agents[a].pc.LaneLoaded?
    ensures StartKnown(AdvanceStep(s, a).docs, AdvanceStep(s, a).agents[a].pc)
  {
    if !Waits(s.agents[a].pc) {
      LoadsFirst(s, s.agents[a].proc, s.agents[a].pc);
    }
  }

  lemma BystanderKnows(s: State, step: Step, a: AgentId)
    requires InvFit(s) && a in s.agents && s.agents[a].pc.LaneLoaded? && step != Advance(a)
    ensures StartKnown(Do(s, step).docs, s.agents[a].pc)
  {
    var j := s.agents[a].pc.job;
    assert StartKnown(s.docs, s.agents[a].pc) && At(s, j, Hand(a));
    DocFitsStep(s, step, j);
    if step.Advance? && step.a in s.agents {
      assert s.agents[step.a].pc.LaneLoaded? && s.agents[step.a].pc.job == j ==> At(s, j, Hand(step.a));
    }
  }

  lemma StaysLoaded(s: State, step: Step, a: AgentId)
    requires a in Do(s, step).agents && Do(s, step).agents[a].pc.LaneLoaded? && !step.Advance?
    ensures a in s.agents && s.agents[a] == Do(s, step).agents[a]
  {
    if Actor(step) != Some(a) {
      OnlyActorMoves(s, step, a);
    }
  }

  lemma StartKnownStep(s: State, step: Step, a: AgentId)
    requires InvFit(s) && a in Do(s, step).agents && Do(s, step).agents[a].pc.LaneLoaded?
    ensures StartKnown(Do(s, step).docs, Do(s, step).agents[a].pc)
  {
    if step == Advance(a) {
      if a in s.agents {
        if !s.agents[a].pc.LaneLoaded? {
          AdvanceKnows(s, a);
        }
      }
    } else {
      if step.Advance? {
        OnlyActorMoves(s, step, a);
      } else {
        StaysLoaded(s, step, a);
      }
      BystanderKnows(s, step, a);
    }
  }

  lemma AllFitStep(s: State, step: Step)
    requires InvFit(s)
    ensures InvFit(Do(s, step))
  {
    DoKeeps(s, step);
    forall j | j in Do(s, step).docs ensures FieldsFit(Do(s, step).docs[j]) {
      if j in s.docs {
        DocFitsStep(s, step, j);
      } else {
        NewDocFits(s, step, j);
      }
    }
    forall a | a in Do(s, step).agents ensures StartKnown(Do(s, step).docs, Do(s, step).agents[a].pc) {
      if Do(s, step).agents[a].pc.LaneLoaded? {
        StartKnownStep(s, step, a);
      }
    }
  }

  lemma {:induction false} AllFitRun(s: State, steps: seq<Step>)
    requires InvFit(s)
    ensures InvFit(Run(s, steps))
    decreases steps
  {
    if steps != [] {
      AllFitStep(s, steps[0]);
      AllFitRun(Do(s, steps[0]), steps[1..]);
    }
  }

  /** In every run the fields of every document agree with its history. */
  lemma FieldsFollowHistory(steps: seq<Step>, j: JobId)
    requires j in Run(Init, steps).docs
    ensures FieldsFit(Run(Init, steps).docs[j])
  {
    InitInv();
    AllFitRun(Init, steps);
  }

  // -------------------------------------------------------------------------
  // What has ended stays as it is
  // -------------------------------------------------------------------------

  lemma EndedIsFrozen(s: State, j: JobId)
    requires Inv(s) && j in s.docs && PhaseOf(s.docs[j].history) == Done
    ensures Frozen(s, j)
  {
    assert forall p :: At(s, j, p) ==> PlacePhase(s, j, p, PhaseOf(s.docs[j].history));
  }

  /** Once a COMPLETED, DEAD_LETTER or honoured cancellation is in the history, result, error, attempts
      and times never change again, and no worker writes to the document: a result is written once. */
  lemma EndedForEver(before: seq<Step>, j: JobId, more: seq<Step>)
    requires j in Run(Init, before).docs
    requires var h := Run(Init, before).docs[j].history;
             Says(h, Completed) || Says(h, DeadLetter) || Says(h, Cancelled)
    ensures var s := Run(Init, before); j in Run(s, more).docs && OnlyApi(s.docs[j], Run(s, more).docs[j])
  {
    InitInv();
    RunKeeps(Init, before);
    assert DocOk(Run(Init, before).docs[j]);
    FinalEntryEnds(Run(Init, before).docs[j].history);
    EndedIsFrozen(Run(Init, before), j);
    FrozenForever(Run(Init, before), more, j);
  }

  lemma {:induction false} FinalEntryEnds(h: seq<Entry>)
    requires PhaseOf(h) != Corrupt
    ensures (exists e :: e in WorkerEntries(h) && Final(e.status)) ==> PhaseOf(h) == Done
  {
    if h != [] {
      FinalEntryEnds(h[..|h| - 1]);
      assert h == Push(h[..|h| - 1], h[|h| - 1]);
    }
  }
}
