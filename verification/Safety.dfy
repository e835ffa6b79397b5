/** Level one, stated over whole runs from the empty system. */
module Safety {
  import opened Jobs
  import opened Protocol
  import opened Tokens

  // -------------------------------------------------------------------------
  // Tokens, owners and attempts
  // -------------------------------------------------------------------------

  /** At most one pointer per job: the main set, the delayed set, the memories of all activities and
      the lock in the document exclude one another. */
  lemma OnePlaceAtMost(steps: seq<Step>, j: JobId, p: Place, q: Place)
    requires At(Run(Init, steps), j, p) && At(Run(Init, steps), j, q)
    ensures p == q
  {
    InitInv();
    RunKeeps(Init, steps);
  }

  /** A claim writes its snapshot's attempts plus one, yet attempts always is the number of claims. */
  lemma AttemptsCountClaims(steps: seq<Step>, j: JobId)
    requires j in Run(Init, steps).docs
    ensures Run(Init, steps).docs[j].attempts == Claims(Run(Init, steps).docs[j].history)
  {
    InitInv();
    RunKeeps(Init, steps);
  }

  /** A job is PROCESSING only under an owner, so the fence is never asked to match a null owner. */
  lemma FenceHasOwner(steps: seq<Step>, a: AgentId)
    ensures forall j | j in Run(Init, steps).docs && Run(Init, steps).docs[j].status == Processing ::
              Run(Init, steps).docs[j].lockedBy.Some?
    ensures a in Run(Init, steps).agents && Run(Init, steps).agents[a].pc.Failing? ==>
              Run(Init, steps).agents[a].pc.owner.Some?
  {
    InitInv();
    RunKeeps(Init, steps);
    assert forall j | j in Run(Init, steps).docs :: DocOk(Run(Init, steps).docs[j]);
    assert a in Run(Init, steps).agents ==> PcOk(Run(Init, steps).docs, Run(Init, steps).agents[a].pc);
  }

  /** A popped job is always in the database: processJob never finds a claimed id missing. */
  lemma ClaimedJobExists(steps: seq<Step>, a: AgentId)
    requires a in Run(Init, steps).agents && Run(Init, steps).agents[a].pc.LanePopped?
    ensures Run(Init, steps).agents[a].pc.job in Run(Init, steps).docs
  {
    InitInv();
    RunKeeps(Init, steps);
    assert At(Run(Init, steps), Run(Init, steps).agents[a].pc.job, Hand(a));
  }

  /** So is a job that a promoter has taken. */
  lemma TakenJobExists(steps: seq<Step>, a: AgentId)
    requires a in Run(Init, steps).agents && Run(Init, steps).agents[a].pc.Moving?
    ensures Run(Init, steps).agents[a].pc.got != [] && Run(Init, steps).agents[a].pc.got[0] in Run(Init, steps).docs
  {
    InitInv();
    RunKeeps(Init, steps);
    assert PcOk(Run(Init, steps).docs, Run(Init, steps).agents[a].pc);
    assert At(Run(Init, steps), Run(Init, steps).agents[a].pc.got[0], Hand(a));
  }

  // -------------------------------------------------------------------------
  // The story a history tells
  // -------------------------------------------------------------------------

  function StatusesOf(es: seq<Entry>): seq<Status> {
    seq(|es|, i requires 0 <= i < |es| => es[i].status)
  }

  /** The statuses of the worker-written entries. */
  function Log(h: seq<Entry>): seq<Status> {
    StatusesOf(WorkerEntries(h))
  }

  /** Where the first claim stands: after the promotion of a scheduled job, if there is one. */
  function Lead(log: seq<Status>): nat {
    if log != [] && log[0] == Queued then 1 else 0
  }

  predicate Final(status: Status) {
    status in {Completed, DeadLetter, Cancelled}
  }

  /** From `lead` on, the log repeats claim, RETRYING, promotion; a final status ends it. */
  predicate Cycles(log: seq<Status>, lead: nat) {
    forall i | lead <= i < |log| ::
      match (i - lead) % 3
      case 0 => log[i] == Processing
      case 1 => log[i] == Retrying || (Final(log[i]) && i == |log| - 1)
      case _ => log[i] == Queued
  }

  function StageOf(log: seq<Status>): int {
    (|log| - Lead(log)) % 3
  }

  /** An optional promotion, then claims and finalizing writes that alternate, with a promotion
      after each RETRYING and nothing after a final status; the last claim is open iff running. */
  ghost predicate Story(h: seq<Entry>, running: bool) {
    && h != [] && h[0].workerId.None? && h[0].status == Queued
    && Cycles(Log(h), Lead(Log(h)))
    && (running <==> StageOf(Log(h)) == 1)
  }

  predicate StageFits(phase: Phase, log: seq<Status>) {
    match phase
    case Fresh => log == []
    case Ready => log != [] && StageOf(log) == 0
    case Running => StageOf(log) == 1
    case Waiting => StageOf(log) == 2 && log[|log| - 1] == Retrying
    case Done => StageOf(log) == 2 && Final(log[|log| - 1])
    case _ => true
  }

  lemma LogPush(h: seq<Entry>, e: Entry)
    ensures Log(Push(h, e)) == Log(h) + if e.workerId.Some? then [e.status] else []
  {
  }

  lemma CyclesPush(log: seq<Status>, phase: Phase, e: Entry)
    requires phase != Unborn && phase != Corrupt && NextPhase(phase, e) != Corrupt && e.workerId.Some?
    requires Cycles(log, Lead(log)) && StageFits(phase, log)
    ensures Cycles(log + [e.status], Lead(log + [e.status])) && StageFits(NextPhase(phase, e), log + [e.status])
  {
    var log' := log + [e.status];
    assert log != [] ==> Lead(log') == Lead(log);
    forall i | Lead(log') <= i < |log'|
      ensures match (i - Lead(log')) % 3
              case 0 => log'[i] == Processing
              case 1 => log'[i] == Retrying || (Final(log'[i]) && i == |log'| - 1)
              case _ => log'[i] == Queued
    {
      if i < |log| {
        assert log'[i] == log[i];
      }
    }
  }

  lemma {:induction false} PhaseStory(h: seq<Entry>)
    requires PhaseOf(h) != Unborn && PhaseOf(h) != Corrupt
    ensures h != [] && h[0].workerId.None? && h[0].status == Queued
    ensures Cycles(Log(h), Lead(Log(h))) && StageFits(PhaseOf(h), Log(h))
  {
    var init, e := h[..|h| - 1], h[|h| - 1];
    assert h == Push(init, e);
    LogPush(init, e);
    if PhaseOf(init) == Unborn {
      assert init == [];
    } else {
      PhaseStory(init);
      assert h[0] == init[0];
      if e.workerId.Some? {
        CyclesPush(Log(init), PhaseOf(init), e);
      } else {
        assert Log(h) == Log(init);
      }
    }
  }

  lemma RunningStage(phase: Phase, log: seq<Status>)
    requires phase != Unborn && phase != Corrupt && StageFits(phase, log)
    ensures phase == Running <==> StageOf(log) == 1
  {
  }

  /** In every run every document tells such a story, and its last claim is open exactly while the
      document is locked. */
  lemma EveryJobTellsAStory(steps: seq<Step>, j: JobId)
    requires j in Run(Init, steps).docs
    ensures Story(Run(Init, steps).docs[j].history, Run(Init, steps).docs[j].lockedBy.Some?)
  {
    InitInv();
    RunKeeps(Init, steps);
    assert DocOk(Run(Init, steps).docs[j]);
    PhaseStory(Run(Init, steps).docs[j].history);
    RunningStage(PhaseOf(Run(Init, steps).docs[j].history), Log(Run(Init, steps).docs[j].history));
  }

  // -------------------------------------------------------------------------
  // Idempotency keys
  // -------------------------------------------------------------------------

  predicate KeysUnique(docs: map<JobId, Doc>) {
    forall j, k | j in docs && k in docs && docs[j].idempotencyKey == docs[k].idempotencyKey :: j == k
  }

  lemma KeysUniqueStep(s: State, step: Step)
    requires KeysUnique(s.docs)
    ensures KeysUnique(Do(s, step).docs)
    ensures forall j | j in s.docs ::
              j in Do(s, step).docs && Do(s, step).docs[j].idempotencyKey == s.docs[j].idempotencyKey
  {
    forall j | j in s.docs
      ensures j in Do(s, step).docs && Do(s, step).docs[j].idempotencyKey == s.docs[j].idempotencyKey
    {
      StepWrites(s, step, j);
    }
    NewDocs(s, step);
  }

  lemma EffectCreatesNothing(s: State, w: WorkerId, pc: Pc)
    ensures EffectOf(s, w, pc).docs.Keys <= s.docs.Keys
  {
  }

  lemma AdvanceCreatesNothing(s: State, a: AgentId)
    ensures AdvanceStep(s, a).docs.Keys <= s.docs.Keys
  {
    if a in s.agents {
      EffectCreatesNothing(s, s.agents[a].proc, s.agents[a].pc);
    }
  }

  /** Only an Insert that found its key free creates a document. */
  lemma NewDocs(s: State, step: Step)
    ensures forall j | j in Do(s, step).docs && j !in s.docs ::
              step.Insert? && j == step.id && !KeyTaken(s.docs, Do(s, step).docs[j].idempotencyKey)
  {
    if step.Advance? {
      AdvanceCreatesNothing(s, step.a);
    }
  }

  /** A new document is the one its submission asked for. */
  lemma CreatedDoc(s: State, step: Step, j: JobId)
    requires j !in s.docs && j in Do(s, step).docs
    ensures step.Insert? && step.a in s.agents && s.agents[step.a].pc.Submitting?
    ensures Do(s, step).docs[j] == NewDoc(s.agents[step.a].pc.req, s.agents[step.a].pc.scheduled, s.now)
  {
    NewDocs(s, step);
  }

  /** However many submissions race, one idempotency key never gets two documents. */
  lemma {:induction false} OneJobPerKey(s: State, steps: seq<Step>)
    requires KeysUnique(s.docs)
    ensures KeysUnique(Run(s, steps).docs)
    decreases steps
  {
    if steps != [] {
      KeysUniqueStep(s, steps[0]);
      OneJobPerKey(Do(s, steps[0]), steps[1..]);
    }
  }
}
