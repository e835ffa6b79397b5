/** Pacing: no retry or scheduled job is claimed before its time, as long as promoters only take
    entries that are due when they take them; and what that adds up to over a job's retries. */
module Backoff {
  import opened Jobs
  import opened Protocol
  import opened Tokens
  import opened Safety
  import opened Timing

  // -------------------------------------------------------------------------
  // The total backoff
  // -------------------------------------------------------------------------

  /** The backoffs after the first `retries` claims together. */
  function TotalBackoff(retries: nat): int {
    if retries == 0 then 0 else TotalBackoff(retries - 1) + ComputeBackoffMs(retries)
  }

  lemma {:induction false} Pow2AtLeast32(n: nat)
    requires n >= 5
    ensures Pow2(n) >= 32
  {
    if n == 5 {
      assert Pow2(3) == 8;
    } else {
      Pow2AtLeast32(n - 1);
    }
  }

  lemma {:induction false} ClosedForm(retries: nat)
    ensures TotalBackoff(retries) ==
              if retries <= 5 then 2000 * (Pow2(retries) - 1) else 62000 + 60000 * (retries - 5)
  {
    if retries > 0 {
      ClosedForm(retries - 1);
      if retries > 5 {
        Pow2AtLeast32(retries - 1);
        assert Pow2(5) == 32 by {
          assert Pow2(2) == 4;
        }
      } else {
        assert Pow2(retries - 1) <= 16 by {
          assert Pow2(2) == 4;
        }
      }
    }
  }

  // -------------------------------------------------------------------------
  // When a history allows the next claim
  // -------------------------------------------------------------------------

  /** The time the latest schedule or retry decision set for the next claim. */
  function Earliest(h: seq<Entry>): Option<int> {
    if h == [] then None
    else match h[|h| - 1].note
      case ScheduledAt(time) => Some(time)
      case RetryingIn(_, _, backoffMs) => Some(h[|h| - 1].timestamp + backoffMs)
      case _ => Earliest(h[..|h| - 1])
  }

  predicate NotBefore(h: seq<Entry>, time: int) {
    Earliest(h).Some? ==> Earliest(h).value <= time
  }

  /** No claim came before the time set for it. */
  predicate Paced(h: seq<Entry>) {
    h != [] ==> Paced(h[..|h| - 1]) && (IsClaim(h[|h| - 1]) ==> NotBefore(h[..|h| - 1], h[|h| - 1].timestamp))
  }

  /** Where a pointer is says when the job may be claimed at the earliest. */
  function HandTime(pc: Pc, now: int): int {
    match pc
    case Submitted(_, _, scheduled) => OrElse(scheduled, now)
    case LaneLoaded(_, _, at) => at
    case RetryPush(_, readyAt, _) => readyAt
    case _ => now
  }

  function PlaceTime(s: State, j: JobId, p: Place): int
    requires At(s, j, p)
  {
    match p
    case Delayed => s.delayed[j]
    case Hand(a) => HandTime(s.agents[a].pc, s.now)
    case _ => s.now
  }

  /** A promoter takes job j from the delayed set only when it is due. */
  predicate Punctual(s: State, step: Step, j: JobId) {
    step.Advance? && step.a in s.agents && s.agents[step.a].pc.Removing? && s.agents[step.a].pc.todo != []
    && s.agents[step.a].pc.todo[0] == j && j in s.delayed
    ==> s.delayed[j] <= s.now
  }

  predicate PunctualRun(s: State, steps: seq<Step>, j: JobId)
    decreases steps
  {
    steps == [] || (Punctual(s, steps[0], j) && PunctualRun(Do(s, steps[0]), steps[1..], j))
  }

  lemma PunctualOne(s: State, step: Step, j: JobId)
    ensures PunctualRun(s, [step], j) <==> Punctual(s, step, j)
  {
    assert PunctualRun(Do(s, step), [], j);
  }

  lemma {:induction false} PunctualAppend(s: State, first: seq<Step>, second: seq<Step>, j: JobId)
    ensures PunctualRun(s, first + second, j) <==> PunctualRun(s, first, j) && PunctualRun(Run(s, first), second, j)
    decreases first
  {
    if first == [] {
      assert first + second == second;
    } else {
      assert (first + second)[1..] == first[1..] + second;
      PunctualAppend(Do(s, first[0]), first[1..], second, j);
    }
  }

  // -------------------------------------------------------------------------
  // Level one: the invariant
  // -------------------------------------------------------------------------

  /** A retry verdict asks for the backoff of the attempts it was taken for; no other note sets a
      time. */
  predicate VerdictPaced(pc: Pc) {
    pc.Failing? ==>
      match pc.verdict
      case Bury(note, _) => note.NonRetryable? || note.Exhausted?
      case Reschedule(readyAt, note, _) =>
        note.RetryingIn? && note.backoffMs == ComputeBackoffMs(pc.mem.attempts) && readyAt == pc.at + note.backoffMs
  }

  predicate VerdictsPaced(s: State) {
    forall a | a in s.agents :: VerdictPaced(s.agents[a].pc)
  }

  ghost predicate PlacesPaced(s: State, j: JobId) {
    j in s.docs ==> forall p | At(s, j, p) && !p.Lock? :: NotBefore(s.docs[j].history, PlaceTime(s, j, p))
  }

  predicate DocPaced(s: State, j: JobId) {
    j in s.docs ==> Paced(s.docs[j].history)
  }

  /** Job j was never claimed before its time, and its pointer is where it cannot be. */
  ghost predicate InvPaced(s: State, j: JobId) {
    Inv(s) && VerdictsPaced(s) && PlacesPaced(s, j) && DocPaced(s, j)
  }

  lemma NextVerdict(s: State, w: WorkerId, pc: Pc)
    ensures EffectOf(s, w, pc).next.Some? && !Waits(pc) ==> VerdictPaced(EffectOf(s, w, pc).next.value)
  {
    if pc.Failing? || pc.RetryPush? {
      assert Continue(pc.cont, s.now).Some? ==> VerdictPaced(Continue(pc.cont, s.now).value);
    } else if !pc.LanePopped? && !pc.LaneLoaded? && !pc.LaneSettled? && !Waits(pc) {
      PlainNext(s, w, pc);
    }
  }

  lemma VerdictsPacedStep(s: State, step: Step)
    requires VerdictsPaced(s)
    ensures VerdictsPaced(Do(s, step))
  {
    forall a | a in Do(s, step).agents ensures VerdictPaced(Do(s, step).agents[a].pc) {
      if Actor(step) != Some(a) {
        OnlyActorMoves(s, step, a);
      } else if step.Advance? && a in s.agents {
        NextVerdict(s, s.agents[a].proc, s.agents[a].pc);
      }
    }
  }

  /** The write is a retry decision. */
  predicate Reschedules(pc: Pc, j: JobId) {
    pc.Failing? && pc.job == j && pc.verdict.Reschedule?
  }

  /** The time an entry sets for the next claim. */
  function SetsTime(e: Entry): Option<int> {
    match e.note
    case ScheduledAt(time) => Some(time)
    case RetryingIn(_, _, backoffMs) => Some(e.timestamp + backoffMs)
    case _ => None
  }

  lemma EarliestPush(h: seq<Entry>, e: Entry)
    ensures Earliest(Push(h, e)) == if SetsTime(e).Some? then SetsTime(e) else Earliest(h)
    ensures Paced(Push(h, e)) == (Paced(h) && (IsClaim(e) ==> NotBefore(h, e.timestamp)))
  {
  }

  /** The entry a write appends. */
  lemma WrittenEntry(docs: map<JobId, Doc>, agent: Agent, j: JobId, d': Doc) returns (e: Entry)
    requires j in docs && Written(docs, agent, j, d') && d' != docs[j]
    ensures d'.history == Push(docs[j].history, e)
    ensures IsClaim(e) == agent.pc.LaneLoaded? && (agent.pc.LaneLoaded? ==> e.timestamp == agent.pc.at)
    ensures if agent.pc.Failing? then agent.pc.job == j && e == VerdictEntry(agent.pc.verdict, agent.proc, agent.pc.at)
            else SetsTime(e).None?
  {
    e := d'.history[|d'.history| - 1];
  }

  lemma EarliestWritten(docs: map<JobId, Doc>, agent: Agent, j: JobId, d': Doc)
    requires j in docs && Written(docs, agent, j, d') && d' != docs[j] && VerdictPaced(agent.pc)
    ensures Earliest(d'.history) ==
              if Reschedules(agent.pc, j) then Some(agent.pc.verdict.readyAt) else Earliest(docs[j].history)
  {
    var e := WrittenEntry(docs, agent, j, d');
    EarliestPush(docs[j].history, e);
  }

  lemma PacedWritten(docs: map<JobId, Doc>, agent: Agent, j: JobId, d': Doc)
    requires j in docs && Written(docs, agent, j, d') && d' != docs[j]
    ensures Paced(d'.history) ==
              (Paced(docs[j].history) && (agent.pc.LaneLoaded? ==> NotBefore(docs[j].history, agent.pc.at)))
  {
    var e := WrittenEntry(docs, agent, j, d');
    EarliestPush(docs[j].history, e);
  }

  // The places of a job, one activity at a time.

  lemma EarliestKept(s: State, a: AgentId, j: JobId)
    requires a in s.agents && j in s.docs && VerdictPaced(s.agents[a].pc)
    requires !(Reschedules(s.agents[a].pc, j) && Owned(s.docs, j, s.agents[a].pc.owner))
    ensures j in AdvanceStep(s, a).docs && Earliest(AdvanceStep(s, a).docs[j].history) == Earliest(s.docs[j].history)
  {
    AdvanceWrites(s, a, j);
    if AdvanceStep(s, a).docs[j] != s.docs[j] {
      EarliestWritten(s.docs, s.agents[a], j, AdvanceStep(s, a).docs[j]);
    }
  }

  /** A pointer that a step takes to p' came from a place that already allowed the time of p'. */
  ghost predicate CameFrom(s: State, s': State, j: JobId, p': Place, p: Place)
    requires At(s', j, p')
  {
    At(s, j, p) && !p.Lock? && PlaceTime(s, j, p) <= PlaceTime(s', j, p')
  }

  lemma MainSource(s: State, w: WorkerId, pc: Pc, j: JobId)
    requires j in EffectOf(s, w, pc).main
    ensures j in s.main || (Holds(pc, j) && HandTime(pc, s.now) == s.now)
  {
  }

  lemma DelayedSource(s: State, w: WorkerId, pc: Pc, j: JobId)
    requires j in EffectOf(s, w, pc).delayed
    ensures var time := EffectOf(s, w, pc).delayed[j];
            || (j in s.delayed && s.delayed[j] == time)
            || (pc.Submitted? && pc.job == j && pc.scheduled == Some(time))
            || (pc.RetryPush? && pc.job == j && pc.readyAt == time)
  {
  }

  lemma QueueSource(s: State, a: AgentId, j: JobId, p': Place)
    requires a in s.agents && At(AdvanceStep(s, a), j, p') && (p'.Main? || p'.Delayed?)
    ensures CameFrom(s, AdvanceStep(s, a), j, p', p') || CameFrom(s, AdvanceStep(s, a), j, p', Hand(a))
  {
    if !Waits(s.agents[a].pc) {
      if p'.Main? {
        MainSource(s, s.agents[a].proc, s.agents[a].pc, j);
      } else {
        DelayedSource(s, s.agents[a].proc, s.agents[a].pc, j);
      }
    }
  }

  lemma TakenSource(s: State, a: AgentId, j: JobId)
    requires a in s.agents && s.agents[a].pc.Removing? && Punctual(s, Advance(a), j)
    requires At(AdvanceStep(s, a), j, Hand(a))
    ensures CameFrom(s, AdvanceStep(s, a), j, Hand(a), Hand(a)) || CameFrom(s, AdvanceStep(s, a), j, Hand(a), Delayed)
  {
  }

  lemma HandSource(s: State, a: AgentId, j: JobId)
    requires a in s.agents && PcOk(s.docs, s.agents[a].pc)
    requires At(AdvanceStep(s, a), j, Hand(a)) && !s.agents[a].pc.Failing? && !s.agents[a].pc.Removing?
    ensures CameFrom(s, AdvanceStep(s, a), j, Hand(a), Hand(a))
  {
  }

  lemma Source(s: State, a: AgentId, j: JobId, p': Place) returns (p: Place)
    requires a in s.agents && PcOk(s.docs, s.agents[a].pc) && Punctual(s, Advance(a), j)
    requires At(AdvanceStep(s, a), j, p') && !p'.Lock?
    requires !(s.agents[a].pc.Failing? && p' == Hand(a))
    ensures CameFrom(s, AdvanceStep(s, a), j, p', p)
  {
    if p' == Hand(a) {
      if s.agents[a].pc.Removing? {
        TakenSource(s, a, j);
      } else {
        HandSource(s, a, j);
      }
      p := if CameFrom(s, AdvanceStep(s, a), j, p', Hand(a)) then Hand(a) else Delayed;
    } else if p'.Hand? {
      OnlyActorMoves(s, Advance(a), p'.a);
      p := p';
    } else {
      QueueSource(s, a, j, p');
      p := if CameFrom(s, AdvanceStep(s, a), j, p', p') then p' else Hand(a);
    }
  }

  lemma FailHolds(s: State, w: WorkerId, pc: Pc, j: JobId)
    requires pc.Failing? && NextHolds(EffectOf(s, w, pc).next, j)
    ensures Reschedules(pc, j) && Owned(s.docs, j, pc.owner)
    ensures EffectOf(s, w, pc).next == Some(RetryPush(j, pc.verdict.readyAt, pc.cont))
    ensures EffectOf(s, w, pc).docs[j] != s.docs[j]
  {
    assert EffectOf(s, w, pc).docs[pc.job].history != s.docs[pc.job].history;
  }

  /** The activity that lands a retry decision holds the job until its time. */
  lemma LandedTime(s: State, a: AgentId, j: JobId)
    requires a in s.agents && s.agents[a].pc.Failing? && VerdictPaced(s.agents[a].pc)
    requires j in s.docs && At(AdvanceStep(s, a), j, Hand(a))
    ensures j in AdvanceStep(s, a).docs
    ensures NotBefore(AdvanceStep(s, a).docs[j].history, PlaceTime(AdvanceStep(s, a), j, Hand(a)))
  {
    FailHolds(s, s.agents[a].proc, s.agents[a].pc, j);
    EffectWrites(s, s.agents[a], j);
    EarliestWritten(s.docs, s.agents[a], j, AdvanceStep(s, a).docs[j]);
  }

  lemma PlacePacedAdvance(s: State, a: AgentId, j: JobId, p': Place)
    requires InvPaced(s, j) && a in s.agents && Punctual(s, Advance(a), j)
    requires At(AdvanceStep(s, a), j, p') && !p'.Lock? && j in AdvanceStep(s, a).docs
    ensures NotBefore(AdvanceStep(s, a).docs[j].history, PlaceTime(AdvanceStep(s, a), j, p'))
  {
    assert PcOk(s.docs, s.agents[a].pc) && VerdictPaced(s.agents[a].pc);
    NewDocs(s, Advance(a));
    if s.agents[a].pc.Failing? && p' == Hand(a) {
      LandedTime(s, a, j);
    } else {
      var p := Source(s, a, j, p');
      assert s.agents[a].pc.Failing? && Owned(s.docs, j, s.agents[a].pc.owner) ==> At(s, j, Lock);
      EarliestKept(s, a, j);
    }
  }

  lemma DocPacedAdvance(s: State, a: AgentId, j: JobId)
    requires InvPaced(s, j) && a in s.agents && j in s.docs
    ensures j in AdvanceStep(s, a).docs && Paced(AdvanceStep(s, a).docs[j].history)
  {
    AdvanceWrites(s, a, j);
    assert VerdictPaced(s.agents[a].pc) && Paced(s.docs[j].history);
    if AdvanceStep(s, a).docs[j] != s.docs[j] {
      PacedWritten(s.docs, s.agents[a], j, AdvanceStep(s, a).docs[j]);
      if s.agents[a].pc.LaneLoaded? {
        assert At(s, j, Hand(a));
        assert PlaceTime(s, j, Hand(a)) == s.agents[a].pc.at;
      }
    }
  }

  /** An Insert leaves every pointer where it is. */
  lemma InsertOldPlace(s: State, a: AgentId, id: JobId, j: JobId, p: Place)
    requires At(InsertStep(s, a, id), j, p) && j in s.docs
    ensures var s' := InsertStep(s, a, id);
            && At(s, j, p) && j in s'.docs && s'.docs[j] == s.docs[j]
            && (p.Hand? ==> s'.agents[p.a] == s.agents[p.a])
  {
  }

  lemma InsertNewPlace(s: State, a: AgentId, id: JobId, j: JobId, p: Place)
    requires Inv(s) && At(InsertStep(s, a, id), j, p) && j in InsertStep(s, a, id).docs && j !in s.docs && !p.Lock?
    ensures var s' := InsertStep(s, a, id);
            p == Hand(a) && s'.agents[a].pc.Submitted?
            && exists req :: s'.docs[j] == NewDoc(req, s'.agents[a].pc.scheduled, s.now)
  {
    assert !At(s, j, p);
    CreatedDoc(s, Insert(a, id), j);
  }

  /** Of a new document, the pointer is with the submission. */
  lemma InsertPlace(s: State, a: AgentId, id: JobId, j: JobId, p: Place)
    requires Inv(s) && At(InsertStep(s, a, id), j, p) && j in InsertStep(s, a, id).docs && !p.Lock?
    ensures var s' := InsertStep(s, a, id);
            if j in s.docs then
              At(s, j, p) && s'.docs[j] == s.docs[j] && PlaceTime(s', j, p) == PlaceTime(s, j, p)
              && (p.Hand? ==> s'.agents[p.a] == s.agents[p.a])
            else
              p == Hand(a) && s'.agents[a].pc.Submitted?
              && exists req :: s'.docs[j] == NewDoc(req, s'.agents[a].pc.scheduled, s.now)
  {
    if j in s.docs {
      InsertOldPlace(s, a, id, j, p);
    } else {
      InsertNewPlace(s, a, id, j, p);
    }
  }

  lemma NewDocPaced(req: Request, scheduled: Option<int>, now: int)
    ensures var h := NewDoc(req, scheduled, now).history; Paced(h) && Earliest(h) == scheduled
  {
  }

  lemma InsertPlacesPaced(s: State, a: AgentId, id: JobId, j: JobId)
    requires InvPaced(s, j)
    ensures PlacesPaced(InsertStep(s, a, id), j)
  {
    var s' := InsertStep(s, a, id);
    if j in s'.docs {
      forall p | At(s', j, p) && !p.Lock? ensures NotBefore(s'.docs[j].history, PlaceTime(s', j, p)) {
        InsertPlace(s, a, id, j, p);
        if j !in s.docs {
          var req :| s'.docs[j] == NewDoc(req, s'.agents[a].pc.scheduled, s.now);
          NewDocPaced(req, s'.agents[a].pc.scheduled, s.now);
        }
      }
    }
  }

  lemma InsertDocPaced(s: State, a: AgentId, id: JobId, j: JobId)
    requires DocPaced(s, j)
    ensures DocPaced(InsertStep(s, a, id), j)
  {
    if j !in s.docs && j in InsertStep(s, a, id).docs {
      CreatedDoc(s, Insert(a, id), j);
      NewDocPaced(s.agents[a].pc.req, s.agents[a].pc.scheduled, s.now);
    }
  }

  /** Every other step leaves the documents alone and takes no pointer to an earlier time. */
  lemma PopSource(s: State, a: AgentId, w: WorkerId, j: JobId, p': Place) returns (p: Place)
    requires At(PopStep(s, a, w), j, p') && !p'.Lock?
    ensures CameFrom(s, PopStep(s, a, w), j, p', p)
  {
    p := if p' == Hand(a) && a !in s.agents then Main else p';
  }

  /** The pointer is where it was, with whom it was. */
  predicate SamePlace(s: State, s': State, j: JobId, p: Place) {
    && At(s, j, p) && s'.delayed == s.delayed && s'.now >= s.now
    && (p.Hand? ==> p.a in s'.agents && s'.agents[p.a] == s.agents[p.a])
  }

  lemma PassivePlace(s: State, step: Step, j: JobId, p: Place)
    requires (step.Abort? || step.Crash? || step.Tick?) && At(Do(s, step), j, p)
    ensures SamePlace(s, Do(s, step), j, p)
  {
  }

  lemma StartPlace(s: State, step: Step, j: JobId, p: Place)
    requires (step.Lookup? || step.BeginCancel? || step.ListDue? || step.FindStale?) && At(Do(s, step), j, p)
    ensures SamePlace(s, Do(s, step), j, p)
  {
  }

  lemma SettlePlace(s: State, step: Step, j: JobId, p: Place)
    requires (step.Settle? || step.Fault?) && At(Do(s, step), j, p)
    ensures SamePlace(s, Do(s, step), j, p)
  {
  }

  lemma QuietPlace(s: State, step: Step, j: JobId, p: Place)
    requires !step.Advance? && !step.Insert? && !step.Pop? && At(Do(s, step), j, p)
    ensures SamePlace(s, Do(s, step), j, p)
  {
    if step.Abort? || step.Crash? || step.Tick? {
      PassivePlace(s, step, j, p);
    } else if step.Settle? || step.Fault? {
      SettlePlace(s, step, j, p);
    } else {
      StartPlace(s, step, j, p);
    }
  }

  lemma SameSource(s: State, s': State, j: JobId, p: Place)
    requires At(s', j, p) && SamePlace(s, s', j, p) && !p.Lock?
    ensures CameFrom(s, s', j, p, p)
  {
  }

  lemma QuietSource(s: State, step: Step, j: JobId, p: Place)
    requires !step.Advance? && !step.Insert? && !step.Pop? && At(Do(s, step), j, p) && !p.Lock?
    ensures CameFrom(s, Do(s, step), j, p, p)
  {
    QuietPlace(s, step, j, p);
    SameSource(s, Do(s, step), j, p);
  }

  lemma OtherSource(s: State, step: Step, j: JobId, p': Place) returns (p: Place)
    requires !step.Advance? && !step.Insert? && At(Do(s, step), j, p') && !p'.Lock?
    ensures Do(s, step).docs == s.docs && CameFrom(s, Do(s, step), j, p', p)
  {
    if step.Pop? {
      p := PopSource(s, step.a, step.w, j, p');
    } else {
      p := p';
      QuietSource(s, step, j, p');
    }
  }

  lemma AdvancePlaces(s: State, a: AgentId, j: JobId)
    requires InvPaced(s, j) && a in s.agents && Punctual(s, Advance(a), j)
    ensures PlacesPaced(AdvanceStep(s, a), j)
  {
    var s' := AdvanceStep(s, a);
    if j in s'.docs {
      forall p' | At(s', j, p') && !p'.Lock? ensures NotBefore(s'.docs[j].history, PlaceTime(s', j, p')) {
        PlacePacedAdvance(s, a, j, p');
      }
    }
  }

  lemma AdvanceDoc(s: State, a: AgentId, j: JobId)
    requires InvPaced(s, j) && a in s.agents
    ensures DocPaced(AdvanceStep(s, a), j)
  {
    AdvanceCreatesNothing(s, a);
    if j in AdvanceStep(s, a).docs {
      DocPacedAdvance(s, a, j);
    }
  }

  lemma OtherDocs(s: State, step: Step)
    requires !step.Advance? && !step.Insert?
    ensures Do(s, step).docs == s.docs
  {
  }

  lemma OtherPaced(s: State, step: Step, j: JobId)
    requires PlacesPaced(s, j) && DocPaced(s, j) && !step.Advance? && !step.Insert?
    ensures PlacesPaced(Do(s, step), j) && DocPaced(Do(s, step), j)
  {
    var s' := Do(s, step);
    OtherDocs(s, step);
    if j in s'.docs {
      forall p' | At(s', j, p') && !p'.Lock? ensures NotBefore(s'.docs[j].history, PlaceTime(s', j, p')) {
        var p := OtherSource(s, step, j, p');
      }
    }
  }

  lemma InvPacedStep(s: State, step: Step, j: JobId)
    requires InvPaced(s, j) && Punctual(s, step, j)
    ensures InvPaced(Do(s, step), j)
  {
    DoKeeps(s, step);
    VerdictsPacedStep(s, step);
    if step.Insert? {
      InsertPlacesPaced(s, step.a, step.id, j);
      InsertDocPaced(s, step.a, step.id, j);
    } else if !step.Advance? {
      OtherPaced(s, step, j);
    } else if step.a in s.agents {
      AdvancePlaces(s, step.a, j);
      AdvanceDoc(s, step.a, j);
    }
  }

  lemma {:induction false} InvPacedRun(s: State, steps: seq<Step>, j: JobId)
    requires InvPaced(s, j) && PunctualRun(s, steps, j)
    ensures InvPaced(Run(s, steps), j)
    decreases steps
  {
    if steps != [] {
      InvPacedStep(s, steps[0], j);
      InvPacedRun(Do(s, steps[0]), steps[1..], j);
    }
  }

  /** A job is not claimed before its schedule, and none of its retries before its readyAt, in any
      interleaving in which promoters take the job itself only when it is due. */
  lemma NeverBeforeItsTime(steps: seq<Step>, j: JobId)
    requires PunctualRun(Init, steps, j) && j in Run(Init, steps).docs
    ensures Paced(Run(Init, steps).docs[j].history)
  {
    InitInv();
    InvPacedRun(Init, steps, j);
  }

  // -------------------------------------------------------------------------
  // Scores of the delayed set, in any run
  // -------------------------------------------------------------------------

  /** An entry of the delayed set is scored by the time set for the job, and so is one to be pushed. */
  predicate ScoreFits(s: State, j: JobId, p: Place)
    requires At(s, j, p) && j in s.docs
  {
    var earliest := Earliest(s.docs[j].history);
    match p
    case Delayed => earliest == Some(s.delayed[j])
    case Hand(a) => (
      match s.agents[a].pc
      case Submitted(_, _, scheduled) => scheduled.Some? ==> earliest == scheduled
      case RetryPush(_, readyAt, _) => earliest == Some(readyAt)
      case _ => true)
    case _ => true
  }

  ghost predicate ScoresFit(s: State) {
    forall j, p | At(s, j, p) && j in s.docs :: ScoreFits(s, j, p)
  }

  ghost predicate InvDue(s: State) {
    Inv(s) && VerdictsPaced(s) && ScoresFit(s)
  }

  lemma DelayedFits(s: State, a: AgentId, j: JobId)
    requires InvDue(s) && a in s.agents && j in AdvanceStep(s, a).delayed && j in s.docs
    ensures j in AdvanceStep(s, a).docs && ScoreFits(AdvanceStep(s, a), j, Delayed)
  {
    assert VerdictPaced(s.agents[a].pc);
    if !Waits(s.agents[a].pc) {
      DelayedSource(s, s.agents[a].proc, s.agents[a].pc, j);
    }
    assert At(s, j, Hand(a)) ==> ScoreFits(s, j, Hand(a));
    assert At(s, j, Delayed) ==> ScoreFits(s, j, Delayed);
    assert s.agents[a].pc.Failing? && Owned(s.docs, j, s.agents[a].pc.owner) ==> At(s, j, Lock);
    EarliestKept(s, a, j);
  }

  lemma OthersFit(s: State, a: AgentId, b: AgentId, j: JobId)
    requires InvDue(s) && a in s.agents && b != a && At(AdvanceStep(s, a), j, Hand(b)) && j in s.docs
    ensures j in AdvanceStep(s, a).docs && ScoreFits(AdvanceStep(s, a), j, Hand(b))
  {
    OnlyActorMoves(s, Advance(a), b);
    assert VerdictPaced(s.agents[a].pc) && At(s, j, Hand(b));
    assert s.agents[a].pc.Failing? && Owned(s.docs, j, s.agents[a].pc.owner) ==> At(s, j, Lock);
    EarliestKept(s, a, j);
  }

  lemma NextPushes(s: State, w: WorkerId, pc: Pc)
    requires !Waits(pc) && EffectOf(s, w, pc).next.Some?
    ensures !EffectOf(s, w, pc).next.value.Submitted?
    ensures EffectOf(s, w, pc).next.value.RetryPush? ==> pc.Failing?
  {
    NextFollows(s, w, pc);
  }

  lemma ActorFits(s: State, a: AgentId, j: JobId)
    requires VerdictsPaced(s) && At(AdvanceStep(s, a), j, Hand(a)) && j in s.docs
    ensures j in AdvanceStep(s, a).docs && ScoreFits(AdvanceStep(s, a), j, Hand(a))
  {
    AdvanceNext(s, a);
    AdvanceWrites(s, a, j);
    assert VerdictPaced(s.agents[a].pc);
    if !Waits(s.agents[a].pc) {
      NextPushes(s, s.agents[a].proc, s.agents[a].pc);
      if s.agents[a].pc.Failing? {
        FailHolds(s, s.agents[a].proc, s.agents[a].pc, j);
        EarliestWritten(s.docs, s.agents[a], j, AdvanceStep(s, a).docs[j]);
      }
    }
  }

  lemma AdvanceFits(s: State, a: AgentId)
    requires InvDue(s) && a in s.agents
    ensures ScoresFit(AdvanceStep(s, a))
  {
    AdvanceCreatesNothing(s, a);
    forall j, p | At(AdvanceStep(s, a), j, p) && j in AdvanceStep(s, a).docs
      ensures ScoreFits(AdvanceStep(s, a), j, p)
    {
      match p
      case Delayed => DelayedFits(s, a, j);
      case Hand(b) => if b == a { ActorFits(s, a, j); } else { OthersFit(s, a, b, j); }
      case _ =>
    }
  }

  lemma InsertFits(s: State, a: AgentId, id: JobId)
    requires InvDue(s)
    ensures ScoresFit(InsertStep(s, a, id))
  {
    var s' := InsertStep(s, a, id);
    forall j, p | At(s', j, p) && j in s'.docs ensures ScoreFits(s', j, p) {
      if !p.Lock? {
        InsertPlace(s, a, id, j, p);
        if j in s.docs {
          assert ScoreFits(s, j, p);
        }
      }
    }
  }

  lemma OtherFits(s: State, step: Step)
    requires InvDue(s) && !step.Advance? && !step.Insert?
    ensures ScoresFit(Do(s, step))
  {
    forall j, p | At(Do(s, step), j, p) && j in Do(s, step).docs ensures ScoreFits(Do(s, step), j, p) {
      QuietFits(s, step, j, p);
    }
  }

  lemma SameFits(s: State, s': State, j: JobId, p: Place)
    requires ScoresFit(s) && s'.docs == s.docs && At(s', j, p) && SamePlace(s, s', j, p) && j in s.docs
    ensures ScoreFits(s', j, p)
  {
    assert ScoreFits(s, j, p);
  }

  lemma PopFits(s: State, a: AgentId, w: WorkerId, j: JobId, p: Place)
    requires ScoresFit(s) && At(PopStep(s, a, w), j, p) && j in s.docs
    ensures ScoreFits(PopStep(s, a, w), j, p)
  {
    assert At(s, j, p) ==> ScoreFits(s, j, p);
  }

  lemma QuietFits(s: State, step: Step, j: JobId, p: Place)
    requires ScoresFit(s) && !step.Advance? && !step.Insert?
    requires At(Do(s, step), j, p) && j in Do(s, step).docs
    ensures ScoreFits(Do(s, step), j, p)
  {
    OtherDocs(s, step);
    if step.Pop? {
      PopFits(s, step.a, step.w, j, p);
    } else {
      QuietPlace(s, step, j, p);
      SameFits(s, Do(s, step), j, p);
    }
  }

  lemma InvDueStep(s: State, step: Step)
    requires InvDue(s)
    ensures InvDue(Do(s, step))
  {
    DoKeeps(s, step);
    VerdictsPacedStep(s, step);
    if step.Insert? {
      InsertFits(s, step.a, step.id);
    } else if !step.Advance? {
      OtherFits(s, step);
    } else if step.a in s.agents {
      AdvanceFits(s, step.a);
    }
  }

  lemma {:induction false} InvDueRun(s: State, steps: seq<Step>)
    requires InvDue(s)
    ensures InvDue(Run(s, steps))
    decreases steps
  {
    if steps != [] {
      InvDueStep(s, steps[0]);
      InvDueRun(Do(s, steps[0]), steps[1..]);
    }
  }

  /** In every run, the delayed set scores each job by the very time its history sets for the next
      claim: the schedule, or the readyAt of the last RETRYING. */
  lemma DelayedScores(steps: seq<Step>, j: JobId)
    requires j in Run(Init, steps).delayed
    ensures j in Run(Init, steps).docs
    ensures Earliest(Run(Init, steps).docs[j].history) == Some(Run(Init, steps).delayed[j])
  {
    InitInv();
    InvDueRun(Init, steps);
    assert At(Run(Init, steps), j, Delayed);
  }

  // -------------------------------------------------------------------------
  // Which passes are punctual
  // -------------------------------------------------------------------------

  predicate Listed(s: State, j: JobId) {
    exists a | a in s.agents :: s.agents[a].pc.Removing? && j in s.agents[a].pc.todo
  }

  /** Job j is not pushed to the delayed set behind the back of a promoter that has it on its list. */
  predicate Undisturbed(s: State, step: Step, j: JobId) {
    step.Advance? && step.a in s.agents ==>
      match s.agents[step.a].pc
      case Submitted(job, _, Some(_)) => job == j ==> !Listed(s, j)
      case RetryPush(job, _, _) => job == j ==> !Listed(s, j)
      case _ => true
  }

  predicate UndisturbedRun(s: State, steps: seq<Step>, j: JobId)
    decreases steps
  {
    steps == [] || (Undisturbed(s, steps[0], j) && UndisturbedRun(Do(s, steps[0]), steps[1..], j))
  }

  /** Whoever has job j on its list finds it due, or gone. */
  predicate ListedIsDue(s: State, j: JobId) {
    Listed(s, j) && j in s.delayed ==> s.delayed[j] <= s.now
  }

  lemma DelayedKept(s: State, step: Step, j: JobId)
    requires Undisturbed(s, step, j) && Listed(s, j) && j in Do(s, step).delayed
    ensures j in s.delayed && s.delayed[j] == Do(s, step).delayed[j]
  {
    if step.Advance? && step.a in s.agents && !Waits(s.agents[step.a].pc) {
      DelayedSource(s, s.agents[step.a].proc, s.agents[step.a].pc, j);
    }
  }

  lemma NextList(s: State, w: WorkerId, pc: Pc)
    requires !Waits(pc) && EffectOf(s, w, pc).next.Some? && EffectOf(s, w, pc).next.value.Removing?
    ensures pc.Removing? && forall j | j in EffectOf(s, w, pc).next.value.todo :: j in pc.todo
  {
    NextFollows(s, w, pc);
  }

  lemma ListKept(s: State, step: Step, a: AgentId)
    requires a in Do(s, step).agents && Do(s, step).agents[a].pc.Removing? && !(step.ListDue? && step.a == a)
    ensures a in s.agents && s.agents[a].pc.Removing?
    ensures forall j | j in Do(s, step).agents[a].pc.todo :: j in s.agents[a].pc.todo
  {
    if Actor(step) != Some(a) {
      OnlyActorMoves(s, step, a);
    } else if step.Advance? && a in s.agents && !Waits(s.agents[a].pc) {
      NextList(s, s.agents[a].proc, s.agents[a].pc);
    }
  }

  lemma ListedBefore(s: State, step: Step, j: JobId)
    requires Listed(Do(s, step), j)
    ensures Listed(s, j) || (step.ListDue? && (j in Do(s, step).delayed ==> Do(s, step).delayed[j] <= s.now))
  {
    var a :| a in Do(s, step).agents && Do(s, step).agents[a].pc.Removing? && j in Do(s, step).agents[a].pc.todo;
    if !(step.ListDue? && step.a == a) {
      ListKept(s, step, a);
    }
  }

  lemma ListedIsDueStep(s: State, step: Step, j: JobId)
    requires ListedIsDue(s, j) && Undisturbed(s, step, j)
    ensures Punctual(s, step, j) && ListedIsDue(Do(s, step), j)
  {
    if Listed(Do(s, step), j) && j in Do(s, step).delayed {
      ListedBefore(s, step, j);
      if Listed(s, j) {
        DelayedKept(s, step, j);
      }
    }
  }

  /** Passes that nobody disturbs by pushing job j behind their back take it only when it is due. */
  lemma {:induction false} UndisturbedIsPunctual(s: State, steps: seq<Step>, j: JobId)
    requires ListedIsDue(s, j) && UndisturbedRun(s, steps, j)
    ensures PunctualRun(s, steps, j)
    decreases steps
  {
    if steps != [] {
      ListedIsDueStep(s, steps[0], j);
      UndisturbedIsPunctual(Do(s, steps[0]), steps[1..], j);
    }
  }

  /** While a promotion pass is removing, nothing else happens. */
  predicate Atomic(s: State, step: Step) {
    forall a | a in s.agents && s.agents[a].pc.Removing? :: step == Advance(a)
  }

  predicate AtomicRun(s: State, steps: seq<Step>)
    decreases steps
  {
    steps == [] || (Atomic(s, steps[0]) && AtomicRun(Do(s, steps[0]), steps[1..]))
  }

  /** Atomic passes are undisturbed, so under them no claim comes before its time. */
  lemma {:induction false} AtomicIsUndisturbed(s: State, steps: seq<Step>, j: JobId)
    requires AtomicRun(s, steps)
    ensures UndisturbedRun(s, steps, j)
    decreases steps
  {
    if steps != [] {
      assert Undisturbed(s, steps[0], j);
      AtomicIsUndisturbed(Do(s, steps[0]), steps[1..], j);
    }
  }

  lemma AtomicNeverEarly(steps: seq<Step>, j: JobId)
    requires AtomicRun(Init, steps) && j in Run(Init, steps).docs
    ensures Paced(Run(Init, steps).docs[j].history)
  {
    AtomicIsUndisturbed(Init, steps, j);
    UndisturbedIsPunctual(Init, steps, j);
    NeverBeforeItsTime(steps, j);
  }
}
