/** Level two with punctual promoters: the backoffs add up, so a job's claims spread over at least
    their total. */
module Spacing {
  import opened Jobs
  import opened Protocol
  import opened Tokens
  import opened Safety
  import opened Timing
  import opened Backoff

  // -------------------------------------------------------------------------
  // The invariant
  // -------------------------------------------------------------------------

  /** Every claim but the first comes a whole backoff after the one before it. */
  predicate Spaced(h: seq<Entry>) {
    h != [] ==>
      var init, e := h[..|h| - 1], h[|h| - 1];
      && Spaced(init)
      && (IsClaim(e) && Claims(init) > 0 ==> LastClaimAt(init) + ComputeBackoffMs(Claims(init)) <= e.timestamp)
  }

  predicate ClaimedBy(h: seq<Entry>, time: int) {
    Claims(h) > 0 ==> LastClaimAt(h) <= time
  }

  /** A job that waits for its next claim waits for its backoff. */
  predicate WaitsLong(d: Doc) {
    Claims(d.history) > 0 && PhaseOf(d.history) in {Waiting, Ready} ==>
      Earliest(d.history).Some?
      && LastClaimAt(d.history) + ComputeBackoffMs(Claims(d.history)) <= Earliest(d.history).value
  }

  predicate DocSpaced(d: Doc) {
    Spaced(d.history) && WaitsLong(d)
  }

  /** A verdict is younger than the claim it is about. */
  predicate AgentClocked(docs: map<JobId, Doc>, now: int, pc: Pc) {
    match pc
    case LaneLoaded(_, _, at) => at <= now
    case Failing(job, owner, _, _, at, _) => Owned(docs, job, owner) ==> ClaimedBy(docs[job].history, at)
    case _ => true
  }

  predicate DocsClocked(s: State) {
    forall j | j in s.docs :: ClaimedBy(s.docs[j].history, s.now)
  }

  predicate AgentsClocked(s: State) {
    forall a | a in s.agents :: AgentClocked(s.docs, s.now, s.agents[a].pc)
  }

  ghost predicate InvClocked(s: State) {
    InvTimed(s) && DocsClocked(s) && AgentsClocked(s)
  }

  ghost predicate InvSpaced(s: State, j: JobId) {
    InvClocked(s) && InvPaced(s, j) && (j in s.docs ==> DocSpaced(s.docs[j]))
  }

  // -------------------------------------------------------------------------
  // Documents
  // -------------------------------------------------------------------------

  lemma ClaimSpaced(d: Doc, snap: Doc, w: WorkerId, at: int)
    requires DocSpaced(d) && DocOk(d) && DocTimed(d) && BeforeClaim(PhaseOf(d.history)) && NotBefore(d.history, at)
    ensures DocSpaced(ClaimWrite(d, snap, w, at))
  {
  }

  lemma RescheduleSpaced(d: Doc, agent: Agent)
    requires DocSpaced(d) && DocOk(d) && agent.pc.Failing? && VerdictPaced(agent.pc)
    requires d.lockedBy.Some? && agent.pc.mem.attempts == d.attempts && ClaimedBy(d.history, agent.pc.at)
    ensures DocSpaced(FinalizeWrite(d, VerdictUpdate(agent.pc.verdict),
                                    VerdictEntry(agent.pc.verdict, agent.proc, agent.pc.at)))
  {
  }

  lemma FinishSpaced(d: Doc, value: string, wasCancelled: bool, w: WorkerId, at: int)
    requires DocSpaced(d) && DocOk(d) && d.lockedBy.Some?
    ensures DocSpaced(FinalizeWrite(d, FinishUpdate(value, wasCancelled, at), FinishEntry(wasCancelled, w, at)))
  {
  }

  lemma PromoteSpaced(d: Doc, snap: Doc, w: WorkerId, at: int)
    requires DocSpaced(d) && DocOk(d) && DocTimed(d) && BeforePromotion(PhaseOf(d.history))
    ensures DocSpaced(PromoteWrite(d, snap, w, at))
  {
  }

  lemma ApiSpaced(d: Doc, snap: Doc, at: int)
    requires DocSpaced(d)
    ensures DocSpaced(CancelWrite(d, snap, at)) && DocSpaced(FlagWrite(d, snap, at))
  {
  }

  lemma WrittenSpaced(s: State, a: AgentId, j: JobId, d': Doc)
    requires InvSpaced(s, j) && a in s.agents && j in s.docs && Written(s.docs, s.agents[a], j, d')
    ensures DocSpaced(d')
  {
    var d, agent := s.docs[j], s.agents[a];
    assert DocOk(d) && DocTimed(d) && AgentClocked(s.docs, s.now, agent.pc);
    assert PcOk(s.docs, agent.pc) && AgentTimed(s.docs, s.dead, s.now, agent) && VerdictPaced(agent.pc);
    assert Holds(agent.pc, j) ==> At(s, j, Hand(a));
    if d' != d {
      match agent.pc
      case LaneLoaded(_, snap, at) =>
        assert PlaceTime(s, j, Hand(a)) == at;
        ClaimSpaced(d, snap, agent.proc, at);
      case LaneChecked(_, _, value, wasCancelled, at) => FinishSpaced(d, value, wasCancelled, agent.proc, at);
      case Failing(_, _, _, _, _, _) => RescheduleSpaced(d, agent);
      case MoveLoaded(_, snap, at) => PromoteSpaced(d, snap, agent.proc, at);
      case CancelSave(_, snap, _, at) => ApiSpaced(d, snap, at);
      case CancelFlag(_, snap, at) => ApiSpaced(d, snap, at);
    }
  }

  lemma DocSpacedStep(s: State, step: Step, j: JobId)
    requires InvSpaced(s, j) && j in Do(s, step).docs
    ensures DocSpaced(Do(s, step).docs[j])
  {
    if j in s.docs {
      StepWrites(s, step, j);
      if step.Advance? && step.a in s.agents {
        WrittenSpaced(s, step.a, j, Do(s, step).docs[j]);
      }
    } else {
      CreatedDoc(s, step, j);
    }
  }

  lemma TimeFlows(s: State, step: Step)
    ensures s.now <= Do(s, step).now
    ensures step.Advance? ==> Do(s, step).now == s.now
  {
  }

  /** A claim is written under the time of its load. */
  lemma WrittenClocked(docs: map<JobId, Doc>, agent: Agent, j: JobId, d': Doc, now: int)
    requires j in docs && ClaimedBy(docs[j].history, now) && AgentClocked(docs, now, agent.pc)
    requires Written(docs, agent, j, d')
    ensures ClaimedBy(d'.history, now)
  {
  }

  lemma OldDocClocked(s: State, step: Step, j: JobId)
    requires DocsClocked(s) && AgentsClocked(s) && j in s.docs
    ensures j in Do(s, step).docs && ClaimedBy(Do(s, step).docs[j].history, Do(s, step).now)
  {
    StepWrites(s, step, j);
    TimeFlows(s, step);
    assert ClaimedBy(s.docs[j].history, s.now);
    if step.Advance? && step.a in s.agents {
      WrittenClocked(s.docs, s.agents[step.a], j, Do(s, step).docs[j], s.now);
    }
  }

  lemma DocsClockedStep(s: State, step: Step)
    requires DocsClocked(s) && AgentsClocked(s)
    ensures DocsClocked(Do(s, step))
  {
    forall j | j in Do(s, step).docs ensures ClaimedBy(Do(s, step).docs[j].history, Do(s, step).now) {
      if j in s.docs {
        OldDocClocked(s, step, j);
      } else {
        CreatedDoc(s, step, j);
      }
    }
  }

  // -------------------------------------------------------------------------
  // Activities
  // -------------------------------------------------------------------------

  lemma ClaimTimeKept(docs: map<JobId, Doc>, agent: Agent, j: JobId, d': Doc)
    requires j in docs && PcOk(docs, agent.pc) && Written(docs, agent, j, d')
    requires d'.attempts == docs[j].attempts
    ensures Claims(d'.history) == Claims(docs[j].history) && LastClaimAt(d'.history) == LastClaimAt(docs[j].history)
  {
  }

  /** A finalizing write to come is still about the same claim, if its fence still matches. */
  lemma BystanderClocked(s: State, step: Step, b: AgentId)
    requires InvClocked(s) && b in s.agents && Actor(step) != Some(b)
    ensures AgentClocked(Do(s, step).docs, Do(s, step).now, s.agents[b].pc)
  {
    assert AgentClocked(s.docs, s.now, s.agents[b].pc) && AgentTimed(s.docs, s.dead, s.now, s.agents[b]);
    TimeFlows(s, step);
    if s.agents[b].pc.Failing? {
      var j := s.agents[b].pc.job;
      if j in s.docs {
        StepWrites(s, step, j);
        if step.Advance? && step.a in s.agents && Owned(Do(s, step).docs, j, s.agents[b].pc.owner) {
          SameClaim(s, step.a, b, Do(s, step).docs[j]);
        }
      }
    }
  }

  lemma SameClaim(s: State, a: AgentId, b: AgentId, d': Doc)
    requires InvClocked(s) && a in s.agents && b in s.agents && a != b && s.agents[b].pc.Failing?
    requires s.agents[b].pc.job in s.docs && Written(s.docs, s.agents[a], s.agents[b].pc.job, d')
    requires d'.lockedBy == s.agents[b].pc.owner
    ensures var d := s.docs[s.agents[b].pc.job];
            && d.lockedBy == d'.lockedBy && Claims(d'.history) == Claims(d.history)
            && LastClaimAt(d'.history) == LastClaimAt(d.history)
  {
    var j := s.agents[b].pc.job;
    assert AgentTimed(s.docs, s.dead, s.now, s.agents[b]);
    if s.agents[b].pc.cont.EndPass? {
      LockKept(s, a, b, d');
    } else {
      AttemptsKept(s, a, j, d');
    }
    ClaimTimeKept(s.docs, s.agents[a], j, d');
  }

  lemma NextClocked(s: State, w: WorkerId, pc: Pc, docs': map<JobId, Doc>)
    requires !Waits(pc) && EffectOf(s, w, pc).next.Some?
    requires forall j | j in docs' :: ClaimedBy(docs'[j].history, s.now)
    ensures AgentClocked(docs', s.now, EffectOf(s, w, pc).next.value)
  {
    if pc.Failing? || pc.RetryPush? {
      assert Continue(pc.cont, s.now).Some? ==> AgentClocked(docs', s.now, Continue(pc.cont, s.now).value);
    } else if !pc.LanePopped? && !pc.LaneLoaded? && !pc.LaneSettled? {
      PlainNext(s, w, pc);
    }
  }

  lemma SettlerClocked(s: State, step: Step, a: AgentId)
    requires (step.Settle? || step.Fault?) && step.a == a && a in Do(s, step).agents
    requires forall j | j in s.docs :: ClaimedBy(s.docs[j].history, s.now)
    requires a in s.agents && AgentClocked(s.docs, s.now, s.agents[a].pc)
    ensures AgentClocked(s.docs, s.now, Do(s, step).agents[a].pc) && Do(s, step).docs == s.docs
  {
  }

  lemma StarterClocked(s: State, step: Step, a: AgentId)
    requires Actor(step) == Some(a) && !step.Advance? && a in Do(s, step).agents
    requires forall j | j in s.docs :: ClaimedBy(s.docs[j].history, s.now)
    requires a in s.agents ==> AgentClocked(s.docs, s.now, s.agents[a].pc)
    ensures AgentClocked(s.docs, s.now, Do(s, step).agents[a].pc)
    ensures step.Insert? || Do(s, step).docs == s.docs
    ensures step.Insert? ==> Do(s, step).agents[a].pc.Submitted? || Do(s, step) == s
  {
    if (step.Settle? || step.Fault?) && a in s.agents {
      SettlerClocked(s, step, a);
    }
  }

  lemma ActorClocked(s: State, step: Step, a: AgentId)
    requires Actor(step) == Some(a) && a in Do(s, step).agents
    requires DocsClocked(s) && DocsClocked(Do(s, step))
    requires a in s.agents ==> AgentClocked(s.docs, s.now, s.agents[a].pc)
    ensures AgentClocked(Do(s, step).docs, Do(s, step).now, Do(s, step).agents[a].pc)
  {
    var s' := Do(s, step);
    TimeFlows(s, step);
    if !step.Advance? {
      StarterClocked(s, step, a);
    } else if a in s.agents && !Waits(s.agents[a].pc) {
      NextClocked(s, s.agents[a].proc, s.agents[a].pc, s'.docs);
    }
  }

  lemma InvClockedStep(s: State, step: Step)
    requires InvClocked(s) && Timed(s, step)
    ensures InvClocked(Do(s, step))
  {
    InvTimedStep(s, step);
    DocsClockedStep(s, step);
    forall a | a in Do(s, step).agents
      ensures AgentClocked(Do(s, step).docs, Do(s, step).now, Do(s, step).agents[a].pc)
    {
      if Actor(step) == Some(a) {
        ActorClocked(s, step, a);
      } else {
        OnlyActorMoves(s, step, a);
        BystanderClocked(s, step, a);
      }
    }
  }

  lemma {:induction false} InvSpacedRun(s: State, steps: seq<Step>, j: JobId)
    requires InvSpaced(s, j) && TimedRun(s, steps) && PunctualRun(s, steps, j)
    ensures InvSpaced(Run(s, steps), j)
    decreases steps
  {
    if steps != [] {
      InvClockedStep(s, steps[0]);
      InvPacedStep(s, steps[0], j);
      if j in Do(s, steps[0]).docs {
        DocSpacedStep(s, steps[0], j);
      }
      InvSpacedRun(Do(s, steps[0]), steps[1..], j);
    }
  }

  // -------------------------------------------------------------------------
  // The backoffs add up
  // -------------------------------------------------------------------------

  function FirstClaimAt(h: seq<Entry>): int {
    if h == [] then 0
    else if Claims(h[..|h| - 1]) == 0 && IsClaim(h[|h| - 1]) then h[|h| - 1].timestamp
    else FirstClaimAt(h[..|h| - 1])
  }

  lemma {:induction false} SpacedAddsUp(h: seq<Entry>)
    requires Spaced(h) && Claims(h) > 0
    ensures LastClaimAt(h) - FirstClaimAt(h) >= TotalBackoff(Claims(h) - 1)
  {
    var init := h[..|h| - 1];
    if Claims(init) > 0 {
      SpacedAddsUp(init);
    }
  }

  /** In every timed run in which promoters take the job only when it is due, once retry r of it is
      claimed, its first claim lies at least the total of r backoffs back. */
  lemma ElapsedAtLeast(steps: seq<Step>, j: JobId)
    requires TimedRun(Init, steps) && PunctualRun(Init, steps, j)
    requires j in Run(Init, steps).docs && Claims(Run(Init, steps).docs[j].history) > 0
    ensures var h := Run(Init, steps).docs[j].history;
            LastClaimAt(h) - FirstClaimAt(h) >= TotalBackoff(Claims(h) - 1)
  {
    InitInv();
    InvSpacedRun(Init, steps, j);
    SpacedAddsUp(Run(Init, steps).docs[j].history);
  }
}
