/** Level two: how often an AI job calls a model over a whole run. Each claim starts one handler,
    which walks the fallback chain at its own pace and goes on even after its job has timed out,
    was recovered or its process died (src/worker/worker.js:170-188, src/ai/llm.js:21-57). */
module AiCalls {
  import opened Jobs
  import opened Protocol
  import opened Tokens
  import opened Progress
  import Safety
  import opened Timing
  import opened Llm

  /** A handler in its generate call: the replies it has had so far. */
  datatype Handler = Handler(job: JobId, replies: seq<Reply>)

  datatype System = System(s: State, handlers: seq<Handler>)

  datatype Event = Proto(step: Step) | ModelCall(h: nat, reply: Reply)

  /** The job whose claim this step saves. */
  function ClaimOf(s: State, step: Step): Option<JobId> {
    if step.Advance? && step.a in s.agents && s.agents[step.a].pc.LaneLoaded? && s.agents[step.a].pc.job in s.docs
    then Some(s.agents[step.a].pc.job)
    else None
  }

  function Start(handlers: seq<Handler>, claimed: Option<JobId>): seq<Handler> {
    if claimed.Some? then handlers + [Handler(claimed.value, [])] else handlers
  }

  /** Models are left, and no reply has stopped the chain. */
  predicate Going(models: seq<string>, h: Handler) {
    |h.replies| < |models| && forall r | r in h.replies :: !Stops(r)
  }

  function Call(models: seq<string>, h: Handler, reply: Reply): Handler {
    if Going(models, h) then h.(replies := h.replies + [reply]) else h
  }

  /** Whatever the other models would reply, the handler has made calls of the generate loop, and makes
      another exactly if the loop does. */
  ghost predicate MidGenerate(models: seq<string>, h: Handler) {
    |h.replies| <= |models| &&
    forall rest | |rest| == |models| - |h.replies| ::
      var calls := CallsOf(h.replies + rest);
      |h.replies| <= calls <= |models| && (Going(models, h) <==> |h.replies| < calls)
  }

  function Happen(models: seq<string>, sys: System, e: Event): System {
    match e
    case Proto(step) => System(Do(sys.s, step), Start(sys.handlers, ClaimOf(sys.s, step)))
    case ModelCall(h, reply) =>
      if h < |sys.handlers| then sys.(handlers := sys.handlers[h := Call(models, sys.handlers[h], reply)]) else sys
  }

  predicate TimedEvents(models: seq<string>, sys: System, events: seq<Event>)
    decreases events
  {
    events == [] ||
    ((events[0].Proto? ==> Timed(sys.s, events[0].step))
     && TimedEvents(models, Happen(models, sys, events[0]), events[1..]))
  }

  function AfterAll(models: seq<string>, sys: System, events: seq<Event>): System
    decreases events
  {
    if events == [] then sys else AfterAll(models, Happen(models, sys, events[0]), events[1..])
  }

  // -------------------------------------------------------------------------
  // Counting
  // -------------------------------------------------------------------------

  function Handlers(handlers: seq<Handler>, j: JobId): nat {
    if handlers == [] then 0
    else Handlers(handlers[1..], j) + if handlers[0].job == j then 1 else 0
  }

  function Calls(handlers: seq<Handler>, j: JobId): nat {
    if handlers == [] then 0
    else Calls(handlers[1..], j) + if handlers[0].job == j then |handlers[0].replies| else 0
  }

  lemma {:induction false} CountAppend(handlers: seq<Handler>, h: Handler, j: JobId)
    ensures Handlers(handlers + [h], j) == Handlers(handlers, j) + if h.job == j then 1 else 0
  {
    if handlers != [] {
      assert (handlers + [h])[1..] == handlers[1..] + [h];
      CountAppend(handlers[1..], h, j);
    }
  }

  lemma {:induction false} CountUpdate(handlers: seq<Handler>, i: nat, h: Handler, j: JobId)
    requires i < |handlers| && handlers[i].job == h.job
    ensures Handlers(handlers[i := h], j) == Handlers(handlers, j)
  {
    if i > 0 {
      assert handlers[i := h][1..] == handlers[1..][i - 1 := h];
      CountUpdate(handlers[1..], i - 1, h, j);
    }
  }

  lemma {:induction false} CallsPerHandler(handlers: seq<Handler>, n: nat, j: JobId)
    requires forall h | h in handlers :: |h.replies| <= n
    ensures Calls(handlers, j) <= n * Handlers(handlers, j)
  {
    if handlers != [] {
      CallsPerHandler(handlers[1..], n, j);
      if handlers[0].job == j {
        assert n * (Handlers(handlers[1..], j) + 1) == n * Handlers(handlers[1..], j) + n;
      }
    }
  }

  // -------------------------------------------------------------------------
  // One handler per claim
  // -------------------------------------------------------------------------

  ghost predicate Matched(models: seq<string>, sys: System) {
    && (forall j | j in sys.s.docs :: Handlers(sys.handlers, j) == Claims(sys.s.docs[j].history))
    && (forall j | j !in sys.s.docs :: Handlers(sys.handlers, j) == 0)
    && (forall h | h in sys.handlers :: Walks(models, h))
  }

  /** Only the last reply can have stopped the chain. */
  predicate Walks(models: seq<string>, h: Handler) {
    |h.replies| <= |models| && forall i | 0 <= i < |h.replies| - 1 :: !Stops(h.replies[i])
  }

  lemma WalksGenerate(models: seq<string>, h: Handler)
    requires Walks(models, h)
    ensures MidGenerate(models, h)
  {
    forall rest: seq<Reply> | |rest| == |models| - |h.replies|
      ensures var calls := CallsOf(h.replies + rest);
              |h.replies| <= calls <= |models| && (Going(models, h) <==> |h.replies| < calls)
    {
      CallsSoFar(h.replies, rest);
      CallsAtMost(rest);
      assert Going(models, h) <==> rest != [] && !(h.replies != [] && Stops(h.replies[|h.replies| - 1]));
    }
  }

  lemma CallWalks(models: seq<string>, h: Handler, reply: Reply)
    requires Walks(models, h)
    ensures Walks(models, Call(models, h, reply))
  {
    assert Going(models, h) ==> forall i | 0 <= i < |h.replies| :: h.replies[i] in h.replies;
  }

  lemma ClaimsStep(s: State, step: Step, j: JobId)
    requires Inv(s) && j in s.docs
    ensures j in Do(s, step).docs
    ensures Claims(Do(s, step).docs[j].history)
         == Claims(s.docs[j].history) + if ClaimOf(s, step) == Some(j) then 1 else 0
  {
    StepWrites(s, step, j);
    if step.Advance? && step.a in s.agents {
      assert PcOk(s.docs, s.agents[step.a].pc);
      ClaimsWritten(s, step.a, j);
    }
  }

  lemma ClaimsWritten(s: State, a: AgentId, j: JobId)
    requires a in s.agents && j in s.docs && PcOk(s.docs, s.agents[a].pc)
    ensures j in AdvanceStep(s, a).docs
    ensures Claims(AdvanceStep(s, a).docs[j].history)
         == Claims(s.docs[j].history) + if ClaimOf(s, Advance(a)) == Some(j) then 1 else 0
  {
    AdvanceWrites(s, a, j);
  }

  lemma ProtoMatched(models: seq<string>, sys: System, step: Step)
    requires Inv(sys.s) && Matched(models, sys)
    ensures Matched(models, Happen(models, sys, Proto(step)))
  {
    var sys' := Happen(models, sys, Proto(step));
    var claimed := ClaimOf(sys.s, step);
    forall j ensures Handlers(sys'.handlers, j) == if j in sys'.s.docs then Claims(sys'.s.docs[j].history) else 0 {
      if claimed.Some? {
        CountAppend(sys.handlers, Handler(claimed.value, []), j);
      }
      if j in sys.s.docs {
        ClaimsStep(sys.s, step, j);
      } else if j in sys'.s.docs {
        Safety.CreatedDoc(sys.s, step, j);
      }
    }
  }

  lemma CallMatched(models: seq<string>, sys: System, h: nat, reply: Reply)
    requires Matched(models, sys)
    ensures Matched(models, Happen(models, sys, ModelCall(h, reply)))
  {
    if h < |sys.handlers| {
      CallWalks(models, sys.handlers[h], reply);
      forall j
        ensures Handlers(sys.handlers[h := Call(models, sys.handlers[h], reply)], j) == Handlers(sys.handlers, j)
      {
        CountUpdate(sys.handlers, h, Call(models, sys.handlers[h], reply), j);
      }
    }
  }

  lemma {:induction false} EventsMatched(models: seq<string>, sys: System, events: seq<Event>)
    requires Inv(sys.s) && Matched(models, sys)
    ensures Inv(AfterAll(models, sys, events).s) && Matched(models, AfterAll(models, sys, events))
    decreases events
  {
    if events != [] {
      match events[0] {
        case Proto(step) =>
          ProtoMatched(models, sys, step);
          DoKeeps(sys.s, step);
        case ModelCall(h, reply) => CallMatched(models, sys, h, reply);
      }
      EventsMatched(models, Happen(models, sys, events[0]), events[1..]);
    }
  }

  lemma {:induction false} EventsTimed(models: seq<string>, sys: System, events: seq<Event>)
    requires InvTimed(sys.s) && TimedEvents(models, sys, events)
    ensures InvTimed(AfterAll(models, sys, events).s)
    decreases events
  {
    if events != [] {
      if events[0].Proto? {
        InvTimedStep(sys.s, events[0].step);
      }
      EventsTimed(models, Happen(models, sys, events[0]), events[1..]);
    }
  }

  /** Level one: in every run a job makes at most |models| model calls for each time it is claimed, each
      handler's being those of a generate loop. */
  lemma ModelCallsPerClaim(models: seq<string>, events: seq<Event>, j: JobId)
    requires j in AfterAll(models, System(Init, []), events).s.docs
    ensures var sys := AfterAll(models, System(Init, []), events);
            && Calls(sys.handlers, j) <= |models| * Claims(sys.s.docs[j].history)
            && forall h | h in sys.handlers :: MidGenerate(models, h)
  {
    InitInv();
    EventsMatched(models, System(Init, []), events);
    var sys := AfterAll(models, System(Init, []), events);
    CallsPerHandler(sys.handlers, |models|, j);
    forall h | h in sys.handlers ensures MidGenerate(models, h) {
      WalksGenerate(models, h);
    }
  }

  /** Over a whole run a job makes at most |models| * max(1, maxAttempts) model calls, each handler's
      being those of a generate loop. */
  lemma ModelCallsBounded(models: seq<string>, events: seq<Event>, j: JobId)
    requires TimedEvents(models, System(Init, []), events)
    requires j in AfterAll(models, System(Init, []), events).s.docs
    ensures var sys := AfterAll(models, System(Init, []), events);
            && Calls(sys.handlers, j) <= |models| * MaxClaims(sys.s.docs[j])
            && forall h | h in sys.handlers :: MidGenerate(models, h)
  {
    TimedFromInit([]);
    EventsTimed(models, System(Init, []), events);
    var d := AfterAll(models, System(Init, []), events).s.docs[j];
    ModelCallsPerClaim(models, events, j);
    InitInv();
    EventsMatched(models, System(Init, []), events);
    assert DocTimed(d) && DocOk(d);
    MulMono(|models|, Claims(d.history), MaxClaims(d));
  }

  lemma MulMono(n: nat, x: int, y: int)
    requires x <= y
    ensures n * x <= n * y
  {
  }
}
