/** The shared stores as mutable state, with the operations of src/queue/queue.js and
    src/queue/claim.js on them. `trace` is everything that has happened; the stores and the
    positions of all activities always are where the transition system takes that trace. */
module Cluster {
  import opened Jobs
  import opened Queue
  import opened Protocol
  import opened Records

  /** A step of another activity, which leaves activity a of process w running. */
  predicate Foreign(step: Step, a: AgentId, w: WorkerId) {
    Actor(step) != Some(a) && step != Crash(w)
  }

  /** The write at place i of the trace lands on job j: its expected owner holds the lock. */
  ghost predicate LandsAt(h: seq<Step>, i: nat, j: JobId, owner: Option<WorkerId>) {
    i < |h| && Owned(DocsAt(h, i), j, owner)
  }

  /** The documents after the first i steps of the trace. */
  ghost function DocsAt(h: seq<Step>, i: nat): map<JobId, Doc>
    requires i <= |h|
  {
    Run(Init, h[..i]).docs
  }

  lemma SameBefore(h: seq<Step>, h': seq<Step>, i: nat)
    requires h <= h' && i < |h|
    ensures DocsAt(h', i) == DocsAt(h, i) && DocsAt(h', i + 1) == DocsAt(h, i + 1) && h'[i] == h[i]
  {
    assert h'[..i] == h[..i] && h'[..i + 1] == h[..i + 1];
  }

  /** What a submission fixed for good. */
  predicate SameOrder(d: Doc, d': Doc) {
    && d'.idempotencyKey == d.idempotencyKey && d'.priority == d.priority && d'.maxAttempts == d.maxAttempts
    && d'.timeoutMs == d.timeoutMs && d'.scheduledFor == d.scheduledFor
  }

  predicate Keeps(docs: map<JobId, Doc>, docs': map<JobId, Doc>) {
    forall j | j in docs :: j in docs' && SameOrder(docs[j], docs'[j])
  }

  /** h' continues h without activity a of process w being cut short. */
  predicate Ran(h: seq<Step>, h': seq<Step>, a: AgentId, w: WorkerId) {
    h <= h' && forall i | |h| <= i < |h'| :: h'[i] != Abort(a) && h'[i] != Crash(w)
  }

  /** What activity a has done, in order. */
  function OwnSteps(h: seq<Step>, a: AgentId): seq<Step> {
    if h == [] then []
    else OwnSteps(h[..|h| - 1], a) + if Actor(h[|h| - 1]) == Some(a) then [h[|h| - 1]] else []
  }

  lemma OwnAppend(h: seq<Step>, step: Step, a: AgentId)
    ensures OwnSteps(h + [step], a) == if Actor(step) == Some(a) then OwnSteps(h, a) + [step] else OwnSteps(h, a)
  {
    assert (h + [step])[..|h|] == h;
  }

  /** h, and then n times the same step. */
  function Then(h: seq<Step>, step: Step, n: nat): seq<Step> {
    if n == 0 then h else Then(h, step, n - 1) + [step]
  }

  lemma ThenMore(h: seq<Step>, step: Step, n: nat)
    ensures Then(h, step, n + 1) == Then(h, step, n) + [step]
    ensures Then(h, step, n + 2) == Then(h, step, n) + [step] + [step]
  {
    assert Then(h, step, n + 2) == Then(h, step, n + 1) + [step];
  }

  lemma ThenThree(h: seq<Step>, step: Step, n: nat)
    ensures Then(h, step, n + 3) == Then(h, step, n) + [step] + [step] + [step]
  {
    ThenMore(h, step, n);
    assert Then(h, step, n + 3) == Then(h, step, n + 2) + [step];
  }

  /** h, and then the step once or twice. */
  function Again(h: seq<Step>, step: Step, twice: bool): seq<Step> {
    if twice then h + [step] + [step] else h + [step]
  }

  class Stores {
    var docs: map<JobId, Doc>
    var main: ZSet
    var delayed: ZSet
    var now: int
    var agents: map<AgentId, Agent>
    var dead: set<WorkerId>
    ghost var trace: seq<Step>

    function View(): State
      reads this
    {
      State(docs, main, delayed, now, agents, dead)
    }

    ghost predicate Valid()
      reads this
    {
      View() == Run(Init, trace)
    }

    constructor ()
      ensures Valid() && trace == []
    {
      docs, main, delayed, now, agents, dead, trace := map[], map[], map[], 0, map[], {}, [];
    }

    ghost predicate At(a: AgentId, w: WorkerId, pc: Pc)
      reads this
    {
      a in agents && agents[a] == Agent(w, pc)
    }

    ghost function Own(a: AgentId): seq<Step>
      reads this
    {
      OwnSteps(trace, a)
    }

    // -----------------------------------------------------------------------
    // Redis
    // -----------------------------------------------------------------------

    method PushJobToQueue(jobId: JobId, priority: int)
      modifies this`main
      ensures main == old(main)[jobId := ComputeScore(priority, now)]
    {
      var score := ComputeScore(priority, now);
      main := main[jobId := score];
    }

    method PushToDelayedQueue(jobId: JobId, readyAtMs: int)
      modifies this`delayed
      ensures delayed == old(delayed)[jobId := readyAtMs]
    {
      delayed := delayed[jobId := readyAtMs];
    }

    method RemoveJobFromQueue(jobId: JobId) returns (removed: bool)
      modifies this`main
      ensures main == old(main) - {jobId} && removed == (jobId in old(main))
    {
      removed := jobId in main;
      main := main - {jobId};
    }

    method RemoveJobFromDelayedQueue(jobId: JobId) returns (removed: bool)
      modifies this`delayed
      ensures delayed == old(delayed) - {jobId} && removed == (jobId in old(delayed))
    {
      removed := jobId in delayed;
      delayed := delayed - {jobId};
    }

    /** BZPOPMIN: None is the timeout on an empty set. */
    method ClaimNextJob() returns (jobId: Option<JobId>)
      modifies this`main
      ensures jobId.None? <==> old(main) == map[]
      ensures jobId.None? ==> main == old(main)
      ensures jobId.Some? ==> jobId.value == MinMember(old(main)) && main == old(main) - {jobId.value}
    {
      if main == map[] {
        return None;
      }
      var first := MinMember(main);
      main := main - {first};
      jobId := Some(first);
    }

    // -----------------------------------------------------------------------
    // MongoDB
    // -----------------------------------------------------------------------

    method FindById(jobId: JobId) returns (job: Option<Doc>)
      ensures job == if jobId in docs then Some(docs[jobId]) else None
    {
      job := if jobId in docs then Some(docs[jobId]) else None;
    }

    /** findOneAndUpdate on { _id, lockedBy }: lands only while the expected owner holds the lock. */
    method FinalizeJob(jobId: JobId, expectedOwner: Option<WorkerId>, update: Update, entry: Entry)
      returns (landed: bool)
      modifies this`docs
      ensures landed == Owned(old(docs), jobId, expectedOwner)
      ensures docs == if landed then old(docs)[jobId := FinalizeWrite(old(docs)[jobId], update, entry)] else old(docs)
      ensures landed ==> UpdatedDoc(old(docs)[jobId], docs[jobId], update, entry)
    {
      landed := jobId in docs && docs[jobId].lockedBy == expectedOwner;
      if landed {
        var doc := ApplyUpdate(docs[jobId], update);
        docs := docs[jobId := doc.(history := Push(doc.history, entry))];
      }
    }

    // -----------------------------------------------------------------------
    // Steps
    // -----------------------------------------------------------------------

    /** Activity a has done its step: it stands at `next` now. */
    method Reach(a: AgentId, w: WorkerId, next: Option<Pc>, ghost before: State, ghost step: Step)
      requires before == Run(Init, trace)
      requires View().(agents := Become(agents, a, w, next)) == Do(before, step)
      requires Actor(step) == Some(a) && step != Abort(a)
      modifies this`agents, this`trace
      ensures Valid() && trace == old(trace) + [step] && Ran(old(trace), trace, a, w)
      ensures Own(a) == old(Own(a)) + [step] && agents == Become(old(agents), a, w, next)
      ensures View() == Do(before, step)
      ensures DocsAt(trace, |trace| - 1) == before.docs && DocsAt(trace, |trace|) == docs
    {
      OwnAppend(trace, step, a);
      RunAppend(Init, trace, [step]);
      RunOne(before, step);
      ghost var sofar := trace;
      agents, trace := Become(agents, a, w, next), trace + [step];
      assert trace[..|sofar|] == sofar && trace[..|trace|] == trace;
    }

    /** One step of somebody else. */
    method Other(step: Step)
      requires Valid()
      modifies this
      ensures Valid() && trace == old(trace) + [step] && View() == Do(old(View()), step)
      ensures forall a: AgentId | Actor(step) != Some(a) :: Own(a) == old(Own(a))
    {
      forall a: AgentId
        ensures OwnSteps(trace + [step], a)
             == if Actor(step) == Some(a) then OwnSteps(trace, a) + [step] else OwnSteps(trace, a)
      {
        OwnAppend(trace, step, a);
      }
      ghost var before := View();
      var after := Do(View(), step);
      RunAppend(Init, trace, [step]);
      RunOne(before, step);
      docs, main, delayed, now := after.docs, after.main, after.delayed, after.now;
      agents, dead, trace := after.agents, after.dead, trace + [step];
    }

    /** While activity a awaits a reply the others take any steps, and time passes. */
    method Await(a: AgentId)
      requires Valid() && a in agents
      modifies this
      ensures Valid() && Ran(old(trace), trace, a, old(agents[a]).proc)
      ensures a in agents && agents[a] == old(agents[a]) && Own(a) == old(Own(a))
      ensures Keeps(old(docs), docs)
    {
      var w := agents[a].proc;
      var n: int :| n >= 0;
      for i := 0 to n
        invariant Valid() && Ran(old(trace), trace, a, w)
        invariant a in agents && agents[a] == old(agents[a]) && Own(a) == old(Own(a))
        invariant Keeps(old(docs), docs)
      {
        var step: Step := *;
        if Foreign(step, a, w) {
          OnlyActorMoves(View(), step, a);
          DocsStay(View(), step);
          Other(step);
        }
      }
    }
  }

  lemma DocsStay(s: State, step: Step)
    ensures Keeps(s.docs, Do(s, step).docs)
  {
    forall j | j in s.docs ensures j in Do(s, step).docs && SameOrder(s.docs[j], Do(s, step).docs[j]) {
      StepWrites(s, step, j);
      if step.Advance? && step.a in s.agents {
        FixedFields(s.docs, s.agents[step.a], j, Do(s, step).docs[j]);
      }
    }
  }
}
