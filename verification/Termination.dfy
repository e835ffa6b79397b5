/** Level two: a job's pointer moves a bounded number of times, and while a worker is alive every
    state from which no pointer was lost can be run to the end. */
module Termination {
  import opened Jobs
  import opened Protocol
  import opened Tokens
  import opened Progress
  import opened Timing
  import opened Lifecycle

  // -------------------------------------------------------------------------
  // The measure of a job
  // -------------------------------------------------------------------------

  ghost function Meter(s: State, j: JobId): int
    requires j in s.docs
  {
    if Somewhere(s, j) then var p :| At(s, j, p); Fuel(s, j, p) else 0
  }

  lemma MeterAt(s: State, j: JobId, p: Place)
    requires Exclusive(s) && j in s.docs && At(s, j, p)
    ensures Meter(s, j) == Fuel(s, j, p)
  {
  }

  lemma HandRankPositive(pc: Pc, j: JobId)
    requires Holds(pc, j)
    ensures 1 <= HandRank(pc, j) <= 8
  {
  }

  lemma HeldBeforeClaim(pc: Pc, j: JobId, phase: Phase)
    requires Holds(pc, j) && HeldPhase(pc, j, phase)
    ensures phase == Fresh || phase == Ready || phase == Waiting
  {
  }

  /** A job with a pointer has fuel left, never more than for its claims and one trip down. */
  lemma FuelRange(s: State, j: JobId, p: Place)
    requires InvTimed(s) && j in s.docs && At(s, j, p)
    ensures 1 <= Fuel(s, j, p) <= LADDER * MaxClaims(s.docs[j]) + 9
  {
    assert DocTimed(s.docs[j]) && PlacePhase(s, j, p, PhaseOf(s.docs[j].history));
    if p.Hand? {
      HandRankPositive(s.agents[p.a].pc, j);
      HeldBeforeClaim(s.agents[p.a].pc, j, PhaseOf(s.docs[j].history));
    }
  }

  lemma MeterRange(s: State, j: JobId)
    requires InvTimed(s) && j in s.docs
    ensures 0 <= Meter(s, j) <= LADDER * MaxClaims(s.docs[j]) + 9
  {
    if Somewhere(s, j) {
      var p :| At(s, j, p);
      MeterAt(s, j, p);
      FuelRange(s, j, p);
    }
  }

  /** The pointer was somewhere, and has gone from there or along its holder's way. */
  ghost predicate Moved(s: State, s': State, j: JobId)
    requires j in s.docs && j in s'.docs
  {
    exists p :: At(s, j, p)
                && !(At(s', j, p) && Rank(s', j, p) == Rank(s, j, p) && s'.docs[j].attempts == s.docs[j].attempts)
  }

  lemma MeterCompare(s: State, s': State, j: JobId)
    requires j in s.docs && j in s'.docs && Exclusive(s) && Exclusive(s')
    requires forall p | At(s, j, p) :: Fuel(s, j, p) >= 1
    requires forall q | At(s', j, q) :: Descended(s, s', j, q)
    ensures Meter(s', j) <= Meter(s, j)
    ensures Moved(s, s', j) ==> Meter(s', j) < Meter(s, j)
  {
    if Somewhere(s', j) {
      var q :| At(s', j, q);
      var p :| Descends(s, s', j, p, q);
      MeterAt(s, j, p);
      MeterAt(s', j, q);
    } else if Somewhere(s, j) {
      var p :| At(s, j, p);
      MeterAt(s, j, p);
    }
  }

  lemma MeterStep(s: State, step: Step, j: JobId)
    requires InvTimed(s) && j in s.docs
    ensures j in Do(s, step).docs
    ensures Meter(Do(s, step), j) <= Meter(s, j)
    ensures Moved(s, Do(s, step), j) ==> Meter(Do(s, step), j) < Meter(s, j)
  {
    StepWrites(s, step, j);
    DoKeeps(s, step);
    forall p | At(s, j, p) ensures Fuel(s, j, p) >= 1 {
      FuelRange(s, j, p);
    }
    forall q | At(Do(s, step), j, q) ensures Descended(s, Do(s, step), j, q) {
      StepDescends(s, step, j, q);
    }
    MeterCompare(s, Do(s, step), j);
  }

  /** How many of the steps move the pointer of job j. */
  ghost function Moves(s: State, steps: seq<Step>, j: JobId): nat
    requires j in s.docs
    decreases steps
  {
    if steps == [] then 0
    else
      StepWrites(s, steps[0], j);
      (if Moved(s, Do(s, steps[0]), j) then 1 else 0) + Moves(Do(s, steps[0]), steps[1..], j)
  }

  lemma {:induction false} MovesDrain(s: State, steps: seq<Step>, j: JobId)
    requires InvTimed(s) && TimedRun(s, steps) && j in s.docs
    ensures j in Run(s, steps).docs && Moves(s, steps, j) <= Meter(s, j) - Meter(Run(s, steps), j)
    decreases steps
  {
    if steps != [] {
      MeterStep(s, steps[0], j);
      InvTimedStep(s, steps[0]);
      MovesDrain(Do(s, steps[0]), steps[1..], j);
    }
  }

  /** In any timed run, with any crashes and cancels, a job's pointer moves at most
      10 * max(1, maxAttempts) + 9 times. */
  lemma MovesBounded(before: seq<Step>, steps: seq<Step>, j: JobId)
    requires TimedRun(Init, before) && TimedRun(Run(Init, before), steps) && j in Run(Init, before).docs
    ensures Moves(Run(Init, before), steps, j) <= LADDER * MaxClaims(Run(Init, before).docs[j]) + 9
  {
    TimedFromInit(before);
    var s := Run(Init, before);
    MovesDrain(s, steps, j);
    MeterRange(s, j);
    InvTimedRun(s, steps);
    MeterRange(Run(s, steps), j);
  }
}
