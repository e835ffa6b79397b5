/** The worker process, written as in src/worker/worker.js: each method is the code between and
    around its awaited operations, with the other activities free to act during every await. Its
    contract is that the stores stay where the transition system takes the trace, so what is proved
    of all runs of the system holds of this code under every schedule. */
module WorkerProcess {
  import opened Jobs
  import opened Queue
  import opened Protocol
  import opened Cluster
  import opened Safety
  import opened Records
  import opened Endings

  /** Whether an operation after the handler fails, and which. */
  datatype Trouble = NoTrouble | AtCheckpoint(err: Error) | AtWrite(err: Error)

  /** h, and then the steps of one pass: load, claim, the handler's end; then checkpoint and finalizing
      write, or what fails of them; after a failure its write and, if it is retried, the push. */
  function Pass(h: seq<Step>, a: AgentId, outcome: Outcome, trouble: Trouble, retried: bool): seq<Step> {
    Tried(h + [Advance(a)] + [Advance(a)], a, outcome, trouble, retried)
  }

  /** The steps from the handler on. */
  function Tried(claimed: seq<Step>, a: AgentId, outcome: Outcome, trouble: Trouble, retried: bool): seq<Step> {
    var settled := claimed + [Settle(a, outcome)];
    if !outcome.Resolves? then Again(settled, Advance(a), retried)
    else match trouble
      case NoTrouble => settled + [Advance(a)] + [Advance(a)]
      case AtCheckpoint(err) => Again(settled + [Fault(a, err)], Advance(a), retried)
      case AtWrite(err) => Again(settled + [Advance(a)] + [Fault(a, err)], Advance(a), retried)
  }

  /** If the write at this place of the trace has landed, it has failed job j for this error. */
  ghost predicate FailedAt(h: seq<Step>, write: nat, j: JobId, owner: Option<WorkerId>, w: WorkerId, job: Doc,
                           err: Error, at: int)
  {
    LandsAt(h, write, j, owner) ==>
      j in DocsAt(h, write + 1) && FailedDoc(DocsAt(h, write)[j], DocsAt(h, write + 1)[j], w, job, err, at)
  }

  /** If the write at this place of the trace has landed, it has ended job j as a handler's success does. */
  ghost predicate EndedAt(h: seq<Step>, write: nat, j: JobId, w: WorkerId, value: string, honored: bool, at: int) {
    LandsAt(h, write, j, Some(w)) ==>
      && j in DocsAt(h, write + 1)
      && var d, d' := DocsAt(h, write)[j], DocsAt(h, write + 1)[j];
      if honored then HonoredDoc(d, d', w, at) else CompletedDoc(d, d', w, value, at)
  }

  /** The write at this place of the trace has claimed job j, and left the lane this job object. */
  ghost predicate ClaimedAt(h: seq<Step>, write: nat, j: JobId, w: WorkerId, job: Doc, at: int) {
    && write < |h| && j in DocsAt(h, write) && j in DocsAt(h, write + 1)
    && var d' := DocsAt(h, write + 1)[j];
    && ClaimedDoc(DocsAt(h, write)[j], d', w, at)
    && job.attempts == d'.attempts && job.maxAttempts == d'.maxAttempts && job.timeoutMs == d'.timeoutMs
  }

  /** The write at this place of the trace has promoted job j, which was loaded as `snap`. */
  ghost predicate PromotedAt(h: seq<Step>, write: nat, j: JobId, w: WorkerId, snap: Doc, at: int) {
    && write < |h| && j in DocsAt(h, write) && j in DocsAt(h, write + 1)
    && PromotedDoc(DocsAt(h, write)[j], DocsAt(h, write + 1)[j], snap, w, at)
  }

  /** How a pass went: where its claim and its last write are in the trace, and what it learned. */
  datatype Report = Report(job: Doc, claim: nat, claimedAt: int, write: nat, honored: bool, retried: bool, at: int)

  /** The last write of the pass does what the way the attempt went asks for. */
  ghost predicate AttemptEnds(h: seq<Step>, j: JobId, w: WorkerId, outcome: Outcome, trouble: Trouble, r: Report) {
    match outcome
    case Throws(err) => FailedAt(h, r.write, j, Some(w), w, r.job, err, r.at)
    case TimesOut => FailedAt(h, r.write, j, Some(w), w, r.job, Error(Unset, TimedOutAfter(r.job.timeoutMs)), r.at)
    case Resolves(value) => (
      match trouble
      case NoTrouble => EndedAt(h, r.write, j, w, value, r.honored, r.at)
      case AtCheckpoint(err) => FailedAt(h, r.write, j, Some(w), w, r.job, err, r.at)
      case AtWrite(err) => FailedAt(h, r.write, j, Some(w), w, r.job, err, r.at))
  }

  class Worker {
    const id: WorkerId
    const stores: Stores

    constructor (id: WorkerId, stores: Stores)
      ensures this.id == id && this.stores == stores
    {
      this.id, this.stores := id, stores;
    }

    // -----------------------------------------------------------------------
    // processJob
    // -----------------------------------------------------------------------

    /** Activity a stands at `next`, or is over. */
    ghost predicate Stands(a: AgentId, next: Option<Pc>)
      reads this, stores
    {
      if next.Some? then stores.At(a, id, next.value) else a !in stores.agents
    }

    method Load(a: AgentId, jobId: JobId) returns (job: Option<Doc>, at: int)
      requires stores.Valid() && stores.At(a, id, LanePopped(jobId))
      modifies stores
      ensures stores.Valid() && Ran(old(stores.trace), stores.trace, a, id)
      ensures stores.Own(a) == old(stores.Own(a)) + [Advance(a)]
      ensures job.Some? && jobId in stores.docs && stores.At(a, id, LaneLoaded(jobId, job.value, at))
      ensures job.value == stores.docs[jobId] && at == stores.now
    {
      stores.Await(a);
      ClaimedJobExists(stores.trace, a);
      ghost var before := stores.View();
      job := stores.FindById(jobId);
      at := stores.now;
      stores.Reach(a, id, if job.Some? then Some(LaneLoaded(jobId, job.value, at)) else None, before, Advance(a));
    }

    /** The claim: assignments to the job object, then its save. */
    method Claim(a: AgentId, jobId: JobId, snap: Doc, at: int) returns (job: Doc, ghost write: nat)
      requires stores.Valid() && stores.At(a, id, LaneLoaded(jobId, snap, at)) && jobId in stores.docs
      modifies stores
      ensures stores.Valid() && Ran(old(stores.trace), stores.trace, a, id)
      ensures stores.Own(a) == old(stores.Own(a)) + [Advance(a)]
      ensures job == ClaimedCopy(snap, id, at) && stores.At(a, id, LaneRunning(jobId, job, stores.now))
      ensures |old(stores.trace)| <= write && ClaimedAt(stores.trace, write, jobId, id, job, at)
    {
      job := snap.(status := Processing);
      job := job.(lockedBy := Some(id));
      job := job.(lockExpiresAt := Some(at + Max(LOCK_TTL_MS, job.timeoutMs + 5000)));
      job := job.(startedAt := Some(at));
      job := job.(attempts := job.attempts + 1);
      write := SaveClaim(a, jobId, snap, job, at);
    }

    method SaveClaim(a: AgentId, jobId: JobId, snap: Doc, job: Doc, at: int) returns (ghost write: nat)
      requires stores.Valid() && stores.At(a, id, LaneLoaded(jobId, snap, at)) && jobId in stores.docs
      requires job == ClaimedCopy(snap, id, at)
      modifies stores
      ensures stores.Valid() && Ran(old(stores.trace), stores.trace, a, id)
      ensures stores.Own(a) == old(stores.Own(a)) + [Advance(a)]
      ensures stores.At(a, id, LaneRunning(jobId, job, stores.now))
      ensures |old(stores.trace)| <= write && ClaimedAt(stores.trace, write, jobId, id, job, at)
    {
      stores.Await(a);
      write := |stores.trace|;
      ClaimLeaves(stores.trace, a);
      WriteClaim(a, jobId, snap, job, at);
    }

    /** The write itself: what differs from the document as it was loaded, and the history entry. */
    method WriteClaim(a: AgentId, jobId: JobId, snap: Doc, job: Doc, at: int)
      requires stores.Valid() && stores.At(a, id, LaneLoaded(jobId, snap, at)) && jobId in stores.docs
      requires job == ClaimedCopy(snap, id, at)
      modifies stores
      ensures stores.Valid() && stores.trace == old(stores.trace) + [Advance(a)]
      ensures Ran(old(stores.trace), stores.trace, a, id) && stores.Own(a) == old(stores.Own(a)) + [Advance(a)]
      ensures stores.View() == Do(old(stores.View()), Advance(a))
      ensures DocsAt(stores.trace, |old(stores.trace)|) == old(stores.docs)
      ensures DocsAt(stores.trace, |stores.trace|) == stores.docs
      ensures stores.At(a, id, LaneRunning(jobId, job, stores.now))
    {
      var entry := Entry(Processing, Some(id), Attempt(job.attempts), at);
      ghost var before := stores.View();
      var doc := stores.docs[jobId];
      doc := doc.(
        status := Saved(snap.status, job.status, doc.status),
        lockedBy := Saved(snap.lockedBy, job.lockedBy, doc.lockedBy),
        lockExpiresAt := Saved(snap.lockExpiresAt, job.lockExpiresAt, doc.lockExpiresAt),
        startedAt := Saved(snap.startedAt, job.startedAt, doc.startedAt),
        attempts := Saved(snap.attempts, job.attempts, doc.attempts),
        history := Push(doc.history, entry));
      stores.docs := stores.docs[jobId := doc];
      ClaimStep(before, a, id, jobId, snap, at);
      stores.Reach(a, id, Some(LaneRunning(jobId, job, stores.now)), before, Advance(a));
    }

    /** Where the race leaves the lane. */
    function Raced(jobId: JobId, job: Doc, outcome: Outcome, at: int): Pc {
      match outcome
      case Resolves(value) => LaneSettled(jobId, job, value)
      case Throws(err) => FailPc(jobId, Some(id), job, err, at, EndPass)
      case TimesOut => FailPc(jobId, Some(id), job, Error(Unset, TimedOutAfter(job.timeoutMs)), at, EndPass)
    }

    /** Promise.race of the handler and the timer. If the timer wins, it has gone off: the race was
        on for job.timeoutMs at least. */
    method RaceHandler(a: AgentId, jobId: JobId, job: Doc, since: int, outcome: Outcome) returns (settledAt: int)
      requires stores.Valid() && stores.At(a, id, LaneRunning(jobId, job, since))
      modifies stores
      ensures stores.Valid() && Ran(old(stores.trace), stores.trace, a, id)
      ensures stores.Own(a) == old(stores.Own(a)) + [Settle(a, outcome)]
      ensures stores.At(a, id, Raced(jobId, job, outcome, settledAt)) && settledAt == stores.now
      ensures outcome.TimesOut? ==> settledAt >= since + job.timeoutMs
    {
      stores.Await(a);
      if outcome.TimesOut? {
        stores.Other(Tick(since + job.timeoutMs));
      }
      ghost var before := stores.View();
      settledAt := stores.now;
      stores.Reach(a, id, Some(Raced(jobId, job, outcome, settledAt)), before, Settle(a, outcome));
    }

    /** The cooperative cancellation checkpoint and the finalizing write of a handler that resolved. An
        error of either ends it, to be handled like one of the handler. */
    method Finish(a: AgentId, jobId: JobId, job: Doc, value: string, trouble: Trouble)
      returns (endedAt: int, ghost honored: bool, ghost write: nat)
      requires stores.Valid() && stores.At(a, id, LaneSettled(jobId, job, value))
      modifies stores
      ensures stores.Valid() && Ran(old(stores.trace), stores.trace, a, id)
      ensures match trouble
              case NoTrouble =>
                && a !in stores.agents
                && stores.Own(a) == old(stores.Own(a)) + [Advance(a)] + [Advance(a)]
                && |old(stores.trace)| <= write < |stores.trace|
                && EndedAt(stores.trace, write, jobId, id, value, honored, endedAt)
              case AtCheckpoint(err) =>
                && stores.At(a, id, FailPc(jobId, Some(id), job, err, endedAt, EndPass))
                && stores.Own(a) == old(stores.Own(a)) + [Fault(a, err)]
              case AtWrite(err) =>
                && stores.At(a, id, FailPc(jobId, Some(id), job, err, endedAt, EndPass))
                && stores.Own(a) == old(stores.Own(a)) + [Advance(a)] + [Fault(a, err)]
    {
      honored, write := false, 0;
      if trouble.AtCheckpoint? {
        endedAt := Catch(a, jobId, job, trouble.err);
        return;
      }
      var wasCancelled, at := Checkpoint(a, jobId, job, value);
      if trouble.AtWrite? {
        endedAt := Catch(a, jobId, job, trouble.err);
        return;
      }
      write := WriteOutcome(a, jobId, job, value, wasCancelled, at);
      endedAt, honored := at, wasCancelled;
    }

    /** The rejected promise of a database operation, which has not landed. */
    method Catch(a: AgentId, jobId: JobId, job: Doc, err: Error) returns (failedAt: int)
      requires stores.Valid() && a in stores.agents && stores.agents[a].proc == id
      requires stores.agents[a].pc.LaneSettled? || stores.agents[a].pc.LaneChecked?
      requires stores.agents[a].pc.job == jobId && stores.agents[a].pc.mem == job
      modifies stores
      ensures stores.Valid() && Ran(old(stores.trace), stores.trace, a, id)
      ensures stores.Own(a) == old(stores.Own(a)) + [Fault(a, err)]
      ensures stores.At(a, id, FailPc(jobId, Some(id), job, err, failedAt, EndPass)) && failedAt == stores.now
    {
      stores.Await(a);
      ghost var before := stores.View();
      failedAt := stores.now;
      stores.Reach(a, id, Some(FailPc(jobId, Some(id), job, err, failedAt, EndPass)), before, Fault(a, err));
    }

    method WriteOutcome(a: AgentId, jobId: JobId, job: Doc, value: string, wasCancelled: bool, at: int)
      returns (ghost write: nat)
      requires stores.Valid() && stores.At(a, id, LaneChecked(jobId, job, value, wasCancelled, at))
      modifies stores
      ensures stores.Valid() && Ran(old(stores.trace), stores.trace, a, id) && a !in stores.agents
      ensures stores.Own(a) == old(stores.Own(a)) + [Advance(a)]
      ensures |old(stores.trace)| <= write && write + 1 == |stores.trace|
      ensures EndedAt(stores.trace, write, jobId, id, value, wasCancelled, at)
      ensures LandsAt(stores.trace, write, jobId, Some(id)) && !wasCancelled ==>
                && jobId in stores.docs
                && stores.docs[jobId].status == Completed && stores.docs[jobId].result == Some(value)
    {
      stores.Await(a);
      write := |stores.trace|;
      if wasCancelled {
        FinalWrite(a, jobId, LaneChecked(jobId, job, value, true, at), HonorCancellation,
          Entry(Cancelled, Some(id), CancellationHonored, at));
      } else {
        FinalWrite(a, jobId, LaneChecked(jobId, job, value, false, at), Complete(value, at),
          Entry(Completed, Some(id), JobCompleted, at));
      }
    }

    /** The conditional write itself. */
    method FinalWrite(a: AgentId, jobId: JobId, ghost pc: Pc, update: Update, entry: Entry)
      requires stores.Valid() && stores.At(a, id, pc) && pc.LaneChecked? && pc.job == jobId
      requires update == if pc.wasCancelled then HonorCancellation else Complete(pc.value, pc.at)
      requires entry == if pc.wasCancelled then Entry(Cancelled, Some(id), CancellationHonored, pc.at)
                        else Entry(Completed, Some(id), JobCompleted, pc.at)
      modifies stores
      ensures stores.Valid() && stores.trace == old(stores.trace) + [Advance(a)] && a !in stores.agents
      ensures Ran(old(stores.trace), stores.trace, a, id) && stores.Own(a) == old(stores.Own(a)) + [Advance(a)]
      ensures DocsAt(stores.trace, |old(stores.trace)|) == old(stores.docs)
      ensures DocsAt(stores.trace, |stores.trace|) == stores.docs
      ensures Owned(old(stores.docs), jobId, Some(id)) ==>
                jobId in stores.docs && UpdatedDoc(old(stores.docs)[jobId], stores.docs[jobId], update, entry)
    {
      ghost var before := stores.View();
      var landed := stores.FinalizeJob(jobId, Some(id), update, entry);
      FinishStep(before, a, id, pc);
      stores.Reach(a, id, None, before, Advance(a));
    }

    method Checkpoint(a: AgentId, jobId: JobId, job: Doc, value: string) returns (wasCancelled: bool, at: int)
      requires stores.Valid() && stores.At(a, id, LaneSettled(jobId, job, value))
      modifies stores
      ensures stores.Valid() && Ran(old(stores.trace), stores.trace, a, id)
      ensures stores.Own(a) == old(stores.Own(a)) + [Advance(a)]
      ensures stores.At(a, id, LaneChecked(jobId, job, value, wasCancelled, at)) && at == stores.now
      ensures wasCancelled <==> jobId in stores.docs && stores.docs[jobId].cancellationRequested
    {
      stores.Await(a);
      ghost var before := stores.View();
      var freshJob := stores.FindById(jobId);
      wasCancelled := freshJob.Some? && freshJob.value.cancellationRequested;
      at := stores.now;
      stores.Reach(a, id, Some(LaneChecked(jobId, job, value, wasCancelled, at)), before, Advance(a));
    }

    /** One pass of a lane over a popped job: load, claim, handler, and then checkpoint and finalizing
        write. A handler that throws or is late, or an error of one of the last two, leads to a failure's
        write and, if it is to be retried, the push. */
    method ProcessJob(a: AgentId, jobId: JobId, outcome: Outcome, trouble: Trouble) returns (ghost r: Report)
      requires stores.Valid() && stores.At(a, id, LanePopped(jobId))
      modifies stores
      ensures stores.Valid() && Ran(old(stores.trace), stores.trace, a, id) && a !in stores.agents
      ensures stores.Own(a) == Pass(old(stores.Own(a)), a, outcome, trouble, r.retried)
      ensures |old(stores.trace)| <= r.claim < r.write < |stores.trace|
      ensures ClaimedAt(stores.trace, r.claim, jobId, id, r.job, r.claimedAt)
      ensures AttemptEnds(stores.trace, jobId, id, outcome, trouble, r)
      ensures r.retried ==> jobId in stores.delayed && stores.delayed[jobId] == r.at + ComputeBackoffMs(r.job.attempts)
    {
      r := *;
      var found, at := Load(a, jobId);
      if found.None? {
        return;
      }
      ghost var claim;
      var job;
      job, claim := Claim(a, jobId, found.value, at);
      ghost var claimed := stores.trace;
      r := TryJob(a, jobId, job, stores.now, outcome, trouble);
      r := r.(claim := claim, claimedAt := at);
      SameBefore(claimed, stores.trace, claim);
    }

    /** The try block and its catch. */
    method TryJob(a: AgentId, jobId: JobId, job: Doc, since: int, outcome: Outcome, trouble: Trouble)
      returns (ghost r: Report)
      requires stores.Valid() && stores.At(a, id, LaneRunning(jobId, job, since))
      modifies stores
      ensures stores.Valid() && Ran(old(stores.trace), stores.trace, a, id) && a !in stores.agents
      ensures stores.Own(a) == Tried(old(stores.Own(a)), a, outcome, trouble, r.retried)
      ensures |old(stores.trace)| <= r.write < |stores.trace| && r.job == job
      ensures AttemptEnds(stores.trace, jobId, id, outcome, trouble, r)
      ensures r.retried ==> jobId in stores.delayed && stores.delayed[jobId] == r.at + ComputeBackoffMs(job.attempts)
    {
      var at := RaceHandler(a, jobId, job, since, outcome);
      ghost var write, honored, retried := 0, false, false;
      match outcome {
        case Resolves(value) =>
          at, honored, write := Finish(a, jobId, job, value, trouble);
          if !trouble.NoTrouble? {
            retried, write := HandleFailure(a, jobId, job, trouble.err, Some(id), at, EndPass);
          }
        case Throws(err) =>
          retried, write := HandleFailure(a, jobId, job, err, Some(id), at, EndPass);
        case TimesOut =>
          var err := Error(Unset, TimedOutAfter(job.timeoutMs));
          retried, write := HandleFailure(a, jobId, job, err, Some(id), at, EndPass);
      }
      r := Report(job, 0, 0, write, honored, retried, at);
    }

    /** One turn of runLane: the pop times out, or a whole job is processed. */
    method RunLaneOnce(a: AgentId, outcome: Outcome, trouble: Trouble)
      returns (jobId: Option<JobId>, ghost r: Report)
      requires stores.Valid() && a !in stores.agents
      modifies stores
      ensures stores.Valid() && Ran(old(stores.trace), stores.trace, a, id) && a !in stores.agents
      ensures jobId == if old(stores.main) == map[] then None else Some(MinMember(old(stores.main)))
      ensures jobId.None? ==> stores.View() == old(stores.View()) && stores.trace == old(stores.trace)
      ensures jobId.Some? ==> |stores.trace| > |old(stores.trace)| && stores.trace[|old(stores.trace)|] == Pop(a, id)
      ensures jobId.Some? ==>
                && stores.Own(a) == Pass(old(stores.Own(a)) + [Pop(a, id)], a, outcome, trouble, r.retried)
                && |old(stores.trace)| < r.claim < r.write < |stores.trace|
                && ClaimedAt(stores.trace, r.claim, jobId.value, id, r.job, r.claimedAt)
                && AttemptEnds(stores.trace, jobId.value, id, outcome, trouble, r)
    {
      r := *;
      ghost var before := stores.View();
      jobId := stores.ClaimNextJob();
      if jobId.Some? {
        stores.Reach(a, id, Some(LanePopped(jobId.value)), before, Pop(a, id));
        r := ProcessJob(a, jobId.value, outcome, trouble);
      }
    }

    // -----------------------------------------------------------------------
    // handleFailure
    // -----------------------------------------------------------------------

    /** The conditional write of handleFailure, `write` being its place in the trace; `readyAt` is when a
        retry is due. */
    method Finalize(a: AgentId, jobId: JobId, job: Doc, err: Error, expectedOwner: Option<WorkerId>, at: int,
                    cont: Cont, update: Update, entry: Entry, readyAt: Option<int>)
      returns (updated: bool, ghost write: nat)
      requires stores.Valid() && stores.At(a, id, FailPc(jobId, expectedOwner, job, err, at, cont))
      requires update == VerdictUpdate(Decide(job, err, at)) && entry == VerdictEntry(Decide(job, err, at), id, at)
      requires readyAt == if Decide(job, err, at).Reschedule? then Some(Decide(job, err, at).readyAt) else None
      modifies stores
      ensures stores.Valid() && Ran(old(stores.trace), stores.trace, a, id)
      ensures stores.Own(a) == old(stores.Own(a)) + [Advance(a)]
      ensures |old(stores.trace)| <= write < |stores.trace| && stores.trace[write] == Advance(a)
      ensures updated == LandsAt(stores.trace, write, jobId, expectedOwner)
      ensures FailedAt(stores.trace, write, jobId, expectedOwner, id, job, err, at)
      ensures Stands(a, if updated && readyAt.Some? then Some(RetryPush(jobId, readyAt.value, cont))
                        else Continue(cont, stores.now))
    {
      stores.Await(a);
      write := |stores.trace|;
      updated := FailWrite(a, jobId, job, err, expectedOwner, at, cont, update, entry, readyAt);
    }

    /** The write itself. */
    method FailWrite(a: AgentId, jobId: JobId, ghost job: Doc, ghost err: Error, expectedOwner: Option<WorkerId>,
                     ghost at: int, cont: Cont, update: Update, entry: Entry, readyAt: Option<int>)
      returns (updated: bool)
      requires stores.Valid() && stores.At(a, id, FailPc(jobId, expectedOwner, job, err, at, cont))
      requires update == VerdictUpdate(Decide(job, err, at)) && entry == VerdictEntry(Decide(job, err, at), id, at)
      requires readyAt == if Decide(job, err, at).Reschedule? then Some(Decide(job, err, at).readyAt) else None
      modifies stores
      ensures stores.Valid() && stores.trace == old(stores.trace) + [Advance(a)]
      ensures Ran(old(stores.trace), stores.trace, a, id) && stores.Own(a) == old(stores.Own(a)) + [Advance(a)]
      ensures DocsAt(stores.trace, |old(stores.trace)|) == old(stores.docs)
      ensures DocsAt(stores.trace, |stores.trace|) == stores.docs
      ensures updated == Owned(old(stores.docs), jobId, expectedOwner)
      ensures updated ==>
                && jobId in stores.docs
                && FailedDoc(old(stores.docs)[jobId], stores.docs[jobId], id, job, err, at)
      ensures Stands(a, if updated && readyAt.Some? then Some(RetryPush(jobId, readyAt.value, cont))
                        else Continue(cont, stores.now))
    {
      ghost var before := stores.View();
      if Owned(stores.docs, jobId, expectedOwner) {
        FailureKeepsPromise(stores.docs[jobId], job, err, id, at);
      }
      updated := stores.FinalizeJob(jobId, expectedOwner, update, entry);
      var next :=
        if updated && readyAt.Some? then Some(RetryPush(jobId, readyAt.value, cont)) else Continue(cont, stores.now);
      FailStep(before, a, id, FailPc(jobId, expectedOwner, job, err, at, cont), readyAt);
      stores.Reach(a, id, next, before, Advance(a));
    }

    /** handleFailure, called at time `at`; `cont` is what its caller does next. It writes once, and the
        retry is pushed exactly if the verdict is to reschedule and the write landed. */
    method HandleFailure(a: AgentId, jobId: JobId, job: Doc, err: Error, expectedOwner: Option<WorkerId>, at: int,
                         cont: Cont)
      returns (ghost retried: bool, ghost write: nat)
      requires stores.Valid() && stores.At(a, id, FailPc(jobId, expectedOwner, job, err, at, cont))
      modifies stores
      ensures stores.Valid() && Ran(old(stores.trace), stores.trace, a, id) && Stands(a, Continue(cont, stores.now))
      ensures |old(stores.trace)| <= write < |stores.trace| && stores.trace[write] == Advance(a)
      ensures FailedAt(stores.trace, write, jobId, expectedOwner, id, job, err, at)
      ensures retried == (Retryable(job, err) && LandsAt(stores.trace, write, jobId, expectedOwner))
      ensures retried ==> jobId in stores.delayed && stores.delayed[jobId] == at + ComputeBackoffMs(job.attempts)
      ensures stores.Own(a) == Again(old(stores.Own(a)), Advance(a), retried)
    {
      var exhausted := job.attempts >= job.maxAttempts;
      var nonRetryable := err.flag == No;
      if exhausted || nonRetryable {
        var reason :=
          if nonRetryable then NonRetryable(job.attempts, job.maxAttempts)
          else Exhausted(job.attempts, job.maxAttempts);
        assert Decide(job, err, at) == Bury(reason, err.message);
        var updated;
        updated, write := Finalize(a, jobId, job, err, expectedOwner, at, cont, Fail(DeadLetter, err.message),
          Entry(DeadLetter, Some(id), reason, at), None);
        retried := false;
      } else {
        var backoffMs := ComputeBackoffMs(job.attempts);
        retried, write := ScheduleRetry(a, jobId, job, err, expectedOwner, at, backoffMs, cont);
      }
    }

    /** The retry is pushed only if the write that announces it landed. */
    method ScheduleRetry(a: AgentId, jobId: JobId, job: Doc, err: Error, expectedOwner: Option<WorkerId>, at: int,
                         backoffMs: int, cont: Cont) returns (updated: bool, ghost write: nat)
      requires stores.Valid() && stores.At(a, id, FailPc(jobId, expectedOwner, job, err, at, cont))
      requires job.attempts < job.maxAttempts && err.flag != No && backoffMs == ComputeBackoffMs(job.attempts)
      modifies stores
      ensures stores.Valid() && Ran(old(stores.trace), stores.trace, a, id) && Stands(a, Continue(cont, stores.now))
      ensures |old(stores.trace)| <= write < |stores.trace| && stores.trace[write] == Advance(a)
      ensures FailedAt(stores.trace, write, jobId, expectedOwner, id, job, err, at)
      ensures updated == LandsAt(stores.trace, write, jobId, expectedOwner)
      ensures updated ==> jobId in stores.delayed && stores.delayed[jobId] == at + backoffMs
      ensures stores.Own(a) == Again(old(stores.Own(a)), Advance(a), updated)
    {
      var readyAt := at + backoffMs;
      var note := RetryingIn(job.attempts, job.maxAttempts, backoffMs);
      assert Decide(job, err, at) == Reschedule(readyAt, note, err.message);
      updated, write := Finalize(a, jobId, job, err, expectedOwner, at, cont, Fail(Retrying, err.message),
        Entry(Retrying, Some(id), note, at), Some(readyAt));
      if updated {
        ghost var sofar := stores.trace;
        PushRetry(a, jobId, readyAt, cont);
        SameBefore(sofar, stores.trace, write);
      }
    }

    /** ZADD on the delayed set under the ready time. */
    method PushRetry(a: AgentId, jobId: JobId, readyAt: int, cont: Cont)
      requires stores.Valid() && stores.At(a, id, RetryPush(jobId, readyAt, cont))
      modifies stores
      ensures stores.Valid() && Ran(old(stores.trace), stores.trace, a, id) && Stands(a, Continue(cont, stores.now))
      ensures stores.Own(a) == old(stores.Own(a)) + [Advance(a)]
      ensures jobId in stores.delayed && stores.delayed[jobId] == readyAt
    {
      stores.Await(a);
      ghost var before := stores.View();
      stores.PushToDelayedQueue(jobId, readyAt);
      stores.Reach(a, id, Continue(cont, stores.now), before, Advance(a));
    }

    // -----------------------------------------------------------------------
    // recoverStaleJobs
    // -----------------------------------------------------------------------

    /** Job.find on PROCESSING documents whose lock has expired, in whatever order. */
    method FindExpired(asOf: int) returns (found: seq<Stale>)
      ensures ListsStale(stores.docs, found, asOf)
      ensures forall j | j in stores.docs ::
                Stale(j, stores.docs[j]) in found <==>
                  && stores.docs[j].status == Processing && stores.docs[j].lockExpiresAt.Some?
                  && stores.docs[j].lockExpiresAt.value < asOf
    {
      found := [];
      var left := set j | j in stores.docs && Expired(stores.docs[j], asOf);
      ghost var all := left;
      while left != {}
        invariant left <= all && NoDup(found)
        invariant forall e | e in found :: e.job in all && e.job !in left && e.snap == stores.docs[e.job]
        invariant forall j | j in all && j !in left :: Stale(j, stores.docs[j]) in found
        decreases |left|
      {
        var j :| j in left;
        found := found + [Stale(j, stores.docs[j])];
        left := left - {j};
      }
    }

    /** One recovery pass: it finds all expired locks and handles every one of them, each with one write,
        and a push for those it retries. */
    method RecoverStaleJobs(a: AgentId) returns (staleJobs: seq<Stale>, ghost retries: nat)
      requires stores.Valid() && a !in stores.agents
      modifies stores
      ensures stores.Valid() && Ran(old(stores.trace), stores.trace, a, id) && a !in stores.agents
      ensures ListsStale(old(stores.docs), staleJobs, old(stores.now)) && retries <= |staleJobs|
      ensures stores.Own(a) ==
              Then(old(stores.Own(a)) + [FindStale(a, id, staleJobs, old(stores.now))], Advance(a),
                   |staleJobs| + retries)
      ensures |stores.trace| > |old(stores.trace)|
      ensures stores.trace[|old(stores.trace)|] == FindStale(a, id, staleJobs, old(stores.now))
    {
      var now := stores.now;
      ghost var before := stores.View();
      staleJobs := FindExpired(now);
      stores.Reach(a, id, StartStale(staleJobs, now), before, FindStale(a, id, staleJobs, now));
      retries := RecoverAll(a, staleJobs);
    }

    method RecoverAll(a: AgentId, staleJobs: seq<Stale>) returns (ghost retries: nat)
      requires stores.Valid() && Stands(a, StartStale(staleJobs, stores.now))
      modifies stores
      ensures stores.Valid() && Ran(old(stores.trace), stores.trace, a, id) && a !in stores.agents
      ensures retries <= |staleJobs| && stores.Own(a) == Then(old(stores.Own(a)), Advance(a), |staleJobs| + retries)
    {
      retries := 0;
      for i := 0 to |staleJobs|
        invariant stores.Valid() && Ran(old(stores.trace), stores.trace, a, id)
        invariant Stands(a, StartStale(staleJobs[i..], stores.now)) && retries <= i
        invariant stores.Own(a) == Then(old(stores.Own(a)), Advance(a), i + retries)
      {
        assert staleJobs[i..][1..] == staleJobs[i + 1..];
        ghost var retried, write, at := RecoverOne(a, staleJobs[i..]);
        ThenMore(old(stores.Own(a)), Advance(a), i + retries);
        retries := if retried then retries + 1 else retries;
      }
    }

    /** The loop body: a failure in the name of the owner that was found. */
    method RecoverOne(a: AgentId, rest: seq<Stale>) returns (ghost retried: bool, ghost write: nat, ghost at: int)
      requires stores.Valid() && rest != [] && Stands(a, StartStale(rest, stores.now))
      modifies stores
      ensures stores.Valid() && Ran(old(stores.trace), stores.trace, a, id)
      ensures Stands(a, StartStale(rest[1..], stores.now))
      ensures stores.Own(a) == Again(old(stores.Own(a)), Advance(a), retried)
      ensures |old(stores.trace)| <= write < |stores.trace| && at == old(stores.now)
      ensures var Stale(j, d) := rest[0];
              && FailedAt(stores.trace, write, j, d.lockedBy, id, d, Error(Unset, LockExpired(d.lockedBy)), at)
              && retried == (d.attempts < d.maxAttempts && LandsAt(stores.trace, write, j, d.lockedBy))
              && (retried ==> j in stores.delayed && stores.delayed[j] == at + ComputeBackoffMs(d.attempts))
    {
      var job := rest[0].snap;
      var staleOwner := job.lockedBy;
      at := stores.now;
      var err := Error(Unset, LockExpired(staleOwner));
      retried, write := HandleFailure(a, rest[0].job, job, err, staleOwner, stores.now, NextStale(rest[1..]));
    }

    // -----------------------------------------------------------------------
    // promoteDueDelayedJobs and promoteReadyJobs
    // -----------------------------------------------------------------------

    /** ZRANGEBYSCORE from -inf to `asOf`. */
    method DueJobs(asOf: int) returns (due: seq<JobId>)
      ensures ListsDue(stores.delayed, due, asOf)
      ensures forall j :: j in due <==> j in stores.delayed && stores.delayed[j] <= asOf
    {
      due := [];
      var left := set j | j in stores.delayed && stores.delayed[j] <= asOf;
      ghost var all := left;
      while left != {}
        invariant left <= all && NoDup(due)
        invariant forall j | j in due :: j in all && j !in left
        invariant forall j | j in all && j !in left :: j in due
        decreases |left|
      {
        var j :| j in left;
        due := due + [j];
        left := left - {j};
      }
    }

    /** Returns the jobs this call removed from the delayed set; the pass then holds them. */
    method PromoteDueDelayedJobs(a: AgentId) returns (promoted: seq<JobId>, ghost due: seq<JobId>)
      requires stores.Valid() && a !in stores.agents
      modifies stores
      ensures ListsDue(old(stores.delayed), due, old(stores.now))
      ensures |stores.trace| > |old(stores.trace)|
      ensures stores.trace[|old(stores.trace)|] == ListDue(a, id, due, old(stores.now))
      ensures stores.Valid() && Ran(old(stores.trace), stores.trace, a, id) && Stands(a, StartMoving(promoted))
      ensures stores.Own(a) == Then(old(stores.Own(a)) + [ListDue(a, id, due, old(stores.now))], Advance(a), |due|)
    {
      var now := stores.now;
      ghost var before := stores.View();
      var dueJobIds := DueJobs(now);
      due := dueJobIds;
      promoted := [];
      stores.Reach(a, id, StartRemoving(dueJobIds, []), before, ListDue(a, id, dueJobIds, now));
      for i := 0 to |dueJobIds|
        invariant |stores.trace| > |old(stores.trace)|
        invariant stores.trace[|old(stores.trace)|] == ListDue(a, id, due, old(stores.now))
        invariant stores.Valid() && Ran(old(stores.trace), stores.trace, a, id)
        invariant Stands(a, StartRemoving(dueJobIds[i..], promoted))
        invariant stores.Own(a) == Then(old(stores.Own(a)) + [ListDue(a, id, due, old(stores.now))], Advance(a), i)
      {
        promoted := RemoveOne(a, dueJobIds[i..], promoted);
        assert dueJobIds[i..][1..] == dueJobIds[i + 1..];
      }
    }

    method RemoveOne(a: AgentId, todo: seq<JobId>, promoted: seq<JobId>) returns (promoted': seq<JobId>)
      requires stores.Valid() && todo != [] && stores.At(a, id, Removing(todo, promoted))
      modifies stores
      ensures stores.Valid() && Ran(old(stores.trace), stores.trace, a, id)
      ensures stores.Own(a) == old(stores.Own(a)) + [Advance(a)]
      ensures Stands(a, StartRemoving(todo[1..], promoted'))
    {
      stores.Await(a);
      ghost var before := stores.View();
      var removed := stores.RemoveJobFromDelayedQueue(todo[0]);
      promoted' := if removed then promoted + [todo[0]] else promoted;
      stores.Reach(a, id, StartRemoving(todo[1..], promoted'), before, Advance(a));
    }

    /** One promotion pass: it lists all due jobs, tries to remove each, and loads, saves and pushes every
        one of them that it removed. */
    method PromoteReadyJobs(a: AgentId) returns (ghost due: seq<JobId>, promotedIds: seq<JobId>)
      requires stores.Valid() && a !in stores.agents
      modifies stores
      ensures ListsDue(old(stores.delayed), due, old(stores.now))
      ensures |stores.trace| > |old(stores.trace)|
      ensures stores.trace[|old(stores.trace)|] == ListDue(a, id, due, old(stores.now))
      ensures stores.Valid() && Ran(old(stores.trace), stores.trace, a, id) && a !in stores.agents
      ensures stores.Own(a) ==
              Then(old(stores.Own(a)) + [ListDue(a, id, due, old(stores.now))], Advance(a), |due| + 3 * |promotedIds|)
    {
      promotedIds, due := PromoteDueDelayedJobs(a);
      MoveAll(a, promotedIds, old(stores.Own(a)) + [ListDue(a, id, due, old(stores.now))], |due|);
    }

    method MoveAll(a: AgentId, ids: seq<JobId>, ghost own: seq<Step>, ghost n: nat)
      requires stores.Valid() && Stands(a, StartMoving(ids)) && stores.Own(a) == Then(own, Advance(a), n)
      modifies stores
      ensures stores.Valid() && Ran(old(stores.trace), stores.trace, a, id) && a !in stores.agents
      ensures stores.Own(a) == Then(own, Advance(a), n + 3 * |ids|)
    {
      for i := 0 to |ids|
        invariant stores.Valid() && Ran(old(stores.trace), stores.trace, a, id)
        invariant Stands(a, StartMoving(ids[i..])) && stores.Own(a) == Then(own, Advance(a), n + 3 * i)
      {
        ThenThree(own, Advance(a), n + 3 * i);
        MoveNext(a, ids[i..]);
        assert ids[i..][1..] == ids[i + 1..];
      }
    }

    method MoveNext(a: AgentId, ids: seq<JobId>)
      requires stores.Valid() && ids != [] && stores.At(a, id, Moving(ids))
      modifies stores
      ensures stores.Valid() && Ran(old(stores.trace), stores.trace, a, id) && Stands(a, StartMoving(ids[1..]))
      ensures stores.Own(a) == old(stores.Own(a)) + [Advance(a)] + [Advance(a)] + [Advance(a)]
    {
      var _, _, _ := MoveOne(a, ids);
    }

    /** The loop body: load, save as QUEUED, push under the document's priority and the time. */
    method MoveOne(a: AgentId, ids: seq<JobId>) returns (ghost write: nat, ghost snap: Doc, at: int)
      requires stores.Valid() && ids != [] && stores.At(a, id, Moving(ids))
      modifies stores
      ensures stores.Valid() && Ran(old(stores.trace), stores.trace, a, id) && Stands(a, StartMoving(ids[1..]))
      ensures stores.Own(a) == old(stores.Own(a)) + [Advance(a)] + [Advance(a)] + [Advance(a)]
      ensures |old(stores.trace)| <= write && PromotedAt(stores.trace, write, ids[0], id, snap, at)
      ensures ids[0] in stores.docs && ids[0] in stores.main
      ensures stores.main[ids[0]] == ComputeScore(stores.docs[ids[0]].priority, stores.now)
    {
      var job;
      job, at := LoadPromoted(a, ids);
      if job.Some? {
        snap := job.value;
        write := SavePromoted(a, ids, job.value, at);
        ghost var saved := stores.trace;
        PushPromoted(a, ids, job.value.priority);
        SameBefore(saved, stores.trace, write);
      }
    }

    method LoadPromoted(a: AgentId, ids: seq<JobId>) returns (job: Option<Doc>, at: int)
      requires stores.Valid() && ids != [] && stores.At(a, id, Moving(ids))
      modifies stores
      ensures stores.Valid() && Ran(old(stores.trace), stores.trace, a, id)
      ensures stores.Own(a) == old(stores.Own(a)) + [Advance(a)]
      ensures job.Some? && ids[0] in stores.docs && stores.At(a, id, MoveLoaded(ids, job.value, at))
      ensures job.value == stores.docs[ids[0]] && at == stores.now
    {
      stores.Await(a);
      ghost var before, sofar := stores.View(), stores.trace;
      job := stores.FindById(ids[0]);
      at := stores.now;
      var next := if job.Some? then Some(MoveLoaded(ids, job.value, at)) else StartMoving(ids[1..]);
      stores.Reach(a, id, next, before, Advance(a));
      TakenJobExists(sofar, a);
    }

    method SavePromoted(a: AgentId, ids: seq<JobId>, snap: Doc, at: int) returns (ghost write: nat)
      requires stores.Valid() && ids != [] && ids[0] in stores.docs && stores.At(a, id, MoveLoaded(ids, snap, at))
      modifies stores
      ensures stores.Valid() && Ran(old(stores.trace), stores.trace, a, id)
      ensures stores.At(a, id, MoveSaved(ids, snap.priority))
      ensures stores.Own(a) == old(stores.Own(a)) + [Advance(a)]
      ensures |old(stores.trace)| <= write < |stores.trace|
      ensures PromotedAt(stores.trace, write, ids[0], id, snap, at)
      ensures ids[0] in stores.docs && stores.docs[ids[0]].priority == old(stores.docs)[ids[0]].priority
    {
      var job := snap.(status := Queued);
      var entry := Entry(Queued, Some(id), Promoted, at);
      stores.Await(a);
      ghost var before := stores.View();
      write := |stores.trace|;
      var doc := stores.docs[ids[0]];
      PromotionKeepsPromise(doc, snap, id, at);
      doc := doc.(status := Saved(snap.status, job.status, doc.status), history := Push(doc.history, entry));
      stores.docs := stores.docs[ids[0] := doc];
      PromoteStep(before, a, id, ids, snap, at);
      stores.Reach(a, id, Some(MoveSaved(ids, snap.priority)), before, Advance(a));
    }

    method PushPromoted(a: AgentId, ids: seq<JobId>, priority: int)
      requires stores.Valid() && ids != [] && ids[0] in stores.docs && stores.At(a, id, MoveSaved(ids, priority))
      modifies stores
      ensures stores.Valid() && Ran(old(stores.trace), stores.trace, a, id) && Stands(a, StartMoving(ids[1..]))
      ensures stores.Own(a) == old(stores.Own(a)) + [Advance(a)]
      ensures ids[0] in stores.main && stores.main[ids[0]] == ComputeScore(priority, stores.now)
      ensures ids[0] in stores.docs && stores.docs[ids[0]].priority == old(stores.docs)[ids[0]].priority
    {
      stores.Await(a);
      ghost var before := stores.View();
      stores.PushJobToQueue(ids[0], priority);
      stores.Reach(a, id, StartMoving(ids[1..]), before, Advance(a));
    }
  }
}
