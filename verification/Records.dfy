/** What each operation promises to leave in a job's document, field by field; whatever is not named
    stays as it was. */
module Records {
  import opened Jobs

  /** A lane's claim: PROCESSING under its lock, one attempt more, the lock to outlast both 30 s and the
      job's own timeout with 5 s to spare. */
  predicate ClaimedDoc(d: Doc, d': Doc, w: WorkerId, at: int) {
    d' == d.(
      status := Processing,
      lockedBy := Some(w),
      lockExpiresAt := Some(at + if d.timeoutMs > 25000 then d.timeoutMs + 5000 else 30000),
      startedAt := Some(at),
      attempts := d.attempts + 1,
      history := d.history + [Entry(Processing, Some(w), Attempt(d.attempts + 1), at)])
  }

  /** A handler that resolved: its value is the result. */
  predicate CompletedDoc(d: Doc, d': Doc, w: WorkerId, value: string, at: int) {
    d' == d.(
      status := Completed,
      result := Some(value),
      completedAt := Some(at),
      lockedBy := None,
      lockExpiresAt := None,
      history := d.history + [Entry(Completed, Some(w), JobCompleted, at)])
  }

  /** A handler that resolved after a request to cancel: its value is dropped. */
  predicate HonoredDoc(d: Doc, d': Doc, w: WorkerId, at: int) {
    d' == d.(
      status := Cancelled,
      lockedBy := None,
      lockExpiresAt := None,
      history := d.history + [Entry(Cancelled, Some(w), CancellationHonored, at)])
  }

  /** Some attempt of `job` is left, and nothing says that another is pointless. */
  predicate Retryable(job: Doc, err: Error) {
    job.attempts < job.maxAttempts && err.flag != No
  }

  /** A failed attempt of `job`: the message of its error, and RETRYING or DEAD_LETTER with the reason. */
  predicate FailedDoc(d: Doc, d': Doc, w: WorkerId, job: Doc, err: Error, at: int) {
    d' == d.(
      status := if Retryable(job, err) then Retrying else DeadLetter,
      error := Some(err.message),
      lockedBy := None,
      lockExpiresAt := None,
      history := d.history + [Entry(
        if Retryable(job, err) then Retrying else DeadLetter,
        Some(w),
        if err.flag == No then NonRetryable(job.attempts, job.maxAttempts)
        else if job.attempts < job.maxAttempts
          then RetryingIn(job.attempts, job.maxAttempts, ComputeBackoffMs(job.attempts))
        else Exhausted(job.attempts, job.maxAttempts),
        at)])
  }

  /** The fields of an update, the lock off, and one entry more. */
  predicate UpdatedDoc(d: Doc, d': Doc, update: Update, entry: Entry) {
    var rest := d.(lockedBy := None, lockExpiresAt := None, history := d.history + [entry]);
    match update
    case Complete(value, at) => d' == rest.(status := Completed, result := Some(value), completedAt := Some(at))
    case HonorCancellation => d' == rest.(status := Cancelled)
    case Fail(status, message) => d' == rest.(status := status, error := Some(message))
  }

  /** A promotion: QUEUED, unless it already was when it was loaded; then a status written since, such as
      CANCELLED, stays. */
  predicate PromotedDoc(d: Doc, d': Doc, snap: Doc, w: WorkerId, at: int) {
    d' == d.(
      status := if snap.status == Queued then d.status else Queued,
      history := d.history + [Entry(Queued, Some(w), Promoted, at)])
  }

  /** A cancel of a job found QUEUED or RETRYING, whatever it is by now. */
  predicate CancelledDoc(d: Doc, d': Doc, at: int) {
    d' == d.(status := Cancelled, history := d.history + [Entry(Cancelled, None, CancelledByUser, at)])
  }

  /** A cancel of a job found PROCESSING. */
  predicate RequestedDoc(d: Doc, d': Doc, at: int) {
    d' == d.(
      cancellationRequested := true,
      history := d.history + [Entry(Processing, None, CancellationRequested, at)])
  }

  /** What the client asked for, and for the rest the defaults: priority 5, three attempts, and a timeout
      of 30 s, or 60 s for AI jobs. */
  predicate Ordered(d: Doc, req: Request) {
    && d.idempotencyKey == req.idempotencyKey
    && d.priority == (if req.priority.Some? then req.priority.value else 5)
    && d.maxAttempts == (if req.maxAttempts.Some? then req.maxAttempts.value else 3)
    && d.timeoutMs == (
         if req.timeoutMs.Some? then req.timeoutMs.value else if "ai-" <= req.jobType then 60000 else 30000)
  }

  /** A new document: nothing has happened yet, and its creation is in the history. */
  predicate NewlyMade(d: Doc, req: Request, scheduled: Option<int>, now: int) {
    && Ordered(d, req) && d.scheduledFor == scheduled
    && d.status == Queued && d.attempts == 0 && d.lockedBy == None && d.lockExpiresAt == None
    && !d.cancellationRequested && d.result == None && d.error == None && d.startedAt == None && d.completedAt == None
    && d.history == [Entry(Queued, None, if scheduled.Some? then ScheduledAt(scheduled.value) else Created, now)]
  }

  // -------------------------------------------------------------------------
  // The writes keep these promises
  // -------------------------------------------------------------------------

  lemma ClaimKeepsPromise(d: Doc, snap: Doc, w: WorkerId, at: int)
    requires snap.status != Processing && snap.lockedBy == None && snap.lockExpiresAt == None
    requires snap.attempts == d.attempts && snap.startedAt == d.startedAt && snap.timeoutMs == d.timeoutMs
    ensures ClaimedDoc(d, ClaimWrite(d, snap, w, at), w, at)
  {
  }

  lemma CompletionKeepsPromise(d: Doc, value: string, w: WorkerId, at: int)
    ensures var entry := Entry(Completed, Some(w), JobCompleted, at);
            CompletedDoc(d, FinalizeWrite(d, Complete(value, at), entry), w, value, at)
    ensures var entry := Entry(Cancelled, Some(w), CancellationHonored, at);
            HonoredDoc(d, FinalizeWrite(d, HonorCancellation, entry), w, at)
  {
  }

  lemma FailureKeepsPromise(d: Doc, job: Doc, err: Error, w: WorkerId, at: int)
    ensures var verdict := Decide(job, err, at);
            && FailedDoc(d, FinalizeWrite(d, VerdictUpdate(verdict), VerdictEntry(verdict, w, at)), w, job, err, at)
            && (verdict.Reschedule? <==> Retryable(job, err))
            && (verdict.Reschedule? ==> verdict.readyAt == at + ComputeBackoffMs(job.attempts))
  {
  }

  lemma ApiKeepsPromise(d: Doc, snap: Doc, at: int)
    ensures snap.status != Cancelled ==> CancelledDoc(d, CancelWrite(d, snap, at), at)
    ensures snap.status == Processing && (snap.cancellationRequested ==> d.cancellationRequested) ==>
              RequestedDoc(d, FlagWrite(d, snap, at), at)
  {
  }

  lemma PromotionKeepsPromise(d: Doc, snap: Doc, w: WorkerId, at: int)
    ensures PromotedDoc(d, PromoteWrite(d, snap, w, at), snap, w, at)
  {
  }

  lemma CreationKeepsPromise(req: Request, scheduled: Option<int>, now: int)
    ensures NewlyMade(NewDoc(req, scheduled, now), req, scheduled, now)
  {
  }
}
