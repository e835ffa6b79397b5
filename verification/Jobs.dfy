/** Job documents and the pure decisions the worker takes about them
    (src/models/job.model.js, the constants and handleFailure of src/worker/worker.js). */
module Jobs {

  datatype Option<+T> = None | Some(value: T)

  // Job ids are fixed-width hexadecimal strings, so Redis orders them as it would order numbers.
  type JobId = nat

  // One id per operating-system process: the fence is a process id, not a claim id.
  type WorkerId = nat

  const BASE_DELAY_MS := 2000
  const MAX_DELAY_MS := 60000
  const LOCK_TTL_MS := 30000
  const LOCK_BUFFER_MS := 5000

  datatype Status = Queued | Processing | Completed | Failed | Retrying | DeadLetter | Cancelled

  /** An error's `retryable` property: absent, true or false. */
  datatype Flag = Unset | Yes | No

  /** What an error says: the handler's own text, or one of the worker's two messages. */
  datatype Message = Text(text: string) | TimedOutAfter(timeoutMs: nat) | LockExpired(owner: Option<WorkerId>)

  datatype Error = Error(flag: Flag, message: Message)

  /** The notes of history entries, with the numbers they quote. */
  datatype Note =
    | Created
    | ScheduledAt(time: int)
    | Attempt(attempt: nat)
    | NonRetryable(attempt: nat, maxAttempts: int)
    | Exhausted(attempt: nat, maxAttempts: int)
    | RetryingIn(attempt: nat, maxAttempts: int, backoffMs: int)
    | JobCompleted
    | CancellationHonored
    | Promoted
    | CancelledByUser
    | CancellationRequested

  datatype Entry = Entry(status: Status, workerId: Option<WorkerId>, note: Note, timestamp: int)

  datatype Doc = Doc(
    status: Status,
    priority: int,
    attempts: nat,
    maxAttempts: int,
    timeoutMs: nat,
    idempotencyKey: string,
    lockedBy: Option<WorkerId>,
    lockExpiresAt: Option<int>,
    scheduledFor: Option<int>,
    cancellationRequested: bool,
    result: Option<string>,
    error: Option<Message>,
    startedAt: Option<int>,
    completedAt: Option<int>,
    history: seq<Entry>)

  function Max(a: int, b: int): int {
    if a >= b then a else b
  }

  function Min(a: int, b: int): int {
    if a <= b then a else b
  }

  function Pow2(n: nat): nat {
    if n == 0 then 1 else 2 * Pow2(n - 1)
  }

  predicate Terminal(status: Status) {
    status in {Completed, Failed, DeadLetter, Cancelled}
  }

  // -------------------------------------------------------------------------
  // What a history says
  // -------------------------------------------------------------------------

  /** Where a job stands according to its worker-written history entries. `Corrupt` is the
      state of a history no correct run can write. */
  datatype Phase = Unborn | Fresh | Ready | Running | Waiting | Done | Corrupt

  function NextPhase(p: Phase, e: Entry): Phase {
    if e.workerId.None? then
      if p != Unborn then p else if e.status == Queued then Fresh else Corrupt
    else match (p, e.status)
      case (Fresh, Queued) => Ready
      case (Fresh, Processing) => Running
      case (Ready, Processing) => Running
      case (Running, Retrying) => Waiting
      case (Running, Completed) => Done
      case (Running, DeadLetter) => Done
      case (Running, Cancelled) => Done
      case (Waiting, Queued) => Ready
      case _ => Corrupt
  }

  function PhaseOf(h: seq<Entry>): Phase {
    if h == [] then Unborn else NextPhase(PhaseOf(h[..|h| - 1]), h[|h| - 1])
  }

  predicate IsClaim(e: Entry) {
    e.workerId.Some? && e.status == Processing
  }

  function Claims(h: seq<Entry>): nat {
    if h == [] then 0 else Claims(h[..|h| - 1]) + if IsClaim(h[|h| - 1]) then 1 else 0
  }

  function LastClaimAt(h: seq<Entry>): int {
    if h == [] then 0
    else if IsClaim(h[|h| - 1]) then h[|h| - 1].timestamp
    else LastClaimAt(h[..|h| - 1])
  }

  function WorkerEntries(h: seq<Entry>): seq<Entry> {
    if h == [] then []
    else WorkerEntries(h[..|h| - 1]) + if h[|h| - 1].workerId.Some? then [h[|h| - 1]] else []
  }

  /** Some entry says the job was buried because its attempts were exhausted. */
  predicate SaysExhausted(h: seq<Entry>) {
    h != [] && (SaysExhausted(h[..|h| - 1]) || h[|h| - 1].note.Exhausted?)
  }

  /** Appending one entry, with what it does to every reading of the history. */
  function Push(h: seq<Entry>, e: Entry): (r: seq<Entry>)
    ensures |r| == |h| + 1 && r[..|h|] == h && r[|h|] == e
    ensures PhaseOf(r) == NextPhase(PhaseOf(h), e)
    ensures Claims(r) == Claims(h) + if IsClaim(e) then 1 else 0
    ensures LastClaimAt(r) == if IsClaim(e) then e.timestamp else LastClaimAt(h)
    ensures SaysExhausted(r) == (SaysExhausted(h) || e.note.Exhausted?)
    ensures WorkerEntries(r) == WorkerEntries(h) + if e.workerId.Some? then [e] else []
  {
    var r := h + [e];
    assert r[..|r| - 1] == h;
    r
  }

  // -------------------------------------------------------------------------
  // Decisions
  // -------------------------------------------------------------------------

  // `attempts` has been incremented before this runs, so the exponent is not negative except
  // for attempts == 0, where 2 to the power -1 halves the base delay.
  function ComputeBackoffMs(attempts: nat): (r: int)
    ensures 2 * r == Min(2000 * Pow2(attempts), 120000)
  {
    if attempts == 0 then BASE_DELAY_MS / 2
    else Min(BASE_DELAY_MS * Pow2(attempts - 1), MAX_DELAY_MS)
  }

  function LockDuration(timeoutMs: nat): int {
    Max(LOCK_TTL_MS, timeoutMs + LOCK_BUFFER_MS)
  }

  datatype Verdict =
    | Bury(note: Note, message: Message)
    | Reschedule(readyAt: int, note: Note, message: Message)

  /** The decision of handleFailure, taken before any awaited operation. */
  function Decide(job: Doc, err: Error, now: int): Verdict {
    var exhausted := job.attempts >= job.maxAttempts;
    var nonRetryable := err.flag == No;
    if exhausted || nonRetryable then
      Bury(
        if nonRetryable then NonRetryable(job.attempts, job.maxAttempts)
        else Exhausted(job.attempts, job.maxAttempts),
        err.message)
    else
      var backoffMs := ComputeBackoffMs(job.attempts);
      Reschedule(now + backoffMs, RetryingIn(job.attempts, job.maxAttempts, backoffMs), err.message)
  }

  // -------------------------------------------------------------------------
  // Writes
  // -------------------------------------------------------------------------

  /** mongoose `save()` writes a path only if its current value differs from the one loaded. */
  function Saved<T(==)>(loaded: T, current: T, stored: T): T {
    if current == loaded then stored else current
  }

  /** The `$set` part of a finalizing write. */
  datatype Update =
    | Complete(value: string, at: int)
    | HonorCancellation
    | Fail(status: Status, message: Message)

  function ApplyUpdate(d: Doc, u: Update): Doc {
    var unlocked := d.(lockedBy := None, lockExpiresAt := None);
    match u
    case Complete(value, at) => unlocked.(status := Completed, result := Some(value), completedAt := Some(at))
    case HonorCancellation => unlocked.(status := Cancelled)
    case Fail(status, message) => unlocked.(status := status, error := Some(message))
  }

  function FinalizeWrite(d: Doc, u: Update, e: Entry): Doc {
    ApplyUpdate(d, u).(history := Push(d.history, e))
  }

  /** The update and history entry a verdict asks for. */
  function VerdictUpdate(v: Verdict): Update {
    match v
    case Bury(_, message) => Fail(DeadLetter, message)
    case Reschedule(_, _, message) => Fail(Retrying, message)
  }

  function VerdictEntry(v: Verdict, w: WorkerId, at: int): Entry {
    match v
    case Bury(note, _) => Entry(DeadLetter, Some(w), note, at)
    case Reschedule(_, note, _) => Entry(Retrying, Some(w), note, at)
  }

  /** The in-memory job object once processJob has assigned its claim. */
  function ClaimedCopy(snap: Doc, w: WorkerId, at: int): Doc {
    snap.(
      status := Processing,
      lockedBy := Some(w),
      lockExpiresAt := Some(at + LockDuration(snap.timeoutMs)),
      startedAt := Some(at),
      attempts := snap.attempts + 1)
  }

  function ClaimWrite(d: Doc, snap: Doc, w: WorkerId, at: int): Doc {
    var mem := ClaimedCopy(snap, w, at);
    d.(
      status := Saved(snap.status, mem.status, d.status),
      lockedBy := Saved(snap.lockedBy, mem.lockedBy, d.lockedBy),
      lockExpiresAt := Saved(snap.lockExpiresAt, mem.lockExpiresAt, d.lockExpiresAt),
      startedAt := Saved(snap.startedAt, mem.startedAt, d.startedAt),
      attempts := Saved(snap.attempts, mem.attempts, d.attempts),
      history := Push(d.history, Entry(Processing, Some(w), Attempt(mem.attempts), at)))
  }

  function PromoteWrite(d: Doc, snap: Doc, w: WorkerId, at: int): Doc {
    d.(
      status := Saved(snap.status, Queued, d.status),
      history := Push(d.history, Entry(Queued, Some(w), Promoted, at)))
  }

  function CancelWrite(d: Doc, snap: Doc, at: int): Doc {
    d.(
      status := Saved(snap.status, Cancelled, d.status),
      history := Push(d.history, Entry(Cancelled, None, CancelledByUser, at)))
  }

  function FlagWrite(d: Doc, snap: Doc, at: int): Doc {
    d.(
      cancellationRequested := Saved(snap.cancellationRequested, true, d.cancellationRequested),
      history := Push(d.history, Entry(snap.status, None, CancellationRequested, at)))
  }

  // -------------------------------------------------------------------------
  // Submission
  // -------------------------------------------------------------------------

  datatype Request = Request(
    jobType: string,
    idempotencyKey: string,
    priority: Option<int>,
    maxAttempts: Option<int>,
    timeoutMs: Option<nat>,
    scheduledFor: Option<int>)

  predicate WellFormed(req: Request) {
    req.jobType != "" && req.idempotencyKey != ""
  }

  function OrElse<T>(o: Option<T>, default: T): T {
    if o.Some? then o.value else default
  }

  /** A schedule counts only if it lies in the future. */
  function FutureSchedule(req: Request, now: int): (r: Option<int>)
    ensures r.Some? <==> req.scheduledFor.Some? && req.scheduledFor.value > now
    ensures r.Some? ==> r == req.scheduledFor
  {
    if req.scheduledFor.Some? && req.scheduledFor.value > now then req.scheduledFor else None
  }

  function NewDoc(req: Request, scheduled: Option<int>, now: int): Doc {
    Doc(
      Queued,
      OrElse(req.priority, 5),
      0,
      OrElse(req.maxAttempts, 3),
      OrElse(req.timeoutMs, if "ai-" <= req.jobType then 60000 else 30000),
      req.idempotencyKey,
      None,
      None,
      scheduled,
      false,
      None,
      None,
      None,
      None,
      Push([], Entry(Queued, None, if scheduled.Some? then ScheduledAt(scheduled.value) else Created, now)))
  }
}
