/** The API side, written as in src/modules/jobs/jobs.controller.js, with the other activities free
    to act during every await. */
module Controller {
  import opened Jobs
  import opened Queue
  import opened Protocol
  import opened Cluster
  import opened Records
  import opened Endings

  datatype SubmitReply =
    | Missing
    | AlreadySubmitted(jobId: JobId)
    | DuplicateKey
    | Accepted(jobId: JobId, scheduled: bool)

  datatype CancelReply = NotFound | Conflict(status: Status) | CancelledNow | Requested

  class Api {
    const proc: WorkerId
    const stores: Stores

    constructor (proc: WorkerId, stores: Stores)
      ensures this.proc == proc && this.stores == stores
    {
      this.proc, this.stores := proc, stores;
    }

    /** Job.findOne by idempotency key. */
    method FindByKey(key: string) returns (existing: Option<JobId>)
      ensures existing.Some? <==> KeyTaken(stores.docs, key)
      ensures existing.Some? ==> existing.value in stores.docs && stores.docs[existing.value].idempotencyKey == key
    {
      if j :| j in stores.docs && stores.docs[j].idempotencyKey == key {
        existing := Some(j);
      } else {
        existing := None;
      }
    }

    /** An object id nobody has used. */
    method FreshObjectId() returns (jobId: JobId)
      ensures jobId !in stores.docs
    {
      jobId := 0;
      var left := stores.docs.Keys;
      while left != {}
        invariant forall j | j in stores.docs && j !in left :: j < jobId
        decreases |left|
      {
        var j :| j in left;
        left := left - {j};
        jobId := if j < jobId then jobId else j + 1;
      }
    }

    /** submitJob. Only a reply of Accepted stands for a new document, and it is pushed before the reply;
        the two replies about a taken key come with the key taken. */
    method SubmitJob(a: AgentId, req: Request) returns (reply: SubmitReply, ghost id: JobId)
      requires stores.Valid() && a !in stores.agents
      modifies stores
      ensures stores.Valid() && Ran(old(stores.trace), stores.trace, a, proc) && a !in stores.agents
      ensures reply.Missing? <==> req.jobType == "" || req.idempotencyKey == ""
      ensures reply.AlreadySubmitted? <==>
                && req.jobType != "" && req.idempotencyKey != ""
                && exists j | j in old(stores.docs) :: old(stores.docs)[j].idempotencyKey == req.idempotencyKey
      ensures reply.AlreadySubmitted? ==>
                reply.jobId in stores.docs && stores.docs[reply.jobId].idempotencyKey == req.idempotencyKey
      ensures reply.Missing? || reply.AlreadySubmitted? ==>
                stores.View() == old(stores.View()) && stores.trace == old(stores.trace)
      ensures var creation := old(stores.Own(a)) + [Lookup(a, proc, req)] + [Insert(a, id)];
              && (reply.DuplicateKey? ==> stores.Own(a) == creation)
              && (reply.Accepted? ==> reply.jobId == id && stores.Own(a) == creation + [Advance(a)])
      ensures reply.Accepted? || reply.DuplicateKey? ==> KeyTaken(stores.docs, req.idempotencyKey)
      ensures reply.Accepted? ==> reply.jobId in stores.docs && reply.jobId !in old(stores.docs)
      ensures reply.Accepted? ==>
                (reply.scheduled <==> req.scheduledFor.Some? && req.scheduledFor.value > old(stores.now))
      ensures reply.Accepted? ==>
                && Ordered(stores.docs[reply.jobId], req)
                && stores.docs[reply.jobId].scheduledFor == if reply.scheduled then req.scheduledFor else None
      ensures reply.Accepted? ==>
                if reply.scheduled
                then reply.jobId in stores.delayed && stores.delayed[reply.jobId] == req.scheduledFor.value
                else
                  && reply.jobId in stores.main
                  && stores.main[reply.jobId] == ComputeScore(stores.docs[reply.jobId].priority, stores.now)
    {
      if !WellFormed(req) {
        return Missing, 0;
      }
      var existing := FindByKey(req.idempotencyKey);
      if existing.Some? {
        return AlreadySubmitted(existing.value), 0;
      }
      ghost var before := stores.View();
      var scheduled := FutureSchedule(req, stores.now);
      stores.Reach(a, proc, Some(Submitting(req, scheduled)), before, Lookup(a, proc, req));
      reply, id := Create(a, req, scheduled);
      if reply.Accepted? {
        Enqueue(a, reply.jobId, OrElse(req.priority, 5), scheduled);
      }
    }

    /** Job.create, under the unique index on the key. */
    method Create(a: AgentId, req: Request, scheduled: Option<int>) returns (reply: SubmitReply, ghost id: JobId)
      requires stores.Valid() && stores.At(a, proc, Submitting(req, scheduled))
      modifies stores
      ensures stores.Valid() && Ran(old(stores.trace), stores.trace, a, proc)
      ensures stores.Own(a) == old(stores.Own(a)) + [Insert(a, id)] && (reply.Accepted? ==> reply.jobId == id)
      ensures reply.Accepted? || reply.DuplicateKey?
      ensures KeyTaken(stores.docs, req.idempotencyKey)
      ensures reply.Accepted? ==> reply.jobId !in old(stores.docs) && reply.scheduled == scheduled.Some?
      ensures reply.Accepted? ==>
                reply.jobId in stores.docs && stores.docs[reply.jobId].idempotencyKey == req.idempotencyKey
      ensures reply.Accepted? ==> NewlyMade(stores.docs[reply.jobId], req, scheduled, stores.now)
      ensures if reply.Accepted? then stores.At(a, proc, Submitted(reply.jobId, OrElse(req.priority, 5), scheduled))
              else a !in stores.agents
    {
      stores.Await(a);
      ghost var before := stores.View();
      var jobId := FreshObjectId();
      id := jobId;
      var existing := FindByKey(req.idempotencyKey);
      if existing.Some? {
        stores.Reach(a, proc, None, before, Insert(a, jobId));
        return DuplicateKey, id;
      }
      var doc := NewDoc(req, scheduled, stores.now);
      stores.docs := stores.docs[jobId := doc];
      stores.Reach(a, proc, Some(Submitted(jobId, doc.priority, scheduled)), before, Insert(a, jobId));
      CreationKeepsPromise(req, scheduled, stores.now);
      assert stores.docs[jobId].idempotencyKey == req.idempotencyKey;
      reply := Accepted(jobId, scheduled.Some?);
    }

    method Enqueue(a: AgentId, jobId: JobId, priority: int, scheduled: Option<int>)
      requires stores.Valid() && stores.At(a, proc, Submitted(jobId, priority, scheduled))
      modifies stores
      ensures stores.Valid() && Ran(old(stores.trace), stores.trace, a, proc) && a !in stores.agents
      ensures stores.Own(a) == old(stores.Own(a)) + [Advance(a)]
      ensures if scheduled.Some? then jobId in stores.delayed && stores.delayed[jobId] == scheduled.value
              else jobId in stores.main && stores.main[jobId] == ComputeScore(priority, stores.now)
      ensures Keeps(old(stores.docs), stores.docs)
    {
      stores.Await(a);
      ghost var before := stores.View();
      if scheduled.Some? {
        stores.PushToDelayedQueue(jobId, scheduled.value);
      } else {
        stores.PushJobToQueue(jobId, priority);
      }
      stores.Reach(a, proc, None, before, Advance(a));
    }

    // -----------------------------------------------------------------------
    // cancelJob
    // -----------------------------------------------------------------------

    /** cancelJob decides on the status it loaded: at once, by request, or not at all. */
    method CancelJob(a: AgentId, jobId: JobId) returns (reply: CancelReply)
      requires stores.Valid() && a !in stores.agents
      modifies stores
      ensures stores.Valid() && Ran(old(stores.trace), stores.trace, a, proc) && a !in stores.agents
      ensures reply.NotFound? <==> jobId !in old(stores.docs)
      ensures jobId in old(stores.docs) ==>
                match old(stores.docs)[jobId].status
                case Queued => reply.CancelledNow?
                case Retrying => reply.CancelledNow?
                case Processing => reply.Requested?
                case other => reply == Conflict(other)
      ensures reply.NotFound? || reply.Conflict? ==> stores.View() == old(stores.View())
      ensures reply.CancelledNow? ==> jobId in stores.docs && stores.docs[jobId].status == Cancelled
      ensures reply.Requested? ==> jobId in stores.docs && stores.docs[jobId].cancellationRequested
      ensures reply.CancelledNow? ==>
                stores.Own(a)
                == old(stores.Own(a)) + [BeginCancel(a, proc, jobId)] + [Advance(a)] + [Advance(a)] + [Advance(a)]
      ensures reply.Requested? ==> stores.Own(a) == old(stores.Own(a)) + [BeginCancel(a, proc, jobId)] + [Advance(a)]
      ensures reply.CancelledNow? || reply.Requested? ==>
                |stores.trace| > |old(stores.trace)| && stores.trace[|old(stores.trace)|] == BeginCancel(a, proc, jobId)
    {
      ghost var before := stores.View();
      var found := stores.FindById(jobId);
      if found.None? {
        return NotFound;
      }
      var job := found.value;
      if Terminal(job.status) {
        return Conflict(job.status);
      }
      if job.status == Queued || job.status == Retrying {
        stores.Reach(a, proc, Some(CancelMain(jobId, job)), before, BeginCancel(a, proc, jobId));
        var at := CancelAtOnce(a, jobId, job);
        return CancelledNow;
      }
      stores.Reach(a, proc, Some(CancelFlag(jobId, job, stores.now)), before, BeginCancel(a, proc, jobId));
      RequestCancel(a, jobId, job, stores.now);
      reply := Requested;
    }

    /** Both ZREMs, their replies unread, then the save. */
    method CancelAtOnce(a: AgentId, jobId: JobId, job: Doc) returns (at: int)
      requires stores.Valid() && stores.At(a, proc, CancelMain(jobId, job)) && jobId in stores.docs
      modifies stores
      ensures stores.Valid() && Ran(old(stores.trace), stores.trace, a, proc) && a !in stores.agents
      ensures stores.Own(a) == old(stores.Own(a)) + [Advance(a)] + [Advance(a)] + [Advance(a)]
      ensures |stores.trace| > 0 && jobId in DocsAt(stores.trace, |stores.trace| - 1) && jobId in stores.docs
      ensures CancelledDoc(DocsAt(stores.trace, |stores.trace| - 1)[jobId], stores.docs[jobId], at)
    {
      var removed := RemoveFromMain(a, jobId, job);
      removed, at := RemoveFromDelayed(a, jobId, job, removed);
      var cancelled := job.(status := Cancelled);
      stores.Await(a);
      ghost var before := stores.View();
      CancelSaves(stores.trace, a);
      var doc := stores.docs[jobId];
      doc := doc.(
        status := Saved(job.status, cancelled.status, doc.status),
        history := Push(doc.history, Entry(Cancelled, None, CancelledByUser, at)));
      stores.docs := stores.docs[jobId := doc];
      stores.Reach(a, proc, None, before, Advance(a));
    }

    method RemoveFromMain(a: AgentId, jobId: JobId, job: Doc) returns (removed: bool)
      requires stores.Valid() && stores.At(a, proc, CancelMain(jobId, job)) && jobId in stores.docs
      modifies stores
      ensures stores.Valid() && Ran(old(stores.trace), stores.trace, a, proc)
      ensures stores.Own(a) == old(stores.Own(a)) + [Advance(a)]
      ensures stores.At(a, proc, CancelDelayed(jobId, job, removed)) && jobId in stores.docs
    {
      stores.Await(a);
      ghost var before := stores.View();
      removed := stores.RemoveJobFromQueue(jobId);
      stores.Reach(a, proc, Some(CancelDelayed(jobId, job, removed)), before, Advance(a));
    }

    method RemoveFromDelayed(a: AgentId, jobId: JobId, job: Doc, fromMain: bool) returns (removed: bool, at: int)
      requires stores.Valid() && stores.At(a, proc, CancelDelayed(jobId, job, fromMain)) && jobId in stores.docs
      modifies stores
      ensures stores.Valid() && Ran(old(stores.trace), stores.trace, a, proc)
      ensures stores.Own(a) == old(stores.Own(a)) + [Advance(a)]
      ensures stores.At(a, proc, CancelSave(jobId, job, removed, at)) && jobId in stores.docs
    {
      stores.Await(a);
      ghost var before := stores.View();
      removed := stores.RemoveJobFromDelayedQueue(jobId);
      removed, at := fromMain || removed, stores.now;
      stores.Reach(a, proc, Some(CancelSave(jobId, job, removed, at)), before, Advance(a));
    }

    method RequestCancel(a: AgentId, jobId: JobId, job: Doc, at: int)
      requires stores.Valid() && stores.At(a, proc, CancelFlag(jobId, job, at)) && jobId in stores.docs
      modifies stores
      ensures stores.Valid() && Ran(old(stores.trace), stores.trace, a, proc) && a !in stores.agents
      ensures stores.Own(a) == old(stores.Own(a)) + [Advance(a)]
      ensures |stores.trace| > 0 && jobId in DocsAt(stores.trace, |stores.trace| - 1) && jobId in stores.docs
      ensures RequestedDoc(DocsAt(stores.trace, |stores.trace| - 1)[jobId], stores.docs[jobId], at)
    {
      var requested := job.(cancellationRequested := true);
      stores.Await(a);
      ghost var before := stores.View();
      CancelSaves(stores.trace, a);
      var doc := stores.docs[jobId];
      doc := doc.(
        cancellationRequested := Saved(job.cancellationRequested, requested.cancellationRequested,
                                       doc.cancellationRequested),
        history := Push(doc.history, Entry(job.status, None, CancellationRequested, at)));
      stores.docs := stores.docs[jobId := doc];
      stores.Reach(a, proc, None, before, Advance(a));
    }
  }
}
