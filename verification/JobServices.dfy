/** `JobService`, `JobProcessorService` and the queue consumer, each use case run to its end. */
module JobServices {
  import opened Domain
  import opened JobRules
  import opened Tables
  import opened UseCases
  import opened Stores
  import opened Paging
  import Protocol

  datatype JobError = JobNotFound | NotFailed | BudgetSpent

  datatype JobResult = Accepted(id: JobId, job: JobRow) | Rejected(error: JobError)

  /** An absent status admits every row. */
  function Selected(status: Option<JobStatus>, others: JobRow -> bool): JobRow -> bool {
    (row: JobRow) => (status.Some? ==> row.status == status.value) && others(row)
  }

  /** What a page of jobs and its total say about the table. */
  lemma {:induction false} ListingTells(status: Option<JobStatus>, others: JobRow -> bool, page: nat, limit: nat,
                                        ordered: seq<JobRow>, jobs: seq<JobRow>)
    requires page >= 1 && limit >= 1 && multiset(ordered) == multiset(jobs)
    ensures var r := Listed(ordered, Selected(status, others), page, limit);
      && (forall item :: item in r.items ==>
            item in jobs && (status.Some? ==> item.status == status.value) && others(item))
      && r.meta.total
         == |set k: nat | k < |jobs| && (status.Some? ==> jobs[k].status == status.value) && others(jobs[k])|
  {
    var wanted := Selected(status, others);
    PageMatches(ordered, wanted, page, limit);
    MatchingIgnoresOrder(jobs, ordered, wanted);
    MatchingCounts(jobs, wanted,
                   set k: nat | k < |jobs| && (status.Some? ==> jobs[k].status == status.value) && others(jobs[k]));
    forall item | item in ordered ensures item in jobs { assert item in multiset(ordered); }
  }

  /** Reading every page shows each job with the wanted status as often as the table holds it, and no other. */
  lemma {:induction false} PagesShowTheWantedJobs(status: Option<JobStatus>, others: JobRow -> bool, limit: nat,
                                                  ordered: seq<JobRow>, jobs: seq<JobRow>, job: JobRow)
    requires limit >= 1 && multiset(ordered) == multiset(jobs)
    ensures var pages := Listed(ordered, Selected(status, others), 1, limit).meta.totalPages;
      && pages >= 1
      && multiset(Walk(ordered, Selected(status, others), pages, limit))[job]
         == if (status.Some? ==> job.status == status.value) && others(job) then multiset(jobs)[job] else 0
  {
    var wanted := Selected(status, others);
    var pages := TotalPages(|Matching(ordered, wanted)|, limit);
    PagesPartition(Matching(ordered, wanted), limit);
    WalkIsPages(ordered, wanted, pages, limit);
    MatchingKeeps(ordered, wanted, job);
  }

  class JobService {
    const db: Database
    const bus: RabbitMqService
    const audit: AuditService
    const notifications: NotificationService

    constructor (db: Database, bus: RabbitMqService)
      ensures this.db == db && this.bus == bus && audit.db == db && notifications.db == db
    {
      this.db, this.bus := db, bus;
      audit := new AuditService(db);
      notifications := new NotificationService(db);
    }

    predicate Wired()
      reads this
    {
      audit.db == db && notifications.db == db
    }

    method Create(payload: Payload, maxAttempts: Attempts, operator: OperatorId) returns (id: JobId)
      requires Wired() && bus.connected
      modifies db, bus
      ensures id == |old(db.jobs)| && bus.connected
      ensures db.Contents() == AfterCreateJob(old(db.Contents()), payload, maxAttempts, operator)
      ensures bus.queue == old(bus.queue) + multiset{Message(Some(id), Some("created"), Some(operator))}
      ensures bus.events == old(bus.events) + CreateJobEvents(old(db.Contents()))
    {
      id := |db.jobs|;
      var job := JobRow(payload, maxAttempts, Queued, 0, None, None, None);
      db.jobs := db.jobs + [job];
      db.actions := db.actions + [OperatorAction(operator, CreateJobCommand, id)];
      audit.Log(Some(operator), JobCreated(id, job.maxAttempts));
      var note := notifications.Create(JobNotification(id));
      var _ := bus.PublishToQueue(Message(Some(id), Some("created"), Some(operator)));
      var _ := bus.PublishEvent(JobCreatedEvent(id, false));
      var _ := bus.PublishEvent(NotificationCreatedEvent(note));
    }

    /**
     `ordered` is the jobs table in the requested order; `others` stands for
     the type and search filters, on columns the model leaves out.
     */
    method List(status: Option<JobStatus>, others: JobRow -> bool, page: nat, limit: nat, ordered: seq<JobRow>)
      returns (r: PaginatedResult<JobRow>)
      requires page >= 1 && limit >= 1 && multiset(ordered) == multiset(db.jobs)
      ensures r == Listed(ordered, Selected(status, others), page, limit)
      ensures r.meta.page == page && r.meta.limit == limit
      ensures forall item :: item in r.items ==>
        item in db.jobs && (status.Some? ==> item.status == status.value) && others(item)
      ensures r.meta.total == |set k: nat | k < |db.jobs|
                                       && (status.Some? ==> db.jobs[k].status == status.value) && others(db.jobs[k])|
    {
      var clause := others;
      if status.Some? {
        clause := (row: JobRow) => row.status == status.value && others(row);
      }
      var found := Matching(ordered, clause);
      var items, total := Page(found, page, limit), |found|;
      r := PaginatedResult(items, PageMeta(page, limit, total, TotalPages(total, limit)));
      MatchingAgrees(ordered, clause, Selected(status, others));
      ListingTells(status, others, page, limit, ordered, db.jobs);
    }

    method GetById(id: JobId) returns (r: JobResult)
      ensures r == if id < |db.jobs| then Accepted(id, db.jobs[id]) else Rejected(JobNotFound)
    {
      if id < |db.jobs| { r := Accepted(id, db.jobs[id]); } else { r := Rejected(JobNotFound); }
    }

    method Retry(id: JobId, operator: OperatorId) returns (r: JobResult)
      requires Wired() && bus.connected
      modifies db, bus
      ensures bus.connected
      ensures r.Accepted? <==> RetryAccepted(old(db.Contents()), id)
      ensures r.Accepted? ==> r.id == id && id < |db.jobs| && r.job == db.jobs[id]
      ensures r.Rejected? ==> r.error == (if id >= |old(db.jobs)| then JobNotFound
                                          else if old(db.jobs)[id].status != JobStatus.Failed then NotFailed
                                          else BudgetSpent)
      ensures db.Contents() == AfterRetry(old(db.Contents()), id, operator)
      ensures bus.queue == old(bus.queue)
                + (if r.Accepted? then multiset{Message(Some(id), Some("retry"), Some(operator))} else multiset{})
      ensures bus.events == old(bus.events) + RetryEvents(old(db.Contents()), id)
    {
      r := GetById(id);
      if r.Rejected? { return; }
      var job := r.job;
      if job.status != JobStatus.Failed { return Rejected(NotFailed); }
      if job.attemptCount >= job.maxAttempts { return Rejected(BudgetSpent); }

      job := job.(status := Queued);
      job := job.(lastError := None);
      job := job.(startedAt := None);
      job := job.(completedAt := None);
      db.jobs := db.jobs[id := job];
      db.actions := db.actions + [OperatorAction(operator, RetryJobCommand, id)];
      audit.Log(Some(operator), JobRetried(id, job.attemptCount, job.maxAttempts));
      var note := notifications.Create(JobNotification(id));
      var _ := bus.PublishToQueue(Message(Some(id), Some("retry"), Some(operator)));
      var _ := bus.PublishEvent(JobCreatedEvent(id, true));
      var _ := bus.PublishEvent(NotificationCreatedEvent(note));
      r := Accepted(id, job);
    }
  }

  /** How `process` ended: `Threw` is the UNIQUE violation of the attempt insert. */
  datatype Outcome = LockBusy | NoSuchJob | Threw | Processed

  class JobProcessorService {
    const db: Database
    const bus: RabbitMqService
    const locks: RedisLockService
    const audit: AuditService
    const notifications: NotificationService

    constructor (db: Database, bus: RabbitMqService, locks: RedisLockService)
      ensures this.db == db && this.bus == bus && this.locks == locks && audit.db == db && notifications.db == db
    {
      this.db, this.bus, this.locks := db, bus, locks;
      audit := new AuditService(db);
      notifications := new NotificationService(db);
    }

    predicate Wired()
      reads this
    {
      audit.db == db && notifications.db == db
    }

    /** The clock is read when the lock is taken, after the row is read and when the attempt ends. */
    method Process(id: JobId, reason: string, requestedBy: string, now: Time, startedAt: Time, finishedAt: Time)
      returns (r: Outcome)
      requires Wired() && bus.connected
      modifies db, bus, locks
      ensures bus.connected && bus.queue == old(bus.queue)
      ensures r == (if !old(locks.Free(id, now)) then LockBusy
                    else if id >= |old(db.jobs)| then NoSuchJob
                    else if InsertConflicts(old(db.Contents()), id) then Threw
                    else Processed)
      ensures r.LockBusy? ==> locks.keys == old(locks.keys)
      ensures !r.LockBusy? ==> locks.keys == old(locks.keys) - {id}
      ensures db.Contents() == if r.LockBusy? then old(db.Contents())
                               else AfterProcess(old(db.Contents()), id, reason, requestedBy, startedAt, finishedAt)
      ensures bus.events == old(bus.events) + (if r.LockBusy? then [] else ProcessEvents(old(db.Contents()), id))
    {
      var acquired := locks.AcquireLock(id, Protocol.LOCK_TTL, now);
      if !acquired { return LockBusy; }
      r := Attempt(id, reason, requestedBy, startedAt, finishedAt);
      locks.ReleaseLock(id);
    }

    /** The `try` block of `process`. */
    method Attempt(id: JobId, reason: string, requestedBy: string, startedAt: Time, finishedAt: Time)
      returns (r: Outcome)
      requires Wired() && bus.connected
      modifies db, bus`events
      ensures r == (if id >= |old(db.jobs)| then NoSuchJob
                    else if InsertConflicts(old(db.Contents()), id) then Threw
                    else Processed)
      ensures db.Contents() == AfterProcess(old(db.Contents()), id, reason, requestedBy, startedAt, finishedAt)
      ensures bus.events == old(bus.events) + ProcessEvents(old(db.Contents()), id)
    {
      if id >= |db.jobs| { return NoSuchJob; }
      var job := db.jobs[id];
      var attemptNumber := job.attemptCount + 1;
      job := job.(status := Processing);
      job := job.(startedAt := Some(startedAt));
      job := job.(completedAt := None);
      job := job.(lastError := None);
      job := job.(attemptCount := attemptNumber);
      db.jobs := db.jobs[id := job];
      var _ := bus.PublishEvent(JobProcessingEvent(id, attemptNumber));
      audit.Log(None, JobProcessing(id, attemptNumber, reason, requestedBy));

      if (id, attemptNumber) in db.attempts { return Threw; }
      db.attempts := db.attempts[(id, attemptNumber) := AttemptRow(Started, startedAt, None, None, None)];

      if EvaluateFailure(job.payload, attemptNumber) {
        MarkFailed(id, job, startedAt, finishedAt, FailedOnAttempt(attemptNumber));
      } else {
        MarkCompleted(id, job, startedAt, finishedAt);
      }
      r := Processed;
    }

    method MarkCompleted(id: JobId, job: JobRow, startedAt: Time, finishedAt: Time)
      requires Wired() && bus.connected && id < |db.jobs| && db.jobs[id] == job && !Fails(job)
      modifies db, bus`events
      ensures db.Contents() == AfterComplete(old(db.Contents()), id, startedAt, finishedAt)
      ensures bus.events == old(bus.events)
                + [JobCompletedEvent(id, job.attemptCount), NotificationCreatedEvent(|old(db.notifications)|)]
    {
      var attempt := AttemptRow(Started, startedAt, None, None, None);
      attempt := attempt.(status := Succeeded);
      attempt := attempt.(finishedAt := Some(finishedAt));
      attempt := attempt.(durationMs := Some(finishedAt - startedAt));
      db.attempts := db.attempts[(id, job.attemptCount) := attempt];

      var done := job.(status := Completed);
      done := done.(completedAt := Some(finishedAt));
      done := done.(lastError := None);
      db.jobs := db.jobs[id := done];

      var note := notifications.Create(JobNotification(id));
      audit.Log(None, JobCompleted(id, job.attemptCount));
      var _ := bus.PublishEvent(JobCompletedEvent(id, job.attemptCount));
      var _ := bus.PublishEvent(NotificationCreatedEvent(note));
    }

    method MarkFailed(id: JobId, job: JobRow, startedAt: Time, finishedAt: Time, error: ErrorMessage)
      requires Wired() && bus.connected && id < |db.jobs| && db.jobs[id] == job && Fails(job)
      requires error == FailedOnAttempt(job.attemptCount)
      modifies db, bus`events
      ensures db.Contents() == AfterFail(old(db.Contents()), id, startedAt, finishedAt)
      ensures var alert, incident := |old(db.alerts)|, |old(db.incidents)|;
        var critical := FailureSeverity(job) == Critical;
        bus.events == old(bus.events)
          + [JobFailedEvent(id, job.attemptCount, error),
             AlertRaisedEvent(alert, FailureSeverity(job), if critical then Some(incident) else None)]
          + (if critical then [IncidentUpdatedEvent(incident, Open, Some(alert))] else [])
          + [NotificationCreatedEvent(|old(db.notifications)|)]
    {
      var attempt := AttemptRow(Started, startedAt, None, None, None);
      attempt := attempt.(status := Unsuccessful);
      attempt := attempt.(errorMessage := Some(error));
      attempt := attempt.(finishedAt := Some(finishedAt));
      attempt := attempt.(durationMs := Some(finishedAt - startedAt));
      db.attempts := db.attempts[(id, job.attemptCount) := attempt];

      var done := job.(status := JobStatus.Failed);
      done := done.(completedAt := Some(finishedAt));
      done := done.(lastError := Some(error));
      db.jobs := db.jobs[id := done];

      var severity := if done.attemptCount >= done.maxAttempts then Critical else High;
      var alert, incident := Escalate(id, severity);
      var note := notifications.Create(AlertNotification(id, alert, incident, severity));
      LogFailure(id, job.attemptCount, error, severity, alert, incident);
      PublishFailure(id, job.attemptCount, error, severity, alert, incident, note);
    }

    /** Raises the alert and, when it is critical, opens its incident. */
    method Escalate(id: JobId, severity: Severity) returns (alert: AlertId, incident: Option<IncidentId>)
      modifies db`alerts, db`incidents
      ensures alert == |old(db.alerts)|
      ensures incident == if severity == Critical then Some(|old(db.incidents)|) else None
      ensures db.alerts == old(db.alerts) + [OpenAlert(Some(id), WORKER_SOURCE, severity)]
      ensures db.incidents == old(db.incidents) + (if severity == Critical then [OpenIncident(alert)] else [])
    {
      alert := |db.alerts|;
      db.alerts := db.alerts + [OpenAlert(Some(id), WORKER_SOURCE, severity)];
      incident := None;
      if severity == Critical {
        incident := Some(|db.incidents|);
        db.incidents := db.incidents + [OpenIncident(alert)];
      }
    }

    method LogFailure(id: JobId, attempt: nat, error: ErrorMessage, severity: Severity, alert: AlertId,
                      incident: Option<IncidentId>)
      requires Wired()
      modifies db`audit
      ensures db.audit == old(db.audit)
                + ([AuditEntry(None, JobFailed(id, attempt, error)), AuditEntry(None, AlertRaised(alert, severity, id))]
                   + (if incident.Some? then [AuditEntry(None, IncidentCreated(incident.value, alert))] else []))
    {
      audit.Log(None, JobFailed(id, attempt, error));
      audit.Log(None, AlertRaised(alert, severity, id));
      if incident.Some? { audit.Log(None, IncidentCreated(incident.value, alert)); }
    }

    method PublishFailure(id: JobId, attempt: nat, error: ErrorMessage, severity: Severity, alert: AlertId,
                          incident: Option<IncidentId>, note: nat)
      requires bus.connected
      modifies bus`events
      ensures bus.events == old(bus.events)
                + [JobFailedEvent(id, attempt, error), AlertRaisedEvent(alert, severity, incident)]
                + (if incident.Some? then [IncidentUpdatedEvent(incident.value, Open, Some(alert))] else [])
                + [NotificationCreatedEvent(note)]
    {
      var _ := bus.PublishEvent(JobFailedEvent(id, attempt, error));
      var _ := bus.PublishEvent(AlertRaisedEvent(alert, severity, incident));
      if incident.Some? { var _ := bus.PublishEvent(IncidentUpdatedEvent(incident.value, Open, Some(alert))); }
      var _ := bus.PublishEvent(NotificationCreatedEvent(note));
    }
  }

  datatype Settlement = Ack | Nack

  class JobProcessingConsumer {
    const bus: RabbitMqService
    const processor: JobProcessorService

    constructor (processor: JobProcessorService)
      ensures this.processor == processor && this.bus == processor.bus
    {
      this.processor, this.bus := processor, processor.bus;
    }

    /**
     One delivery: the message leaves the queue, and is acked when the handler
     returns or nacked without requeue when it throws.
     */
    method OnMessage(message: Message, now: Time, startedAt: Time, finishedAt: Time) returns (r: Settlement)
      requires bus == processor.bus && processor.Wired() && bus.connected && message in bus.queue
      modifies processor.db, bus, processor.locks
      ensures bus.connected && bus.queue == old(bus.queue) - multiset{message}
      ensures var before, id := old(processor.db.Contents()), message.jobId;
        var ran := id.Some? && old(processor.locks.Free(id.value, now));
        && processor.db.Contents()
           == (if ran
               then AfterProcess(before, id.value, ReasonOf(message), RequesterOf(message), startedAt, finishedAt)
               else before)
        && bus.events == old(bus.events) + (if ran then ProcessEvents(before, id.value) else [])
        && processor.locks.keys == (if ran then old(processor.locks.keys) - {id.value} else old(processor.locks.keys))
        && (r.Nack? <==> ran && id.value < |before.jobs| && InsertConflicts(before, id.value))
    {
      bus.queue := bus.queue - multiset{message};
      var reason := if message.reason.Some? then message.reason.value else "created";
      var requestedBy := if message.requestedBy.Some? then message.requestedBy.value else "system";
      if message.jobId.None? { return Ack; }
      var outcome := processor.Process(message.jobId.value, reason, requestedBy, now, startedAt, finishedAt);
      r := if outcome.Threw? then Nack else Ack;
    }
  }

  function ReasonOf(message: Message): string {
    if message.reason.Some? then message.reason.value else "created"
  }

  function RequesterOf(message: Message): string {
    if message.requestedBy.Some? then message.requestedBy.value else "system"
  }
}
