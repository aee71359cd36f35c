/**
 What each use case does to the tables when it runs alone and nothing throws.
 The services are proved against these functions.
 */
module UseCases {
  import opened Domain
  import opened JobRules
  import opened Tables

  // --------------------------------------------------------------------- jobs

  function AfterCreateJob(t: Tables, payload: Payload, maxAttempts: Attempts, operator: OperatorId): Tables {
    var id := |t.jobs|;
    t.(jobs := t.jobs + [NewJob(payload, maxAttempts)],
       actions := t.actions + [OperatorAction(operator, CreateJobCommand, id)],
       audit := t.audit + [AuditEntry(Some(operator), JobCreated(id, maxAttempts))],
       notifications := t.notifications + [JobNotification(id)])
  }

  predicate RetryAccepted(t: Tables, id: JobId) {
    id < |t.jobs| && CanRetry(t.jobs[id])
  }

  function AfterRetry(t: Tables, id: JobId, operator: OperatorId): Tables {
    if !RetryAccepted(t, id) then t
    else
      var job := Requeue(t.jobs[id]);
      t.(jobs := t.jobs[id := job],
         actions := t.actions + [OperatorAction(operator, RetryJobCommand, id)],
         audit := t.audit + [AuditEntry(Some(operator), JobRetried(id, job.attemptCount, job.maxAttempts))],
         notifications := t.notifications + [JobNotification(id)])
  }

  /** The worker's tables up to the attempt insert. */
  function AfterBegin(t: Tables, id: JobId, reason: string, requestedBy: string, startedAt: Time): Tables
    requires id < |t.jobs|
  {
    var job := Begin(t.jobs[id], startedAt);
    t.(jobs := t.jobs[id := job],
       audit := t.audit + [AuditEntry(None, JobProcessing(id, job.attemptCount, reason, requestedBy))])
  }

  function AfterComplete(t: Tables, id: JobId, startedAt: Time, finishedAt: Time): Tables
    requires id < |t.jobs|
  {
    var job := t.jobs[id];
    t.(jobs := t.jobs[id := Conclude(job, finishedAt)],
       attempts := t.attempts[(id, job.attemptCount) := CloseAttempt(job, startedAt, finishedAt)],
       audit := t.audit + [AuditEntry(None, JobCompleted(id, job.attemptCount))],
       notifications := t.notifications + [JobNotification(id)])
  }

  function FailureFacts(t: Tables, id: JobId): seq<AuditEntry>
    requires id < |t.jobs|
  {
    var job := t.jobs[id];
    var severity := FailureSeverity(job);
    [AuditEntry(None, JobFailed(id, job.attemptCount, FailedOnAttempt(job.attemptCount))),
     AuditEntry(None, AlertRaised(|t.alerts|, severity, id))]
    + (if severity == Critical then [AuditEntry(None, IncidentCreated(|t.incidents|, |t.alerts|))] else [])
  }

  function AfterFail(t: Tables, id: JobId, startedAt: Time, finishedAt: Time): Tables
    requires id < |t.jobs|
  {
    var job := t.jobs[id];
    var severity, alert := FailureSeverity(job), |t.alerts|;
    var incident := if severity == Critical then Some(|t.incidents|) else None;
    t.(jobs := t.jobs[id := Conclude(job, finishedAt)],
       attempts := t.attempts[(id, job.attemptCount) := CloseAttempt(job, startedAt, finishedAt)],
       alerts := t.alerts + [OpenAlert(Some(id), WORKER_SOURCE, severity)],
       incidents := if incident.Some? then t.incidents + [OpenIncident(alert)] else t.incidents,
       audit := t.audit + FailureFacts(t, id),
       notifications := t.notifications + [AlertNotification(id, alert, incident, severity)])
  }

  /** The attempt insert would break the UNIQUE constraint and throws. */
  predicate InsertConflicts(t: Tables, id: JobId)
    requires id < |t.jobs|
  {
    (id, t.jobs[id].attemptCount + 1) in t.attempts
  }

  function AfterProcess(t: Tables, id: JobId, reason: string, requestedBy: string,
                        startedAt: Time, finishedAt: Time): Tables {
    if id >= |t.jobs| then t
    else
      var begun := AfterBegin(t, id, reason, requestedBy, startedAt);
      if InsertConflicts(t, id) then begun
      else if Fails(begun.jobs[id]) then AfterFail(begun, id, startedAt, finishedAt)
      else AfterComplete(begun, id, startedAt, finishedAt)
  }

  // --------------------------------------------------------- alerts, incidents

  /** The foreign key on `jobId` admits the alert. */
  predicate AlertAccepted(t: Tables, jobId: Option<JobId>) {
    jobId.Some? ==> jobId.value < |t.jobs|
  }

  function AfterCreateAlert(t: Tables, jobId: Option<JobId>, source: string, severity: Severity,
                            createIncident: bool, operator: OperatorId): Tables {
    if !AlertAccepted(t, jobId) then t
    else
      var id := |t.alerts|;
      var incident := if createIncident || severity == Critical then Some(|t.incidents|) else None;
      t.(alerts := t.alerts + [OpenAlert(jobId, source, severity)],
         incidents := if incident.Some? then t.incidents + [OpenIncident(id)] else t.incidents,
         actions := t.actions + [OperatorAction(operator, CreateAlertCommand, id)],
         audit := t.audit + [AuditEntry(Some(operator), AlertCreated(id, severity, source, incident))])
  }

  predicate Unresolved(t: Tables, id: IncidentId) {
    id < |t.incidents| && t.incidents[id].status != Resolved
  }

  function AcknowledgedIncident(row: IncidentRow, operator: OperatorId, at: Time): IncidentRow {
    row.(status := Acknowledged, acknowledgedBy := Some(operator), acknowledgedAt := Some(at))
  }

  /** Resolving an open incident fills in the acknowledgement first. */
  function ResolvedIncident(row: IncidentRow, operator: OperatorId, ackAt: Time, at: Time): IncidentRow {
    var seen :=
      if row.status == Open then row.(acknowledgedAt := Some(ackAt), acknowledgedBy := Some(operator)) else row;
    seen.(status := Resolved, resolvedBy := Some(operator), resolvedAt := Some(at))
  }

  function AcknowledgedAlert(row: AlertRow, operator: OperatorId, at: Time): AlertRow {
    row.(status := Acknowledged, acknowledgedBy := Some(operator), acknowledgedAt := Some(at))
  }

  function ResolvedAlert(row: AlertRow, operator: OperatorId, at: Time): AlertRow {
    row.(status := Resolved, resolvedBy := Some(operator), resolvedAt := Some(at))
  }

  /** `UPDATE alerts ... WHERE id = a`: no effect without such a row. */
  function UpdateAlert(alerts: seq<AlertRow>, a: Option<AlertId>, change: AlertRow -> AlertRow): seq<AlertRow> {
    if a.Some? && a.value < |alerts| then alerts[a.value := change(alerts[a.value])] else alerts
  }

  function AfterAcknowledge(t: Tables, id: IncidentId, operator: OperatorId, at: Time, alertAt: Time): Tables {
    if !Unresolved(t, id) then t
    else
      t.(incidents := t.incidents[id := AcknowledgedIncident(t.incidents[id], operator, at)],
         alerts := UpdateAlert(t.alerts, t.incidents[id].alertId, row => AcknowledgedAlert(row, operator, alertAt)),
         actions := t.actions + [OperatorAction(operator, AcknowledgeCommand, id)],
         audit := t.audit + [AuditEntry(Some(operator), IncidentAcknowledged(id))])
  }

  function AfterResolve(t: Tables, id: IncidentId, operator: OperatorId, ackAt: Time, at: Time, alertAt: Time): Tables {
    if !Unresolved(t, id) then t
    else
      t.(incidents := t.incidents[id := ResolvedIncident(t.incidents[id], operator, ackAt, at)],
         alerts := UpdateAlert(t.alerts, t.incidents[id].alertId, row => ResolvedAlert(row, operator, alertAt)),
         actions := t.actions + [OperatorAction(operator, ResolveCommand, id)],
         audit := t.audit + [AuditEntry(Some(operator), IncidentResolved(id, t.incidents[id].alertId))])
  }

  /** `AlertService.acknowledge`, which no route calls. */
  function AfterAcknowledgeAlert(t: Tables, id: AlertId, operator: OperatorId, at: Time): Tables {
    if id >= |t.alerts| || t.alerts[id].status == Resolved then t
    else
      t.(alerts := t.alerts[id := AcknowledgedAlert(t.alerts[id], operator, at)],
         audit := t.audit + [AuditEntry(Some(operator), AlertAcknowledged(id))])
  }

  // ------------------------------------------------------- published messages

  function CreateJobEvents(t: Tables): seq<Event> {
    [JobCreatedEvent(|t.jobs|, false), NotificationCreatedEvent(|t.notifications|)]
  }

  function RetryEvents(t: Tables, id: JobId): seq<Event> {
    if RetryAccepted(t, id) then [JobCreatedEvent(id, true), NotificationCreatedEvent(|t.notifications|)] else []
  }

  /** Published while processing, in order. */
  function ProcessEvents(t: Tables, id: JobId): seq<Event> {
    if id >= |t.jobs| then []
    else
      var job := Begin(t.jobs[id], 0);
      var n, alert, note := job.attemptCount, |t.alerts|, |t.notifications|;
      [JobProcessingEvent(id, n)]
      + (if InsertConflicts(t, id) then []
         else if !Fails(job) then [JobCompletedEvent(id, n), NotificationCreatedEvent(note)]
         else if FailureSeverity(job) == Critical then
           [JobFailedEvent(id, n, FailedOnAttempt(n)), AlertRaisedEvent(alert, Critical, Some(|t.incidents|)),
            IncidentUpdatedEvent(|t.incidents|, Open, Some(alert)), NotificationCreatedEvent(note)]
         else
           [JobFailedEvent(id, n, FailedOnAttempt(n)), AlertRaisedEvent(alert, High, None),
            NotificationCreatedEvent(note)])
  }

  function CreateAlertEvents(t: Tables, jobId: Option<JobId>, severity: Severity, createIncident: bool): seq<Event> {
    var alert, incident := |t.alerts|, |t.incidents|;
    if !AlertAccepted(t, jobId) then []
    else if createIncident || severity == Critical
    then [AlertRaisedEvent(alert, severity, Some(incident)), IncidentUpdatedEvent(incident, Open, Some(alert))]
    else [AlertRaisedEvent(alert, severity, None)]
  }

  function IncidentEvents(t: Tables, id: IncidentId, status: TicketStatus): seq<Event> {
    if Unresolved(t, id) then [IncidentUpdatedEvent(id, status, t.incidents[id].alertId)] else []
  }
}
