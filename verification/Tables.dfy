/** The PostgreSQL tables as values, with what the use cases record in them. */
module Tables {
  import opened Domain

  /** `source` of the alerts each service raises. */
  const WORKER_SOURCE := "processing-service"
  const OPERATOR_SOURCE := "operator"

  datatype AlertRow = AlertRow(
    jobId: Option<JobId>,
    source: string,
    severity: Severity,
    status: TicketStatus,
    acknowledgedBy: Option<OperatorId>,
    acknowledgedAt: Option<Time>,
    resolvedBy: Option<OperatorId>,
    resolvedAt: Option<Time>)

  datatype IncidentRow = IncidentRow(
    alertId: Option<AlertId>,
    status: TicketStatus,
    acknowledgedBy: Option<OperatorId>,
    acknowledgedAt: Option<Time>,
    resolvedBy: Option<OperatorId>,
    resolvedAt: Option<Time>)

  datatype Notification =
    | JobNotification(job: JobId)
    | AlertNotification(job: JobId, alert: AlertId, incident: Option<IncidentId>, severity: Severity)

  /** An audit entry's action, entity and metadata. */
  datatype Fact =
    | JobCreated(job: JobId, maxAttempts: Attempts)
    | JobRetried(job: JobId, attemptCount: nat, maxAttempts: Attempts)
    | JobProcessing(job: JobId, attempt: nat, reason: string, requestedBy: string)
    | JobCompleted(job: JobId, attempt: nat)
    | JobFailed(job: JobId, attempt: nat, error: ErrorMessage)
    | AlertRaised(alert: AlertId, severity: Severity, job: JobId)
    | AlertCreated(alert: AlertId, severity: Severity, source: string, raised: Option<IncidentId>)
    | AlertAcknowledged(alert: AlertId)
    | IncidentCreated(incident: IncidentId, alert: AlertId)
    | IncidentAcknowledged(incident: IncidentId)
    | IncidentResolved(incident: IncidentId, linkedAlert: Option<AlertId>)

  /** `actor` is `None` for the system. */
  datatype AuditEntry = AuditEntry(actor: Option<OperatorId>, fact: Fact)

  datatype Command = CreateJobCommand | RetryJobCommand | CreateAlertCommand | AcknowledgeCommand | ResolveCommand

  datatype OperatorAction = OperatorAction(operator: OperatorId, command: Command, target: nat)

  /** Row ids are positions: rows are never deleted. */
  datatype Tables = Tables(
    jobs: seq<JobRow>,
    attempts: map<(JobId, nat), AttemptRow>,
    alerts: seq<AlertRow>,
    incidents: seq<IncidentRow>,
    notifications: seq<Notification>,
    audit: seq<AuditEntry>,
    actions: seq<OperatorAction>)

  const EMPTY_TABLES := Tables([], map[], [], [], [], [], [])

  function OpenAlert(jobId: Option<JobId>, source: string, severity: Severity): AlertRow {
    AlertRow(jobId, source, severity, Open, None, None, None, None)
  }

  function OpenIncident(alert: AlertId): IncidentRow {
    IncidentRow(Some(alert), Open, None, None, None, None)
  }

  /** A message of `jobs.processing`; `None` is a field that is missing or not a string, or an empty job id. */
  datatype Message = Message(jobId: Option<JobId>, reason: Option<string>, requestedBy: Option<string>)

  /** Lifecycle events published to the `ops.events` exchange. */
  datatype Event =
    | JobCreatedEvent(job: JobId, retried: bool)
    | JobProcessingEvent(job: JobId, attempt: nat)
    | JobCompletedEvent(job: JobId, attempt: nat)
    | JobFailedEvent(job: JobId, attempt: nat, error: ErrorMessage)
    | AlertRaisedEvent(alert: AlertId, severity: Severity, raised: Option<IncidentId>)
    | AlertAcknowledgedEvent(alert: AlertId, operator: OperatorId)
    | IncidentUpdatedEvent(incident: IncidentId, status: TicketStatus, linked: Option<AlertId>)
    | NotificationCreatedEvent(notification: nat)
}
