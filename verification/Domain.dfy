/** Rows, enumerations and identifiers of the persisted entities. */
module Domain {
  datatype Option<+T> = None | Some(value: T)

  type Time = nat
  type JobId = nat
  type AlertId = nat
  type IncidentId = nat
  type OperatorId = string

  /** What a JSON payload field can hold, as far as the worker looks at it. */
  datatype Json = Null | Bool(b: bool) | Number(n: real) | Text(s: string) | Composite

  type Payload = map<string, Json>

  /** `maxAttempts` as the request validation admits it: any integer of at least one. */
  type Attempts = n: nat | n >= 1 witness 1

  datatype JobStatus = Queued | Processing | Completed | Failed
  datatype AttemptStatus = Started | Succeeded | Unsuccessful
  datatype Severity = Low | Medium | High | Critical

  /** Alert and incident statuses are two enumerations with the same three members. */
  datatype TicketStatus = Open | Acknowledged | Resolved

  /** The only error text the worker produces names the attempt that failed. */
  datatype ErrorMessage = FailedOnAttempt(attempt: nat)

  datatype JobRow = JobRow(
    payload: Payload,
    maxAttempts: Attempts,
    status: JobStatus,
    attemptCount: nat,
    lastError: Option<ErrorMessage>,
    startedAt: Option<Time>,
    completedAt: Option<Time>)

  datatype AttemptRow = AttemptRow(
    status: AttemptStatus,
    startedAt: Time,
    finishedAt: Option<Time>,
    durationMs: Option<int>,
    errorMessage: Option<ErrorMessage>)
}
