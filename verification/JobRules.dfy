/**
 The row updates and decisions of the job services, shared by the interleaved
 protocol and by the services themselves.
 */
module JobRules {
  import opened Domain

  /** A job as `JobService.create` first saves it. */
  function NewJob(payload: Payload, maxAttempts: Attempts): JobRow {
    JobRow(payload, maxAttempts, Queued, 0, None, None, None)
  }

  /** The fields the worker assigns before its first save. */
  function Begin(job: JobRow, startedAt: Time): JobRow {
    job.(status := Processing, startedAt := Some(startedAt), completedAt := None, lastError := None,
         attemptCount := job.attemptCount + 1)
  }

  predicate EvaluateFailure(payload: Payload, attemptNumber: nat) {
    var shouldFail := "shouldFail" in payload && payload["shouldFail"] == Bool(true);
    var failTimes :=
      if "failTimes" in payload && payload["failTimes"].Number? then payload["failTimes"].n else 0.0;
    shouldFail || attemptNumber as real <= failTimes
  }

  /** The outcome of the attempt that `job.attemptCount` counts. */
  predicate Fails(job: JobRow) {
    EvaluateFailure(job.payload, job.attemptCount)
  }

  function Conclude(job: JobRow, finishedAt: Time): JobRow {
    if Fails(job)
    then job.(status := JobStatus.Failed, completedAt := Some(finishedAt),
              lastError := Some(FailedOnAttempt(job.attemptCount)))
    else job.(status := Completed, completedAt := Some(finishedAt), lastError := None)
  }

  function OpenAttempt(startedAt: Time): AttemptRow {
    AttemptRow(Started, startedAt, None, None, None)
  }

  function CloseAttempt(job: JobRow, startedAt: Time, finishedAt: Time): AttemptRow {
    if Fails(job)
    then AttemptRow(Unsuccessful, startedAt, Some(finishedAt), Some(finishedAt - startedAt),
                    Some(FailedOnAttempt(job.attemptCount)))
    else AttemptRow(Succeeded, startedAt, Some(finishedAt), Some(finishedAt - startedAt), None)
  }

  function FailureSeverity(job: JobRow): Severity {
    if job.attemptCount >= job.maxAttempts then Critical else High
  }

  predicate CanRetry(job: JobRow) {
    job.status == JobStatus.Failed && job.attemptCount < job.maxAttempts
  }

  function Requeue(job: JobRow): JobRow {
    job.(status := Queued, lastError := None, startedAt := None, completedAt := None)
  }

  /** One job's rows in the `jobs` and `processing_attempts` tables. */
  datatype JobTables = JobTables(job: JobRow, attempts: map<nat, AttemptRow>)

  /** The effect of one whole attempt on those rows when nothing else runs. */
  function RunAttempt(t: JobTables, startedAt: Time, finishedAt: Time): JobTables {
    var job := Begin(t.job, startedAt);
    JobTables(Conclude(job, finishedAt),
              t.attempts[job.attemptCount := CloseAttempt(job, startedAt, finishedAt)])
  }

  /** The effect of one `retry` call on those rows: a rejected call changes nothing. */
  function RetryJob(t: JobTables): JobTables {
    if CanRetry(t.job) then t.(job := Requeue(t.job)) else t
  }
}
