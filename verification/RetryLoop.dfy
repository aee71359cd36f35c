/**
 Sequential runs: the closed form of a job that is processed and retried for as
 long as retries are accepted. The payload and `maxAttempts` alone decide how it
 ends and what it leaves behind.
 */
module RetryLoop {
  import opened Domain
  import opened JobRules
  import opened Tables
  import opened UseCases
  import opened Requests

  /** How many attempts the payload makes fail: `None` is all of them. */
  function FailureBudget(payload: Payload): Option<nat> {
    if "shouldFail" in payload && payload["shouldFail"] == Bool(true) then None
    else if "failTimes" in payload && payload["failTimes"].Number? && payload["failTimes"].n >= 0.0
    then Some(payload["failTimes"].n.Floor)
    else Some(0)
  }

  lemma BudgetDecides(payload: Payload, attempt: nat)
    requires attempt >= 1
    ensures var budget := FailureBudget(payload);
      EvaluateFailure(payload, attempt) <==> budget.None? || attempt <= budget.value
  {
  }

  /** The job completes rather than running out of attempts. */
  predicate Completes(job: JobRow) {
    var budget := FailureBudget(job.payload); budget.Some? && budget.value < job.maxAttempts
  }

  /** Failed attempts before the job completes, or before its last one. */
  function HighFailures(job: JobRow): nat {
    if Completes(job) then FailureBudget(job.payload).value else job.maxAttempts - 1
  }

  predicate Runnable(t: Tables, j: JobId) {
    j < |t.jobs| && t.jobs[j].attemptCount < t.jobs[j].maxAttempts && !InsertConflicts(t, j)
  }

  /** The next attempt of a runnable job. */
  function Attempted(t: Tables, j: JobId, operator: OperatorId, clock: nat -> Time): (t': Tables)
    requires Runnable(t, j)
    ensures |t'.jobs| == |t.jobs| && t'.jobs[j].maxAttempts == t.jobs[j].maxAttempts
    ensures t'.jobs[j].attemptCount == t.jobs[j].attemptCount + 1
  {
    var n := t.jobs[j].attemptCount;
    var reason := if n == 0 then "created" else "retry";
    ProcessWrites(t, j, reason, operator, clock(2 * n), clock(2 * n + 1));
    AfterProcess(t, j, reason, operator, clock(2 * n), clock(2 * n + 1))
  }

  /** Process the job, and retry it whenever a retry is accepted; `clock` gives the times. */
  function Drive(t: Tables, j: JobId, operator: OperatorId, clock: nat -> Time): Tables
    requires Runnable(t, j)
    decreases t.jobs[j].maxAttempts - t.jobs[j].attemptCount
  {
    var processed := Attempted(t, j, operator, clock);
    var retried := AfterRetry(processed, j, operator);
    if RetryAccepted(processed, j) && Runnable(retried, j) then Drive(retried, j, operator, clock) else processed
  }

  function HighAlerts(j: JobId, k: nat): seq<AlertRow> {
    seq(k, _ => OpenAlert(Some(j), WORKER_SOURCE, High))
  }

  /** A queued job that has made `n` attempts, none of them ahead of its count. */
  predicate Ready(t: Tables, j: JobId) {
    && j < |t.jobs|
    && t.jobs[j].status == Queued
    && t.jobs[j].attemptCount <= HighFailures(t.jobs[j])
    && forall k :: k in t.attempts && k.0 == j ==> k.1 <= t.jobs[j].attemptCount
  }

  lemma ReadyCanRun(t: Tables, j: JobId)
    requires Ready(t, j)
    ensures Runnable(t, j)
  {
  }

  /** One failed attempt with a retry after it. */
  lemma FailedRound(t: Tables, j: JobId, reason: string, operator: OperatorId, startedAt: Time, finishedAt: Time)
    requires Ready(t, j) && t.jobs[j].attemptCount < HighFailures(t.jobs[j])
    ensures var processed := AfterProcess(t, j, reason, operator, startedAt, finishedAt);
      var t' := AfterRetry(processed, j, operator);
      && RetryAccepted(processed, j) && Ready(t', j)
      && t'.jobs == t.jobs[j := t.jobs[j].(status := Queued, attemptCount := t.jobs[j].attemptCount + 1,
                                            lastError := None, startedAt := None, completedAt := None)]
      && t'.alerts == t.alerts + HighAlerts(j, 1)
      && t'.incidents == t.incidents
      && |t'.notifications| == |t.notifications| + 2
  {
    var job := Begin(t.jobs[j], startedAt);
    ReadyCanRun(t, j);
    BudgetDecides(job.payload, job.attemptCount);
    ProcessWrites(t, j, reason, operator, startedAt, finishedAt);
    ProcessRaises(t, j, reason, operator, startedAt, finishedAt);
    ProcessNotifies(t, j, reason, operator, startedAt, finishedAt);
    assert HighAlerts(j, 1) == [OpenAlert(Some(j), WORKER_SOURCE, High)];
  }

  lemma ProcessNotifies(t: Tables, id: JobId, reason: string, requestedBy: string, startedAt: Time, finishedAt: Time)
    requires id < |t.jobs| && !InsertConflicts(t, id)
    ensures |AfterProcess(t, id, reason, requestedBy, startedAt, finishedAt).notifications| == |t.notifications| + 1
  {
  }

  /** How the job stands at the end, from a state with `n` attempts behind it. */
  ghost predicate EndsAs(t: Tables, t': Tables, j: JobId)
    requires Ready(t, j)
  {
    var job, highs := t.jobs[j], HighFailures(t.jobs[j]);
    var left := highs - job.attemptCount;
    && |t'.jobs| == |t.jobs|
    && (forall k :: 0 <= k < |t.jobs| && k != j ==> t'.jobs[k] == t.jobs[k])
    && t'.jobs[j].status == (if Completes(job) then Completed else JobStatus.Failed)
    && t'.jobs[j].attemptCount == highs + 1
    && t'.alerts == t.alerts + HighAlerts(j, left)
         + (if Completes(job) then [] else [OpenAlert(Some(j), WORKER_SOURCE, Critical)])
    && t'.incidents == t.incidents + (if Completes(job) then [] else [OpenIncident(|t.alerts| + left)])
    && |t'.notifications| == |t.notifications| + 2 * left + 1
  }

  /** The last attempt: no retry is accepted after it. */
  lemma LastRound(t: Tables, j: JobId, reason: string, operator: OperatorId, startedAt: Time, finishedAt: Time)
    requires Ready(t, j) && t.jobs[j].attemptCount == HighFailures(t.jobs[j])
    ensures var processed := AfterProcess(t, j, reason, operator, startedAt, finishedAt);
      !RetryAccepted(processed, j) && EndsAs(t, processed, j)
  {
    var job := Begin(t.jobs[j], startedAt);
    ReadyCanRun(t, j);
    BudgetDecides(job.payload, job.attemptCount);
    ProcessWrites(t, j, reason, operator, startedAt, finishedAt);
    ProcessRaises(t, j, reason, operator, startedAt, finishedAt);
    ProcessNotifies(t, j, reason, operator, startedAt, finishedAt);
    assert t.alerts + HighAlerts(j, 0) == t.alerts;
  }

  lemma DriveStops(t: Tables, j: JobId, operator: OperatorId, clock: nat -> Time)
    requires Runnable(t, j) && !RetryAccepted(Attempted(t, j, operator, clock), j)
    ensures Drive(t, j, operator, clock) == Attempted(t, j, operator, clock)
  {
  }

  lemma DriveGoesOn(t: Tables, j: JobId, operator: OperatorId, clock: nat -> Time, retried: Tables)
    requires Runnable(t, j) && RetryAccepted(Attempted(t, j, operator, clock), j)
    requires retried == AfterRetry(Attempted(t, j, operator, clock), j, operator) && Runnable(retried, j)
    ensures Drive(t, j, operator, clock) == Drive(retried, j, operator, clock)
  {
  }

  lemma AttemptedAndRetried(t: Tables, j: JobId, operator: OperatorId, clock: nat -> Time, retried: Tables)
    requires Ready(t, j) && Runnable(t, j) && t.jobs[j].attemptCount < HighFailures(t.jobs[j])
    requires retried == AfterRetry(Attempted(t, j, operator, clock), j, operator)
    ensures RetryAccepted(Attempted(t, j, operator, clock), j) && Ready(retried, j)
    ensures retried.jobs == t.jobs[j := t.jobs[j].(status := Queued, attemptCount := t.jobs[j].attemptCount + 1,
                                                   lastError := None, startedAt := None, completedAt := None)]
    ensures retried.alerts == t.alerts + HighAlerts(j, 1) && retried.incidents == t.incidents
    ensures |retried.notifications| == |t.notifications| + 2
  {
    var n := t.jobs[j].attemptCount;
    FailedRound(t, j, if n == 0 then "created" else "retry", operator, clock(2 * n), clock(2 * n + 1));
  }

  lemma AttemptedLast(t: Tables, j: JobId, operator: OperatorId, clock: nat -> Time, processed: Tables)
    requires Ready(t, j) && Runnable(t, j) && t.jobs[j].attemptCount == HighFailures(t.jobs[j])
    requires processed == Attempted(t, j, operator, clock)
    ensures !RetryAccepted(processed, j) && EndsAs(t, processed, j)
  {
    var n := t.jobs[j].attemptCount;
    LastRound(t, j, if n == 0 then "created" else "retry", operator, clock(2 * n), clock(2 * n + 1));
  }

  lemma {:induction false} DriveEnds(t: Tables, j: JobId, operator: OperatorId, clock: nat -> Time)
    requires Ready(t, j)
    ensures Runnable(t, j) && EndsAs(t, Drive(t, j, operator, clock), j)
    decreases t.jobs[j].maxAttempts - t.jobs[j].attemptCount
  {
    ReadyCanRun(t, j);
    var processed := Attempted(t, j, operator, clock);
    if t.jobs[j].attemptCount == HighFailures(t.jobs[j]) {
      AttemptedLast(t, j, operator, clock, processed);
      DriveStops(t, j, operator, clock);
    } else {
      var retried := AfterRetry(processed, j, operator);
      AttemptedAndRetried(t, j, operator, clock, retried);
      DriveEnds(retried, j, operator, clock);
      DriveGoesOn(t, j, operator, clock, retried);
      RoundsCompose(t, retried, Drive(retried, j, operator, clock), j);
    }
  }

  lemma RoundsCompose(t: Tables, retried: Tables, t': Tables, j: JobId)
    requires Ready(t, j) && Ready(retried, j) && EndsAs(retried, t', j)
    requires t.jobs[j].attemptCount < HighFailures(t.jobs[j])
    requires retried.jobs == t.jobs[j := retried.jobs[j]] && retried.jobs[j].payload == t.jobs[j].payload
    requires retried.jobs[j].maxAttempts == t.jobs[j].maxAttempts
    requires retried.jobs[j].attemptCount == t.jobs[j].attemptCount + 1
    requires retried.alerts == t.alerts + HighAlerts(j, 1) && retried.incidents == t.incidents
    requires |retried.notifications| == |t.notifications| + 2
    ensures EndsAs(t, t', j)
  {
    var left := HighFailures(t.jobs[j]) - t.jobs[j].attemptCount;
    assert HighAlerts(j, left) == HighAlerts(j, 1) + HighAlerts(j, left - 1);
    assert t.alerts + HighAlerts(j, 1) + HighAlerts(j, left - 1) == t.alerts + HighAlerts(j, left);
  }

  lemma CreatedIsReady(w: World, payload: Payload, maxAttempts: Attempts, operator: OperatorId)
    requires RestInv(w)
    ensures var created, j := AfterCreateJob(w.tables, payload, maxAttempts, operator), |w.tables.jobs|;
      && Ready(created, j) && created.jobs[j] == NewJob(payload, maxAttempts) && |created.jobs| == j + 1
      && created.alerts == w.tables.alerts && created.incidents == w.tables.incidents
      && |created.notifications| == |w.tables.notifications| + 1
  {
  }

  // ------------------------------------------------------------- main results

  /**
   A created job whose payload fails `F < maxAttempts` attempts completes on
   attempt `F + 1` with `F` high alerts and `2F + 2` notifications.
   */
  lemma CompletesAfterItsFailures(w: World, payload: Payload, maxAttempts: Attempts, operator: OperatorId,
                                  clock: nat -> Time)
    requires RestInv(w) && FailureBudget(payload).Some? && FailureBudget(payload).value < maxAttempts
    ensures var created, j, failures := AfterCreateJob(w.tables, payload, maxAttempts, operator), |w.tables.jobs|,
                                        FailureBudget(payload).value;
      && Runnable(created, j)
      && var t := Drive(created, j, operator, clock);
      && |t.jobs| == j + 1 && t.jobs[j].status == Completed && t.jobs[j].attemptCount == failures + 1
      && t.alerts == w.tables.alerts + HighAlerts(j, failures)
      && t.incidents == w.tables.incidents
      && |t.notifications| == |w.tables.notifications| + 2 * failures + 2
  {
    var created, j := AfterCreateJob(w.tables, payload, maxAttempts, operator), |w.tables.jobs|;
    CreatedIsReady(w, payload, maxAttempts, operator);
    DriveEnds(created, j, operator, clock);
  }

  /**
   Otherwise it fails for good after `maxAttempts` attempts, with one high
   alert less, one critical alert, one incident and `2 * maxAttempts` notifications.
   */
  lemma FailsForGood(w: World, payload: Payload, maxAttempts: Attempts, operator: OperatorId, clock: nat -> Time)
    requires RestInv(w)
    requires FailureBudget(payload).Some? ==> FailureBudget(payload).value >= maxAttempts
    ensures var created, j := AfterCreateJob(w.tables, payload, maxAttempts, operator), |w.tables.jobs|;
      && Runnable(created, j)
      && var t := Drive(created, j, operator, clock);
      && |t.jobs| == j + 1 && t.jobs[j].status == JobStatus.Failed && t.jobs[j].attemptCount == maxAttempts
      && t.alerts == w.tables.alerts + HighAlerts(j, maxAttempts - 1) + [OpenAlert(Some(j), WORKER_SOURCE, Critical)]
      && t.incidents == w.tables.incidents + [OpenIncident(|t.alerts| - 1)]
      && |t.notifications| == |w.tables.notifications| + 2 * maxAttempts
  {
    var created, j := AfterCreateJob(w.tables, payload, maxAttempts, operator), |w.tables.jobs|;
    CreatedIsReady(w, payload, maxAttempts, operator);
    DriveEnds(created, j, operator, clock);
  }
}
