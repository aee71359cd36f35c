/**
 Sequential runs: the worker's alerts count a job's failures exactly, the
 newest one tells whether the job can be retried, exactly the exhausted jobs
 have a critical one, and every critical alert has exactly one incident.
 */
module Escalation {
  import opened Domain
  import opened JobRules
  import opened Sums
  import opened Tables
  import opened UseCases
  import opened Requests

  /** The alert was raised by the worker for job `j`. */
  predicate RaisedFor(alert: AlertRow, j: JobId) {
    alert.source == WORKER_SOURCE && alert.jobId == Some(j)
  }

  function Raised(j: JobId): AlertRow -> nat {
    (alert: AlertRow) => if RaisedFor(alert, j) then 1 else 0
  }

  function RaisedCritical(j: JobId): AlertRow -> nat {
    (alert: AlertRow) => if RaisedFor(alert, j) && alert.severity == Critical then 1 else 0
  }

  function LinkedTo(a: AlertId): IncidentRow -> nat {
    (incident: IncidentRow) => if incident.alertId == Some(a) then 1 else 0
  }

  /** Severity of the newest worker alert for job `j`. */
  function Newest(alerts: seq<AlertRow>, j: JobId): Option<Severity> {
    if alerts == [] then None
    else if RaisedFor(alerts[|alerts| - 1], j) then Some(alerts[|alerts| - 1].severity)
    else Newest(alerts[..|alerts| - 1], j)
  }

  predicate Exhausted(job: JobRow) {
    job.status == JobStatus.Failed && job.attemptCount >= job.maxAttempts
  }

  /** Attempts of a resting job that failed: all but a final success. */
  function Failures(job: JobRow): int {
    job.attemptCount - (if job.status == Completed then 1 else 0)
  }

  predicate JobAlerts(t: Tables, j: JobId)
    requires j < |t.jobs|
  {
    var job := t.jobs[j];
    && Sum(Raised(j), t.alerts) == Failures(job)
    && Sum(RaisedCritical(j), t.alerts) == (if Exhausted(job) then 1 else 0)
    && (job.status == JobStatus.Failed ==> Newest(t.alerts, j) == Some(FailureSeverity(job)))
  }

  predicate AlertsInv(t: Tables) {
    && (forall j :: 0 <= j < |t.jobs| ==> JobAlerts(t, j))
    && (forall a :: 0 <= a < |t.alerts| ==> t.alerts[a].jobId.Some? ==> t.alerts[a].jobId.value < |t.jobs|)
  }

  predicate LinksInv(t: Tables) {
    && (forall i :: 0 <= i < |t.incidents| ==>
          t.incidents[i].alertId.Some? && t.incidents[i].alertId.value < |t.alerts|)
    && (forall a :: 0 <= a < |t.alerts| ==> Sum(LinkedTo(a), t.incidents) <= 1)
    && (forall a :: 0 <= a < |t.alerts| && t.alerts[a].severity == Critical ==> Sum(LinkedTo(a), t.incidents) == 1)
  }

  // ------------------------------------------------------------ how alerts grow

  lemma AppendAlert(alerts: seq<AlertRow>, alert: AlertRow, j: JobId)
    ensures Sum(Raised(j), alerts + [alert]) == Sum(Raised(j), alerts) + Raised(j)(alert)
    ensures Sum(RaisedCritical(j), alerts + [alert]) == Sum(RaisedCritical(j), alerts) + RaisedCritical(j)(alert)
    ensures Newest(alerts + [alert], j) == if RaisedFor(alert, j) then Some(alert.severity) else Newest(alerts, j)
  {
    SumAppend(Raised(j), alerts, alert);
    SumAppend(RaisedCritical(j), alerts, alert);
    assert (alerts + [alert])[..|alerts|] == alerts;
  }

  predicate SameOrigin(x: AlertRow, y: AlertRow) {
    x.jobId == y.jobId && x.source == y.source && x.severity == y.severity
  }

  lemma {:induction false} UpdatedNewest(alerts: seq<AlertRow>, a: nat, alert: AlertRow, j: JobId)
    requires a < |alerts| && SameOrigin(alert, alerts[a])
    ensures Newest(alerts[a := alert], j) == Newest(alerts, j)
  {
    var k := |alerts| - 1;
    if a < k {
      UpdatedNewest(alerts[..k], a, alert, j);
      assert alerts[a := alert][..k] == alerts[..k][a := alert];
    } else {
      assert alerts[a := alert][..k] == alerts[..k];
    }
  }

  lemma UpdatedAlert(alerts: seq<AlertRow>, a: nat, alert: AlertRow, j: JobId)
    requires a < |alerts| && SameOrigin(alert, alerts[a])
    ensures Sum(Raised(j), alerts[a := alert]) == Sum(Raised(j), alerts)
    ensures Sum(RaisedCritical(j), alerts[a := alert]) == Sum(RaisedCritical(j), alerts)
    ensures Newest(alerts[a := alert], j) == Newest(alerts, j)
  {
    SumUpdate(Raised(j), alerts, a, alert);
    SumUpdate(RaisedCritical(j), alerts, a, alert);
    UpdatedNewest(alerts, a, alert, j);
  }

  /** No incident links to an alert that does not exist yet. */
  lemma {:induction false} Unlinked(t: Tables, a: AlertId)
    requires LinksInv(t) && a >= |t.alerts|
    ensures Sum(LinkedTo(a), t.incidents) == 0
  {
    SumZero(LinkedTo(a), t.incidents);
  }

  lemma {:induction false} NeverRaised(t: Tables, j: JobId)
    requires AlertsInv(t) && j >= |t.jobs|
    ensures Sum(Raised(j), t.alerts) == 0 && Sum(RaisedCritical(j), t.alerts) == 0
  {
    SumZero(Raised(j), t.alerts);
    SumZero(RaisedCritical(j), t.alerts);
  }

  /** A new alert, with or without an incident of its own, keeps every link unique. */
  lemma NewAlertKeepsLinks(t: Tables, t': Tables, alert: AlertRow, opens: bool)
    requires LinksInv(t) && t'.alerts == t.alerts + [alert]
    requires t'.incidents == if opens then t.incidents + [OpenIncident(|t.alerts|)] else t.incidents
    requires alert.severity == Critical ==> opens
    ensures LinksInv(t')
  {
    forall a | 0 <= a < |t'.alerts|
      ensures Sum(LinkedTo(a), t'.incidents)
              == (if a < |t.alerts| then Sum(LinkedTo(a), t.incidents) else if opens then 1 else 0)
    {
      if opens { SumAppend(LinkedTo(a), t.incidents, OpenIncident(|t.alerts|)); }
      if a == |t.alerts| { Unlinked(t, a); }
    }
  }

  lemma UpdateKeepsLinks(t: Tables, t': Tables, i: nat, incident: IncidentRow)
    requires LinksInv(t) && i < |t.incidents| && incident.alertId == t.incidents[i].alertId
    requires t'.incidents == t.incidents[i := incident] && |t'.alerts| == |t.alerts|
    requires forall a :: 0 <= a < |t.alerts| ==> t'.alerts[a].severity == t.alerts[a].severity
    ensures LinksInv(t')
  {
    forall a | 0 <= a < |t'.alerts|
      ensures Sum(LinkedTo(a), t'.incidents) == Sum(LinkedTo(a), t.incidents)
    {
      SumUpdate(LinkedTo(a), t.incidents, i, incident);
    }
  }

  // ------------------------------------------------------------ what runs keep

  /** A failed attempt adds its worker alert, and a critical one its incident. */
  lemma FailureKeepsAlerts(t: Tables, t': Tables, id: JobId, job: JobRow, startedAt: Time)
    requires AlertsInv(t) && LinksInv(t) && id < |t.jobs| && JobAtRest(t.jobs[id]) && t.jobs[id].status == Queued
    requires job == Begin(t.jobs[id], startedAt) && Fails(job)
    requires id < |t'.jobs| && t'.jobs == t.jobs[id := t'.jobs[id]] && t'.jobs[id].status == JobStatus.Failed
    requires t'.jobs[id].attemptCount == job.attemptCount && t'.jobs[id].maxAttempts == job.maxAttempts
    requires t'.alerts == t.alerts + [OpenAlert(Some(id), WORKER_SOURCE, FailureSeverity(job))]
    requires t'.incidents == t.incidents + (if FailureSeverity(job) == Critical then [OpenIncident(|t.alerts|)] else [])
    ensures AlertsInv(t') && LinksInv(t')
  {
    var alert := OpenAlert(Some(id), WORKER_SOURCE, FailureSeverity(job));
    NewAlertKeepsLinks(t, t', alert, alert.severity == Critical);
    forall j | 0 <= j < |t'.jobs|
      ensures JobAlerts(t', j)
    {
      assert JobAlerts(t, j);
      AppendAlert(t.alerts, alert, j);
    }
  }

  lemma SuccessKeepsAlerts(t: Tables, t': Tables, id: JobId)
    requires AlertsInv(t) && LinksInv(t) && id < |t.jobs| && JobAtRest(t.jobs[id]) && t.jobs[id].status == Queued
    requires id < |t'.jobs| && t'.jobs == t.jobs[id := t'.jobs[id]] && t'.jobs[id].status == Completed
    requires t'.jobs[id].attemptCount == t.jobs[id].attemptCount + 1
    requires t'.alerts == t.alerts && t'.incidents == t.incidents
    ensures AlertsInv(t') && LinksInv(t')
  {
    assert JobAlerts(t, id);
    forall j | 0 <= j < |t'.jobs|
      ensures JobAlerts(t', j)
    {
      assert JobAlerts(t, j);
    }
  }

  lemma {:induction false} ProcessKeepsAlerts(w: World, r: Request)
    requires RestInv(w) && AlertsInv(w.tables) && LinksInv(w.tables) && r.Consume? && r.message in w.queue
    ensures AlertsInv(Exec(w, r).tables) && LinksInv(Exec(w, r).tables)
  {
    var t, t', m := w.tables, Exec(w, r).tables, r.message;
    ProcessKeepsRest(w, r);
    assert Awaited(w, m);
    var id := m.jobId.value;
    var job := Begin(t.jobs[id], r.startedAt);
    assert JobAtRest(t.jobs[id]);
    ProcessWrites(t, id, JobServices.ReasonOf(m), JobServices.RequesterOf(m), r.startedAt, r.finishedAt);
    ProcessRaises(t, id, JobServices.ReasonOf(m), JobServices.RequesterOf(m), r.startedAt, r.finishedAt);
    if Fails(job) { FailureKeepsAlerts(t, t', id, job, r.startedAt); } else { SuccessKeepsAlerts(t, t', id); }
  }

  lemma NewAlertKeepsAlerts(w: World, r: Request)
    requires AlertsInv(w.tables) && LinksInv(w.tables) && r.CreateAlert?
    ensures AlertsInv(Exec(w, r).tables) && LinksInv(Exec(w, r).tables)
  {
    var t, t' := w.tables, Exec(w, r).tables;
    if AlertAccepted(t, r.jobId) {
      var alert := OpenAlert(r.jobId, OPERATOR_SOURCE, r.severity);
      NewAlertKeepsLinks(t, t', alert, r.createIncident || r.severity == Critical);
      forall j | 0 <= j < |t'.jobs|
        ensures JobAlerts(t', j)
      {
        assert JobAlerts(t, j);
        AppendAlert(t.alerts, alert, j);
      }
    }
  }

  lemma JobRequestKeepsAlerts(w: World, r: Request)
    requires RestInv(w) && AlertsInv(w.tables) && (r.CreateJob? || r.RetryRequest?)
    ensures AlertsInv(Exec(w, r).tables)
  {
    var t, t' := w.tables, Exec(w, r).tables;
    forall j | 0 <= j < |t'.jobs|
      ensures JobAlerts(t', j)
    {
      if j < |t.jobs| { assert JobAlerts(t, j); } else { NeverRaised(t, j); }
    }
  }

  lemma ChangedAlertsKeepAlerts(t: Tables, t': Tables, a: nat, alert: AlertRow)
    requires AlertsInv(t) && a < |t.alerts| && SameOrigin(alert, t.alerts[a])
    requires t'.alerts == t.alerts[a := alert] && t'.jobs == t.jobs
    ensures AlertsInv(t')
  {
    forall j | 0 <= j < |t'.jobs|
      ensures JobAlerts(t', j)
    {
      assert JobAlerts(t, j);
      UpdatedAlert(t.alerts, a, alert, j);
    }
  }

  lemma TicketRequestKeepsAlerts(w: World, r: Request)
    requires AlertsInv(w.tables) && LinksInv(w.tables) && (r.AcknowledgeIncident? || r.ResolveIncident?)
    ensures AlertsInv(Exec(w, r).tables) && LinksInv(Exec(w, r).tables)
  {
    var t, t' := w.tables, Exec(w, r).tables;
    if Unresolved(t, r.incident) {
      var i := r.incident;
      var a := t.incidents[i].alertId.value;
      UpdateKeepsLinks(t, t', i, t'.incidents[i]);
      ChangedAlertsKeepAlerts(t, t', a, t'.alerts[a]);
    }
  }

  lemma AlertRequestKeepsAlerts(w: World, r: Request)
    requires AlertsInv(w.tables) && LinksInv(w.tables) && r.AcknowledgeAlert?
    ensures AlertsInv(Exec(w, r).tables) && LinksInv(Exec(w, r).tables)
  {
    var t, t' := w.tables, Exec(w, r).tables;
    if r.alert < |t.alerts| && t' != t {
      ChangedAlertsKeepAlerts(t, t', r.alert, t'.alerts[r.alert]);
    }
  }

  lemma {:induction false} RunsKeepAlerts(rs: seq<Request>)
    ensures AlertsInv(ExecAll(rs).tables) && LinksInv(ExecAll(rs).tables)
  {
    if rs != [] {
      var w, r := ExecAll(rs[..|rs| - 1]), rs[|rs| - 1];
      RunsKeepAlerts(rs[..|rs| - 1]);
      RunsKeepRest(rs[..|rs| - 1]);
      match r
      case CreateJob(_, _, _) => JobRequestKeepsAlerts(w, r);
      case RetryRequest(_, _) => JobRequestKeepsAlerts(w, r);
      case Consume(m, _, _) => if m in w.queue { ProcessKeepsAlerts(w, r); }
      case CreateAlert(_, _, _, _) => NewAlertKeepsAlerts(w, r);
      case AcknowledgeIncident(_, _, _, _) => TicketRequestKeepsAlerts(w, r);
      case ResolveIncident(_, _, _, _, _) => TicketRequestKeepsAlerts(w, r);
      case AcknowledgeAlert(_, _, _) => AlertRequestKeepsAlerts(w, r);
    }
  }

  // ------------------------------------------------------------- main results

  /** The alerts agree with the retry guard, and count the failures one by one. */
  lemma {:induction false} AlertsTellRetries(rs: seq<Request>, j: JobId)
    requires j < |ExecAll(rs).tables.jobs|
    ensures var t := ExecAll(rs).tables;
      var job := t.jobs[j];
      && Sum(Raised(j), t.alerts) == Failures(job)
      && Sum(RaisedCritical(j), t.alerts) == (if Exhausted(job) then 1 else 0)
      && (job.status == JobStatus.Failed ==> (CanRetry(job) <==> Newest(t.alerts, j) == Some(High)))
  {
    RunsKeepAlerts(rs);
    assert JobAlerts(ExecAll(rs).tables, j);
  }

  /** An alert has at most one incident, a critical one exactly one, and every incident has its alert. */
  lemma {:induction false} IncidentsAreLinkedOnce(rs: seq<Request>)
    ensures LinksInv(ExecAll(rs).tables)
  {
    RunsKeepAlerts(rs);
  }
}
