/**
 Sequential runs: the audit log alone rebuilds the current state. Folding its
 entries gives every job's status and attempt numbers, every alert's status and
 severity, and every incident's status and link.
 */
module AuditHistory {
  import opened Domain
  import opened JobRules
  import opened Sums
  import opened Tables
  import opened UseCases
  import opened Requests

  datatype JobView = JobView(status: JobStatus, attemptCount: nat, maxAttempts: Attempts)
  datatype AlertView = AlertView(status: TicketStatus, severity: Severity, source: string)
  datatype IncidentView = IncidentView(status: TicketStatus, alert: Option<AlertId>)

  datatype View = View(
    jobs: map<JobId, JobView>,
    alerts: map<AlertId, AlertView>,
    incidents: map<IncidentId, IncidentView>)

  function JobTo(v: View, j: JobId, status: JobStatus, attempt: nat): View {
    if j in v.jobs then v.(jobs := v.jobs[j := v.jobs[j].(status := status, attemptCount := attempt)]) else v
  }

  function AlertTo(v: View, a: AlertId, status: TicketStatus): View {
    if a in v.alerts then v.(alerts := v.alerts[a := v.alerts[a].(status := status)]) else v
  }

  function LinkTo(v: View, a: Option<AlertId>, status: TicketStatus): View {
    if a.Some? then AlertTo(v, a.value, status) else v
  }

  function IncidentTo(v: View, i: IncidentId, status: TicketStatus): View {
    if i in v.incidents then v.(incidents := v.incidents[i := v.incidents[i].(status := status)]) else v
  }

  /** What one audit entry says happened. */
  function Apply(v: View, fact: Fact): View {
    match fact
    case JobCreated(j, maxAttempts) => v.(jobs := v.jobs[j := JobView(Queued, 0, maxAttempts)])
    case JobRetried(j, count, maxAttempts) => v.(jobs := v.jobs[j := JobView(Queued, count, maxAttempts)])
    case JobProcessing(j, n, _, _) => JobTo(v, j, Processing, n)
    case JobCompleted(j, n) => JobTo(v, j, Completed, n)
    case JobFailed(j, n, _) => JobTo(v, j, JobStatus.Failed, n)
    case AlertRaised(a, severity, _) => v.(alerts := v.alerts[a := AlertView(Open, severity, "processing-service")])
    case AlertCreated(a, severity, source, incident) =>
      var v' := v.(alerts := v.alerts[a := AlertView(Open, severity, source)]);
      if incident.Some? then v'.(incidents := v.incidents[incident.value := IncidentView(Open, Some(a))]) else v'
    case AlertAcknowledged(a) => AlertTo(v, a, Acknowledged)
    case IncidentCreated(i, a) => v.(incidents := v.incidents[i := IncidentView(Open, Some(a))])
    case IncidentAcknowledged(i) =>
      IncidentTo(if i in v.incidents then LinkTo(v, v.incidents[i].alert, Acknowledged) else v, i, Acknowledged)
    case IncidentResolved(i, linked) => IncidentTo(LinkTo(v, linked, Resolved), i, Resolved)
  }

  const NOTHING := View(map[], map[], map[])

  function Entry(): (View, AuditEntry) -> View {
    (v: View, e: AuditEntry) => Apply(v, e.fact)
  }

  function Fold(audit: seq<AuditEntry>): View {
    FoldLeft(Entry(), NOTHING, audit)
  }

  // -------------------------------------------------------- the tables' own view

  function JobViewOf(job: JobRow): JobView {
    JobView(job.status, job.attemptCount, job.maxAttempts)
  }

  function AlertViewOf(alert: AlertRow): AlertView {
    AlertView(alert.status, alert.severity, alert.source)
  }

  function IncidentViewOf(incident: IncidentRow): IncidentView {
    IncidentView(incident.status, incident.alertId)
  }

  function JobsOf(jobs: seq<JobRow>): map<JobId, JobView> {
    map j: JobId | j < |jobs| :: JobViewOf(jobs[j])
  }

  function AlertsOf(alerts: seq<AlertRow>): map<AlertId, AlertView> {
    map a: AlertId | a < |alerts| :: AlertViewOf(alerts[a])
  }

  function IncidentsOf(incidents: seq<IncidentRow>): map<IncidentId, IncidentView> {
    map i: IncidentId | i < |incidents| :: IncidentViewOf(incidents[i])
  }

  function ViewOf(t: Tables): View {
    View(JobsOf(t.jobs), AlertsOf(t.alerts), IncidentsOf(t.incidents))
  }

  lemma JobWritten(jobs: seq<JobRow>, j: JobId, job: JobRow)
    ensures j < |jobs| ==> JobsOf(jobs[j := job]) == JobsOf(jobs)[j := JobViewOf(job)]
    ensures j == |jobs| ==> JobsOf(jobs + [job]) == JobsOf(jobs)[j := JobViewOf(job)]
  {
  }

  lemma AlertWritten(alerts: seq<AlertRow>, a: AlertId, alert: AlertRow)
    ensures a < |alerts| ==> AlertsOf(alerts[a := alert]) == AlertsOf(alerts)[a := AlertViewOf(alert)]
    ensures a == |alerts| ==> AlertsOf(alerts + [alert]) == AlertsOf(alerts)[a := AlertViewOf(alert)]
  {
  }

  lemma IncidentWritten(incidents: seq<IncidentRow>, i: IncidentId, incident: IncidentRow)
    ensures i < |incidents|
            ==> IncidentsOf(incidents[i := incident]) == IncidentsOf(incidents)[i := IncidentViewOf(incident)]
    ensures i == |incidents|
            ==> IncidentsOf(incidents + [incident]) == IncidentsOf(incidents)[i := IncidentViewOf(incident)]
  {
  }

  lemma Folded(audit: seq<AuditEntry>, e: AuditEntry)
    ensures Fold(audit + [e]) == Apply(Fold(audit), e.fact)
  {
    FoldAppend(Entry(), NOTHING, audit, e);
  }

  /** The entries of a failed attempt, with and without an incident. */
  lemma FoldedFailure(audit: seq<AuditEntry>, facts: seq<AuditEntry>)
    requires |facts| == 2 || |facts| == 3
    ensures var v := Apply(Apply(Fold(audit), facts[0].fact), facts[1].fact);
      Fold(audit + facts) == if |facts| == 2 then v else Apply(v, facts[2].fact)
  {
    FoldAppendTwo(Entry(), NOTHING, audit, facts[0], facts[1]);
    if |facts| == 2 {
      assert facts == [facts[0], facts[1]];
    } else {
      assert audit + facts == audit + [facts[0], facts[1]] + [facts[2]];
      Folded(audit + [facts[0], facts[1]], facts[2]);
    }
  }

  // --------------------------------------------------- each use case is recorded

  lemma BeginIsRecorded(t: Tables, id: JobId, reason: string, requestedBy: string, startedAt: Time)
    requires id < |t.jobs| && Fold(t.audit) == ViewOf(t)
    ensures var t' := AfterBegin(t, id, reason, requestedBy, startedAt); Fold(t'.audit) == ViewOf(t')
  {
    var t' := AfterBegin(t, id, reason, requestedBy, startedAt);
    Folded(t.audit, t'.audit[|t.audit|]);
    JobWritten(t.jobs, id, t'.jobs[id]);
  }

  lemma CompletionIsRecorded(t: Tables, id: JobId, startedAt: Time, finishedAt: Time)
    requires id < |t.jobs| && !Fails(t.jobs[id]) && Fold(t.audit) == ViewOf(t)
    ensures var t' := AfterComplete(t, id, startedAt, finishedAt); Fold(t'.audit) == ViewOf(t')
  {
    var t' := AfterComplete(t, id, startedAt, finishedAt);
    Folded(t.audit, t'.audit[|t.audit|]);
    JobWritten(t.jobs, id, t'.jobs[id]);
  }

  lemma HighFailureIsRecorded(t: Tables, id: JobId, startedAt: Time, finishedAt: Time, t': Tables)
    requires id < |t.jobs| && Fails(t.jobs[id]) && Fold(t.audit) == ViewOf(t)
    requires FailureSeverity(t.jobs[id]) == High && t' == AfterFail(t, id, startedAt, finishedAt)
    ensures Fold(t'.audit) == ViewOf(t')
  {
    FoldedFailure(t.audit, FailureFacts(t, id));
    JobWritten(t.jobs, id, t'.jobs[id]);
    AlertWritten(t.alerts, |t.alerts|, t'.alerts[|t.alerts|]);
  }

  lemma CriticalFailureIsRecorded(t: Tables, id: JobId, startedAt: Time, finishedAt: Time, t': Tables)
    requires id < |t.jobs| && Fails(t.jobs[id]) && Fold(t.audit) == ViewOf(t)
    requires FailureSeverity(t.jobs[id]) == Critical && t' == AfterFail(t, id, startedAt, finishedAt)
    ensures Fold(t'.audit) == ViewOf(t')
  {
    FoldedFailure(t.audit, FailureFacts(t, id));
    JobWritten(t.jobs, id, t'.jobs[id]);
    AlertWritten(t.alerts, |t.alerts|, t'.alerts[|t.alerts|]);
    IncidentWritten(t.incidents, |t.incidents|, t'.incidents[|t.incidents|]);
  }

  lemma FailureIsRecorded(t: Tables, id: JobId, startedAt: Time, finishedAt: Time)
    requires id < |t.jobs| && Fails(t.jobs[id]) && Fold(t.audit) == ViewOf(t)
    ensures var t' := AfterFail(t, id, startedAt, finishedAt); Fold(t'.audit) == ViewOf(t')
  {
    var t' := AfterFail(t, id, startedAt, finishedAt);
    if FailureSeverity(t.jobs[id]) == Critical { CriticalFailureIsRecorded(t, id, startedAt, finishedAt, t'); }
    else { HighFailureIsRecorded(t, id, startedAt, finishedAt, t'); }
  }

  lemma ProcessIsRecorded(t: Tables, id: JobId, reason: string, requestedBy: string, startedAt: Time, finishedAt: Time)
    requires Fold(t.audit) == ViewOf(t)
    ensures var t' := AfterProcess(t, id, reason, requestedBy, startedAt, finishedAt); Fold(t'.audit) == ViewOf(t')
  {
    if id < |t.jobs| {
      var begun := AfterBegin(t, id, reason, requestedBy, startedAt);
      BeginIsRecorded(t, id, reason, requestedBy, startedAt);
      if !InsertConflicts(t, id) {
        if Fails(begun.jobs[id]) {
          FailureIsRecorded(begun, id, startedAt, finishedAt);
        } else {
          CompletionIsRecorded(begun, id, startedAt, finishedAt);
        }
      }
    }
  }

  lemma JobRequestIsRecorded(w: World, r: Request)
    requires Fold(w.tables.audit) == ViewOf(w.tables) && (r.CreateJob? || r.RetryRequest?)
    ensures Fold(Exec(w, r).tables.audit) == ViewOf(Exec(w, r).tables)
  {
    var t, t' := w.tables, Exec(w, r).tables;
    if t' != t {
      Folded(t.audit, t'.audit[|t.audit|]);
      var id := if r.CreateJob? then |t.jobs| else r.job;
      JobWritten(t.jobs, id, t'.jobs[id]);
    }
  }

  lemma {:induction false} AlertIsRecorded(t: Tables, jobId: Option<JobId>, severity: Severity, createIncident: bool,
                                           operator: OperatorId, t': Tables)
    requires Fold(t.audit) == ViewOf(t)
    requires t' == AfterCreateAlert(t, jobId, OPERATOR_SOURCE, severity, createIncident, operator)
    ensures Fold(t'.audit) == ViewOf(t')
  {
    var a, i := |t.alerts|, |t.incidents|;
    if AlertAccepted(t, jobId) {
      Folded(t.audit, t'.audit[|t.audit|]);
      AlertWritten(t.alerts, a, t'.alerts[a]);
      if |t'.incidents| > i { IncidentWritten(t.incidents, i, t'.incidents[i]); }
    }
  }

  /** Viewing an updated alert is updating the viewed alert. */
  lemma LinkedView(alerts: seq<AlertRow>, a: Option<AlertId>, change: AlertRow -> AlertRow,
                   status: TicketStatus, v: View)
    requires forall row :: AlertViewOf(change(row)) == AlertViewOf(row).(status := status)
    requires v.alerts == AlertsOf(alerts)
    ensures LinkTo(v, a, status) == v.(alerts := AlertsOf(UpdateAlert(alerts, a, change)))
  {
    if a.Some? && a.value < |alerts| { AlertWritten(alerts, a.value, change(alerts[a.value])); }
  }

  lemma AcknowledgementIsRecorded(t: Tables, i: IncidentId, operator: OperatorId, at: Time, alertAt: Time)
    requires Fold(t.audit) == ViewOf(t)
    ensures var t' := AfterAcknowledge(t, i, operator, at, alertAt); Fold(t'.audit) == ViewOf(t')
  {
    var t' := AfterAcknowledge(t, i, operator, at, alertAt);
    if Unresolved(t, i) {
      Folded(t.audit, t'.audit[|t.audit|]);
      LinkedView(t.alerts, t.incidents[i].alertId, row => AcknowledgedAlert(row, operator, alertAt),
                 Acknowledged, ViewOf(t));
      IncidentWritten(t.incidents, i, t'.incidents[i]);
    }
  }

  lemma ResolutionIsRecorded(t: Tables, i: IncidentId, operator: OperatorId, ackAt: Time, at: Time, alertAt: Time)
    requires Fold(t.audit) == ViewOf(t)
    ensures var t' := AfterResolve(t, i, operator, ackAt, at, alertAt); Fold(t'.audit) == ViewOf(t')
  {
    var t' := AfterResolve(t, i, operator, ackAt, at, alertAt);
    if Unresolved(t, i) {
      Folded(t.audit, t'.audit[|t.audit|]);
      LinkedView(t.alerts, t.incidents[i].alertId, row => ResolvedAlert(row, operator, alertAt), Resolved, ViewOf(t));
      IncidentWritten(t.incidents, i, t'.incidents[i]);
    }
  }

  lemma AlertAcknowledgementIsRecorded(t: Tables, a: AlertId, operator: OperatorId, at: Time)
    requires Fold(t.audit) == ViewOf(t)
    ensures var t' := AfterAcknowledgeAlert(t, a, operator, at); Fold(t'.audit) == ViewOf(t')
  {
    var t' := AfterAcknowledgeAlert(t, a, operator, at);
    if t' != t {
      Folded(t.audit, t'.audit[|t.audit|]);
      AlertWritten(t.alerts, a, t'.alerts[a]);
    }
  }

  lemma ConsumeIsRecorded(w: World, r: Request)
    requires Fold(w.tables.audit) == ViewOf(w.tables) && r.Consume?
    ensures var t' := Exec(w, r).tables; Fold(t'.audit) == ViewOf(t')
  {
    var m := r.message;
    if m.jobId.Some? {
      ProcessIsRecorded(w.tables, m.jobId.value, JobServices.ReasonOf(m), JobServices.RequesterOf(m),
                        r.startedAt, r.finishedAt);
    }
  }

  lemma TicketRequestIsRecorded(w: World, r: Request)
    requires Fold(w.tables.audit) == ViewOf(w.tables)
    requires r.AcknowledgeIncident? || r.ResolveIncident? || r.AcknowledgeAlert?
    ensures var t' := Exec(w, r).tables; Fold(t'.audit) == ViewOf(t')
  {
    match r
    case AcknowledgeIncident(i, operator, at, alertAt) =>
      AcknowledgementIsRecorded(w.tables, i, operator, at, alertAt);
    case ResolveIncident(i, operator, ackAt, at, alertAt) =>
      ResolutionIsRecorded(w.tables, i, operator, ackAt, at, alertAt);
    case AcknowledgeAlert(a, operator, at) => AlertAcknowledgementIsRecorded(w.tables, a, operator, at);
  }

  lemma RequestIsRecorded(w: World, r: Request)
    requires Fold(w.tables.audit) == ViewOf(w.tables)
    ensures var t' := Exec(w, r).tables; Fold(t'.audit) == ViewOf(t')
  {
    match r
    case CreateJob(_, _, _) => JobRequestIsRecorded(w, r);
    case RetryRequest(_, _) => JobRequestIsRecorded(w, r);
    case Consume(_, _, _) => ConsumeIsRecorded(w, r);
    case CreateAlert(jobId, severity, createIncident, operator) =>
      AlertIsRecorded(w.tables, jobId, severity, createIncident, operator, Exec(w, r).tables);
    case _ => TicketRequestIsRecorded(w, r);
  }

  // ------------------------------------------------------------- main results

  /** After any run, the audit log folds to the state of the tables. */
  lemma {:induction false} AuditRebuildsTheState(rs: seq<Request>)
    ensures Fold(ExecAll(rs).tables.audit) == ViewOf(ExecAll(rs).tables)
  {
    if rs != [] {
      AuditRebuildsTheState(rs[..|rs| - 1]);
      RequestIsRecorded(ExecAll(rs[..|rs| - 1]), rs[|rs| - 1]);
    } else {
      assert ViewOf(EMPTY_TABLES) == NOTHING;
    }
  }
}
