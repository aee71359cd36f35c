/**
 Sequential runs: which rows there are and where each came from. Jobs are the
 create requests, alerts and incidents the accepted alert requests and the failed
 attempts, and operator actions the accepted commands, each in order; no later
 request changes an origin.
 */
module RequestLedger {
  import opened Domain
  import opened JobRules
  import opened Tables
  import opened UseCases
  import opened Requests

  /** The columns of an alert that say where it came from. */
  datatype Origin = Origin(jobId: Option<JobId>, source: string, severity: Severity)

  datatype Ledger = Ledger(
    jobs: seq<(Payload, Attempts)>,
    alerts: seq<Origin>,
    links: seq<Option<AlertId>>,
    actions: seq<OperatorAction>)

  function OriginOf(row: AlertRow): Origin {
    Origin(row.jobId, row.source, row.severity)
  }

  /** What the tables hold of it. */
  function Kept(t: Tables): Ledger {
    Ledger(seq(|t.jobs|, j requires 0 <= j < |t.jobs| => (t.jobs[j].payload, t.jobs[j].maxAttempts)),
           seq(|t.alerts|, a requires 0 <= a < |t.alerts| => OriginOf(t.alerts[a])),
           seq(|t.incidents|, i requires 0 <= i < |t.incidents| => t.incidents[i].alertId),
           t.actions)
  }

  /** The alert and, if it opens one, the incident that link to each other. */
  function WithAlert(l: Ledger, origin: Origin, opens: bool): Ledger {
    l.(alerts := l.alerts + [origin], links := if opens then l.links + [Some(|l.alerts|)] else l.links)
  }

  function WithAction(l: Ledger, operator: OperatorId, command: Command, target: nat): Ledger {
    l.(actions := l.actions + [OperatorAction(operator, command, target)])
  }

  /** The next attempt of the job, if it fails, raises an alert, and an incident when it was the last. */
  function WithAttempt(l: Ledger, j: JobId, job: JobRow): Ledger {
    var n := job.attemptCount + 1;
    if !EvaluateFailure(job.payload, n) then l
    else if n >= job.maxAttempts then WithAlert(l, Origin(Some(j), "processing-service", Critical), true)
    else WithAlert(l, Origin(Some(j), "processing-service", High), false)
  }

  predicate OpenTo(t: Tables, i: IncidentId) {
    i < |t.incidents| && (t.incidents[i].status == Open || t.incidents[i].status == Acknowledged)
  }

  /** What one request adds. */
  function Entered(l: Ledger, w: World, r: Request): Ledger {
    var t := w.tables;
    match r
    case CreateJob(payload, maxAttempts, operator) =>
      WithAction(l.(jobs := l.jobs + [(payload, maxAttempts)]), operator, CreateJobCommand, |l.jobs|)
    case RetryRequest(j, operator) =>
      if j < |t.jobs| && t.jobs[j].status == JobStatus.Failed && t.jobs[j].attemptCount < t.jobs[j].maxAttempts
      then WithAction(l, operator, RetryJobCommand, j) else l
    case Consume(m, _, _) =>
      if m in w.queue && m.jobId.Some? && m.jobId.value < |t.jobs|
      then WithAttempt(l, m.jobId.value, t.jobs[m.jobId.value]) else l
    case CreateAlert(jobId, severity, createIncident, operator) =>
      if jobId.None? || jobId.value < |t.jobs|
      then WithAction(WithAlert(l, Origin(jobId, "operator", severity), createIncident || severity == Critical),
                      operator, CreateAlertCommand, |l.alerts|)
      else l
    case AcknowledgeIncident(i, operator, _, _) =>
      if OpenTo(t, i) then WithAction(l, operator, AcknowledgeCommand, i) else l
    case ResolveIncident(i, operator, _, _, _) =>
      if OpenTo(t, i) then WithAction(l, operator, ResolveCommand, i) else l
    case AcknowledgeAlert(_, _, _) => l
  }

  function LedgerOf(rs: seq<Request>): Ledger {
    if rs == [] then Ledger([], [], [], [])
    else Entered(LedgerOf(rs[..|rs| - 1]), ExecAll(rs[..|rs| - 1]), rs[|rs| - 1])
  }

  lemma SameOrigins(t: Tables, t': Tables)
    requires |t'.jobs| == |t.jobs| && |t'.alerts| == |t.alerts| && |t'.incidents| == |t.incidents|
    requires forall j :: 0 <= j < |t.jobs| ==>
      t'.jobs[j].payload == t.jobs[j].payload && t'.jobs[j].maxAttempts == t.jobs[j].maxAttempts
    requires forall a :: 0 <= a < |t.alerts| ==> OriginOf(t'.alerts[a]) == OriginOf(t.alerts[a])
    requires forall i :: 0 <= i < |t.incidents| ==> t'.incidents[i].alertId == t.incidents[i].alertId
    ensures Kept(t').(actions := t.actions) == Kept(t)
  {
    assert Kept(t').jobs == Kept(t).jobs && Kept(t').alerts == Kept(t).alerts && Kept(t').links == Kept(t).links;
  }

  lemma OneAlertMore(t: Tables, t': Tables, alert: AlertRow, opens: bool)
    requires |t'.jobs| == |t.jobs| && t'.alerts == t.alerts + [alert]
    requires t'.incidents == if opens then t.incidents + [OpenIncident(|t.alerts|)] else t.incidents
    requires forall j :: 0 <= j < |t.jobs| ==>
      t'.jobs[j].payload == t.jobs[j].payload && t'.jobs[j].maxAttempts == t.jobs[j].maxAttempts
    ensures Kept(t').(actions := t.actions) == WithAlert(Kept(t), OriginOf(alert), opens)
  {
    var l, l' := Kept(t), Kept(t');
    assert l'.jobs == l.jobs && l'.alerts == l.alerts + [OriginOf(alert)];
    assert l'.links == if opens then l.links + [Some(|l.alerts|)] else l.links;
  }

  lemma AttemptIsEntered(t: Tables, t': Tables, j: JobId, job: JobRow, finishedAt: Time)
    requires j < |t.jobs| && job.payload == t.jobs[j].payload && job.maxAttempts == t.jobs[j].maxAttempts
    requires job.attemptCount == t.jobs[j].attemptCount + 1
    requires t'.jobs == t.jobs[j := Conclude(job, finishedAt)] && t'.actions == t.actions
    requires t'.alerts
             == t.alerts + (if Fails(job) then [OpenAlert(Some(j), WORKER_SOURCE, FailureSeverity(job))] else [])
    requires t'.incidents
             == t.incidents
                + (if Fails(job) && FailureSeverity(job) == Critical then [OpenIncident(|t.alerts|)] else [])
    ensures Kept(t') == WithAttempt(Kept(t), j, t.jobs[j])
  {
    if Fails(job) {
      OneAlertMore(t, t', OpenAlert(Some(j), WORKER_SOURCE, FailureSeverity(job)), FailureSeverity(job) == Critical);
    } else {
      SameOrigins(t, t');
    }
  }

  lemma ConsumeIsEntered(w: World, r: Request, w': World)
    requires RestInv(w) && w' == Exec(w, r) && r.Consume? && r.message in w.queue
    ensures Kept(w'.tables) == Entered(Kept(w.tables), w, r)
  {
    var t, m := w.tables, r.message;
    ProcessKeepsRest(w, r);
    var j := m.jobId.value;
    ProcessWrites(t, j, JobServices.ReasonOf(m), JobServices.RequesterOf(m), r.startedAt, r.finishedAt);
    ProcessRaises(t, j, JobServices.ReasonOf(m), JobServices.RequesterOf(m), r.startedAt, r.finishedAt);
    AttemptIsEntered(t, w'.tables, j, Begin(t.jobs[j], r.startedAt), r.finishedAt);
  }

  lemma CreateIsEntered(w: World, r: Request, w': World)
    requires w' == Exec(w, r) && r.CreateJob?
    ensures Kept(w'.tables) == Entered(Kept(w.tables), w, r)
  {
    var l, l' := Kept(w.tables), Kept(w'.tables);
    assert l'.jobs == l.jobs + [(r.payload, r.maxAttempts)] && l'.alerts == l.alerts && l'.links == l.links;
  }

  lemma AlertIsEntered(w: World, r: Request, w': World)
    requires w' == Exec(w, r) && r.CreateAlert?
    ensures Kept(w'.tables) == Entered(Kept(w.tables), w, r)
  {
    if AlertAccepted(w.tables, r.jobId) {
      OneAlertMore(w.tables, w'.tables, OpenAlert(r.jobId, OPERATOR_SOURCE, r.severity),
                   r.createIncident || r.severity == Critical);
    }
  }

  lemma OtherIsEntered(w: World, r: Request, w': World)
    requires w' == Exec(w, r) && !r.Consume? && !r.CreateJob? && !r.CreateAlert?
    ensures Kept(w'.tables) == Entered(Kept(w.tables), w, r)
  {
    SameOrigins(w.tables, w'.tables);
  }

  /** After any sequential run the tables' rows are those the requests entered. */
  lemma {:induction false} TablesKeepTheLedger(rs: seq<Request>)
    ensures Kept(ExecAll(rs).tables) == LedgerOf(rs)
  {
    if rs != [] {
      var w, r := ExecAll(rs[..|rs| - 1]), rs[|rs| - 1];
      TablesKeepTheLedger(rs[..|rs| - 1]);
      RunsKeepRest(rs[..|rs| - 1]);
      match r
      case CreateJob(_, _, _) => CreateIsEntered(w, r, ExecAll(rs));
      case CreateAlert(_, _, _, _) => AlertIsEntered(w, r, ExecAll(rs));
      case Consume(m, _, _) => if m in w.queue { ConsumeIsEntered(w, r, ExecAll(rs)); }
      case _ => OtherIsEntered(w, r, ExecAll(rs));
    }
  }

  /** In particular an operator's alert asked to open an incident has one, whatever its severity. */
  lemma {:induction false} WantedIncidentIsOpened(rs: seq<Request>, r: Request)
    requires r.CreateAlert? && (r.createIncident || r.severity == Critical)
    requires r.jobId.Some? ==> r.jobId.value < |ExecAll(rs).tables.jobs|
    ensures var t, t' := ExecAll(rs).tables, Exec(ExecAll(rs), r).tables;
      && |t'.alerts| == |t.alerts| + 1 && |t'.incidents| == |t.incidents| + 1
      && t'.incidents[|t.incidents|].alertId == Some(|t.alerts|)
      && t'.incidents[|t.incidents|].status == Open && t'.alerts[|t.alerts|].status == Open
      && OriginOf(t'.alerts[|t.alerts|]) == Origin(r.jobId, "operator", r.severity)
  {
  }
}
