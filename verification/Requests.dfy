/**
 Whole runs of use cases, one after another: what the routes and the queue
 consumer can do to the tables and the queue, starting from empty tables.
 */
module Requests {
  import opened Domain
  import opened JobRules
  import opened Tables
  import opened UseCases
  import opened JobServices

  datatype World = World(tables: Tables, queue: multiset<Message>)

  datatype Request =
    | CreateJob(payload: Payload, maxAttempts: Attempts, operator: OperatorId)
    | RetryRequest(job: JobId, operator: OperatorId)
    | Consume(message: Message, startedAt: Time, finishedAt: Time)
    | CreateAlert(jobId: Option<JobId>, severity: Severity, createIncident: bool, operator: OperatorId)
    | AcknowledgeIncident(incident: IncidentId, operator: OperatorId, at: Time, alertAt: Time)
    | ResolveIncident(incident: IncidentId, operator: OperatorId, ackAt: Time, at: Time, alertAt: Time)
    | AcknowledgeAlert(alert: AlertId, operator: OperatorId, at: Time)

  /** Requests a route or the consumer can make; no route acknowledges an alert. */
  predicate Routed(r: Request) {
    !r.AcknowledgeAlert?
  }

  function Exec(w: World, r: Request): World {
    var t := w.tables;
    match r
    case CreateJob(payload, maxAttempts, operator) =>
      World(AfterCreateJob(t, payload, maxAttempts, operator),
            w.queue + multiset{Message(Some(|t.jobs|), Some("created"), Some(operator))})
    case RetryRequest(id, operator) =>
      World(AfterRetry(t, id, operator),
            if RetryAccepted(t, id)
            then w.queue + multiset{Message(Some(id), Some("retry"), Some(operator))} else w.queue)
    case Consume(m, startedAt, finishedAt) =>
      if m !in w.queue then w
      else World(if m.jobId.None? then t
                 else AfterProcess(t, m.jobId.value, ReasonOf(m), RequesterOf(m), startedAt, finishedAt),
                 w.queue - multiset{m})
    case CreateAlert(jobId, severity, createIncident, operator) =>
      w.(tables := AfterCreateAlert(t, jobId, OPERATOR_SOURCE, severity, createIncident, operator))
    case AcknowledgeIncident(id, operator, at, alertAt) =>
      w.(tables := AfterAcknowledge(t, id, operator, at, alertAt))
    case ResolveIncident(id, operator, ackAt, at, alertAt) =>
      w.(tables := AfterResolve(t, id, operator, ackAt, at, alertAt))
    case AcknowledgeAlert(id, operator, at) =>
      w.(tables := AfterAcknowledgeAlert(t, id, operator, at))
  }

  function ExecAll(rs: seq<Request>): World {
    if rs == [] then World(EMPTY_TABLES, multiset{}) else Exec(ExecAll(rs[..|rs| - 1]), rs[|rs| - 1])
  }

  predicate AllRouted(rs: seq<Request>) {
    forall i :: 0 <= i < |rs| ==> Routed(rs[i])
  }

  // ---------------------------------------------------- the job table and queue

  predicate Awaited(w: World, m: Message) {
    && w.queue[m] == 1
    && m.jobId.Some? && m.jobId.value < |w.tables.jobs|
    && w.tables.jobs[m.jobId.value].status == Queued
  }

  predicate JobAtRest(job: JobRow) {
    && job.status != Processing
    && job.attemptCount + (if job.status == Queued then 1 else 0) <= job.maxAttempts
    && (job.status == Completed || job.status == JobStatus.Failed ==> job.attemptCount >= 1)
  }

  /** Between use cases no job is half processed, and a queued message is its job's only one. */
  ghost predicate RestInv(w: World) {
    && (forall m :: m in w.queue ==> Awaited(w, m))
    && (forall m, m' :: m in w.queue && m' in w.queue && m.jobId == m'.jobId ==> m == m')
    && (forall j :: 0 <= j < |w.tables.jobs| ==> JobAtRest(w.tables.jobs[j]))
    && (forall k :: k in w.tables.attempts ==>
          k.0 < |w.tables.jobs| && 1 <= k.1 <= w.tables.jobs[k.0].attemptCount)
  }

  /** The job and attempt rows that processing writes. */
  lemma ProcessWrites(t: Tables, id: JobId, reason: string, requestedBy: string, startedAt: Time, finishedAt: Time)
    requires id < |t.jobs| && !InsertConflicts(t, id)
    ensures var t' := AfterProcess(t, id, reason, requestedBy, startedAt, finishedAt);
      var job := Begin(t.jobs[id], startedAt);
      && t'.jobs == t.jobs[id := Conclude(job, finishedAt)]
      && t'.attempts == t.attempts[(id, job.attemptCount) := CloseAttempt(job, startedAt, finishedAt)]
  {
    var job := Begin(t.jobs[id], startedAt);
    assert t.jobs[id := job][id := Conclude(job, finishedAt)] == t.jobs[id := Conclude(job, finishedAt)];
  }

  /** The alerts and incidents that processing raises. */
  lemma ProcessRaises(t: Tables, id: JobId, reason: string, requestedBy: string, startedAt: Time, finishedAt: Time)
    requires id < |t.jobs| && !InsertConflicts(t, id)
    ensures var t' := AfterProcess(t, id, reason, requestedBy, startedAt, finishedAt);
      var job := Begin(t.jobs[id], startedAt);
      var severity := FailureSeverity(job);
      && t'.alerts == t.alerts + (if Fails(job) then [OpenAlert(Some(id), WORKER_SOURCE, severity)] else [])
      && t'.incidents
         == t.incidents + (if Fails(job) && severity == Critical then [OpenIncident(|t.alerts|)] else [])
  {
  }

  /** The consumed message was its job's only one, so the rest of the queue still waits. */
  lemma ConsumedQueue(w: World, w': World, m: Message)
    requires RestInv(w) && m in w.queue && w'.queue == w.queue - multiset{m}
    requires |w'.tables.jobs| == |w.tables.jobs|
    requires forall j :: 0 <= j < |w.tables.jobs| && Some(j) != m.jobId ==> w'.tables.jobs[j] == w.tables.jobs[j]
    ensures forall m' :: m' in w'.queue ==> Awaited(w', m') && m' in w.queue
  {
    assert Awaited(w, m);
    forall m' | m' in w'.queue
      ensures Awaited(w', m') && m' in w.queue
    {
      assert Awaited(w, m');
      assert m' != m;
    }
  }

  lemma ProcessedKeepsRest(w: World, w': World, m: Message, job: JobRow, row: AttemptRow)
    requires RestInv(w) && m in w.queue && w'.queue == w.queue - multiset{m}
    requires m.jobId.Some? && m.jobId.value < |w.tables.jobs|
    requires var id, n := m.jobId.value, job.attemptCount;
      && w'.tables.jobs == w.tables.jobs[id := job] && w'.tables.attempts == w.tables.attempts[(id, n) := row]
      && JobAtRest(job) && n == w.tables.jobs[id].attemptCount + 1
    ensures RestInv(w')
  {
    ConsumedQueue(w, w', m);
  }

  lemma {:induction false} ProcessKeepsRest(w: World, r: Request)
    requires RestInv(w) && r.Consume? && r.message in w.queue
    ensures r.message.jobId.Some? && r.message.jobId.value < |w.tables.jobs|
    ensures !InsertConflicts(w.tables, r.message.jobId.value)
    ensures RestInv(Exec(w, r))
  {
    var m := r.message;
    assert Awaited(w, m);
    var id := m.jobId.value;
    assert JobAtRest(w.tables.jobs[id]);
    var job := Begin(w.tables.jobs[id], r.startedAt);
    ProcessWrites(w.tables, id, ReasonOf(m), RequesterOf(m), r.startedAt, r.finishedAt);
    ProcessedKeepsRest(w, Exec(w, r), m, Conclude(job, r.finishedAt), CloseAttempt(job, r.startedAt, r.finishedAt));
  }

  lemma RetryKeepsRest(w: World, r: Request)
    requires RestInv(w) && r.RetryRequest?
    ensures RestInv(Exec(w, r))
  {
    var w' := Exec(w, r);
    if RetryAccepted(w.tables, r.job) {
      forall m | m in w'.queue
        ensures Awaited(w', m)
        ensures m in w.queue ==> m.jobId != Some(r.job)
      {
        if m in w.queue { assert Awaited(w, m); }
        if m == Message(Some(r.job), Some("retry"), Some(r.operator)) { assert m !in w.queue; }
      }
    }
  }

  lemma CreateKeepsRest(w: World, r: Request)
    requires RestInv(w) && r.CreateJob?
    ensures RestInv(Exec(w, r))
  {
    var w' := Exec(w, r);
    forall m | m in w'.queue
      ensures Awaited(w', m)
    {
      if m in w.queue { assert Awaited(w, m); }
    }
  }

  lemma {:induction false} ExecKeepsRest(w: World, r: Request)
    requires RestInv(w)
    ensures RestInv(Exec(w, r))
  {
    var w' := Exec(w, r);
    if r.CreateJob? {
      CreateKeepsRest(w, r);
    } else if r.RetryRequest? {
      RetryKeepsRest(w, r);
    } else if r.Consume? {
      if r.message in w.queue { ProcessKeepsRest(w, r); }
    } else {
      assert w'.queue == w.queue && w'.tables.jobs == w.tables.jobs && w'.tables.attempts == w.tables.attempts;
      forall m | m in w'.queue
        ensures Awaited(w', m)
      {
        assert Awaited(w, m);
      }
    }
  }

  lemma {:induction false} RunsKeepRest(rs: seq<Request>)
    ensures RestInv(ExecAll(rs))
  {
    if rs != [] {
      RunsKeepRest(rs[..|rs| - 1]);
      ExecKeepsRest(ExecAll(rs[..|rs| - 1]), rs[|rs| - 1]);
    }
  }

  // ------------------------------------------- the services and the protocol

  /** One job's rows. */
  function RowsOf(t: Tables, j: JobId): JobTables
    requires j < |t.jobs|
  {
    JobTables(t.jobs[j], AttemptsOf(t.attempts, j))
  }

  function AttemptsOf(attempts: map<(JobId, nat), AttemptRow>, j: JobId): map<nat, AttemptRow> {
    map n | n in (set k | k in attempts && k.0 == j :: k.1) :: attempts[(j, n)]
  }

  lemma WrittenAttempt(attempts: map<(JobId, nat), AttemptRow>, j: JobId, n: nat, row: AttemptRow, k: JobId)
    ensures AttemptsOf(attempts[(j, n) := row], k)
            == if k == j then AttemptsOf(attempts, j)[n := row] else AttemptsOf(attempts, k)
  {
    var attempts' := attempts[(j, n) := row];
    forall m: nat
      ensures m in AttemptsOf(attempts', k) <==> (k, m) in attempts'
      ensures m in AttemptsOf(attempts, k) <==> (k, m) in attempts
    {
      if (k, m) in attempts { assert (k, m).1 in (set x | x in attempts && x.0 == k :: x.1); }
      if (k, m) in attempts' { assert (k, m).1 in (set x | x in attempts' && x.0 == k :: x.1); }
    }
  }

  /** On its job's rows an undisturbed `process` is the attempt the interleaved protocol commits. */
  lemma {:induction false} ProcessRunsOneAttempt(t: Tables, j: JobId, reason: string, requestedBy: string,
                                                 startedAt: Time, finishedAt: Time)
    requires j < |t.jobs| && !InsertConflicts(t, j)
    ensures var t' := AfterProcess(t, j, reason, requestedBy, startedAt, finishedAt);
      && |t'.jobs| == |t.jobs|
      && RowsOf(t', j) == RunAttempt(RowsOf(t, j), startedAt, finishedAt)
      && forall k :: 0 <= k < |t.jobs| && k != j ==> RowsOf(t', k) == RowsOf(t, k)
  {
    var job := Begin(t.jobs[j], startedAt);
    ProcessWrites(t, j, reason, requestedBy, startedAt, finishedAt);
    forall k: JobId {
      WrittenAttempt(t.attempts, j, job.attemptCount, CloseAttempt(job, startedAt, finishedAt), k);
    }
  }

  lemma RetryIsTheProtocolsRetry(t: Tables, j: JobId, operator: OperatorId)
    requires j < |t.jobs|
    ensures RowsOf(AfterRetry(t, j, operator), j) == JobRules.RetryJob(RowsOf(t, j))
  {
  }
}
