/**
 The interleaved protocol next to the services: what each await writes, and that
 an undisturbed call or delivery, taken await by await through the protocol,
 writes what the service's use case writes, store by store in the source's order.
 */
module StepByStep {
  import opened Domain
  import opened JobRules
  import opened Tables
  import opened UseCases
  import opened Protocol
  import opened Termination

  datatype Store = Jobs | Attempts | Alerts | Incidents | Notifications | Audit | Actions | Queue | Exchange

  /** All stores, and the order in which they have been written to. */
  datatype Journal = Journal(tables: Tables, queue: multiset<Message>, events: seq<Event>, order: seq<Store>)

  function Logging(s: Journal, actor: Option<OperatorId>, fact: Fact): Journal {
    s.(tables := s.tables.(audit := s.tables.audit + [AuditEntry(actor, fact)]), order := s.order + [Audit])
  }

  function Publishing(s: Journal, event: Event): Journal {
    s.(events := s.events + [event], order := s.order + [Exchange])
  }

  function Noting(s: Journal, note: Notification): Journal {
    s.(tables := s.tables.(notifications := s.tables.notifications + [note]), order := s.order + [Notifications])
  }

  function LastOf<T>(rows: seq<T>): nat {
    if rows == [] then 0 else |rows| - 1
  }

  // ---------------------------------------------------------------- API calls

  /** The call that creates or retries job `j`, for an operator; `job` is the row it saved. */
  datatype CallInfo = CallInfo(j: JobId, retried: bool, operator: OperatorId, job: JobRow)

  /** What a call's await writes. */
  function CallWrites(call: Call, info: CallInfo, s: Journal): Journal {
    match call
    case SaveAction =>
      var command := if info.retried then RetryJobCommand else CreateJobCommand;
      s.(tables := s.tables.(actions := s.tables.actions + [OperatorAction(info.operator, command, info.j)]),
         order := s.order + [Actions])
    case LogCall =>
      Logging(s, Some(info.operator),
              if info.retried then JobRetried(info.j, info.job.attemptCount, info.job.maxAttempts)
              else JobCreated(info.j, info.job.maxAttempts))
    case SaveCallNotification => Noting(s, JobNotification(info.j))
    case PublishWork =>
      var reason := if info.retried then "retry" else "created";
      s.(queue := s.queue + multiset{Message(Some(info.j), Some(reason), Some(info.operator))},
         order := s.order + [Queue])
    case PublishCreated => Publishing(s, JobCreatedEvent(info.j, info.retried))
    case PublishCallNotification => Publishing(s, NotificationCreatedEvent(LastOf(s.tables.notifications)))
    case _ => s
  }

  /** The rest of an undisturbed call. */
  function FinishCall(call: Call, info: CallInfo, s: Journal): Journal
    decreases CallRank(call)
  {
    if call.Returned? || call.CallThrew? then s else FinishCall(NextCall(call), info, CallWrites(call, info, s))
  }

  const CALL_ORDER := [Actions, Audit, Notifications, Queue, Exchange, Exchange]

  lemma AppendTwo<T>(xs: seq<T>, a: T, b: T)
    ensures xs + [a] + [b] == xs + [a, b]
  {
  }

  /** The call is its six awaits, in this order. */
  lemma {:induction false} CallAwaits(info: CallInfo, s: Journal) returns (s1: Journal, s2: Journal)
    ensures s1 == CallWrites(SaveCallNotification, info, CallWrites(LogCall, info, CallWrites(SaveAction, info, s)))
    ensures s2 == CallWrites(PublishCallNotification, info,
                             CallWrites(PublishCreated, info, CallWrites(PublishWork, info, s1)))
    ensures FinishCall(SaveAction, info, s) == s2
  {
    s1 := CallWrites(SaveCallNotification, info, CallWrites(LogCall, info, CallWrites(SaveAction, info, s)));
    var sent := CallWrites(PublishWork, info, s1);
    s2 := CallWrites(PublishCallNotification, info, CallWrites(PublishCreated, info, sent));
    assert FinishCall(PublishCreated, info, sent) == s2;
    assert FinishCall(SaveCallNotification, info, CallWrites(LogCall, info, CallWrites(SaveAction, info, s)))
        == FinishCall(PublishCreated, info, sent);
  }

  lemma {:induction false} CallFinishes(info: CallInfo, s: Journal)
    ensures var reason := if info.retried then "retry" else "created";
      var command := if info.retried then RetryJobCommand else CreateJobCommand;
      var fact := if info.retried then JobRetried(info.j, info.job.attemptCount, info.job.maxAttempts)
                  else JobCreated(info.j, info.job.maxAttempts);
      FinishCall(SaveAction, info, s)
      == Journal(s.tables.(actions := s.tables.actions + [OperatorAction(info.operator, command, info.j)],
                           audit := s.tables.audit + [AuditEntry(Some(info.operator), fact)],
                           notifications := s.tables.notifications + [JobNotification(info.j)]),
                 s.queue + multiset{Message(Some(info.j), Some(reason), Some(info.operator))},
                 s.events + [JobCreatedEvent(info.j, info.retried),
                             NotificationCreatedEvent(|s.tables.notifications|)],
                 s.order + CALL_ORDER)
  {
    var _, _ := CallAwaits(info, s);
    AppendTwo(s.events, JobCreatedEvent(info.j, info.retried), NotificationCreatedEvent(|s.tables.notifications|));
    assert s.order + [Actions] + [Audit] + [Notifications] + [Queue] + [Exchange] + [Exchange] == s.order + CALL_ORDER;
  }

  /** Once its row is saved, an undisturbed create writes what the service does; the message is sent after all rows. */
  lemma CreateStepByStep(t: Tables, queue: multiset<Message>, events: seq<Event>, payload: Payload,
                         maxAttempts: Attempts, operator: OperatorId)
    ensures var c, j := NewCell(payload, maxAttempts), |t.jobs|;
      |c.calls| == 1
      && FinishCall(c.calls[0], CallInfo(j, false, operator, c.job),
                    Journal(t.(jobs := t.jobs + [c.job]), queue, events, [Jobs]))
         == Journal(AfterCreateJob(t, payload, maxAttempts, operator),
                    queue + multiset{Message(Some(j), Some("created"), Some(operator))},
                    events + CreateJobEvents(t), [Jobs] + CALL_ORDER)
  {
    var job := NewJob(payload, maxAttempts);
    CallFinishes(CallInfo(|t.jobs|, false, operator, job), Journal(t.(jobs := t.jobs + [job]), queue, events, [Jobs]));
  }

  /** The same for an accepted retry. */
  lemma RetryStepByStep(t: Tables, queue: multiset<Message>, events: seq<Event>, j: JobId, operator: OperatorId,
                        c: Cell, now: Time)
    requires RetryAccepted(t, j) && c.job == t.jobs[j]
    ensures var c' := Act(c, now, Retry);
      |c'.calls| == |c.calls| + 1
      && FinishCall(c'.calls[|c.calls|], CallInfo(j, true, operator, c'.job),
                    Journal(t.(jobs := t.jobs[j := c'.job]), queue, events, [Jobs]))
         == Journal(AfterRetry(t, j, operator),
                    queue + multiset{Message(Some(j), Some("retry"), Some(operator))},
                    events + RetryEvents(t, j), [Jobs] + CALL_ORDER)
  {
    var job := Requeue(t.jobs[j]);
    CallFinishes(CallInfo(j, true, operator, job), Journal(t.(jobs := t.jobs[j := job]), queue, events, [Jobs]));
  }

  // --------------------------------------------------------------- deliveries

  /** The message a delivery handles. */
  datatype Delivery = Delivery(j: JobId, reason: string, requestedBy: string)

  function SavingJob(s: Journal, j: JobId, job: JobRow): Journal {
    if j < |s.tables.jobs|
    then s.(tables := s.tables.(jobs := s.tables.jobs[j := job]), order := s.order + [Jobs]) else s
  }

  function SavingAttempt(s: Journal, j: JobId, n: nat, row: AttemptRow): Journal {
    s.(tables := s.tables.(attempts := s.tables.attempts[(j, n) := row]), order := s.order + [Attempts])
  }

  /** What a handler's await between its first and last save of the row writes. */
  function RunWrites(job: JobRow, startedAt: Time, run: RunStage, d: Delivery, s: Journal): Journal {
    var n := job.attemptCount;
    match run
    case PublishProcessing => Publishing(s, JobProcessingEvent(d.j, n))
    case LogProcessing => Logging(s, None, JobProcessing(d.j, n, d.reason, d.requestedBy))
    case InsertAttempt =>
      if (d.j, n) in s.tables.attempts then s else SavingAttempt(s, d.j, n, OpenAttempt(startedAt))
    case Work => s
    case SaveAttempt(f) => SavingAttempt(s, d.j, n, CloseAttempt(job, startedAt, f))
    case SaveJob(f) => SavingJob(s, d.j, Conclude(job, f))
  }

  /** What a handler's await after its last save of the row writes. */
  function SettleWrites(job: JobRow, stage: SettleStage, d: Delivery, s: Journal): Journal {
    var t, n, severity := s.tables, job.attemptCount, FailureSeverity(job);
    var failed, critical := job.status == JobStatus.Failed, FailureSeverity(job) == Critical;
    var alert, incident := LastOf(t.alerts), LastOf(t.incidents);
    match stage
    case SaveAlert =>
      s.(tables := t.(alerts := t.alerts + [OpenAlert(Some(d.j), WORKER_SOURCE, severity)]),
         order := s.order + [Alerts])
    case SaveIncident =>
      s.(tables := t.(incidents := t.incidents + [OpenIncident(alert)]), order := s.order + [Incidents])
    case SaveNotification =>
      Noting(s, if failed then AlertNotification(d.j, alert, if critical then Some(incident) else None, severity)
                else JobNotification(d.j))
    case LogOutcome =>
      Logging(s, None, if failed then JobFailed(d.j, n, FailedOnAttempt(n)) else JobCompleted(d.j, n))
    case LogAlert => Logging(s, None, AlertRaised(alert, severity, d.j))
    case LogIncident => Logging(s, None, IncidentCreated(incident, alert))
    case PublishOutcome =>
      Publishing(s, if failed then JobFailedEvent(d.j, n, FailedOnAttempt(n)) else JobCompletedEvent(d.j, n))
    case PublishAlert => Publishing(s, AlertRaisedEvent(alert, severity, if critical then Some(incident) else None))
    case PublishIncident => Publishing(s, IncidentUpdatedEvent(incident, Open, Some(alert)))
    case PublishNotification => Publishing(s, NotificationCreatedEvent(LastOf(t.notifications)))
    case Done => s
  }

  /** What a handler's next await writes. */
  function HandlerWrites(h: Handler, d: Delivery, s: Journal): Journal {
    match h
    case Loaded(_, job, _) => SavingJob(s, d.j, job)
    case Running(_, job, startedAt, run) => RunWrites(job, startedAt, run, d, s)
    case Settling(_, job, stage) => SettleWrites(job, stage, d, s)
    case _ => s
  }

  lemma SettlingLowersRank(c: Cell, i: nat)
    requires i < |c.handlers| && c.handlers[i].Settling?
    ensures |AdvanceSettle(c, i).handlers| == |c.handlers|
    ensures HandlerRank(AdvanceSettle(c, i).handlers[i]) < HandlerRank(c.handlers[i])
  {
  }

  lemma RunningLowersRank(c: Cell, now: Time, i: nat)
    requires i < |c.handlers| && c.handlers[i].Running?
    ensures |AdvanceRun(c, now, i).handlers| == |c.handlers|
    ensures HandlerRank(AdvanceRun(c, now, i).handlers[i]) < HandlerRank(c.handlers[i])
  {
  }

  lemma AwaitLowersRank(c: Cell, now: Time, i: nat)
    requires i < |c.handlers| && (c.handlers[i].Loaded? || c.handlers[i].Running? || c.handlers[i].Settling?)
    ensures |AdvanceHandler(c, now, i).handlers| == |c.handlers|
    ensures HandlerRank(AdvanceHandler(c, now, i).handlers[i]) < HandlerRank(c.handlers[i])
  {
    if c.handlers[i].Settling? { SettlingLowersRank(c, i); }
    if c.handlers[i].Running? { RunningLowersRank(c, now, i); }
  }

  /** The rest of an undisturbed delivery up to its release, with the clock at `now`. */
  function FinishHandler(c: Cell, now: Time, i: nat, d: Delivery, s: Journal): Journal
    requires i < |c.handlers|
    decreases HandlerRank(c.handlers[i])
  {
    var h := c.handlers[i];
    if !h.Loaded? && !h.Running? && !h.Settling? then s
    else
      AwaitLowersRank(c, now, i);
      FinishHandler(AdvanceHandler(c, now, i), now, i, d, HandlerWrites(h, d, s))
  }

  /** One await of the handler, and the rest. */
  lemma OneAwait(c: Cell, now: Time, i: nat, d: Delivery, s: Journal)
    requires i < |c.handlers| && (c.handlers[i].Loaded? || c.handlers[i].Running? || c.handlers[i].Settling?)
    ensures |AdvanceHandler(c, now, i).handlers| == |c.handlers|
    ensures FinishHandler(c, now, i, d, s)
            == FinishHandler(AdvanceHandler(c, now, i), now, i, d, HandlerWrites(c.handlers[i], d, s))
  {
    AwaitLowersRank(c, now, i);
  }

  predicate SettlesAt(c: Cell, i: nat, job: JobRow, stage: SettleStage) {
    i < |c.handlers| && c.handlers[i].Settling? && c.handlers[i].job == job && c.handlers[i].settle == stage
  }

  /** Two awaits of a settling handler. */
  lemma {:induction false} TwoAwaits(c: Cell, now: Time, i: nat, d: Delivery, s: Journal, job: JobRow,
                                     stage: SettleStage, next: SettleStage) returns (c': Cell)
    requires SettlesAt(c, i, job, stage) && next == NextSettle(job, stage) && !next.Done?
    ensures |c'.handlers| == |c.handlers|
    ensures NextSettle(job, next).Done? ==> c'.handlers[i].Releasing?
    ensures !NextSettle(job, next).Done? ==> SettlesAt(c', i, job, NextSettle(job, next))
    ensures FinishHandler(c, now, i, d, s)
            == FinishHandler(c', now, i, d, SettleWrites(job, next, d, SettleWrites(job, stage, d, s)))
  {
    OneAwait(c, now, i, d, s);
    c' := AdvanceHandler(c, now, i);
    OneAwait(c', now, i, d, SettleWrites(job, stage, d, s));
    c' := AdvanceHandler(c', now, i);
  }

  lemma {:induction false} NextAwait(c: Cell, now: Time, i: nat, d: Delivery, s: Journal, job: JobRow,
                                     stage: SettleStage) returns (c': Cell)
    requires SettlesAt(c, i, job, stage)
    ensures |c'.handlers| == |c.handlers|
    ensures NextSettle(job, stage).Done? ==> c'.handlers[i].Releasing?
    ensures !NextSettle(job, stage).Done? ==> SettlesAt(c', i, job, NextSettle(job, stage))
    ensures FinishHandler(c, now, i, d, s) == FinishHandler(c', now, i, d, SettleWrites(job, stage, d, s))
  {
    OneAwait(c, now, i, d, s);
    c' := AdvanceHandler(c, now, i);
  }

  // The records of a success, and of a failure: its alert and incident, its audit entries, its events.

  function Succeeding(job: JobRow, d: Delivery, s: Journal): Journal {
    SettleWrites(job, PublishNotification, d, SettleWrites(job, PublishOutcome, d,
      SettleWrites(job, LogOutcome, d, SettleWrites(job, SaveNotification, d, s))))
  }

  function Escalating(job: JobRow, d: Delivery, s: Journal): Journal {
    var alerted := SettleWrites(job, SaveAlert, d, s);
    SettleWrites(job, SaveNotification, d,
                 if FailureSeverity(job) == Critical then SettleWrites(job, SaveIncident, d, alerted) else alerted)
  }

  function Explaining(job: JobRow, d: Delivery, s: Journal): Journal {
    var told := SettleWrites(job, LogAlert, d, SettleWrites(job, LogOutcome, d, s));
    if FailureSeverity(job) == Critical then SettleWrites(job, LogIncident, d, told) else told
  }

  function Announcing(job: JobRow, d: Delivery, s: Journal): Journal {
    var told := SettleWrites(job, PublishAlert, d, SettleWrites(job, PublishOutcome, d, s));
    SettleWrites(job, PublishNotification, d,
                 if FailureSeverity(job) == Critical then SettleWrites(job, PublishIncident, d, told) else told)
  }

  lemma {:induction false} SuccessAwaits(c: Cell, now: Time, i: nat, d: Delivery, s: Journal, job: JobRow)
    requires SettlesAt(c, i, job, FirstSettle(job)) && job.status == Completed
    ensures FinishHandler(c, now, i, d, s) == Succeeding(job, d, s)
  {
    var s1 := SettleWrites(job, LogOutcome, d, SettleWrites(job, SaveNotification, d, s));
    var c1 := TwoAwaits(c, now, i, d, s, job, SaveNotification, LogOutcome);
    var c2 := TwoAwaits(c1, now, i, d, s1, job, PublishOutcome, PublishNotification);
  }

  lemma {:induction false} EscalationAwaits(c: Cell, now: Time, i: nat, d: Delivery, s: Journal, job: JobRow)
    returns (c': Cell)
    requires SettlesAt(c, i, job, FirstSettle(job)) && job.status == JobStatus.Failed
    ensures SettlesAt(c', i, job, LogOutcome)
    ensures FinishHandler(c, now, i, d, s) == FinishHandler(c', now, i, d, Escalating(job, d, s))
  {
    if FailureSeverity(job) == Critical {
      c' := TwoAwaits(c, now, i, d, s, job, SaveAlert, SaveIncident);
      c' := NextAwait(c', now, i, d, SettleWrites(job, SaveIncident, d, SettleWrites(job, SaveAlert, d, s)),
                      job, SaveNotification);
    } else {
      c' := TwoAwaits(c, now, i, d, s, job, SaveAlert, SaveNotification);
    }
  }

  lemma {:induction false} ExplanationAwaits(c: Cell, now: Time, i: nat, d: Delivery, s: Journal, job: JobRow)
    returns (c': Cell)
    requires SettlesAt(c, i, job, LogOutcome) && job.status == JobStatus.Failed
    ensures SettlesAt(c', i, job, PublishOutcome)
    ensures FinishHandler(c, now, i, d, s) == FinishHandler(c', now, i, d, Explaining(job, d, s))
  {
    c' := TwoAwaits(c, now, i, d, s, job, LogOutcome, LogAlert);
    if FailureSeverity(job) == Critical {
      c' := NextAwait(c', now, i, d, SettleWrites(job, LogAlert, d, SettleWrites(job, LogOutcome, d, s)),
                      job, LogIncident);
    }
  }

  lemma {:induction false} AnnouncementAwaits(c: Cell, now: Time, i: nat, d: Delivery, s: Journal, job: JobRow)
    requires SettlesAt(c, i, job, PublishOutcome) && job.status == JobStatus.Failed
    ensures FinishHandler(c, now, i, d, s) == Announcing(job, d, s)
  {
    var told := SettleWrites(job, PublishAlert, d, SettleWrites(job, PublishOutcome, d, s));
    var c' := TwoAwaits(c, now, i, d, s, job, PublishOutcome, PublishAlert);
    if FailureSeverity(job) == Critical {
      c' := TwoAwaits(c', now, i, d, told, job, PublishIncident, PublishNotification);
    } else {
      c' := NextAwait(c', now, i, d, told, job, PublishNotification);
    }
  }

  lemma {:induction false} FailureAwaits(c: Cell, now: Time, i: nat, d: Delivery, s: Journal, job: JobRow)
    requires SettlesAt(c, i, job, FirstSettle(job)) && job.status == JobStatus.Failed
    ensures FinishHandler(c, now, i, d, s) == Announcing(job, d, Explaining(job, d, Escalating(job, d, s)))
  {
    var c1 := EscalationAwaits(c, now, i, d, s, job);
    var c2 := ExplanationAwaits(c1, now, i, d, Escalating(job, d, s), job);
    AnnouncementAwaits(c2, now, i, d, Explaining(job, d, Escalating(job, d, s)), job);
  }

  // --------------------------------------------------- next to the service's

  /** The row and the attempt row of a concluded attempt. */
  function Concluded(t: Tables, j: JobId, startedAt: Time, finishedAt: Time): Tables
    requires j < |t.jobs|
  {
    var job := t.jobs[j];
    t.(jobs := t.jobs[j := Conclude(job, finishedAt)],
       attempts := t.attempts[(j, job.attemptCount) := CloseAttempt(job, startedAt, finishedAt)])
  }

  /** What is published about the attempt's outcome. */
  function OutcomeEvents(t: Tables, j: JobId): seq<Event>
    requires j < |t.jobs|
  {
    var job, a, k, note := t.jobs[j], |t.alerts|, |t.incidents|, NotificationCreatedEvent(|t.notifications|);
    var n := job.attemptCount;
    if !Fails(job) then [JobCompletedEvent(j, n), note]
    else if FailureSeverity(job) == Critical
    then [JobFailedEvent(j, n, FailedOnAttempt(n)), AlertRaisedEvent(a, Critical, Some(k)),
          IncidentUpdatedEvent(k, Open, Some(a)), note]
    else [JobFailedEvent(j, n, FailedOnAttempt(n)), AlertRaisedEvent(a, High, None), note]
  }

  /** The stores a settled outcome is recorded in, in order. */
  function OutcomeOrder(job: JobRow): seq<Store> {
    if !Fails(job) then [Notifications, Audit, Exchange, Exchange]
    else if FailureSeverity(job) == Critical
    then [Alerts, Incidents, Notifications, Audit, Audit, Audit, Exchange, Exchange, Exchange, Exchange]
    else [Alerts, Notifications, Audit, Audit, Exchange, Exchange, Exchange]
  }

  lemma {:induction false} SuccessWrites(t: Tables, s: Journal, d: Delivery, startedAt: Time, finishedAt: Time)
    requires d.j < |t.jobs| && s.tables == Concluded(t, d.j, startedAt, finishedAt) && !Fails(t.jobs[d.j])
    ensures Succeeding(Conclude(t.jobs[d.j], finishedAt), d, s)
            == Journal(AfterComplete(t, d.j, startedAt, finishedAt), s.queue, s.events + OutcomeEvents(t, d.j),
                       s.order + OutcomeOrder(t.jobs[d.j]))
  {
    AppendTwo(s.events, OutcomeEvents(t, d.j)[0], OutcomeEvents(t, d.j)[1]);
    assert s.order + [Notifications] + [Audit] + [Exchange] + [Exchange] == s.order + OutcomeOrder(t.jobs[d.j]);
  }

  lemma {:induction false} EscalationWrites(s: Journal, d: Delivery, job: JobRow)
    requires job.status == JobStatus.Failed
    ensures var t, severity, a, k := s.tables, FailureSeverity(job), |s.tables.alerts|, |s.tables.incidents|;
      Escalating(job, d, s)
      == Journal(t.(alerts := t.alerts + [OpenAlert(Some(d.j), WORKER_SOURCE, severity)],
                    incidents := if severity == Critical then t.incidents + [OpenIncident(a)] else t.incidents,
                    notifications := t.notifications
                      + [AlertNotification(d.j, a, if severity == Critical then Some(k) else None, severity)]),
                 s.queue, s.events,
                 s.order + (if severity == Critical then [Alerts, Incidents] else [Alerts]) + [Notifications])
  {
    AppendTwo(s.order, Alerts, Incidents);
  }

  lemma {:induction false} ExplanationWrites(s: Journal, d: Delivery, job: JobRow, facts: seq<AuditEntry>)
    requires job.status == JobStatus.Failed
    requires var n, a := job.attemptCount, LastOf(s.tables.alerts);
      facts == [AuditEntry(None, JobFailed(d.j, n, FailedOnAttempt(n))),
                AuditEntry(None, AlertRaised(a, FailureSeverity(job), d.j))]
               + (if FailureSeverity(job) == Critical
                  then [AuditEntry(None, IncidentCreated(LastOf(s.tables.incidents), a))] else [])
    ensures Explaining(job, d, s)
            == Journal(s.tables.(audit := s.tables.audit + facts), s.queue, s.events,
                       s.order + (if FailureSeverity(job) == Critical then [Audit, Audit, Audit] else [Audit, Audit]))
  {
    AppendTwo(s.order, Audit, Audit);
    AppendTwo(s.tables.audit, facts[0], facts[1]);
    if FailureSeverity(job) == Critical {
      assert s.order + [Audit, Audit] + [Audit] == s.order + [Audit, Audit, Audit];
      assert s.tables.audit + [facts[0], facts[1]] + [facts[2]] == s.tables.audit + facts;
    } else {
      assert facts == [facts[0], facts[1]];
    }
  }

  lemma {:induction false} AnnouncementWrites(s: Journal, d: Delivery, job: JobRow, events: seq<Event>)
    requires job.status == JobStatus.Failed
    requires var n, a, k := job.attemptCount, LastOf(s.tables.alerts), LastOf(s.tables.incidents);
      var note := NotificationCreatedEvent(LastOf(s.tables.notifications));
      events == if FailureSeverity(job) == Critical
                then [JobFailedEvent(d.j, n, FailedOnAttempt(n)), AlertRaisedEvent(a, Critical, Some(k)),
                      IncidentUpdatedEvent(k, Open, Some(a)), note]
                else [JobFailedEvent(d.j, n, FailedOnAttempt(n)), AlertRaisedEvent(a, High, None), note]
    ensures Announcing(job, d, s)
            == Journal(s.tables, s.queue, s.events + events,
                       s.order + (if FailureSeverity(job) == Critical then [Exchange, Exchange, Exchange, Exchange]
                                  else [Exchange, Exchange, Exchange]))
  {
    AppendTwo(s.order, Exchange, Exchange);
    AppendTwo(s.events, events[0], events[1]);
    AppendTwo(s.order + [Exchange, Exchange], Exchange, Exchange);
    if FailureSeverity(job) == Critical {
      AppendTwo(s.events + [events[0], events[1]], events[2], events[3]);
      assert s.events + [events[0], events[1]] + [events[2], events[3]] == s.events + events;
      assert s.order + [Exchange, Exchange] + [Exchange, Exchange]
          == s.order + [Exchange, Exchange, Exchange, Exchange];
    } else {
      assert s.events + [events[0], events[1]] + [events[2]] == s.events + events;
      assert s.order + [Exchange, Exchange] + [Exchange] == s.order + [Exchange, Exchange, Exchange];
    }
  }

  lemma {:induction false} FailureWrites(t: Tables, s: Journal, d: Delivery, startedAt: Time, finishedAt: Time)
    requires d.j < |t.jobs| && s.tables == Concluded(t, d.j, startedAt, finishedAt) && Fails(t.jobs[d.j])
    ensures var job := Conclude(t.jobs[d.j], finishedAt);
      Announcing(job, d, Explaining(job, d, Escalating(job, d, s)))
      == Journal(AfterFail(t, d.j, startedAt, finishedAt), s.queue, s.events + OutcomeEvents(t, d.j),
                 s.order + OutcomeOrder(t.jobs[d.j]))
  {
    var job := Conclude(t.jobs[d.j], finishedAt);
    var s1 := Escalating(job, d, s);
    EscalationWrites(s, d, job);
    ExplanationWrites(s1, d, job, FailureFacts(t, d.j));
    AnnouncementWrites(Explaining(job, d, s1), d, job, OutcomeEvents(t, d.j));
    OrderOfFailure(s.order, t.jobs[d.j]);
  }

  lemma OrderOfFailure(order: seq<Store>, job: JobRow)
    requires Fails(job)
    ensures var critical := FailureSeverity(job) == Critical;
      order + (if critical then [Alerts, Incidents] else [Alerts]) + [Notifications]
      + (if critical then [Audit, Audit, Audit] else [Audit, Audit])
      + (if critical then [Exchange, Exchange, Exchange, Exchange] else [Exchange, Exchange, Exchange])
      == order + OutcomeOrder(job)
  {
  }

  predicate Settles(c: Cell, i: nat, j: JobId, t: Tables, finishedAt: Time) {
    j < |t.jobs| && SettlesAt(c, i, Conclude(t.jobs[j], finishedAt), FirstSettle(Conclude(t.jobs[j], finishedAt)))
  }

  /** From the last save of the row on, a handler records the outcome as the service does. */
  lemma {:induction false} SettlingStepByStep(c: Cell, now: Time, i: nat, d: Delivery, s: Journal, t: Tables,
                                              startedAt: Time, finishedAt: Time)
    requires Settles(c, i, d.j, t, finishedAt) && s.tables == Concluded(t, d.j, startedAt, finishedAt)
    ensures FinishHandler(c, now, i, d, s)
            == Journal(if Fails(t.jobs[d.j]) then AfterFail(t, d.j, startedAt, finishedAt)
                       else AfterComplete(t, d.j, startedAt, finishedAt),
                       s.queue, s.events + OutcomeEvents(t, d.j), s.order + OutcomeOrder(t.jobs[d.j]))
  {
    var job := Conclude(t.jobs[d.j], finishedAt);
    if Fails(t.jobs[d.j]) {
      FailureAwaits(c, now, i, d, s, job);
      FailureWrites(t, s, d, startedAt, finishedAt);
    } else {
      SuccessAwaits(c, now, i, d, s, job);
      SuccessWrites(t, s, d, startedAt, finishedAt);
    }
  }

  // ------------------------------------------------------------- the attempt

  predicate RunsAt(c: Cell, i: nat, job: JobRow, startedAt: Time, run: RunStage) {
    && i < |c.handlers| && c.handlers[i].Running?
    && c.handlers[i].job == job && c.handlers[i].startedAt == startedAt && c.handlers[i].run == run
  }

  /** From the first save of the row to the attempt insert. */
  lemma {:induction false} BeginAwaits(c: Cell, now: Time, i: nat, d: Delivery, s: Journal, job: JobRow,
                                       startedAt: Time)
    returns (c': Cell)
    requires i < |c.handlers| && c.handlers[i].Loaded?
    requires c.handlers[i].job == job && c.handlers[i].startedAt == startedAt
    ensures RunsAt(c', i, job, startedAt, InsertAttempt) && c'.attempts == c.attempts
    ensures FinishHandler(c, now, i, d, s)
            == FinishHandler(c', now, i, d,
                 RunWrites(job, startedAt, LogProcessing, d,
                           RunWrites(job, startedAt, PublishProcessing, d, SavingJob(s, d.j, job))))
  {
    var s1 := SavingJob(s, d.j, job);
    OneAwait(c, now, i, d, s);
    c' := AdvanceHandler(c, now, i);
    OneAwait(c', now, i, d, s1);
    c' := AdvanceHandler(c', now, i);
    OneAwait(c', now, i, d, RunWrites(job, startedAt, PublishProcessing, d, s1));
    c' := AdvanceHandler(c', now, i);
  }

  /** The attempt insert and the work. */
  lemma {:induction false} InsertAwaits(c: Cell, now: Time, i: nat, d: Delivery, s: Journal, job: JobRow,
                                        startedAt: Time)
    returns (c': Cell)
    requires RunsAt(c, i, job, startedAt, InsertAttempt) && job.attemptCount !in c.attempts
    ensures RunsAt(c', i, job, startedAt, SaveAttempt(now))
    ensures FinishHandler(c, now, i, d, s)
            == FinishHandler(c', now, i, d, RunWrites(job, startedAt, InsertAttempt, d, s))
  {
    OneAwait(c, now, i, d, s);
    c' := AdvanceHandler(c, now, i);
    OneAwait(c', now, i, d, RunWrites(job, startedAt, InsertAttempt, d, s));
    c' := AdvanceHandler(c', now, i);
  }

  /** The two saves that conclude it. */
  lemma {:induction false} SaveAwaits(c: Cell, now: Time, i: nat, d: Delivery, s: Journal, job: JobRow,
                                      startedAt: Time, finishedAt: Time)
    returns (c': Cell)
    requires RunsAt(c, i, job, startedAt, SaveAttempt(finishedAt))
    ensures SettlesAt(c', i, Conclude(job, finishedAt), FirstSettle(Conclude(job, finishedAt)))
    ensures FinishHandler(c, now, i, d, s)
            == FinishHandler(c', now, i, d,
                 SavingJob(SavingAttempt(s, d.j, job.attemptCount, CloseAttempt(job, startedAt, finishedAt)),
                           d.j, Conclude(job, finishedAt)))
  {
    OneAwait(c, now, i, d, s);
    c' := AdvanceHandler(c, now, i);
    OneAwait(c', now, i, d, RunWrites(job, startedAt, SaveAttempt(finishedAt), d, s));
    c' := AdvanceHandler(c', now, i);
  }

  /** The attempt and its outcome. */
  lemma {:induction false} AttemptStepByStep(c: Cell, now: Time, i: nat, d: Delivery, s: Journal, startedAt: Time)
    requires d.j < |s.tables.jobs| && RunsAt(c, i, s.tables.jobs[d.j], startedAt, InsertAttempt)
    requires var n := s.tables.jobs[d.j].attemptCount; n !in c.attempts && (d.j, n) !in s.tables.attempts
    ensures var job := s.tables.jobs[d.j];
      FinishHandler(c, now, i, d, s)
      == Journal(if Fails(job) then AfterFail(s.tables, d.j, startedAt, now)
                 else AfterComplete(s.tables, d.j, startedAt, now),
                 s.queue, s.events + OutcomeEvents(s.tables, d.j),
                 s.order + [Attempts] + [Attempts] + [Jobs] + OutcomeOrder(job))
  {
    var t, job := s.tables, s.tables.jobs[d.j];
    var s1 := SavingAttempt(s, d.j, job.attemptCount, OpenAttempt(startedAt));
    var s2 := SavingJob(SavingAttempt(s1, d.j, job.attemptCount, CloseAttempt(job, startedAt, now)),
                        d.j, Conclude(job, now));
    assert s2.tables == Concluded(t, d.j, startedAt, now);
    var c1 := InsertAwaits(c, now, i, d, s, job, startedAt);
    var c2 := SaveAwaits(c1, now, i, d, s1, job, startedAt, now);
    SettlingStepByStep(c2, now, i, d, s2, t, startedAt, now);
  }

  /** The stores a delivery writes to, in order. */
  function DeliveryOrder(t: Tables, j: JobId, startedAt: Time): seq<Store>
    requires j < |t.jobs|
  {
    [Jobs, Exchange, Audit]
    + (if InsertConflicts(t, j) then []
       else [Attempts, Attempts, Jobs] + OutcomeOrder(Begin(t.jobs[j], startedAt)))
  }

  lemma EventsOfProcess(t: Tables, j: JobId, begun: Tables, startedAt: Time)
    requires j < |t.jobs| && j < |begun.jobs| && begun.alerts == t.alerts && begun.incidents == t.incidents
    requires begun.notifications == t.notifications && !InsertConflicts(t, j)
    requires begun.jobs[j] == Begin(t.jobs[j], startedAt)
    ensures ProcessEvents(t, j) == [JobProcessingEvent(j, t.jobs[j].attemptCount + 1)] + OutcomeEvents(begun, j)
  {
  }

  lemma {:induction false} BeginWrites(d: Delivery, t: Tables, queue: multiset<Message>, events: seq<Event>,
                                       startedAt: Time)
    returns (s: Journal)
    requires d.j < |t.jobs|
    ensures s == Journal(AfterBegin(t, d.j, d.reason, d.requestedBy, startedAt), queue,
                         events + [JobProcessingEvent(d.j, t.jobs[d.j].attemptCount + 1)], [Jobs, Exchange, Audit])
    ensures var job := Begin(t.jobs[d.j], startedAt);
      s == RunWrites(job, startedAt, LogProcessing, d,
                     RunWrites(job, startedAt, PublishProcessing, d,
                               SavingJob(Journal(t, queue, events, []), d.j, job)))
  {
    assert [] + [Jobs] + [Exchange] + [Audit] == [Jobs, Exchange, Audit];
    s := Journal(AfterBegin(t, d.j, d.reason, d.requestedBy, startedAt), queue,
                 events + [JobProcessingEvent(d.j, t.jobs[d.j].attemptCount + 1)], [Jobs, Exchange, Audit]);
  }

  /**
   A handler that has read the row, taken await by await through the protocol,
   writes what the worker service writes, also when its attempt insert conflicts,
   and to the stores in this order.
   */
  lemma {:induction false} DeliveryStepByStep(c: Cell, now: Time, i: nat, d: Delivery, t: Tables,
                                              queue: multiset<Message>, events: seq<Event>, startedAt: Time)
    requires i < |c.handlers| && d.j < |t.jobs| && c.handlers[i].Loaded?
    requires c.handlers[i].job == Begin(t.jobs[d.j], startedAt) && c.handlers[i].startedAt == startedAt
    requires t.jobs[d.j].attemptCount + 1 in c.attempts <==> InsertConflicts(t, d.j)
    ensures FinishHandler(c, now, i, d, Journal(t, queue, events, []))
            == Journal(AfterProcess(t, d.j, d.reason, d.requestedBy, startedAt, now), queue,
                       events + ProcessEvents(t, d.j), DeliveryOrder(t, d.j, startedAt))
  {
    var job := Begin(t.jobs[d.j], startedAt);
    var s1 := BeginWrites(d, t, queue, events, startedAt);
    var c1 := BeginAwaits(c, now, i, d, Journal(t, queue, events, []), job, startedAt);
    if InsertConflicts(t, d.j) {
      OneAwait(c1, now, i, d, s1);
    } else {
      AttemptStepByStep(c1, now, i, d, s1, startedAt);
      EventsOfProcess(t, d.j, s1.tables, startedAt);
      assert s1.events + OutcomeEvents(s1.tables, d.j) == events + ProcessEvents(t, d.j);
      assert s1.order + [Attempts] + [Attempts] + [Jobs] + OutcomeOrder(job) == DeliveryOrder(t, d.j, startedAt);
    }
  }
}
