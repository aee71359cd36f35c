/**
 Sequential runs: the audit log tells the other records. Read from the start it
 gives every operator action, every notification and every published event, in
 order and with the right names; and the worker's entries name the request whose
 message it consumed.
 */
module AuditStory {
  import opened Domain
  import opened JobRules
  import opened Sums
  import opened Tables
  import opened UseCases
  import opened Requests

  /** What has been told so far; `links` are the incidents' alerts, `raisedFor` the job of the last worker alert. */
  datatype Story = Story(
    actions: seq<OperatorAction>,
    notes: seq<Notification>,
    events: seq<Event>,
    links: seq<Option<AlertId>>,
    raisedFor: JobId)

  const UNTOLD := Story([], [], [], [], 0)

  function Acting(s: Story, actor: Option<OperatorId>, command: Command, target: nat): Story {
    if actor.Some? then s.(actions := s.actions + [OperatorAction(actor.value, command, target)]) else s
  }

  function Saying(s: Story, events: seq<Event>): Story {
    s.(events := s.events + events)
  }

  function Noting(s: Story, note: Notification): Story {
    Saying(s.(notes := s.notes + [note]), [NotificationCreatedEvent(|s.notes|)])
  }

  /** One audit entry, told on. */
  function Tell(s: Story, e: AuditEntry): Story {
    match e.fact
    case JobCreated(j, _) =>
      Noting(Saying(Acting(s, e.actor, CreateJobCommand, j), [JobCreatedEvent(j, false)]), JobNotification(j))
    case JobRetried(j, _, _) =>
      Noting(Saying(Acting(s, e.actor, RetryJobCommand, j), [JobCreatedEvent(j, true)]), JobNotification(j))
    case JobProcessing(j, n, _, _) => Saying(s, [JobProcessingEvent(j, n)])
    case JobCompleted(j, n) => Noting(Saying(s, [JobCompletedEvent(j, n)]), JobNotification(j))
    case JobFailed(j, n, error) => Saying(s, [JobFailedEvent(j, n, error)])
    case AlertRaised(a, severity, j) =>
      if severity == Critical
      then Saying(s, [AlertRaisedEvent(a, severity, Some(|s.links|))]).(raisedFor := j)
      else Noting(Saying(s, [AlertRaisedEvent(a, severity, None)]), AlertNotification(j, a, None, severity))
    case IncidentCreated(i, a) =>
      Noting(Saying(s.(links := s.links + [Some(a)]), [IncidentUpdatedEvent(i, Open, Some(a))]),
             AlertNotification(s.raisedFor, a, Some(i), Critical))
    case AlertCreated(a, severity, _, raised) =>
      var told := Saying(Acting(s, e.actor, CreateAlertCommand, a), [AlertRaisedEvent(a, severity, raised)]);
      if raised.Some?
      then Saying(told.(links := told.links + [Some(a)]), [IncidentUpdatedEvent(raised.value, Open, Some(a))])
      else told
    case AlertAcknowledged(a) =>
      if e.actor.Some? then Saying(s, [AlertAcknowledgedEvent(a, e.actor.value)]) else s
    case IncidentAcknowledged(i) =>
      Saying(Acting(s, e.actor, AcknowledgeCommand, i),
             [IncidentUpdatedEvent(i, Acknowledged, if i < |s.links| then s.links[i] else None)])
    case IncidentResolved(i, linked) =>
      Saying(Acting(s, e.actor, ResolveCommand, i), [IncidentUpdatedEvent(i, Resolved, linked)])
  }

  function Teller(): (Story, AuditEntry) -> Story {
    (s: Story, e: AuditEntry) => Tell(s, e)
  }

  function StoryOf(audit: seq<AuditEntry>): Story {
    FoldLeft(Teller(), UNTOLD, audit)
  }

  // ------------------------------------------------------------ published events

  /** What the services publish while handling the request. */
  function EventsFor(w: World, r: Request): seq<Event> {
    var t := w.tables;
    match r
    case CreateJob(_, _, _) => CreateJobEvents(t)
    case RetryRequest(j, _) => RetryEvents(t, j)
    case Consume(m, _, _) => if m in w.queue && m.jobId.Some? then ProcessEvents(t, m.jobId.value) else []
    case CreateAlert(jobId, severity, createIncident, _) => CreateAlertEvents(t, jobId, severity, createIncident)
    case AcknowledgeIncident(i, _, _, _) => IncidentEvents(t, i, Acknowledged)
    case ResolveIncident(i, _, _, _, _) => IncidentEvents(t, i, Resolved)
    case AcknowledgeAlert(a, operator, _) =>
      if a < |t.alerts| && t.alerts[a].status != Resolved then [AlertAcknowledgedEvent(a, operator)] else []
  }

  function PublishedBy(rs: seq<Request>): seq<Event> {
    if rs == [] then [] else PublishedBy(rs[..|rs| - 1]) + EventsFor(ExecAll(rs[..|rs| - 1]), rs[|rs| - 1])
  }

  // ------------------------------------------------------------------ the proof

  function Links(incidents: seq<IncidentRow>): seq<Option<AlertId>> {
    seq(|incidents|, i requires 0 <= i < |incidents| => incidents[i].alertId)
  }

  /** The audit log of the tables tells their other records and these events. */
  predicate Tells(t: Tables, events: seq<Event>) {
    var s := StoryOf(t.audit);
    s.actions == t.actions && s.notes == t.notifications && s.events == events && s.links == Links(t.incidents)
  }

  lemma ToldOneMore(audit: seq<AuditEntry>, e: AuditEntry)
    ensures StoryOf(audit + [e]) == Tell(StoryOf(audit), e)
  {
    FoldAppend(Teller(), UNTOLD, audit, e);
  }

  lemma OpenedLinks(incidents: seq<IncidentRow>, a: AlertId)
    ensures Links(incidents + [OpenIncident(a)]) == Links(incidents) + [Some(a)]
  {
  }

  lemma WrittenLinks(incidents: seq<IncidentRow>, i: nat, row: IncidentRow)
    requires i < |incidents| && row.alertId == incidents[i].alertId
    ensures Links(incidents[i := row]) == Links(incidents)
  {
  }

  lemma JobRequestIsTold(t: Tables, t': Tables, events: seq<Event>, w: World, r: Request)
    requires Tells(t, events) && w.tables == t && (r.CreateJob? || r.RetryRequest?) && t' == Exec(w, r).tables
    ensures Tells(t', events + EventsFor(w, r))
  {
    if t'.audit == t.audit {
      assert events + [] == events;
    } else {
      ToldOneMore(t.audit, t'.audit[|t.audit|]);
    }
  }

  lemma CompletionIsTold(t: Tables, t': Tables, events: seq<Event>, j: JobId, startedAt: Time, finishedAt: Time)
    requires Tells(t, events) && j < |t.jobs| && t' == AfterComplete(t, j, startedAt, finishedAt)
    ensures Tells(t', events + [JobCompletedEvent(j, t.jobs[j].attemptCount),
                                NotificationCreatedEvent(|t.notifications|)])
  {
    ToldOneMore(t.audit, AuditEntry(None, JobCompleted(j, t.jobs[j].attemptCount)));
  }

  function FailureEvents(t: Tables, j: JobId): seq<Event>
    requires j < |t.jobs|
  {
    var n, critical := t.jobs[j].attemptCount, FailureSeverity(t.jobs[j]) == Critical;
    [JobFailedEvent(j, n, FailedOnAttempt(n)),
     AlertRaisedEvent(|t.alerts|, FailureSeverity(t.jobs[j]), if critical then Some(|t.incidents|) else None)]
    + (if critical then [IncidentUpdatedEvent(|t.incidents|, Open, Some(|t.alerts|))] else [])
    + [NotificationCreatedEvent(|t.notifications|)]
  }

  lemma FailureIsTold(t: Tables, t': Tables, events: seq<Event>, j: JobId, startedAt: Time, finishedAt: Time)
    requires Tells(t, events) && j < |t.jobs| && t' == AfterFail(t, j, startedAt, finishedAt)
    ensures Tells(t', events + FailureEvents(t, j))
  {
    var n, a, i := t.jobs[j].attemptCount, |t.alerts|, |t.incidents|;
    var severity := FailureSeverity(t.jobs[j]);
    var failed := t.audit + [AuditEntry(None, JobFailed(j, n, FailedOnAttempt(n)))];
    var raised := failed + [AuditEntry(None, AlertRaised(a, severity, j))];
    ToldOneMore(t.audit, AuditEntry(None, JobFailed(j, n, FailedOnAttempt(n))));
    ToldOneMore(failed, AuditEntry(None, AlertRaised(a, severity, j)));
    if severity == Critical {
      ToldOneMore(raised, AuditEntry(None, IncidentCreated(i, a)));
      OpenedLinks(t.incidents, a);
      assert t'.audit == raised + [AuditEntry(None, IncidentCreated(i, a))];
    } else {
      assert t'.audit == raised;
    }
  }

  lemma BeginIsTold(t: Tables, t': Tables, events: seq<Event>, j: JobId, reason: string, requestedBy: string,
                    startedAt: Time)
    requires Tells(t, events) && j < |t.jobs| && t' == AfterBegin(t, j, reason, requestedBy, startedAt)
    ensures Tells(t', events + [JobProcessingEvent(j, t.jobs[j].attemptCount + 1)])
  {
    ToldOneMore(t.audit, AuditEntry(None, JobProcessing(j, t.jobs[j].attemptCount + 1, reason, requestedBy)));
  }

  lemma ProcessIsTold(t: Tables, t': Tables, events: seq<Event>, j: JobId, reason: string, requestedBy: string,
                      startedAt: Time, finishedAt: Time)
    requires Tells(t, events) && t' == AfterProcess(t, j, reason, requestedBy, startedAt, finishedAt)
    ensures Tells(t', events + ProcessEvents(t, j))
  {
    if j >= |t.jobs| {
      assert events + [] == events;
    } else {
      var begun := AfterBegin(t, j, reason, requestedBy, startedAt);
      var started := events + [JobProcessingEvent(j, t.jobs[j].attemptCount + 1)];
      BeginIsTold(t, begun, events, j, reason, requestedBy, startedAt);
      if InsertConflicts(t, j) {
        assert started == events + ProcessEvents(t, j);
      } else if Fails(begun.jobs[j]) {
        FailureIsTold(begun, t', started, j, startedAt, finishedAt);
        assert started + FailureEvents(begun, j) == events + ProcessEvents(t, j);
      } else {
        CompletionIsTold(begun, t', started, j, startedAt, finishedAt);
        assert started + ProcessEvents(t, j)[1..] == events + ProcessEvents(t, j);
      }
    }
  }

  lemma AlertIsTold(t: Tables, t': Tables, events: seq<Event>, jobId: Option<JobId>, source: string, severity: Severity,
                    createIncident: bool, operator: OperatorId)
    requires Tells(t, events) && t' == AfterCreateAlert(t, jobId, source, severity, createIncident, operator)
    ensures Tells(t', events + CreateAlertEvents(t, jobId, severity, createIncident))
  {
    if AlertAccepted(t, jobId) {
      ToldOneMore(t.audit, t'.audit[|t.audit|]);
      OpenedLinks(t.incidents, |t.alerts|);
    } else {
      assert events + [] == events;
    }
  }

  lemma TicketIsTold(t: Tables, t': Tables, events: seq<Event>, w: World, r: Request)
    requires Tells(t, events) && w.tables == t && (r.AcknowledgeIncident? || r.ResolveIncident?)
    requires t' == Exec(w, r).tables
    ensures Tells(t', events + EventsFor(w, r))
  {
    if Unresolved(t, r.incident) {
      ToldOneMore(t.audit, t'.audit[|t.audit|]);
      WrittenLinks(t.incidents, r.incident, t'.incidents[r.incident]);
    } else {
      assert events + [] == events;
    }
  }

  lemma AlertAcknowledgementIsTold(t: Tables, t': Tables, events: seq<Event>, w: World, r: Request)
    requires Tells(t, events) && w.tables == t && r.AcknowledgeAlert? && t' == Exec(w, r).tables
    ensures Tells(t', events + EventsFor(w, r))
  {
    if r.alert < |t.alerts| && t.alerts[r.alert].status != Resolved {
      ToldOneMore(t.audit, AuditEntry(Some(r.operator), AlertAcknowledged(r.alert)));
    } else {
      assert events + [] == events;
    }
  }

  /** After any sequential run the audit log tells the operator actions, the notifications and the published events. */
  lemma {:induction false} AuditTellsTheRest(rs: seq<Request>)
    ensures Tells(ExecAll(rs).tables, PublishedBy(rs))
  {
    if rs != [] {
      var w, r, events := ExecAll(rs[..|rs| - 1]), rs[|rs| - 1], PublishedBy(rs[..|rs| - 1]);
      var t, t' := w.tables, ExecAll(rs).tables;
      AuditTellsTheRest(rs[..|rs| - 1]);
      match r
      case CreateJob(_, _, _) => JobRequestIsTold(t, t', events, w, r);
      case RetryRequest(_, _) => JobRequestIsTold(t, t', events, w, r);
      case Consume(m, startedAt, finishedAt) =>
        if m in w.queue && m.jobId.Some? {
          ProcessIsTold(t, t', events, m.jobId.value, JobServices.ReasonOf(m), JobServices.RequesterOf(m),
                        startedAt, finishedAt);
        } else {
          assert events + [] == events;
        }
      case CreateAlert(jobId, severity, createIncident, operator) =>
        AlertIsTold(t, t', events, jobId, OPERATOR_SOURCE, severity, createIncident, operator);
      case AcknowledgeIncident(_, _, _, _) => TicketIsTold(t, t', events, w, r);
      case ResolveIncident(_, _, _, _, _) => TicketIsTold(t, t', events, w, r);
      case AcknowledgeAlert(_, _, _) => AlertAcknowledgementIsTold(t, t', events, w, r);
    }
  }

  // --------------------------------------------------------- who asked for it

  /** The last entry that asked for job `j` to be run: its kind and its operator. */
  function Asked(audit: seq<AuditEntry>, j: JobId): Option<(string, OperatorId)> {
    if audit == [] then None
    else
      var e := audit[|audit| - 1];
      if e.fact.JobCreated? && e.fact.job == j && e.actor.Some? then Some(("created", e.actor.value))
      else if e.fact.JobRetried? && e.fact.job == j && e.actor.Some? then Some(("retry", e.actor.value))
      else Asked(audit[..|audit| - 1], j)
  }

  predicate WorkersFact(fact: Fact) {
    fact.JobProcessing? || fact.JobCompleted? || fact.JobFailed? || fact.AlertRaised? || fact.IncidentCreated?
  }

  /** The entry is the system's exactly if the worker makes it, and a run names the request that asked for it. */
  predicate NamesItsCause(audit: seq<AuditEntry>, k: nat)
    requires k < |audit|
  {
    var e := audit[k];
    && (e.actor.None? <==> WorkersFact(e.fact))
    && (e.fact.JobProcessing? ==> Asked(audit[..k], e.fact.job) == Some((e.fact.reason, e.fact.requestedBy)))
  }

  predicate AskedFor(audit: seq<AuditEntry>, m: Message) {
    m.jobId.Some? && m.reason.Some? && m.requestedBy.Some?
    && Asked(audit, m.jobId.value) == Some((m.reason.value, m.requestedBy.value))
  }

  ghost predicate CausesInv(w: World) {
    && (forall k :: 0 <= k < |w.tables.audit| ==> NamesItsCause(w.tables.audit, k))
    && (forall m :: m in w.queue ==> AskedFor(w.tables.audit, m))
  }

  predicate AsksNothing(e: AuditEntry) {
    !e.fact.JobCreated? && !e.fact.JobRetried?
  }

  lemma EntryNames(audit: seq<AuditEntry>, e: AuditEntry)
    requires forall k :: 0 <= k < |audit| ==> NamesItsCause(audit, k)
    requires e.actor.None? <==> WorkersFact(e.fact)
    requires e.fact.JobProcessing? ==> Asked(audit, e.fact.job) == Some((e.fact.reason, e.fact.requestedBy))
    ensures forall k :: 0 <= k <= |audit| ==> NamesItsCause(audit + [e], k)
    ensures AsksNothing(e) ==> forall j :: Asked(audit + [e], j) == Asked(audit, j)
    ensures !AsksNothing(e) && e.actor.Some? ==>
      && Asked(audit + [e], e.fact.job) == Some((if e.fact.JobCreated? then "created" else "retry", e.actor.value))
      && forall j :: j != e.fact.job ==> Asked(audit + [e], j) == Asked(audit, j)
  {
    var all := audit + [e];
    assert all[..|audit|] == audit;
    forall k | 0 <= k <= |audit| ensures NamesItsCause(all, k) {
      if k < |audit| {
        assert NamesItsCause(audit, k);
        assert all[..k] == audit[..k];
      }
    }
  }

  /** Several entries of one use case of the worker, none of them a run. */
  lemma {:induction false} WorkerEntriesName(audit: seq<AuditEntry>, es: seq<AuditEntry>)
    requires forall k :: 0 <= k < |audit| ==> NamesItsCause(audit, k)
    requires forall k :: 0 <= k < |es| ==>
      es[k].actor.None? && WorkersFact(es[k].fact) && !es[k].fact.JobProcessing?
    ensures forall k :: 0 <= k < |audit + es| ==> NamesItsCause(audit + es, k)
    ensures forall j :: Asked(audit + es, j) == Asked(audit, j)
  {
    if es == [] {
      assert audit + es == audit;
    } else {
      var before := es[..|es| - 1];
      WorkerEntriesName(audit, before);
      EntryNames(audit + before, es[|es| - 1]);
      assert audit + es == audit + before + [es[|es| - 1]];
    }
  }

  lemma ProcessNames(t: Tables, t': Tables, m: Message, startedAt: Time, finishedAt: Time)
    requires forall k :: 0 <= k < |t.audit| ==> NamesItsCause(t.audit, k)
    requires AskedFor(t.audit, m)
    requires t' == AfterProcess(t, m.jobId.value, JobServices.ReasonOf(m), JobServices.RequesterOf(m),
                                startedAt, finishedAt)
    ensures forall k :: 0 <= k < |t'.audit| ==> NamesItsCause(t'.audit, k)
    ensures forall j :: Asked(t'.audit, j) == Asked(t.audit, j)
  {
    var j := m.jobId.value;
    if j < |t.jobs| {
      var run := AuditEntry(None, JobProcessing(j, t.jobs[j].attemptCount + 1, m.reason.value, m.requestedBy.value));
      EntryNames(t.audit, run);
      WorkerEntriesName(t.audit + [run], t'.audit[|t.audit| + 1..]);
      assert t'.audit == t.audit + [run] + t'.audit[|t.audit| + 1..];
    }
  }

  lemma ConsumeKeepsCauses(w: World, r: Request, w': World)
    requires CausesInv(w) && r.Consume? && r.message in w.queue && w'.queue == w.queue - multiset{r.message}
    requires r.message.jobId.Some?
    requires w'.tables == AfterProcess(w.tables, r.message.jobId.value, JobServices.ReasonOf(r.message),
                                       JobServices.RequesterOf(r.message), r.startedAt, r.finishedAt)
    ensures CausesInv(w')
  {
    assert AskedFor(w.tables.audit, r.message);
    ProcessNames(w.tables, w'.tables, r.message, r.startedAt, r.finishedAt);
    forall m | m in w'.queue ensures AskedFor(w'.tables.audit, m) { assert m in w.queue; }
  }

  lemma ExecKeepsCauses(w: World, r: Request, w': World)
    requires RestInv(w) && CausesInv(w) && w' == Exec(w, r)
    ensures CausesInv(w')
  {
    if r.Consume? {
      if r.message in w.queue {
        assert AskedFor(w.tables.audit, r.message);
        ConsumeKeepsCauses(w, r, w');
      }
    } else if w'.tables.audit != w.tables.audit {
      EntryKeepsCauses(w, r, w');
    }
  }

  lemma OneOperatorEntry(w: World, r: Request, w': World)
    requires w' == Exec(w, r) && !r.Consume? && w'.tables.audit != w.tables.audit
    ensures |w'.tables.audit| == |w.tables.audit| + 1
    ensures var e := w'.tables.audit[|w.tables.audit|];
      w'.tables.audit == w.tables.audit + [e] && e.actor.Some? && !WorkersFact(e.fact)
  {
  }

  lemma EntryKeepsCauses(w: World, r: Request, w': World)
    requires RestInv(w) && CausesInv(w) && w' == Exec(w, r) && !r.Consume? && w'.tables.audit != w.tables.audit
    ensures CausesInv(w')
  {
    OneOperatorEntry(w, r, w');
    EntryNames(w.tables.audit, w'.tables.audit[|w.tables.audit|]);
    forall m | m in w'.queue ensures AskedFor(w'.tables.audit, m) { QueueNames(w, r, w', m); }
  }

  lemma QueueNames(w: World, r: Request, w': World, m: Message)
    requires RestInv(w) && CausesInv(w) && w' == Exec(w, r) && !r.Consume? && m in w'.queue
    requires |w'.tables.audit| == |w.tables.audit| + 1
    requires var e := w'.tables.audit[|w.tables.audit|];
      && (AsksNothing(e) ==> forall j :: Asked(w'.tables.audit, j) == Asked(w.tables.audit, j))
      && (!AsksNothing(e) && e.actor.Some? ==>
            && Asked(w'.tables.audit, e.fact.job)
               == Some((if e.fact.JobCreated? then "created" else "retry", e.actor.value))
            && forall j :: j != e.fact.job ==> Asked(w'.tables.audit, j) == Asked(w.tables.audit, j))
    ensures AskedFor(w'.tables.audit, m)
  {
    if m in w.queue {
      assert Awaited(w, m) && AskedFor(w.tables.audit, m);
    }
  }

  /**
   After any sequential run the worker's entries are the system's and all others
   an operator's, and each run names the create or retry that asked for it and
   the operator who made it.
   */
  lemma {:induction false} EntriesNameTheirCause(rs: seq<Request>)
    ensures CausesInv(ExecAll(rs))
  {
    if rs != [] {
      EntriesNameTheirCause(rs[..|rs| - 1]);
      RunsKeepRest(rs[..|rs| - 1]);
      ExecKeepsCauses(ExecAll(rs[..|rs| - 1]), rs[|rs| - 1], ExecAll(rs));
    }
  }

  /** A message without them is run as created, by the system. */
  lemma MissingFieldsAreFilledIn(w: World, j: JobId, startedAt: Time, finishedAt: Time)
    requires Message(Some(j), None, None) in w.queue && j < |w.tables.jobs|
    ensures var audit := Exec(w, Consume(Message(Some(j), None, None), startedAt, finishedAt)).tables.audit;
      && |audit| > |w.tables.audit|
      && audit[|w.tables.audit|]
         == AuditEntry(None, JobProcessing(j, w.tables.jobs[j].attemptCount + 1, "created", "system"))
  {
  }
}
