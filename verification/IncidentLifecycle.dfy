/**
 Sequential runs: incidents and their alerts move together and only forward,
 and a resolved incident is complete and final. The alert acknowledgement that
 no route calls loosens the first to an inequality.
 */
module IncidentLifecycle {
  import opened Domain
  import opened Sums
  import opened Tables
  import opened UseCases
  import opened Requests
  import opened Escalation

  function Rank(status: TicketStatus): nat {
    match status
    case Open => 0
    case Acknowledged => 1
    case Resolved => 2
  }

  /** The statuses of an incident and its alert in any run. */
  predicate Compatible(alert: TicketStatus, incident: TicketStatus) {
    Rank(incident) <= Rank(alert) && (alert == Resolved <==> incident == Resolved)
  }

  predicate HasIncident(t: Tables, a: AlertId) {
    exists i :: 0 <= i < |t.incidents| && t.incidents[i].alertId == Some(a)
  }

  /** What holds with the unrouted acknowledgement (`strict` false) and without it. */
  predicate StatusInv(t: Tables, strict: bool) {
    && (forall i :: 0 <= i < |t.incidents| && t.incidents[i].alertId.Some? ==> PairInv(t, i, strict))
    && (forall a :: 0 <= a < |t.alerts| && !HasIncident(t, a) ==>
          if strict then t.alerts[a].status == Open else t.alerts[a].status != Resolved)
  }

  predicate PairInv(t: Tables, i: IncidentId, strict: bool)
    requires i < |t.incidents| && t.incidents[i].alertId.Some?
  {
    var a := t.incidents[i].alertId.value;
    && a < |t.alerts|
    && Compatible(t.alerts[a].status, t.incidents[i].status)
    && (strict ==> t.alerts[a].status == t.incidents[i].status)
  }

  lemma OneIncidentPerAlert(t: Tables, i: nat, k: nat)
    requires LinksInv(t) && i < |t.incidents| && k < |t.incidents| && t.incidents[i].alertId == t.incidents[k].alertId
    ensures i == k
  {
    var a := t.incidents[i].alertId.value;
    if i < k { SumPair(LinkedTo(a), t.incidents, i, k); }
    if k < i { SumPair(LinkedTo(a), t.incidents, k, i); }
  }

  lemma LinksStay(t: Tables, t': Tables)
    requires |t.incidents| <= |t'.incidents|
    requires forall k :: 0 <= k < |t.incidents| ==> t'.incidents[k].alertId == t.incidents[k].alertId
    ensures forall a: AlertId :: HasIncident(t, a) ==> HasIncident(t', a)
  {
    forall a: AlertId | HasIncident(t, a)
      ensures HasIncident(t', a)
    {
      var k :| 0 <= k < |t.incidents| && t.incidents[k].alertId == Some(a);
      assert t'.incidents[k].alertId == Some(a);
    }
  }

  /** One incident and its alert take the same new status. */
  lemma MoveKeepsStatus(t: Tables, t': Tables, i: nat, status: TicketStatus, strict: bool)
    requires LinksInv(t) && StatusInv(t, strict) && i < |t.incidents| && status != Open
    requires |t'.incidents| == |t.incidents| && |t'.alerts| == |t.alerts|
    requires forall k :: 0 <= k < |t.incidents| ==> t'.incidents[k].alertId == t.incidents[k].alertId
    requires t'.incidents[i].status == status && t'.alerts[t.incidents[i].alertId.value].status == status
    requires forall k :: 0 <= k < |t.incidents| && k != i ==> t'.incidents[k].status == t.incidents[k].status
    requires forall a :: 0 <= a < |t.alerts| && Some(a) != t.incidents[i].alertId ==>
      t'.alerts[a].status == t.alerts[a].status
    ensures StatusInv(t', strict)
  {
    forall k | 0 <= k < |t'.incidents|
      ensures PairInv(t', k, strict)
    {
      assert PairInv(t, k, strict);
      if k != i && t.incidents[k].alertId == t.incidents[i].alertId { OneIncidentPerAlert(t, i, k); }
    }
    LinksStay(t, t');
    assert t'.incidents[i].alertId.Some? ==> HasIncident(t', t'.incidents[i].alertId.value);
  }

  /** A new alert, with or without its incident, starts open. */
  lemma NewAlertKeepsStatus(t: Tables, t': Tables, alert: AlertRow, opens: bool, strict: bool)
    requires LinksInv(t) && StatusInv(t, strict) && alert.status == Open && t'.alerts == t.alerts + [alert]
    requires t'.incidents == if opens then t.incidents + [OpenIncident(|t.alerts|)] else t.incidents
    ensures StatusInv(t', strict)
  {
    forall k | 0 <= k < |t'.incidents|
      ensures t'.incidents[k].alertId.Some? && PairInv(t', k, strict)
    {
      if k < |t.incidents| { assert PairInv(t, k, strict); }
    }
    LinksStay(t, t');
  }

  lemma SameTicketsKeepStatus(t: Tables, t': Tables, strict: bool)
    requires StatusInv(t, strict) && t'.alerts == t.alerts && t'.incidents == t.incidents
    ensures StatusInv(t', strict)
  {
    forall k | 0 <= k < |t'.incidents| && t'.incidents[k].alertId.Some?
      ensures PairInv(t', k, strict)
    {
      assert PairInv(t, k, strict);
    }
    assert forall a: AlertId :: HasIncident(t', a) == HasIncident(t, a);
  }

  lemma ConsumeKeepsStatus(w: World, r: Request, strict: bool)
    requires RestInv(w) && LinksInv(w.tables) && StatusInv(w.tables, strict) && r.Consume? && r.message in w.queue
    ensures StatusInv(Exec(w, r).tables, strict)
  {
    var t, t', m := w.tables, Exec(w, r).tables, r.message;
    ProcessKeepsRest(w, r);
    assert Awaited(w, m);
    ProcessRaises(t, m.jobId.value, JobServices.ReasonOf(m), JobServices.RequesterOf(m), r.startedAt, r.finishedAt);
    if |t'.alerts| > |t.alerts| {
      NewAlertKeepsStatus(t, t', t'.alerts[|t.alerts|], t'.alerts[|t.alerts|].severity == Critical, strict);
    } else {
      SameTicketsKeepStatus(t, t', strict);
    }
  }

  lemma AlertAcknowledgedKeepsStatus(w: World, r: Request)
    requires LinksInv(w.tables) && StatusInv(w.tables, false) && r.AcknowledgeAlert?
    ensures StatusInv(Exec(w, r).tables, false)
  {
    var t, t' := w.tables, Exec(w, r).tables;
    forall k | 0 <= k < |t'.incidents|
      ensures PairInv(t', k, false)
    {
      assert PairInv(t, k, false);
    }
    assert forall a: AlertId :: HasIncident(t', a) == HasIncident(t, a);
  }

  lemma TicketRequestKeepsStatus(w: World, r: Request, strict: bool)
    requires LinksInv(w.tables) && StatusInv(w.tables, strict) && (r.AcknowledgeIncident? || r.ResolveIncident?)
    ensures StatusInv(Exec(w, r).tables, strict)
  {
    var t, t' := w.tables, Exec(w, r).tables;
    if Unresolved(t, r.incident) {
      assert PairInv(t, r.incident, strict);
      MoveKeepsStatus(t, t', r.incident, if r.AcknowledgeIncident? then Acknowledged else Resolved, strict);
    } else {
      SameTicketsKeepStatus(t, t', strict);
    }
  }

  lemma ExecKeepsStatus(w: World, r: Request, strict: bool)
    requires RestInv(w) && LinksInv(w.tables) && StatusInv(w.tables, strict) && (strict ==> Routed(r))
    ensures StatusInv(Exec(w, r).tables, strict)
  {
    var t, t' := w.tables, Exec(w, r).tables;
    match r
    case Consume(m, _, _) => if m in w.queue { ConsumeKeepsStatus(w, r, strict); }
    case CreateAlert(_, severity, createIncident, _) =>
      if |t'.alerts| > |t.alerts| {
        NewAlertKeepsStatus(t, t', t'.alerts[|t.alerts|], createIncident || severity == Critical, strict);
      }
    case AcknowledgeIncident(_, _, _, _) => TicketRequestKeepsStatus(w, r, strict);
    case ResolveIncident(_, _, _, _, _) => TicketRequestKeepsStatus(w, r, strict);
    case AcknowledgeAlert(_, _, _) => AlertAcknowledgedKeepsStatus(w, r);
    case CreateJob(_, _, _) => SameTicketsKeepStatus(t, t', strict);
    case RetryRequest(_, _) => SameTicketsKeepStatus(t, t', strict);
  }

  lemma {:induction false} RunsKeepStatus(rs: seq<Request>, strict: bool)
    requires strict ==> AllRouted(rs)
    ensures StatusInv(ExecAll(rs).tables, strict)
  {
    if rs != [] {
      var before := rs[..|rs| - 1];
      assert strict ==> forall k :: 0 <= k < |before| ==> before[k] == rs[k];
      RunsKeepStatus(before, strict);
      RunsKeepRest(before);
      RunsKeepAlerts(before);
      ExecKeepsStatus(ExecAll(before), rs[|rs| - 1], strict);
    }
  }

  // ----------------------------------------------------------- clocks and actors

  /** The clock reading at which a request on an incident ends. */
  function LastTime(rs: seq<Request>): Time {
    if rs == [] then 0
    else match rs[|rs| - 1]
      case AcknowledgeIncident(_, _, at, _) => at
      case ResolveIncident(_, _, _, at, _) => at
      case _ => LastTime(rs[..|rs| - 1])
  }

  /** Clock readings never go back, within a request or from one to the next. */
  predicate InOrder(r: Request, last: Time) {
    match r
    case AcknowledgeIncident(_, _, at, _) => last <= at
    case ResolveIncident(_, _, ackAt, at, _) => last <= ackAt <= at
    case _ => true
  }

  predicate Chronological(rs: seq<Request>) {
    rs == [] || (Chronological(rs[..|rs| - 1]) && InOrder(rs[|rs| - 1], LastTime(rs[..|rs| - 1])))
  }

  /** What an incident's status says about who handled it. */
  predicate Handled(row: IncidentRow) {
    && (row.status != Open ==> row.acknowledgedBy.Some? && row.acknowledgedAt.Some?)
    && (row.status == Resolved ==> row.resolvedBy.Some? && row.resolvedAt.Some?)
  }

  /** After any sequential run a resolved incident names both operators, whatever the clocks showed. */
  lemma {:induction false} IncidentsAreHandled(rs: seq<Request>)
    ensures forall i :: 0 <= i < |ExecAll(rs).tables.incidents| ==> Handled(ExecAll(rs).tables.incidents[i])
  {
    if rs != [] {
      IncidentsAreHandled(rs[..|rs| - 1]);
      ExecHandles(ExecAll(rs[..|rs| - 1]), rs[|rs| - 1], ExecAll(rs));
    }
  }

  lemma ExecHandles(w: World, r: Request, w': World)
    requires w' == Exec(w, r) && forall i :: 0 <= i < |w.tables.incidents| ==> Handled(w.tables.incidents[i])
    ensures forall i :: 0 <= i < |w'.tables.incidents| ==> Handled(w'.tables.incidents[i])
  {
    forall i | 0 <= i < |w'.tables.incidents|
      ensures Handled(w'.tables.incidents[i])
    {
      if i < |w.tables.incidents| { assert Handled(w.tables.incidents[i]); }
    }
  }

  predicate InTime(row: IncidentRow, now: Time) {
    && (row.acknowledgedAt.Some? ==> row.acknowledgedAt.value <= now)
    && (row.acknowledgedAt.Some? && row.status == Resolved && row.resolvedAt.Some? ==>
          row.acknowledgedAt.value <= row.resolvedAt.value)
  }

  /** With clocks that do not run back it was acknowledged no later than resolved. */
  lemma {:induction false} IncidentsAreHandledInOrder(rs: seq<Request>)
    requires Chronological(rs)
    ensures forall i :: 0 <= i < |ExecAll(rs).tables.incidents| ==>
      InTime(ExecAll(rs).tables.incidents[i], LastTime(rs))
  {
    if rs != [] {
      IncidentsAreHandledInOrder(rs[..|rs| - 1]);
      ExecKeepsTime(ExecAll(rs[..|rs| - 1]), rs[|rs| - 1], ExecAll(rs), LastTime(rs[..|rs| - 1]), LastTime(rs));
    }
  }

  lemma ExecKeepsTime(w: World, r: Request, w': World, last: Time, now: Time)
    requires w' == Exec(w, r)
    requires forall i :: 0 <= i < |w.tables.incidents| ==> InTime(w.tables.incidents[i], last)
    requires InOrder(r, last) && now == (if r.AcknowledgeIncident? || r.ResolveIncident? then r.at else last)
    ensures forall i :: 0 <= i < |w'.tables.incidents| ==> InTime(w'.tables.incidents[i], now)
  {
    forall i | 0 <= i < |w'.tables.incidents|
      ensures InTime(w'.tables.incidents[i], now)
    {
      if i < |w.tables.incidents| { assert InTime(w.tables.incidents[i], last); }
    }
  }

  // ------------------------------------------------------------- only forward

  /** Statuses only advance, and resolved rows stay as they are. */
  predicate Advances(t: Tables, t': Tables) {
    && |t.incidents| <= |t'.incidents| && |t.alerts| <= |t'.alerts|
    && (forall i :: 0 <= i < |t.incidents| ==>
          && t'.incidents[i].alertId == t.incidents[i].alertId
          && Rank(t.incidents[i].status) <= Rank(t'.incidents[i].status)
          && (t.incidents[i].status == Resolved ==> t'.incidents[i] == t.incidents[i]))
    && (forall a :: 0 <= a < |t.alerts| ==>
          && Rank(t.alerts[a].status) <= Rank(t'.alerts[a].status)
          && (t.alerts[a].status == Resolved ==> t'.alerts[a] == t.alerts[a]))
  }

  lemma TicketRequestAdvances(t: Tables, t': Tables, r: Request)
    requires StatusInv(t, false) && (r.AcknowledgeIncident? || r.ResolveIncident?)
    requires t' == if r.AcknowledgeIncident? then AfterAcknowledge(t, r.incident, r.operator, r.at, r.alertAt)
                   else AfterResolve(t, r.incident, r.operator, r.ackAt, r.at, r.alertAt)
    ensures Advances(t, t')
  {
    if Unresolved(t, r.incident) && t.incidents[r.incident].alertId.Some? {
      assert PairInv(t, r.incident, false);
    }
  }

  lemma ExecAdvances(w: World, r: Request)
    requires StatusInv(w.tables, false)
    ensures Advances(w.tables, Exec(w, r).tables)
  {
    if r.AcknowledgeIncident? || r.ResolveIncident? {
      TicketRequestAdvances(w.tables, Exec(w, r).tables, r);
    }
  }

  // ------------------------------------------------------------- main results

  /** In routed runs an alert and its incident have the same status, and an alert without one is open. */
  lemma {:induction false} AlertsFollowIncidents(rs: seq<Request>, i: IncidentId)
    requires AllRouted(rs) && i < |ExecAll(rs).tables.incidents|
    ensures var t := ExecAll(rs).tables;
      && t.incidents[i].alertId.Some? && t.incidents[i].alertId.value < |t.alerts|
      && t.alerts[t.incidents[i].alertId.value].status == t.incidents[i].status
      && forall a :: 0 <= a < |t.alerts| && !HasIncident(t, a) ==> t.alerts[a].status == Open
  {
    RunsKeepStatus(rs, true);
    RunsKeepAlerts(rs);
    assert PairInv(ExecAll(rs).tables, i, true);
  }

  /** With the unrouted acknowledgement the alert may run ahead, but both are resolved together. */
  lemma {:induction false} AlertsMayRunAhead(rs: seq<Request>, i: IncidentId)
    requires i < |ExecAll(rs).tables.incidents|
    ensures var t := ExecAll(rs).tables;
      && t.incidents[i].alertId.Some? && t.incidents[i].alertId.value < |t.alerts|
      && Compatible(t.alerts[t.incidents[i].alertId.value].status, t.incidents[i].status)
  {
    RunsKeepStatus(rs, false);
    RunsKeepAlerts(rs);
    assert PairInv(ExecAll(rs).tables, i, false);
  }

  /** No later request moves a ticket back or touches a resolved one. */
  lemma {:induction false} TicketsOnlyAdvance(rs: seq<Request>, more: seq<Request>)
    ensures Advances(ExecAll(rs).tables, ExecAll(rs + more).tables)
  {
    if more == [] {
      assert rs + more == rs;
    } else {
      var all := rs + more;
      assert all[..|all| - 1] == rs + more[..|more| - 1];
      TicketsOnlyAdvance(rs, more[..|more| - 1]);
      RunsKeepStatus(all[..|all| - 1], false);
      AdvancesOneMore(ExecAll(rs).tables, ExecAll(all[..|all| - 1]), all[|all| - 1], ExecAll(all));
    }
  }

  lemma AdvancesOneMore(t: Tables, w: World, r: Request, w': World)
    requires Advances(t, w.tables) && StatusInv(w.tables, false) && w' == Exec(w, r)
    ensures Advances(t, w'.tables)
  {
    ExecAdvances(w, r);
    AdvancesTransitive(t, w.tables, w'.tables);
  }

  lemma AdvancesTransitive(a: Tables, b: Tables, c: Tables)
    requires Advances(a, b) && Advances(b, c)
    ensures Advances(a, c)
  {
  }
}
