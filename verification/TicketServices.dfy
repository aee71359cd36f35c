/** `AlertService` and `IncidentService`, each use case run to its end. */
module TicketServices {
  import opened Domain
  import opened Tables
  import opened UseCases
  import opened Stores
  import opened Paging

  datatype TicketError = UnknownJob | IncidentNotFound | AlertNotFound | AlreadyResolved

  datatype AlertResult = AlertOk(alert: AlertId, incident: Option<IncidentId>) | AlertRejected(error: TicketError)
  datatype IncidentResult = IncidentOk(row: IncidentRow) | IncidentRejected(error: TicketError)

  /** Absent filters admit every row. */
  datatype AlertQuery = AlertQuery(status: Option<TicketStatus>, severity: Option<Severity>, page: nat, limit: nat)

  predicate Wanted(query: AlertQuery, item: AlertItem) {
    && (query.status.Some? ==> item.alert.status == query.status.value)
    && (query.severity.Some? ==> item.alert.severity == query.severity.value)
  }

  /** A listed alert with its joined incident. */
  datatype AlertItem = AlertItem(id: AlertId, alert: AlertRow, incident: Option<IncidentRow>)

  /** The incident the join finds: `alertId` is UNIQUE. */
  function IncidentOf(incidents: seq<IncidentRow>, a: AlertId): (r: Option<IncidentRow>)
    ensures r.Some? ==> r.value in incidents && r.value.alertId == Some(a)
    ensures r.None? ==> forall i :: 0 <= i < |incidents| ==> incidents[i].alertId != Some(a)
  {
    if incidents == [] then None
    else if incidents[|incidents| - 1].alertId == Some(a) then Some(incidents[|incidents| - 1])
    else IncidentOf(incidents[..|incidents| - 1], a)
  }

  /** Every alert once. */
  predicate Arranges(ordered: seq<AlertId>, alerts: seq<AlertRow>) {
    && (forall k :: 0 <= k < |ordered| ==> ordered[k] < |alerts|)
    && (forall a :: 0 <= a < |alerts| ==> a in ordered)
    && (forall k, m :: 0 <= k < m < |ordered| ==> ordered[k] != ordered[m])
  }

  function Joined(alerts: seq<AlertRow>, incidents: seq<IncidentRow>, ordered: seq<AlertId>): seq<AlertItem>
    requires Arranges(ordered, alerts)
  {
    seq(|ordered|, k requires 0 <= k < |ordered| =>
      AlertItem(ordered[k], alerts[ordered[k]], IncidentOf(incidents, ordered[k])))
  }

  /** What a page of alerts and its total say about the table. */
  lemma {:induction false} ListingTells(query: AlertQuery, alerts: seq<AlertRow>, incidents: seq<IncidentRow>,
                                        ordered: seq<AlertId>)
    requires query.page >= 1 && query.limit >= 1 && Arranges(ordered, alerts)
    ensures var r := Listed(Joined(alerts, incidents, ordered), item => Wanted(query, item), query.page, query.limit);
      && (forall item :: item in r.items ==>
            && item.id < |alerts| && item.alert == alerts[item.id]
            && (query.status.Some? ==> item.alert.status == query.status.value)
            && (query.severity.Some? ==> item.alert.severity == query.severity.value))
      && r.meta.total == |set a: AlertId | a < |alerts|
                           && (query.status.Some? ==> alerts[a].status == query.status.value)
                           && (query.severity.Some? ==> alerts[a].severity == query.severity.value)|
  {
    var joined, wanted := Joined(alerts, incidents, ordered), (item: AlertItem) => Wanted(query, item);
    MatchingAgrees(joined, wanted, item => Wanted(query, item));
    PageMatches(joined, wanted, query.page, query.limit);
    var places := set k: nat | k < |joined| && wanted(joined[k]);
    var found := set a: AlertId | a < |alerts|
      && (query.status.Some? ==> alerts[a].status == query.status.value)
      && (query.severity.Some? ==> alerts[a].severity == query.severity.value);
    MatchingCounts(joined, wanted, places);
    EachFoundOnce(ordered, places, found, alerts);
  }

  lemma EachFoundOnce(ordered: seq<AlertId>, places: set<nat>, found: set<AlertId>, alerts: seq<AlertRow>)
    requires Arranges(ordered, alerts) && forall a :: a in found ==> a < |alerts|
    requires forall k: nat :: k in places <==> k < |ordered| && ordered[k] in found
    ensures |places| == |found|
  {
    forall a | a in found ensures exists k: nat :: k in places && ordered[k] == a {
      assert a in ordered;
      var k: nat :| k < |ordered| && ordered[k] == a;
      assert k in places;
    }
    PlacesAreAlerts(ordered, places, found);
  }

  lemma {:induction false} PlacesAreAlerts(ordered: seq<AlertId>, places: set<nat>, alerts: set<AlertId>)
    requires forall k: nat :: k in places ==> k < |ordered| && ordered[k] in alerts
    requires forall a :: a in alerts ==> exists k: nat :: k in places && ordered[k] == a
    requires forall k, m :: 0 <= k < m < |ordered| ==> ordered[k] != ordered[m]
    ensures |places| == |alerts|
  {
    if places == {} {
      assert alerts == {};
    } else {
      var k: nat :| k in places;
      forall a | a in alerts - {ordered[k]} ensures exists m: nat :: m in places - {k} && ordered[m] == a {
        var m: nat :| m in places && ordered[m] == a;
        assert m in places - {k};
      }
      PlacesAreAlerts(ordered, places - {k}, alerts - {ordered[k]});
    }
  }

  lemma {:induction false} OccursOnce(items: seq<AlertItem>, k: nat)
    requires k < |items| && forall m :: 0 <= m < |items| && m != k ==> items[m] != items[k]
    ensures multiset(items)[items[k]] == 1
  {
    assert items == items[..k] + [items[k]] + items[k + 1..];
    assert items[k] !in items[..k] && items[k] !in items[k + 1..];
  }

  /** Reading every page shows each alert that meets the filters once, with its incident, and no other. */
  lemma {:induction false} PagesShowTheWantedAlerts(query: AlertQuery, alerts: seq<AlertRow>,
                                                    incidents: seq<IncidentRow>, ordered: seq<AlertId>, a: AlertId)
    requires query.limit >= 1 && Arranges(ordered, alerts) && a < |alerts|
    ensures var joined, item := Joined(alerts, incidents, ordered), AlertItem(a, alerts[a], IncidentOf(incidents, a));
      var pages := Listed(joined, x => Wanted(query, x), 1, query.limit).meta.totalPages;
      && pages >= 1
      && multiset(Walk(joined, x => Wanted(query, x), pages, query.limit))[item]
         == if (query.status.Some? ==> alerts[a].status == query.status.value)
               && (query.severity.Some? ==> alerts[a].severity == query.severity.value) then 1 else 0
  {
    var joined, wanted := Joined(alerts, incidents, ordered), (x: AlertItem) => Wanted(query, x);
    var pages := TotalPages(|Matching(joined, wanted)|, query.limit);
    assert a in ordered;
    var k :| 0 <= k < |ordered| && ordered[k] == a;
    PagesPartition(Matching(joined, wanted), query.limit);
    WalkIsPages(joined, wanted, pages, query.limit);
    MatchingKeeps(joined, wanted, joined[k]);
    OccursOnce(joined, k);
  }

  class AlertService {
    const db: Database
    const bus: RabbitMqService
    const audit: AuditService

    constructor (db: Database, bus: RabbitMqService)
      ensures this.db == db && this.bus == bus && audit.db == db
    {
      this.db, this.bus := db, bus;
      audit := new AuditService(db);
    }

    /** An unknown job breaks the foreign key and nothing is saved. */
    method Create(jobId: Option<JobId>, source: string, severity: Severity, createIncident: bool, operator: OperatorId)
      returns (r: AlertResult)
      requires audit.db == db && bus.connected
      modifies db, bus`events
      ensures r == if AlertAccepted(old(db.Contents()), jobId)
                   then AlertOk(|old(db.alerts)|,
                                if createIncident || severity == Critical then Some(|old(db.incidents)|) else None)
                   else AlertRejected(UnknownJob)
      ensures db.Contents() == AfterCreateAlert(old(db.Contents()), jobId, source, severity, createIncident, operator)
      ensures bus.events == old(bus.events) + CreateAlertEvents(old(db.Contents()), jobId, severity, createIncident)
    {
      if jobId.Some? && jobId.value >= |db.jobs| { return AlertRejected(UnknownJob); }
      var alert := |db.alerts|;
      db.alerts := db.alerts + [AlertRow(jobId, source, severity, Open, None, None, None, None)];
      var incident: Option<IncidentId> := None;
      if createIncident || severity == Critical {
        incident := Some(|db.incidents|);
        db.incidents := db.incidents + [IncidentRow(Some(alert), Open, None, None, None, None)];
      }
      db.actions := db.actions + [OperatorAction(operator, CreateAlertCommand, alert)];
      audit.Log(Some(operator), AlertCreated(alert, severity, source, incident));
      var _ := bus.PublishEvent(AlertRaisedEvent(alert, severity, incident));
      if incident.Some? {
        var _ := bus.PublishEvent(IncidentUpdatedEvent(incident.value, Open, Some(alert)));
      }
      r := AlertOk(alert, incident);
    }

    /** `ordered` is the alerts by descending creation time, ties in whatever order the database chose. */
    method List(query: AlertQuery, ordered: seq<AlertId>) returns (r: PaginatedResult<AlertItem>)
      requires query.page >= 1 && query.limit >= 1 && Arranges(ordered, db.alerts)
      ensures var joined := Joined(db.alerts, db.incidents, ordered);
        r == Listed(joined, item => Wanted(query, item), query.page, query.limit)
      ensures forall item :: item in r.items ==>
        && item.id < |db.alerts| && item.alert == db.alerts[item.id]
        && (query.status.Some? ==> item.alert.status == query.status.value)
        && (query.severity.Some? ==> item.alert.severity == query.severity.value)
      ensures r.meta.total == |set a: AlertId | a < |db.alerts|
                && (query.status.Some? ==> db.alerts[a].status == query.status.value)
                && (query.severity.Some? ==> db.alerts[a].severity == query.severity.value)|
    {
      var joined := Joined(db.alerts, db.incidents, ordered);
      var qb := new SelectQueryBuilder<AlertItem>(joined);
      if query.status.Some? {
        qb.AndWhere((item: AlertItem) => item.alert.status == query.status.value);
      }
      if query.severity.Some? {
        qb.AndWhere((item: AlertItem) => item.alert.severity == query.severity.value);
      }
      qb.SkipAndTake((query.page - 1) * query.limit, query.limit);
      var items, total := qb.GetManyAndCount();
      MatchingAgrees(joined, qb.condition, item => Wanted(query, item));
      assert items == Page(Matching(joined, qb.condition), query.page, query.limit);
      ListingTells(query, db.alerts, db.incidents, ordered);
      r := PaginatedResult(items, PageMeta(query.page, query.limit, total, TotalPages(total, query.limit)));
    }

    method Acknowledge(id: AlertId, operator: OperatorId, at: Time) returns (error: Option<TicketError>)
      requires audit.db == db && bus.connected
      modifies db, bus`events
      ensures error == if id >= |old(db.alerts)| then Some(AlertNotFound)
                       else if old(db.alerts)[id].status == Resolved then Some(AlreadyResolved) else None
      ensures db.Contents() == AfterAcknowledgeAlert(old(db.Contents()), id, operator, at)
      ensures bus.events == old(bus.events) + (if error.None? then [AlertAcknowledgedEvent(id, operator)] else [])
    {
      if id >= |db.alerts| { return Some(AlertNotFound); }
      var alert := db.alerts[id];
      if alert.status == Resolved { return Some(AlreadyResolved); }
      alert := alert.(status := Acknowledged);
      alert := alert.(acknowledgedBy := Some(operator));
      alert := alert.(acknowledgedAt := Some(at));
      db.alerts := db.alerts[id := alert];
      audit.Log(Some(operator), AlertAcknowledged(id));
      var _ := bus.PublishEvent(AlertAcknowledgedEvent(id, operator));
      error := None;
    }
  }

  class IncidentService {
    const db: Database
    const bus: RabbitMqService
    const audit: AuditService

    constructor (db: Database, bus: RabbitMqService)
      ensures this.db == db && this.bus == bus && audit.db == db
    {
      this.db, this.bus := db, bus;
      audit := new AuditService(db);
    }

    /** `at` and `alertAt` are the two clock readings of the call. */
    method Acknowledge(id: IncidentId, operator: OperatorId, at: Time, alertAt: Time) returns (r: IncidentResult)
      requires audit.db == db && bus.connected
      modifies db, bus`events
      ensures r.IncidentOk? <==> Unresolved(old(db.Contents()), id)
      ensures r.IncidentOk? ==> id < |db.incidents| && r.row == db.incidents[id]
      ensures r.IncidentRejected? ==> r.error == if id >= |old(db.incidents)| then IncidentNotFound else AlreadyResolved
      ensures db.Contents() == AfterAcknowledge(old(db.Contents()), id, operator, at, alertAt)
      ensures bus.events == old(bus.events) + IncidentEvents(old(db.Contents()), id, Acknowledged)
    {
      if id >= |db.incidents| { return IncidentRejected(IncidentNotFound); }
      var incident := db.incidents[id];
      if incident.status == Resolved { return IncidentRejected(AlreadyResolved); }
      incident := incident.(status := Acknowledged);
      incident := incident.(acknowledgedBy := Some(operator));
      incident := incident.(acknowledgedAt := Some(at));
      db.incidents := db.incidents[id := incident];
      if incident.alertId.Some? && incident.alertId.value < |db.alerts| {
        var a := incident.alertId.value;
        db.alerts := db.alerts[a := db.alerts[a].(status := Acknowledged, acknowledgedBy := Some(operator),
                                                  acknowledgedAt := Some(alertAt))];
      }
      db.actions := db.actions + [OperatorAction(operator, AcknowledgeCommand, id)];
      audit.Log(Some(operator), IncidentAcknowledged(id));
      var _ := bus.PublishEvent(IncidentUpdatedEvent(id, incident.status, incident.alertId));
      r := IncidentOk(incident);
    }

    method Resolve(id: IncidentId, operator: OperatorId, ackAt: Time, at: Time, alertAt: Time)
      returns (r: IncidentResult)
      requires audit.db == db && bus.connected
      modifies db, bus`events
      ensures r.IncidentOk? <==> Unresolved(old(db.Contents()), id)
      ensures r.IncidentOk? ==> id < |db.incidents| && r.row == db.incidents[id]
      ensures r.IncidentRejected? ==> r.error == if id >= |old(db.incidents)| then IncidentNotFound else AlreadyResolved
      ensures db.Contents() == AfterResolve(old(db.Contents()), id, operator, ackAt, at, alertAt)
      ensures bus.events == old(bus.events) + IncidentEvents(old(db.Contents()), id, Resolved)
    {
      if id >= |db.incidents| { return IncidentRejected(IncidentNotFound); }
      var incident := db.incidents[id];
      if incident.status == Resolved { return IncidentRejected(AlreadyResolved); }
      if incident.status == Open {
        incident := incident.(acknowledgedAt := Some(ackAt));
        incident := incident.(acknowledgedBy := Some(operator));
      }
      incident := incident.(status := Resolved);
      incident := incident.(resolvedBy := Some(operator));
      incident := incident.(resolvedAt := Some(at));
      db.incidents := db.incidents[id := incident];
      if incident.alertId.Some? && incident.alertId.value < |db.alerts| {
        var a := incident.alertId.value;
        db.alerts := db.alerts[a := db.alerts[a].(status := Resolved, resolvedBy := Some(operator),
                                                  resolvedAt := Some(alertAt))];
      }
      db.actions := db.actions + [OperatorAction(operator, ResolveCommand, id)];
      audit.Log(Some(operator), IncidentResolved(id, incident.alertId));
      var _ := bus.PublishEvent(IncidentUpdatedEvent(id, incident.status, incident.alertId));
      r := IncidentOk(incident);
    }
  }
}
