/**
 Sequential runs: who handled an incident and its alert, and when. The rows name
 the operators and times of the very requests that were accepted for them.
 */
module TicketOperators {
  import opened Domain
  import opened Tables
  import opened UseCases
  import opened Requests
  import opened Escalation
  import opened IncidentLifecycle

  /** The request is accepted for incident `i`. */
  predicate Moves(w: World, r: Request, i: IncidentId) {
    && (r.AcknowledgeIncident? || r.ResolveIncident?) && r.incident == i
    && i < |w.tables.incidents| && w.tables.incidents[i].status != Resolved
  }

  /** The requests accepted for incident `i`, in order. */
  function MovesOf(rs: seq<Request>, i: IncidentId): seq<Request> {
    if rs == [] then []
    else MovesOf(rs[..|rs| - 1], i)
         + if Moves(ExecAll(rs[..|rs| - 1]), rs[|rs| - 1], i) then [rs[|rs| - 1]] else []
  }

  /** Acknowledgements, with at most one resolution and that the last. */
  predicate ResolvedLast(moves: seq<Request>) {
    && (forall k :: 0 <= k < |moves| ==> moves[k].AcknowledgeIncident? || moves[k].ResolveIncident?)
    && (forall k :: 0 <= k < |moves| - 1 ==> moves[k].AcknowledgeIncident?)
  }

  /** The row names the last acknowledgement and the resolution; a resolution of an open incident counts as both. */
  predicate IncidentTells(row: IncidentRow, moves: seq<Request>)
    requires ResolvedLast(moves)
  {
    if moves == [] then row.status == Open && NoAcknowledgement(row) && NoResolution(row)
    else
      var last := moves[|moves| - 1];
      if last.AcknowledgeIncident? then
        && row.status == Acknowledged && NoResolution(row)
        && row.acknowledgedBy == Some(last.operator) && row.acknowledgedAt == Some(last.at)
      else
        && row.status == Resolved
        && row.resolvedBy == Some(last.operator) && row.resolvedAt == Some(last.at)
        && (if |moves| == 1
            then row.acknowledgedBy == Some(last.operator) && row.acknowledgedAt == Some(last.ackAt)
            else row.acknowledgedBy == Some(moves[|moves| - 2].operator)
                 && row.acknowledgedAt == Some(moves[|moves| - 2].at))
  }

  predicate NoAcknowledgement(row: IncidentRow) {
    row.acknowledgedBy == None && row.acknowledgedAt == None
  }

  predicate NoResolution(row: IncidentRow) {
    row.resolvedBy == None && row.resolvedAt == None
  }

  predicate IncidentInv(t: Tables, i: IncidentId, moves: seq<Request>) {
    ResolvedLast(moves) && if i < |t.incidents| then IncidentTells(t.incidents[i], moves) else moves == []
  }

  lemma MoveIsTold(t: Tables, t': Tables, i: IncidentId, moves: seq<Request>, r: Request)
    requires IncidentInv(t, i, moves) && Unresolved(t, i) && (r.AcknowledgeIncident? || r.ResolveIncident?)
    requires r.incident == i
    requires t' == if r.AcknowledgeIncident? then AfterAcknowledge(t, i, r.operator, r.at, r.alertAt)
                   else AfterResolve(t, i, r.operator, r.ackAt, r.at, r.alertAt)
    ensures IncidentInv(t', i, moves + [r])
  {
  }

  lemma OthersAreStillTold(w: World, r: Request, w': World, i: IncidentId, moves: seq<Request>)
    requires w' == Exec(w, r) && IncidentInv(w.tables, i, moves) && !Moves(w, r, i)
    ensures IncidentInv(w'.tables, i, moves)
  {
  }

  /** After any sequential run an incident names the operators and times of the requests accepted for it. */
  lemma {:induction false} IncidentsNameTheirOperators(rs: seq<Request>, i: IncidentId)
    ensures IncidentInv(ExecAll(rs).tables, i, MovesOf(rs, i))
  {
    if rs != [] {
      var before, r := rs[..|rs| - 1], rs[|rs| - 1];
      IncidentsNameTheirOperators(before, i);
      if Moves(ExecAll(before), r, i) {
        MoveIsTold(ExecAll(before).tables, ExecAll(rs).tables, i, MovesOf(before, i), r);
      } else {
        OthersAreStillTold(ExecAll(before), r, ExecAll(rs), i, MovesOf(before, i));
        assert MovesOf(rs, i) == MovesOf(before, i);
      }
    }
  }

  // ------------------------------------------------------------------- alerts

  /** The request is accepted for alert `a`, directly or through its incident. */
  predicate MovesAlert(w: World, r: Request, a: AlertId) {
    || ((r.AcknowledgeIncident? || r.ResolveIncident?) && Moves(w, r, r.incident)
        && w.tables.incidents[r.incident].alertId == Some(a))
    || (r.AcknowledgeAlert? && r.alert == a && a < |w.tables.alerts| && w.tables.alerts[a].status != Resolved)
  }

  function AlertMovesOf(rs: seq<Request>, a: AlertId): seq<Request> {
    if rs == [] then []
    else AlertMovesOf(rs[..|rs| - 1], a)
         + if MovesAlert(ExecAll(rs[..|rs| - 1]), rs[|rs| - 1], a) then [rs[|rs| - 1]] else []
  }

  predicate AlertMove(r: Request) {
    r.AcknowledgeIncident? || r.ResolveIncident? || r.AcknowledgeAlert?
  }

  /** The last request that acknowledged the alert. */
  function LastAcknowledgement(moves: seq<Request>): Option<Request> {
    if moves == [] then None
    else
      var last := moves[|moves| - 1];
      if last.AcknowledgeIncident? || last.AcknowledgeAlert? then Some(last)
      else LastAcknowledgement(moves[..|moves| - 1])
  }

  /** Unlike the incident, an alert resolved without an acknowledgement names none. */
  predicate AlertTells(row: AlertRow, moves: seq<Request>) {
    && (forall k :: 0 <= k < |moves| ==> AlertMove(moves[k]))
    && (forall k :: 0 <= k < |moves| - 1 ==> !moves[k].ResolveIncident?)
    && (match LastAcknowledgement(moves)
        case Some(AcknowledgeIncident(_, operator, _, alertAt)) =>
          row.acknowledgedBy == Some(operator) && row.acknowledgedAt == Some(alertAt)
        case Some(AcknowledgeAlert(_, operator, at)) =>
          row.acknowledgedBy == Some(operator) && row.acknowledgedAt == Some(at)
        case _ => row.acknowledgedBy == None && row.acknowledgedAt == None)
    && (if moves != [] && moves[|moves| - 1].ResolveIncident?
        then row.status == Resolved && row.resolvedBy == Some(moves[|moves| - 1].operator)
             && row.resolvedAt == Some(moves[|moves| - 1].alertAt)
        else row.status == (if moves == [] then Open else Acknowledged)
             && row.resolvedBy == None && row.resolvedAt == None)
  }

  predicate AlertInv(t: Tables, a: AlertId, moves: seq<Request>) {
    if a < |t.alerts| then AlertTells(t.alerts[a], moves) else moves == []
  }

  lemma AppendedMove(moves: seq<Request>, r: Request)
    ensures LastAcknowledgement(moves + [r])
            == if r.AcknowledgeIncident? || r.AcknowledgeAlert? then Some(r) else LastAcknowledgement(moves)
  {
    assert (moves + [r])[..|moves|] == moves;
  }

  lemma AlertMoveIsTold(w: World, r: Request, w': World, a: AlertId, moves: seq<Request>)
    requires w' == Exec(w, r) && AlertInv(w.tables, a, moves) && MovesAlert(w, r, a)
    requires LinksInv(w.tables) && StatusInv(w.tables, false)
    ensures AlertInv(w'.tables, a, moves + [r])
  {
    AppendedMove(moves, r);
    if !r.AcknowledgeAlert? { assert PairInv(w.tables, r.incident, false); }
  }

  lemma OtherAlertsAreStillTold(w: World, r: Request, w': World, a: AlertId, moves: seq<Request>)
    requires w' == Exec(w, r) && AlertInv(w.tables, a, moves) && !MovesAlert(w, r, a)
    requires RestInv(w) && LinksInv(w.tables)
    ensures AlertInv(w'.tables, a, moves)
  {
    if r.Consume? && r.message in w.queue {
      ProcessKeepsRest(w, r);
      var m := r.message;
      ProcessRaises(w.tables, m.jobId.value, JobServices.ReasonOf(m), JobServices.RequesterOf(m),
                    r.startedAt, r.finishedAt);
    }
  }

  /** After any sequential run an alert names the operators and times of the requests accepted for it. */
  lemma {:induction false} AlertsNameTheirOperators(rs: seq<Request>, a: AlertId)
    ensures AlertInv(ExecAll(rs).tables, a, AlertMovesOf(rs, a))
  {
    if rs != [] {
      var before, r := rs[..|rs| - 1], rs[|rs| - 1];
      AlertsNameTheirOperators(before, a);
      RunsKeepRest(before);
      RunsKeepAlerts(before);
      RunsKeepStatus(before, false);
      if MovesAlert(ExecAll(before), r, a) {
        AlertMoveIsTold(ExecAll(before), r, ExecAll(rs), a, AlertMovesOf(before, a));
      } else {
        OtherAlertsAreStillTold(ExecAll(before), r, ExecAll(rs), a, AlertMovesOf(before, a));
        assert AlertMovesOf(rs, a) == AlertMovesOf(before, a);
      }
    }
  }
}
