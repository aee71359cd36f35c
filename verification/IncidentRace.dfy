/**
 Incident and alert rows while routed commands overlap, throw or die part-way.
 Every await on a repository is a step boundary: a command reads its incident,
 later saves the whole row it read, and later still updates the alert row.
 */
module IncidentRace {
  import opened Domain
  import opened Tables
  import opened UseCases
  import JobRules

  /** What a routed command does to an incident and its alert, with its clock readings. */
  datatype Move =
    | Acknowledge(operator: OperatorId, at: Time, alertAt: Time)
    | Resolve(operator: OperatorId, ackAt: Time, at: Time, alertAt: Time)

  function Moved(move: Move, row: IncidentRow): IncidentRow {
    match move
    case Acknowledge(operator, at, _) => AcknowledgedIncident(row, operator, at)
    case Resolve(operator, ackAt, at, _) => ResolvedIncident(row, operator, ackAt, at)
  }

  function MovedAlert(move: Move, row: AlertRow): AlertRow {
    match move
    case Acknowledge(operator, _, alertAt) => AcknowledgedAlert(row, operator, alertAt)
    case Resolve(operator, _, _, alertAt) => ResolvedAlert(row, operator, alertAt)
  }

  /** Where a command is: between alert and incident save, between read and save, between save and alert update. */
  datatype Progress =
    | Raised(alert: AlertId)
    | Holding(incident: IncidentId, row: IncidentRow, move: Move)
    | Saved(incident: IncidentId, link: Option<AlertId>, move: Move)
    | Over

  datatype State = State(alerts: seq<AlertRow>, incidents: seq<IncidentRow>, commands: seq<Progress>)

  const START := State([], [], [])

  datatype Step =
    | RaiseAlert(jobId: Option<JobId>, source: string, severity: Severity, wanted: bool)
    | SaveNewIncident(k: nat)
    | ReadIncident(id: IncidentId, move: Move)
    | SaveIncident(k: nat)
    | UpdateItsAlert(k: nat)
    | Stop(k: nat)

  function Do(s: State, step: Step): State {
    match step
    case RaiseAlert(jobId, source, severity, wanted) =>
      s.(alerts := s.alerts + [OpenAlert(jobId, source, severity)],
         commands := s.commands + [if wanted || severity == Critical then Raised(|s.alerts|) else Over])
    case SaveNewIncident(k) =>
      if k < |s.commands| && s.commands[k].Raised? then
        s.(incidents := s.incidents + [OpenIncident(s.commands[k].alert)], commands := s.commands[k := Over])
      else s
    case ReadIncident(id, move) =>
      if id < |s.incidents| && s.incidents[id].status != Resolved
      then s.(commands := s.commands + [Holding(id, s.incidents[id], move)])
      else s
    case SaveIncident(k) =>
      if k < |s.commands| && s.commands[k].Holding? && s.commands[k].incident < |s.incidents| then
        var c := s.commands[k];
        s.(incidents := s.incidents[c.incident := Moved(c.move, c.row)],
           commands := s.commands[k := Saved(c.incident, c.row.alertId, c.move)])
      else s
    case UpdateItsAlert(k) =>
      if k < |s.commands| && s.commands[k].Saved? then
        var c := s.commands[k];
        s.(alerts := UpdateAlert(s.alerts, c.link, row => MovedAlert(c.move, row)), commands := s.commands[k := Over])
      else s
    case Stop(k) =>
      if k < |s.commands| then s.(commands := s.commands[k := Over]) else s
  }

  function Run(steps: seq<Step>): State {
    if steps == [] then START else Do(Run(steps[..|steps| - 1]), steps[|steps| - 1])
  }

  // ---------------------------------------------------------------- invariant

  predicate RowInv(s: State, i: nat)
    requires i < |s.incidents|
  {
    var row := s.incidents[i];
    && row.alertId.Some? && row.alertId.value < |s.alerts|
    && (row.status == Open ==> s.alerts[row.alertId.value].status == Open)
  }

  predicate CommandInv(s: State, c: Progress) {
    match c
    case Raised(a) => a < |s.alerts| && s.alerts[a].status == Open && Unlinked(s.incidents, a)
    case Holding(i, row, _) => i < |s.incidents| && row.alertId == s.incidents[i].alertId
    case Saved(i, link, _) => i < |s.incidents| && link == s.incidents[i].alertId && s.incidents[i].status != Open
    case Over => true
  }

  predicate Unlinked(incidents: seq<IncidentRow>, a: AlertId) {
    forall i :: 0 <= i < |incidents| ==> incidents[i].alertId != Some(a)
  }

  predicate Injective(incidents: seq<IncidentRow>) {
    forall i, k :: 0 <= i < k < |incidents| ==> incidents[i].alertId != incidents[k].alertId
  }

  predicate RaceInv(s: State) {
    && Injective(s.incidents)
    && (forall i :: 0 <= i < |s.incidents| ==> RowInv(s, i))
    && (forall k :: 0 <= k < |s.commands| ==> CommandInv(s, s.commands[k]))
    && (forall k, m :: 0 <= k < m < |s.commands| && s.commands[k].Raised? && s.commands[m].Raised? ==>
          s.commands[k].alert != s.commands[m].alert)
  }

  lemma RaiseKeepsInv(s: State, step: Step, s': State)
    requires RaceInv(s) && step.RaiseAlert? && s' == Do(s, step)
    ensures RaceInv(s')
  {
    forall i | 0 <= i < |s'.incidents| ensures RowInv(s', i) { assert RowInv(s, i); }
    forall k | 0 <= k < |s'.commands| ensures CommandInv(s', s'.commands[k]) {
      if k < |s.commands| {
        assert CommandInv(s, s.commands[k]);
      } else {
        forall i | 0 <= i < |s.incidents| ensures s.incidents[i].alertId != Some(|s.alerts|) { assert RowInv(s, i); }
      }
    }
    forall k | 0 <= k < |s.commands| && s.commands[k].Raised? ensures s.commands[k].alert < |s.alerts| {
      assert CommandInv(s, s.commands[k]);
    }
  }

  lemma NewIncidentKeepsInv(s: State, step: Step, s': State)
    requires RaceInv(s) && step.SaveNewIncident? && s' == Do(s, step)
    ensures RaceInv(s')
  {
    if s' != s {
      assert CommandInv(s, s.commands[step.k]);
      forall i | 0 <= i < |s'.incidents| ensures RowInv(s', i) {
        if i < |s.incidents| { assert RowInv(s, i); }
      }
      forall k | 0 <= k < |s'.commands| ensures CommandInv(s', s'.commands[k]) {
        if k != step.k { assert CommandInv(s, s.commands[k]); }
      }
    }
  }

  lemma SaveKeepsInv(s: State, step: Step, s': State)
    requires RaceInv(s) && step.SaveIncident? && s' == Do(s, step)
    ensures RaceInv(s')
  {
    if s' != s {
      var c := s.commands[step.k];
      assert CommandInv(s, c);
      forall i | 0 <= i < |s'.incidents| ensures RowInv(s', i) { assert RowInv(s, i); }
      forall k | 0 <= k < |s'.commands| ensures CommandInv(s', s'.commands[k]) {
        assert CommandInv(s, s.commands[k]);
      }
    }
  }

  lemma UpdateKeepsInv(s: State, step: Step, s': State)
    requires RaceInv(s) && step.UpdateItsAlert? && s' == Do(s, step)
    ensures RaceInv(s')
  {
    if s' != s {
      var c := s.commands[step.k];
      assert CommandInv(s, c);
      assert RowInv(s, c.incident);
      forall i | 0 <= i < |s'.incidents| ensures RowInv(s', i) {
        assert RowInv(s, i);
        assert i < c.incident ==> s.incidents[i].alertId != s.incidents[c.incident].alertId;
      }
      forall k | 0 <= k < |s'.commands| ensures CommandInv(s', s'.commands[k]) {
        assert CommandInv(s, s.commands[k]);
      }
    }
  }

  lemma StepKeepsInv(s: State, step: Step, s': State)
    requires RaceInv(s) && s' == Do(s, step)
    ensures RaceInv(s')
  {
    match step
    case RaiseAlert(_, _, _, _) => RaiseKeepsInv(s, step, s');
    case SaveNewIncident(_) => NewIncidentKeepsInv(s, step, s');
    case SaveIncident(_) => SaveKeepsInv(s, step, s');
    case UpdateItsAlert(_) => UpdateKeepsInv(s, step, s');
    case _ =>
      forall i | 0 <= i < |s'.incidents| ensures RowInv(s', i) { assert RowInv(s, i); }
      forall k | 0 <= k < |s'.commands| ensures CommandInv(s', s'.commands[k]) {
        if k < |s.commands| { assert CommandInv(s, s.commands[k]); }
      }
  }

  lemma {:induction false} RunsKeepInv(steps: seq<Step>)
    ensures RaceInv(Run(steps))
  {
    if steps != [] {
      RunsKeepInv(steps[..|steps| - 1]);
      StepKeepsInv(Run(steps[..|steps| - 1]), steps[|steps| - 1], Run(steps));
    }
  }

  // -------------------------------------------------------------- open counts

  /** The rows `count({ where: { status: OPEN } })` counts. */
  function OpenAlerts(s: State): set<AlertId> {
    set a | 0 <= a < |s.alerts| && s.alerts[a].status == Open
  }

  function OpenIncidents(s: State): set<IncidentId> {
    set i | 0 <= i < |s.incidents| && s.incidents[i].status == Open
  }

  lemma {:induction false} InjectionBounds(rows: seq<IncidentRow>, from: set<IncidentId>, into: set<AlertId>)
    requires Injective(rows)
    requires forall i :: i in from ==> i < |rows| && rows[i].alertId.Some? && rows[i].alertId.value in into
    ensures |from| <= |into|
  {
    if from != {} {
      var i :| i in from;
      var a := rows[i].alertId.value;
      forall k | k in from && k != i ensures rows[k].alertId.value in into - {a} {
        assert k < i ==> rows[k].alertId != rows[i].alertId;
        assert i < k ==> rows[i].alertId != rows[k].alertId;
      }
      InjectionBounds(rows, from - {i}, into - {a});
    }
  }

  /** In every snapshot of every run: an open incident's alert is open, and no alert has two incidents. */
  lemma OpenIncidentHasOpenAlert(steps: seq<Step>, i: IncidentId)
    requires i < |Run(steps).incidents|
    ensures var s := Run(steps);
      && s.incidents[i].alertId.Some? && s.incidents[i].alertId.value < |s.alerts|
      && (s.incidents[i].status == Open ==> s.alerts[s.incidents[i].alertId.value].status == Open)
      && forall k :: 0 <= k < |s.incidents| && s.incidents[k].alertId == s.incidents[i].alertId ==> k == i
  {
    RunsKeepInv(steps);
    assert RowInv(Run(steps), i);
  }

  /** In every snapshot of every run open incidents are no more than open alerts. */
  lemma OpenIncidentsWithinOpenAlerts(steps: seq<Step>)
    ensures |OpenIncidents(Run(steps))| <= |OpenAlerts(Run(steps))|
  {
    var s := Run(steps);
    RunsKeepInv(steps);
    forall i | i in OpenIncidents(s)
      ensures s.incidents[i].alertId.Some? && s.incidents[i].alertId.value in OpenAlerts(s)
    {
      assert RowInv(s, i);
    }
    InjectionBounds(s.incidents, OpenIncidents(s), OpenAlerts(s));
  }

  // --------------------------------------------------- what overlapping costs

  /** Once an incident has left OPEN, no later step of any run reopens it. */
  lemma {:induction false} OpenIsNeverRegained(steps: seq<Step>, more: seq<Step>, i: IncidentId)
    requires i < |Run(steps).incidents| && Run(steps).incidents[i].status != Open
    ensures i < |Run(steps + more).incidents| && Run(steps + more).incidents[i].status != Open
  {
    if more == [] {
      assert steps + more == steps;
    } else {
      var all := steps + more;
      assert all[..|all| - 1] == steps + more[..|more| - 1];
      OpenIsNeverRegained(steps, more[..|more| - 1], i);
      StepKeepsClosed(Run(all[..|all| - 1]), all[|all| - 1], Run(all), i);
    }
  }

  lemma StepKeepsClosed(s: State, step: Step, s': State, i: IncidentId)
    requires s' == Do(s, step) && i < |s.incidents| && s.incidents[i].status != Open
    ensures i < |s'.incidents| && s'.incidents[i].status != Open
  {
  }

  /** Command `k` has read incident `i` to acknowledge it and has not saved it yet. */
  predicate AcknowledgementHeld(s: State, k: nat, i: IncidentId) {
    k < |s.commands| && s.commands[k].Holding? && s.commands[k].incident == i && s.commands[k].move.Acknowledge?
  }

  ghost predicate NoneHeld(s: State, i: IncidentId) {
    forall k: nat :: !AcknowledgementHeld(s, k, i)
  }

  predicate IsResolved(s: State, i: IncidentId) {
    i < |s.incidents| && s.incidents[i].status == Resolved
  }

  lemma StepKeepsResolved(s: State, step: Step, i: IncidentId)
    requires IsResolved(s, i) && NoneHeld(s, i)
    ensures IsResolved(Do(s, step), i) && NoneHeld(Do(s, step), i)
  {
    forall k: nat
      ensures !AcknowledgementHeld(Do(s, step), k, i)
    {
      assert !AcknowledgementHeld(s, k, i);
    }
    if step.SaveIncident? { assert !AcknowledgementHeld(s, step.k, i); }
  }

  lemma {:induction false} StaysResolved(steps: seq<Step>, more: seq<Step>, i: IncidentId)
    requires IsResolved(Run(steps), i) && NoneHeld(Run(steps), i)
    ensures IsResolved(Run(steps + more), i) && NoneHeld(Run(steps + more), i)
  {
    if more == [] {
      assert steps + more == steps;
    } else {
      var all := steps + more;
      assert all[..|all| - 1] == steps + more[..|more| - 1];
      StaysResolved(steps, more[..|more| - 1], i);
      StepKeepsResolved(Run(all[..|all| - 1]), all[|all| - 1], i);
    }
  }

  /** A resolution is final exactly when no acknowledgement that read the incident earlier is still to be saved. */
  lemma {:induction false} ResolutionIsFinal(steps: seq<Step>, i: IncidentId)
    requires IsResolved(Run(steps), i)
    ensures NoneHeld(Run(steps), i) <==> forall more :: IsResolved(Run(steps + more), i)
  {
    if NoneHeld(Run(steps), i) {
      forall more ensures IsResolved(Run(steps + more), i) { StaysResolved(steps, more, i); }
    } else {
      var k: nat :| AcknowledgementHeld(Run(steps), k, i);
      RunOneMore(steps, SaveIncident(k));
      assert !IsResolved(Run(steps + [SaveIncident(k)]), i);
    }
  }

  /** The columns that an incident's status calls for. */
  predicate IncidentTold(row: IncidentRow) {
    match row.status
    case Open =>
      row.acknowledgedBy == None && row.acknowledgedAt == None && row.resolvedBy == None && row.resolvedAt == None
    case Acknowledged =>
      row.acknowledgedBy.Some? && row.acknowledgedAt.Some? && row.resolvedBy == None && row.resolvedAt == None
    case Resolved =>
      row.acknowledgedBy.Some? && row.acknowledgedAt.Some? && row.resolvedBy.Some? && row.resolvedAt.Some?
  }

  predicate HeldTold(c: Progress) {
    c.Holding? ==> c.row.status != Resolved && IncidentTold(c.row)
  }

  /**
   Whatever overlaps, an incident names a resolver exactly while it is resolved:
   an acknowledgement that undoes a resolution also erases who resolved it.
   */
  lemma {:induction false} IncidentsTellTheirStatus(steps: seq<Step>)
    ensures forall i :: 0 <= i < |Run(steps).incidents| ==> IncidentTold(Run(steps).incidents[i])
    ensures forall k :: 0 <= k < |Run(steps).commands| ==> HeldTold(Run(steps).commands[k])
  {
    if steps != [] {
      var s, step := Run(steps[..|steps| - 1]), steps[|steps| - 1];
      IncidentsTellTheirStatus(steps[..|steps| - 1]);
      if step.SaveIncident? && step.k < |s.commands| { assert HeldTold(s.commands[step.k]); }
    }
  }

  const SOMEONE: OperatorId := "operator-1"

  /** One critical alert and its incident, both open. */
  lemma {:induction false} CriticalRaised() returns (steps: seq<Step>)
    ensures Run(steps) == State([OpenAlert(None, OPERATOR_SOURCE, Critical)], [OpenIncident(0)], [Over])
  {
    var raise := RaiseAlert(None, OPERATOR_SOURCE, Critical, false);
    RunOneMore([], raise);
    RunOneMore([] + [raise], SaveNewIncident(0));
    steps := [] + [raise] + [SaveNewIncident(0)];
  }

  /** Two operators read the incident at once; the acknowledgement is saved after the resolution and undoes it. */
  lemma {:induction false} StaleAcknowledgementUndoesResolution() returns (steps: seq<Step>, step: Step)
    ensures IsResolved(Run(steps), 0) && !NoneHeld(Run(steps), 0) && !IsResolved(Run(steps + [step]), 0)
  {
    var raised := CriticalRaised();
    var ack, resolve := ReadIncident(0, Acknowledge(SOMEONE, 0, 0)), ReadIncident(0, Resolve(SOMEONE, 0, 0, 0));
    RunOneMore(raised, ack);
    RunOneMore(raised + [ack], resolve);
    RunOneMore(raised + [ack] + [resolve], SaveIncident(2));
    steps, step := raised + [ack] + [resolve] + [SaveIncident(2)], SaveIncident(1);
    RunOneMore(steps, step);
    assert AcknowledgementHeld(Run(steps), 1, 0);
  }

  lemma RunOneMore(steps: seq<Step>, step: Step)
    ensures Run(steps + [step]) == Do(Run(steps), step)
  {
    assert (steps + [step])[..|steps|] == steps;
  }

  // ------------------------------------------------- an incident with its alert

  /** The incident and its alert are both resolved. */
  predicate PairResolved(s: State, i: IncidentId) {
    && IsResolved(s, i) && s.incidents[i].alertId.Some? && s.incidents[i].alertId.value < |s.alerts|
    && s.alerts[s.incidents[i].alertId.value].status == Resolved
  }

  /** Command `k` acknowledges incident `i` and has its incident or its alert still to write. */
  predicate AcknowledgementPending(s: State, k: nat, i: IncidentId) {
    && k < |s.commands| && (s.commands[k].Holding? || s.commands[k].Saved?)
    && s.commands[k].incident == i && s.commands[k].move.Acknowledge?
  }

  ghost predicate NonePending(s: State, i: IncidentId) {
    forall k: nat :: !AcknowledgementPending(s, k, i)
  }

  lemma StepKeepsPair(s: State, step: Step, i: IncidentId)
    requires RaceInv(s) && PairResolved(s, i) && NonePending(s, i)
    ensures PairResolved(Do(s, step), i) && NonePending(Do(s, step), i)
  {
    forall k: nat
      ensures !AcknowledgementPending(Do(s, step), k, i)
      ensures !AcknowledgementHeld(s, k, i)
    {
      assert !AcknowledgementPending(s, k, i);
    }
    StepKeepsResolved(s, step, i);
    if step.UpdateItsAlert? && step.k < |s.commands| && s.commands[step.k].Saved? {
      var c := s.commands[step.k];
      assert CommandInv(s, c) && !AcknowledgementPending(s, step.k, i);
      assert c.incident < i ==> s.incidents[c.incident].alertId != s.incidents[i].alertId;
      assert i < c.incident ==> s.incidents[i].alertId != s.incidents[c.incident].alertId;
    } else if step.SaveIncident? && step.k < |s.commands| && s.commands[step.k].Holding? {
      assert CommandInv(s, s.commands[step.k]);
    }
  }

  lemma {:induction false} PairStays(steps: seq<Step>, more: seq<Step>, i: IncidentId)
    requires PairResolved(Run(steps), i) && NonePending(Run(steps), i)
    ensures PairResolved(Run(steps + more), i) && NonePending(Run(steps + more), i)
  {
    if more == [] {
      assert steps + more == steps;
    } else {
      var all := steps + more;
      assert all[..|all| - 1] == steps + more[..|more| - 1];
      PairStays(steps, more[..|more| - 1], i);
      RunsKeepInv(all[..|all| - 1]);
      StepKeepsPair(Run(all[..|all| - 1]), all[|all| - 1], i);
    }
  }

  /**
   A resolved incident and its alert both stay resolved exactly when no
   acknowledgement of the incident is under way, saved or not.
   */
  lemma {:induction false} PairIsFinal(steps: seq<Step>, i: IncidentId)
    requires PairResolved(Run(steps), i)
    ensures NonePending(Run(steps), i) <==> forall more :: PairResolved(Run(steps + more), i)
  {
    var s := Run(steps);
    if NonePending(s, i) {
      forall more ensures PairResolved(Run(steps + more), i) { PairStays(steps, more, i); }
    } else {
      var k: nat :| AcknowledgementPending(s, k, i);
      RunsKeepInv(steps);
      assert CommandInv(s, s.commands[k]);
      var step := if s.commands[k].Holding? then SaveIncident(k) else UpdateItsAlert(k);
      RunOneMore(steps, step);
      assert !PairResolved(Run(steps + [step]), i);
    }
  }

  /** One incident whose acknowledgement is saved, with the alert update to come. */
  lemma {:induction false} AcknowledgementSaved(ack: Move) returns (steps: seq<Step>)
    requires ack.Acknowledge?
    ensures var s := Run(steps);
      && s.commands == [Over, Saved(0, Some(0), ack)] && |s.alerts| == 1
      && |s.incidents| == 1 && s.incidents[0].status == Acknowledged && s.incidents[0].alertId == Some(0)
  {
    var raised := CriticalRaised();
    RunOneMore(raised, ReadIncident(0, ack));
    RunOneMore(raised + [ReadIncident(0, ack)], SaveIncident(1));
    steps := raised + [ReadIncident(0, ack)] + [SaveIncident(1)];
  }

  /** The incident is resolved, with its alert, as command 2. */
  lemma {:induction false} ResolvedTogether(before: seq<Step>) returns (steps: seq<Step>)
    requires |Run(before).commands| == 2 && |Run(before).incidents| == 1 && |Run(before).alerts| == 1
    requires Run(before).incidents[0].status == Acknowledged && Run(before).incidents[0].alertId == Some(0)
    ensures PairResolved(Run(steps), 0) && Run(steps).incidents[0].alertId == Some(0)
    ensures Run(steps).commands == Run(before).commands + [Over]
  {
    var resolve := ReadIncident(0, Resolve(SOMEONE, 0, 0, 0));
    RunOneMore(before, resolve);
    RunOneMore(before + [resolve], SaveIncident(2));
    RunOneMore(before + [resolve] + [SaveIncident(2)], UpdateItsAlert(2));
    steps := before + [resolve] + [SaveIncident(2)] + [UpdateItsAlert(2)];
  }

  lemma LateUpdate(s: State, ack: Move)
    requires PairResolved(s, 0) && s.incidents[0].alertId == Some(0) && ack.Acknowledge?
    requires s.commands == [Over, Saved(0, Some(0), ack)] + [Over]
    ensures NoneHeld(s, 0)
    ensures IsResolved(Do(s, UpdateItsAlert(1)), 0) && !PairResolved(Do(s, UpdateItsAlert(1)), 0)
    ensures 0 < |Do(s, UpdateItsAlert(1)).alerts| == |s.alerts|
    ensures Do(s, UpdateItsAlert(1)).alerts[0].resolvedBy == s.alerts[0].resolvedBy
  {
  }

  /** An acknowledgement saved before a resolution, whose alert update comes last, moves the resolved alert back. */
  lemma {:induction false} LateAlertUpdateUndoesResolution() returns (steps: seq<Step>, step: Step)
    ensures PairResolved(Run(steps), 0) && NoneHeld(Run(steps), 0)
    ensures IsResolved(Run(steps + [step]), 0) && !PairResolved(Run(steps + [step]), 0)
    ensures 0 < |Run(steps).alerts| == |Run(steps + [step]).alerts|
    ensures Run(steps + [step]).alerts[0].resolvedBy == Run(steps).alerts[0].resolvedBy
  {
    var ack := Acknowledge(SOMEONE, 0, 0);
    steps := AcknowledgementSaved(ack);
    steps := ResolvedTogether(steps);
    step := UpdateItsAlert(1);
    RunOneMore(steps, step);
    LateUpdate(Run(steps), ack);
  }

  /** Undisturbed, the three steps of a command do to the rows what the whole use case does. */
  lemma UndisturbedCommandIsTheUseCase(s: State, t: Tables, id: IncidentId, move: Move)
    requires s.alerts == t.alerts && s.incidents == t.incidents && Unresolved(t, id)
    ensures var k, t' := |s.commands|, UseCase(t, id, move);
      var s' := Do(Do(Do(s, ReadIncident(id, move)), SaveIncident(k)), UpdateItsAlert(k));
      s'.alerts == t'.alerts && s'.incidents == t'.incidents && s'.commands == s.commands + [Over]
  {
    var k := |s.commands|;
    var read := Do(s, ReadIncident(id, move));
    assert read.commands[k] == Holding(id, s.incidents[id], move) && read.incidents == s.incidents;
    SavedThenUpdated(read, t, id, move, k);
  }

  function UseCase(t: Tables, id: IncidentId, move: Move): Tables {
    match move
    case Acknowledge(operator, at, alertAt) => AfterAcknowledge(t, id, operator, at, alertAt)
    case Resolve(operator, ackAt, at, alertAt) => AfterResolve(t, id, operator, ackAt, at, alertAt)
  }

  lemma SavedThenUpdated(s: State, t: Tables, id: IncidentId, move: Move, k: nat)
    requires s.alerts == t.alerts && s.incidents == t.incidents && Unresolved(t, id)
    requires k < |s.commands| && s.commands[k] == Holding(id, t.incidents[id], move)
    ensures var s', t' := Do(Do(s, SaveIncident(k)), UpdateItsAlert(k)), UseCase(t, id, move);
      s'.alerts == t'.alerts && s'.incidents == t'.incidents && s'.commands == s.commands[k := Over]
  {
    var saved := Do(s, SaveIncident(k));
    assert saved.commands[k] == Saved(id, t.incidents[id].alertId, move);
    assert saved.incidents == UseCase(t, id, move).incidents && saved.alerts == t.alerts;
  }

  /** So do the one or two steps that raise an alert, whether an operator or the worker raises it. */
  lemma UndisturbedRaiseIsTheUseCase(s: State, t: Tables, jobId: Option<JobId>, source: string, severity: Severity,
                                     wanted: bool, operator: OperatorId)
    requires s.alerts == t.alerts && s.incidents == t.incidents && AlertAccepted(t, jobId)
    ensures var k, t' := |s.commands|, AfterCreateAlert(t, jobId, source, severity, wanted, operator);
      var s' := Do(Do(s, RaiseAlert(jobId, source, severity, wanted)), SaveNewIncident(k));
      s'.alerts == t'.alerts && s'.incidents == t'.incidents && s'.commands == s.commands + [Over]
  {
    assert Do(s, RaiseAlert(jobId, source, severity, wanted)).commands[|s.commands|]
        == if wanted || severity == Critical then Raised(|s.alerts|) else Over;
  }

  lemma UndisturbedFailureIsTheUseCase(s: State, t: Tables, j: JobId, startedAt: Time, finishedAt: Time)
    requires s.alerts == t.alerts && s.incidents == t.incidents && j < |t.jobs|
    ensures var k, t' := |s.commands|, AfterFail(t, j, startedAt, finishedAt);
      var raised := Do(s, RaiseAlert(Some(j), "processing-service", JobRules.FailureSeverity(t.jobs[j]), false));
      var s' := Do(raised, SaveNewIncident(k));
      s'.alerts == t'.alerts && s'.incidents == t'.incidents && s'.commands == s.commands + [Over]
  {
    UndisturbedRaiseIsTheUseCase(s, t, Some(j), WORKER_SOURCE, JobRules.FailureSeverity(t.jobs[j]), false, "");
  }
}
