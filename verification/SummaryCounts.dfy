/**
 The status summary counts open alerts and open incidents in two queries that
 the database may answer in either order. When the later count can make open
 incidents outnumber open alerts is decided at the moment of the first one.
 */
module SummaryCounts {
  import opened Domain
  import opened Tables
  import opened UseCases
  import opened IncidentRace

  // ------------------------------------------------- alerts counted first

  /** Commands that have saved an alert and are about to save its incident. */
  function Coming(s: State): set<nat> {
    set k | 0 <= k < |s.commands| && s.commands[k].Raised?
  }

  /** New alerts among the steps from position `from` on. */
  function RaisesSince(steps: seq<Step>, from: nat): nat {
    if |steps| <= from then 0
    else RaisesSince(steps[..|steps| - 1], from) + (if steps[|steps| - 1].RaiseAlert? then 1 else 0)
  }

  lemma SavingOpensOne(s: State, k: nat, s': State)
    requires k < |s.commands| && s.commands[k].Raised? && s' == Do(s, SaveNewIncident(k))
    ensures OpenIncidents(s') == OpenIncidents(s) + {|s.incidents|} && Coming(s') == Coming(s) - {k} && k in Coming(s)
    ensures |OpenIncidents(s')| == |OpenIncidents(s)| + 1 && |Coming(s')| == |Coming(s)| - 1
  {
    assert |s.incidents| !in OpenIncidents(s);
  }

  /** Open incidents with those still coming grow by new alerts only. */
  lemma StepAddsAtMostItsAlert(s: State, step: Step, s': State)
    requires s' == Do(s, step)
    ensures |OpenIncidents(s')| + |Coming(s')|
            <= |OpenIncidents(s)| + |Coming(s)| + (if step.RaiseAlert? then 1 else 0)
  {
    match step
    case RaiseAlert(_, _, _, _) =>
      assert OpenIncidents(s') == OpenIncidents(s);
      Subset(Coming(s'), Coming(s) + {|s.commands|});
    case SaveNewIncident(k) => if s' != s { SavingOpensOne(s, k, s'); }
    case ReadIncident(_, _) => assert OpenIncidents(s') == OpenIncidents(s) && Coming(s') == Coming(s);
    case _ =>
      Subset(OpenIncidents(s'), OpenIncidents(s));
      Subset(Coming(s'), Coming(s));
  }

  lemma Subset(a: set<nat>, b: set<nat>)
    requires a <= b
    ensures |a| <= |b|
  {
    assert |b| == |a| + |b - a| by { assert b == a + (b - a); }
  }

  lemma {:induction false} RunAddsAtMostItsAlerts(steps: seq<Step>, later: seq<Step>)
    requires steps <= later
    ensures |OpenIncidents(Run(later))| + |Coming(Run(later))|
            <= |OpenIncidents(Run(steps))| + |Coming(Run(steps))| + RaisesSince(later, |steps|)
  {
    if |later| == |steps| {
      assert later == steps;
    } else {
      var before := later[..|later| - 1];
      RunAddsAtMostItsAlerts(steps, before);
      StepAddsAtMostItsAlert(Run(before), later[|later| - 1], Run(later));
    }
  }

  lemma OneMore(steps: seq<Step>, step: Step)
    ensures Run(steps + [step]) == Do(Run(steps), step)
    ensures forall from: nat :: from <= |steps| ==>
      && RaisesSince(steps + [step], from) == RaisesSince(steps, from) + (if step.RaiseAlert? then 1 else 0)
      && UpdatesSince(steps + [step], from) == UpdatesSince(steps, from) + (if step.UpdateItsAlert? then 1 else 0)
  {
    assert (steps + [step])[..|steps|] == steps;
  }

  /** The commands under way can all save their incidents. */
  lemma {:induction false} ComingCanOpen(steps: seq<Step>, from: nat, n: nat) returns (later: seq<Step>)
    requires from <= |steps| && n == |Coming(Run(steps))|
    ensures steps <= later && RaisesSince(later, from) == RaisesSince(steps, from)
    ensures |OpenIncidents(Run(later))| == |OpenIncidents(Run(steps))| + n
    decreases n
  {
    if n == 0 {
      later := steps;
    } else {
      var k :| k in Coming(Run(steps));
      OneMore(steps, SaveNewIncident(k));
      SavingOpensOne(Run(steps), k, Run(steps + [SaveNewIncident(k)]));
      later := ComingCanOpen(steps + [SaveNewIncident(k)], from, n - 1);
    }
  }

  const CRITICAL_ALERT := RaiseAlert(None, OPERATOR_SOURCE, Critical, false)

  /** Further critical alerts can open one incident each. */
  lemma {:induction false} RaisesCanOpen(steps: seq<Step>, from: nat, n: nat) returns (later: seq<Step>)
    requires from <= |steps|
    ensures steps <= later && RaisesSince(later, from) == RaisesSince(steps, from) + n
    ensures |OpenIncidents(Run(later))| == |OpenIncidents(Run(steps))| + n
  {
    if n == 0 {
      later := steps;
    } else {
      var before := RaisesCanOpen(steps, from, n - 1);
      var k := |Run(before).commands|;
      OneMore(before, CRITICAL_ALERT);
      var raised := before + [CRITICAL_ALERT];
      OneMore(raised, SaveNewIncident(k));
      later := raised + [SaveNewIncident(k)];
      assert OpenIncidents(Run(raised)) == OpenIncidents(Run(before));
      SavingOpensOne(Run(raised), k, Run(later));
    }
  }

  /**
   Open alerts counted first, open incidents later: the incidents stay within
   the alerts for every course of events with at most `n` new alerts in
   between, if and only if the open alerts leave room for the incidents under
   way and `n` more.
   */
  lemma {:induction false} AlertsCountedFirst(steps: seq<Step>, n: nat)
    ensures (forall later :: steps <= later && RaisesSince(later, |steps|) <= n ==>
               |OpenIncidents(Run(later))| <= |OpenAlerts(Run(steps))|)
            <==> |OpenIncidents(Run(steps))| + |Coming(Run(steps))| + n <= |OpenAlerts(Run(steps))|
  {
    var s := Run(steps);
    if |OpenIncidents(s)| + |Coming(s)| + n <= |OpenAlerts(s)| {
      forall later | steps <= later && RaisesSince(later, |steps|) <= n
        ensures |OpenIncidents(Run(later))| <= |OpenAlerts(s)|
      {
        RunAddsAtMostItsAlerts(steps, later);
      }
    } else {
      var started := ComingCanOpen(steps, |steps|, |Coming(s)|);
      var later := RaisesCanOpen(started, |steps|, n);
      assert RaisesSince(steps, |steps|) == 0;
      assert steps <= later && RaisesSince(later, |steps|) <= n && |OpenIncidents(Run(later))| > |OpenAlerts(s)|;
    }
  }

  function AlertsOf(s: State, ks: set<nat>): set<AlertId>
    requires forall k :: k in ks ==> k < |s.commands| && s.commands[k].Raised?
  {
    set k | k in ks :: s.commands[k].alert
  }

  lemma {:induction false} DistinctAlerts(s: State, ks: set<nat>)
    requires RaceInv(s) && forall k :: k in ks ==> k < |s.commands| && s.commands[k].Raised?
    ensures |AlertsOf(s, ks)| == |ks|
  {
    if ks != {} {
      var k :| k in ks;
      DistinctAlerts(s, ks - {k});
      assert s.commands[k].alert !in AlertsOf(s, ks - {k});
      assert AlertsOf(s, ks) == AlertsOf(s, ks - {k}) + {s.commands[k].alert};
    }
  }

  /** Open incidents with those still coming are within the open alerts of the same snapshot. */
  lemma {:induction false} ComingWithinOpenAlerts(steps: seq<Step>)
    ensures |OpenIncidents(Run(steps))| + |Coming(Run(steps))| <= |OpenAlerts(Run(steps))|
  {
    var s := Run(steps);
    RunsKeepInv(steps);
    var taken := AlertsOf(s, Coming(s));
    DistinctAlerts(s, Coming(s));
    forall a | a in taken ensures a in OpenAlerts(s) && Unlinked(s.incidents, a) {
      var k :| k in Coming(s) && s.commands[k].alert == a;
      assert CommandInv(s, s.commands[k]);
    }
    forall i | i in OpenIncidents(s)
      ensures s.incidents[i].alertId.Some? && s.incidents[i].alertId.value in OpenAlerts(s) - taken
    {
      assert RowInv(s, i);
    }
    InjectionBounds(s.incidents, OpenIncidents(s), OpenAlerts(s) - taken);
    assert |OpenAlerts(s) - taken| == |OpenAlerts(s)| - |taken|;
  }

  /** So two counts with no new alert between them agree. */
  lemma {:induction false} CountsAgreeWithoutNewAlerts(steps: seq<Step>, later: seq<Step>)
    requires steps <= later && RaisesSince(later, |steps|) == 0
    ensures |OpenIncidents(Run(later))| <= |OpenAlerts(Run(steps))|
  {
    ComingWithinOpenAlerts(steps);
    AlertsCountedFirst(steps, 0);
  }

  // ---------------------------------------------- incidents counted first

  /** Alert updates among the steps from position `from` on. */
  function UpdatesSince(steps: seq<Step>, from: nat): nat {
    if |steps| <= from then 0
    else UpdatesSince(steps[..|steps| - 1], from) + (if steps[|steps| - 1].UpdateItsAlert? then 1 else 0)
  }

  /** The command under way is about alert `a`. */
  predicate Concerns(c: Progress, a: AlertId) {
    match c
    case Raised(alert) => alert == a
    case Holding(_, row, _) => row.alertId == Some(a)
    case Saved(_, link, _) => link == Some(a)
    case Over => false
  }

  predicate Pursued(s: State, a: AlertId, k: nat) {
    k < |s.commands| && Concerns(s.commands[k], a)
  }

  predicate Unresolved(s: State, a: AlertId, i: nat) {
    i < |s.incidents| && s.incidents[i].alertId == Some(a) && s.incidents[i].status != Resolved
  }

  /** Some command under way is about the alert, or its incident still admits one. */
  ghost predicate Closable(s: State, a: AlertId) {
    (exists k: nat :: Pursued(s, a, k)) || (exists i: nat :: Unresolved(s, a, i))
  }

  /** Open alerts that no routed command can close any more. */
  ghost function LeftOpen(s: State): set<AlertId> {
    set a | 0 <= a < |s.alerts| && s.alerts[a].status == Open && !Closable(s, a)
  }

  lemma LeftOpenStays(s: State, step: Step, s': State, a: AlertId)
    requires RaceInv(s) && s' == Do(s, step) && a in LeftOpen(s)
    ensures a in LeftOpen(s')
  {
    assert forall k: nat :: !Pursued(s, a, k);
    assert forall i: nat :: !Unresolved(s, a, i);
    forall k: nat ensures !Pursued(s', a, k) {
      assert !Pursued(s, a, k);
      if step.ReadIncident? { assert !Unresolved(s, a, step.id); }
    }
    forall i: nat ensures !Unresolved(s', a, i) {
      assert !Unresolved(s, a, i);
      if step.SaveNewIncident? || step.SaveIncident? { assert !Pursued(s, a, step.k); }
    }
    if step.UpdateItsAlert? { assert !Pursued(s, a, step.k); }
  }

  /** Only an alert update closes an alert, and only one. */
  lemma StepClosesAtMostOne(s: State, step: Step, s': State)
    requires s' == Do(s, step)
    ensures |OpenAlerts(s)| <= |OpenAlerts(s')| + (if step.UpdateItsAlert? then 1 else 0)
  {
    if step.UpdateItsAlert? && s' != s {
      var link := s.commands[step.k].link;
      if link.Some? {
        Subset(OpenAlerts(s), OpenAlerts(s') + {link.value});
      } else {
        assert OpenAlerts(s') == OpenAlerts(s);
      }
    } else {
      Subset(OpenAlerts(s), OpenAlerts(s'));
    }
  }

  lemma {:induction false} RunClosesAtMost(steps: seq<Step>, later: seq<Step>)
    requires steps <= later
    ensures |OpenAlerts(Run(steps))| <= |OpenAlerts(Run(later))| + UpdatesSince(later, |steps|)
    ensures LeftOpen(Run(steps)) <= LeftOpen(Run(later))
  {
    if |later| == |steps| {
      assert later == steps;
    } else {
      var before, step := later[..|later| - 1], later[|later| - 1];
      RunClosesAtMost(steps, before);
      RunsKeepInv(before);
      StepClosesAtMostOne(Run(before), step, Run(later));
      forall a | a in LeftOpen(Run(before)) ensures a in LeftOpen(Run(later)) {
        LeftOpenStays(Run(before), step, Run(later), a);
      }
    }
  }

  // ---------------------------------------------- closing what can be closed

  /** The step neither raises an alert nor abandons a command. */
  predicate Forward(step: Step) {
    !step.RaiseAlert? && !step.Stop?
  }

  lemma StaysClosable(s: State, step: Step, s': State, a: AlertId)
    requires RaceInv(s) && Forward(step) && s' == Do(s, step) && Closable(s, a)
    requires a < |s'.alerts| && s'.alerts[a].status == Open
    ensures Closable(s', a)
  {
    if k: nat :| Pursued(s, a, k) {
      PursuitGoesOn(s, step, s', a, k);
    } else {
      var i: nat :| Unresolved(s, a, i);
      if step.SaveIncident? && s' != s && s.commands[step.k].incident == i {
        assert CommandInv(s, s.commands[step.k]);
        assert Pursued(s', a, step.k);
      } else {
        assert Unresolved(s', a, i);
      }
    }
  }

  lemma PursuitGoesOn(s: State, step: Step, s': State, a: AlertId, k: nat)
    requires RaceInv(s) && Forward(step) && s' == Do(s, step) && Pursued(s, a, k)
    requires a < |s'.alerts| && s'.alerts[a].status == Open
    ensures Closable(s', a)
  {
    if step.SaveNewIncident? && step.k == k && s.commands[k].Raised? {
      assert Unresolved(s', a, |s.incidents|);
    } else {
      assert Pursued(s', a, k);
    }
  }

  lemma ForwardKeepsLeftOpen(s: State, step: Step, s': State)
    requires RaceInv(s) && Forward(step) && s' == Do(s, step)
    ensures LeftOpen(s') == LeftOpen(s) && OpenAlerts(s') <= OpenAlerts(s)
    ensures !step.UpdateItsAlert? ==> OpenAlerts(s') == OpenAlerts(s)
  {
    forall a | a in LeftOpen(s) ensures a in LeftOpen(s') { LeftOpenStays(s, step, s', a); }
    forall a | a in LeftOpen(s') ensures a in LeftOpen(s) {
      if Closable(s, a) { StaysClosable(s, step, s', a); }
    }
  }

  /** From `steps` to `later` exactly alert `a` was closed, with one update. */
  ghost predicate Closed(steps: seq<Step>, later: seq<Step>, from: nat, a: AlertId) {
    && steps <= later && UpdatesSince(later, from) == UpdatesSince(steps, from) + 1
    && OpenAlerts(Run(later)) == OpenAlerts(Run(steps)) - {a} && LeftOpen(Run(later)) == LeftOpen(Run(steps))
  }

  lemma {:induction false} SavedCanClose(steps: seq<Step>, from: nat, a: AlertId, k: nat) returns (later: seq<Step>)
    requires from <= |steps| && a in OpenAlerts(Run(steps))
    requires Pursued(Run(steps), a, k) && Run(steps).commands[k].Saved?
    ensures Closed(steps, later, from, a)
  {
    RunsKeepInv(steps);
    OneMore(steps, UpdateItsAlert(k));
    later := steps + [UpdateItsAlert(k)];
    ForwardKeepsLeftOpen(Run(steps), UpdateItsAlert(k), Run(later));
  }

  lemma {:induction false} HoldingCanClose(steps: seq<Step>, from: nat, a: AlertId, k: nat) returns (later: seq<Step>)
    requires from <= |steps| && a in OpenAlerts(Run(steps))
    requires Pursued(Run(steps), a, k) && Run(steps).commands[k].Holding?
    ensures Closed(steps, later, from, a)
  {
    RunsKeepInv(steps);
    assert CommandInv(Run(steps), Run(steps).commands[k]);
    OneMore(steps, SaveIncident(k));
    ForwardKeepsLeftOpen(Run(steps), SaveIncident(k), Run(steps + [SaveIncident(k)]));
    later := SavedCanClose(steps + [SaveIncident(k)], from, a, k);
  }

  const RESOLUTION := Resolve(OPERATOR_SOURCE, 0, 0, 0)

  lemma {:induction false} IncidentCanClose(steps: seq<Step>, from: nat, a: AlertId, i: nat) returns (later: seq<Step>)
    requires from <= |steps| && a in OpenAlerts(Run(steps)) && Unresolved(Run(steps), a, i)
    ensures Closed(steps, later, from, a)
  {
    var read := steps + [ReadIncident(i, RESOLUTION)];
    RunsKeepInv(steps);
    OneMore(steps, ReadIncident(i, RESOLUTION));
    ForwardKeepsLeftOpen(Run(steps), ReadIncident(i, RESOLUTION), Run(read));
    later := HoldingCanClose(read, from, a, |Run(steps).commands|);
  }

  lemma {:induction false} RaisedCanClose(steps: seq<Step>, from: nat, a: AlertId, k: nat) returns (later: seq<Step>)
    requires from <= |steps| && a in OpenAlerts(Run(steps))
    requires Pursued(Run(steps), a, k) && Run(steps).commands[k].Raised?
    ensures Closed(steps, later, from, a)
  {
    var saved := steps + [SaveNewIncident(k)];
    RunsKeepInv(steps);
    OneMore(steps, SaveNewIncident(k));
    ForwardKeepsLeftOpen(Run(steps), SaveNewIncident(k), Run(saved));
    later := IncidentCanClose(saved, from, a, |Run(steps).incidents|);
  }

  lemma {:induction false} ClosableCanClose(steps: seq<Step>, from: nat, a: AlertId) returns (later: seq<Step>)
    requires from <= |steps| && a in OpenAlerts(Run(steps)) && Closable(Run(steps), a)
    ensures Closed(steps, later, from, a)
  {
    if k: nat :| Pursued(Run(steps), a, k) {
      match Run(steps).commands[k]
      case Raised(_) => later := RaisedCanClose(steps, from, a, k);
      case Holding(_, _, _) => later := HoldingCanClose(steps, from, a, k);
      case Saved(_, _, _) => later := SavedCanClose(steps, from, a, k);
    } else {
      var i: nat :| Unresolved(Run(steps), a, i);
      later := IncidentCanClose(steps, from, a, i);
    }
  }

  /** `m` updates can close `m` alerts, or all that can be closed. */
  lemma {:induction false} UpdatesCanClose(steps: seq<Step>, m: nat) returns (later: seq<Step>)
    ensures steps <= later && UpdatesSince(later, |steps|) <= m && LeftOpen(Run(later)) == LeftOpen(Run(steps))
    ensures |OpenAlerts(Run(later))| == |OpenAlerts(Run(steps))| - m || OpenAlerts(Run(later)) == LeftOpen(Run(steps))
  {
    if m == 0 {
      later := steps;
    } else {
      later := UpdatesCanClose(steps, m - 1);
      if OpenAlerts(Run(later)) != LeftOpen(Run(steps)) {
        var a :| a in OpenAlerts(Run(later)) && a !in LeftOpen(Run(later));
        var before := later;
        later := ClosableCanClose(before, |steps|, a);
        assert |OpenAlerts(Run(later))| == |OpenAlerts(Run(before))| - 1;
      }
    }
  }

  /**
   Open incidents counted first, open alerts later: the incidents stay within
   the alerts for every course of events with at most `m` alert updates in
   between, if and only if `m` updates cannot take the open alerts below them,
   or that many open alerts can no longer be closed at all.
   */
  lemma {:induction false} IncidentsCountedFirst(steps: seq<Step>, m: nat)
    ensures (forall later :: steps <= later && UpdatesSince(later, |steps|) <= m ==>
               |OpenIncidents(Run(steps))| <= |OpenAlerts(Run(later))|)
            <==> |OpenIncidents(Run(steps))| + m <= |OpenAlerts(Run(steps))|
                 || |OpenIncidents(Run(steps))| <= |LeftOpen(Run(steps))|
  {
    var s := Run(steps);
    if |OpenIncidents(s)| + m <= |OpenAlerts(s)| || |OpenIncidents(s)| <= |LeftOpen(s)| {
      forall later | steps <= later && UpdatesSince(later, |steps|) <= m
        ensures |OpenIncidents(s)| <= |OpenAlerts(Run(later))|
      {
        RunClosesAtMost(steps, later);
        Subset(LeftOpen(s), OpenAlerts(Run(later)));
      }
    } else {
      var later := UpdatesCanClose(steps, m);
      assert steps <= later && UpdatesSince(later, |steps|) <= m && |OpenIncidents(s)| > |OpenAlerts(Run(later))|;
    }
  }

  /** So two counts with no alert update between them agree. */
  lemma {:induction false} CountsAgreeWithoutUpdates(steps: seq<Step>, later: seq<Step>)
    requires steps <= later && UpdatesSince(later, |steps|) == 0
    ensures |OpenIncidents(Run(steps))| <= |OpenAlerts(Run(later))|
  {
    OpenIncidentsWithinOpenAlerts(steps);
    IncidentsCountedFirst(steps, 0);
  }

  /** Both orders can report more open incidents than open alerts, around one critical alert. */
  lemma {:induction false} SeparateCountsCanDisagree() returns (first: seq<Step>, second: seq<Step>, third: seq<Step>)
    ensures first <= second <= third
    ensures |OpenIncidents(Run(second))| > |OpenAlerts(Run(first))|
    ensures |OpenIncidents(Run(second))| > |OpenAlerts(Run(third))|
  {
    first := [];
    OneMore([], CRITICAL_ALERT);
    OneMore([] + [CRITICAL_ALERT], SaveNewIncident(0));
    second := [] + [CRITICAL_ALERT] + [SaveNewIncident(0)];
    assert Run([]) == START && OpenAlerts(START) == {};
    assert OpenAlerts(Run(second)) == {0} && Unresolved(Run(second), 0, 0) && 0 in OpenIncidents(Run(second));
    third := IncidentCanClose(second, |second|, 0, 0);
    assert OpenAlerts(Run(third)) == {};
  }
}
