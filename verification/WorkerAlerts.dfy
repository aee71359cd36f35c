/**
 Without redelivery: escalation. However deliveries, retries and exceptions
 interleave, the worker raises at most one critical alert for a job, only when
 the attempt budget is spent, and opens no more incidents than that.
 */
module WorkerAlerts {
  import opened Domain
  import opened JobRules
  import opened Sums
  import opened Protocol
  import opened ProtocolTables
  import opened Tokens

  function CriticalAlert(severity: Severity): nat {
    if severity == Critical then 1 else 0
  }

  function Criticals(c: Cell): nat {
    Sum(CriticalAlert, c.alerts)
  }

  /** The handler may still raise a critical alert. */
  function CriticalDue(h: Handler): nat {
    match h
    case Running(_, job, _, _) => CriticalAlert(FailureSeverity(job))
    case Settling(_, job, SaveAlert) => CriticalAlert(FailureSeverity(job))
    case _ => 0
  }

  function IncidentDue(h: Handler): nat {
    if h.Settling? && h.settle.SaveIncident? then 1 else 0
  }

  predicate AlertsInv(c: Cell) {
    && Criticals(c) + Sum(CriticalDue, c.handlers) <= CriticalAlert(FailureSeverity(c.job))
    && c.incidents + Sum(IncidentDue, c.handlers) <= Criticals(c)
  }

  lemma HandlerKeepsAlerts(c: Cell, c': Cell, i: nat, h: Handler)
    requires AlertsInv(c) && i < |c.handlers| && c'.handlers == c.handlers[i := h]
    requires c'.alerts == c.alerts && c'.incidents == c.incidents
    requires CriticalAlert(FailureSeverity(c'.job)) >= CriticalAlert(FailureSeverity(c.job))
    requires CriticalDue(h) <= CriticalDue(c.handlers[i])
               + CriticalAlert(FailureSeverity(c'.job)) - CriticalAlert(FailureSeverity(c.job))
    requires IncidentDue(h) <= IncidentDue(c.handlers[i])
    ensures AlertsInv(c')
  {
    SumUpdate(CriticalDue, c.handlers, i, h);
    SumUpdate(IncidentDue, c.handlers, i, h);
  }

  lemma RunKeepsAlerts(c: Cell, now: Time, i: nat)
    requires CellInv(c) && AlertsInv(c) && i < |c.handlers| && c.handlers[i].Running?
    ensures AlertsInv(AdvanceRun(c, now, i))
  {
    var c' := AdvanceRun(c, now, i);
    assert Coherent(c, c.handlers[i]);
    HandlerKeepsAlerts(c, c', i, c'.handlers[i]);
  }

  /** What one settling step adds to the alerts and what it still owes. */
  lemma SettleOwes(c: Cell, i: nat)
    requires i < |c.handlers| && c.handlers[i].Settling?
    ensures var c', h := AdvanceSettle(c, i), c.handlers[i];
      && c'.job == c.job && c'.handlers == c.handlers[i := c'.handlers[i]]
      && c'.alerts == (if h.settle.SaveAlert? then c.alerts + [FailureSeverity(h.job)] else c.alerts)
      && c'.incidents == c.incidents + IncidentDue(h)
      && CriticalDue(c'.handlers[i]) == 0
      && IncidentDue(c'.handlers[i]) == CriticalDue(h)
  {
  }

  lemma SettleKeepsAlerts(c: Cell, i: nat)
    requires AlertsInv(c) && i < |c.handlers| && c.handlers[i].Settling?
    ensures AlertsInv(AdvanceSettle(c, i))
  {
    var h, h' := c.handlers[i], AdvanceSettle(c, i).handlers[i];
    SettleOwes(c, i);
    SumUpdate(CriticalDue, c.handlers, i, h');
    SumUpdate(IncidentDue, c.handlers, i, h');
    if h.settle.SaveAlert? { SumAppend(CriticalAlert, c.alerts, FailureSeverity(h.job)); }
  }

  lemma StepKeepsAlerts(c: Cell, now: Time, i: nat)
    requires CellInv(c) && AlertsInv(c) && i < |c.handlers|
    ensures AlertsInv(AdvanceHandler(c, now, i))
  {
    var h := c.handlers[i];
    if h.Running? {
      RunKeepsAlerts(c, now, i);
    } else if h.Settling? {
      SettleKeepsAlerts(c, i);
    } else {
      var c' := AdvanceHandler(c, now, i);
      assert Coherent(c, h);
      assert c'.handlers == c.handlers[i := c'.handlers[i]];
      SumMember(PendingHandler, c.handlers, i);
      HandlerKeepsAlerts(c, c', i, c'.handlers[i]);
    }
  }

  /** A handler that stops raises nothing more. */
  lemma StopKeepsAlerts(c: Cell, i: nat, h: Handler)
    requires AlertsInv(c) && i < |c.handlers|
    requires h == ThrowHandler(c.handlers[i]) || h == KillHandler(c.handlers[i])
    ensures AlertsInv(c.(handlers := c.handlers[i := h]))
  {
    HandlerKeepsAlerts(c, c.(handlers := c.handlers[i := h]), i, h);
  }

  lemma DeliveryKeepsAlerts(c: Cell, c': Cell)
    requires AlertsInv(c) && c' == c.(queued := c'.queued, handlers := c.handlers + [Delivered])
    ensures AlertsInv(c')
  {
    SumAppend(CriticalDue, c.handlers, Delivered);
    SumAppend(IncidentDue, c.handlers, Delivered);
  }

  lemma ActKeepsAlerts(c: Cell, now: Time, a: Action)
    requires CellInv(c) && AlertsInv(c) && !a.Redeliver? && !a.ReadForRetry?
    ensures AlertsInv(Act(c, now, a))
  {
    match a
    case Deliver => if c.queued > 0 { DeliveryKeepsAlerts(c, Act(c, now, a)); }
    case Step(i) => if i < |c.handlers| { StepKeepsAlerts(c, now, i); }
    case Throw(i) => if i < |c.handlers| { StopKeepsAlerts(c, i, ThrowHandler(c.handlers[i])); }
    case Die(i) => if i < |c.handlers| { StopKeepsAlerts(c, i, KillHandler(c.handlers[i])); }
    case _ =>
  }

  lemma {:induction false} RunKeepsAlertsInv(ls: seq<Label>)
    requires DeliversOnce(ls)
    ensures forall j :: 0 <= j < |Run(ls).cells| ==> AlertsInv(Run(ls).cells[j])
  {
    if ls != [] {
      var s, l := Run(ls[..|ls| - 1]), ls[|ls| - 1];
      RunKeepsAlertsInv(ls[..|ls| - 1]);
      RunKeepsTokens(ls[..|ls| - 1]);
      assert DeliversOnceLabel(l);
      if l.OnJob? && l.job < |s.cells| {
        ActKeepsAlerts(s.cells[l.job], s.now, l.action);
      }
    }
  }

  /** At most one critical worker alert per job, never before the budget is spent, and at most one incident. */
  lemma CriticalAtMostOnce(ls: seq<Label>, j: JobId)
    requires DeliversOnce(ls) && j < |Run(ls).cells|
    ensures var c := Run(ls).cells[j];
      && c.incidents <= Criticals(c) <= 1
      && (Criticals(c) == 1 ==> c.job.attemptCount == c.job.maxAttempts)
  {
    RunKeepsAlertsInv(ls);
    RunKeepsTokens(ls);
  }
}
