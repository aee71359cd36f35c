/**
 Without redelivery: the attempt budget and the finality of outcomes, over every
 run, whatever throws or dies and however locks expire.
 The worker never tests `job.status`, so all of this rests on an invariant that
 spans API calls, the queue and the handlers.
 */
module Tokens {
  import opened Domain
  import opened Sums
  import opened Protocol
  import opened ProtocolTables

  /** Accepted work the attempt count does not include yet, or never will. */
  function PendingCall(call: Call): nat {
    if Published(call) then 0 else 1
  }

  function PendingHandler(h: Handler): nat {
    if HandlerProgress(h) == Uncounted then 1 else 0
  }

  function MidHandler(h: Handler): nat {
    if HandlerProgress(h) == Interrupted then 1 else 0
  }

  function Pending(c: Cell): nat {
    Sum(PendingCall, c.calls) + c.queued + Sum(PendingHandler, c.handlers)
  }

  function Mid(c: Cell): nat {
    Sum(MidHandler, c.handlers)
  }

  /** The status says exactly how much work is pending and how much is half done. */
  predicate TokenInv(c: Cell) {
    && Pending(c) == (if c.job.status == Queued then 1 else 0)
    && Mid(c) == (if c.job.status == Processing then 1 else 0)
    && c.job.attemptCount + Pending(c) <= c.job.maxAttempts
    && |c.calls| == c.job.attemptCount + Pending(c)
  }

  predicate CellInv(c: Cell) {
    TablesInv(c) && TokenInv(c)
  }

  lemma TokensGiveOneWriter(c: Cell)
    requires CellInv(c)
    ensures OneWriter(c)
  {
    forall i, k | 0 <= i < k < |c.handlers|
      ensures !(Writes(c.handlers[i]) && Writes(c.handlers[k]))
    {
      SumPair(PendingHandler, c.handlers, i, k);
      SumPair(MidHandler, c.handlers, i, k);
      SumMember(PendingHandler, c.handlers, i);
      SumMember(PendingHandler, c.handlers, k);
      SumMember(MidHandler, c.handlers, i);
      SumMember(MidHandler, c.handlers, k);
    }
  }

  lemma NewCellTokens(payload: Payload, maxAttempts: Attempts)
    ensures CellInv(NewCell(payload, maxAttempts))
  {
    var c := NewCell(payload, maxAttempts);
    assert c.calls == [] + [SaveAction];
    SumAppend(PendingCall, [], SaveAction);
  }

  lemma CallKeepsTokens(c: Cell, i: nat, call: Call)
    requires i < |c.calls|
    ensures Pending(c.(calls := c.calls[i := call])) + PendingCall(c.calls[i]) == Pending(c) + PendingCall(call)
    ensures PendingCall(c.calls[i]) <= Pending(c)
  {
    SumUpdate(PendingCall, c.calls, i, call);
    SumMember(PendingCall, c.calls, i);
  }

  /** How replacing one handler changes the two counts. */
  lemma HandlerChangesTokens(c: Cell, c': Cell, i: nat, h: Handler)
    requires i < |c.handlers| && c'.handlers == c.handlers[i := h] && c'.calls == c.calls && c'.queued == c.queued
    ensures Pending(c') + PendingHandler(c.handlers[i]) == Pending(c) + PendingHandler(h)
    ensures Mid(c') + MidHandler(c.handlers[i]) == Mid(c) + MidHandler(h)
    ensures PendingHandler(c.handlers[i]) <= Pending(c) && MidHandler(c.handlers[i]) <= Mid(c)
  {
    SumUpdate(PendingHandler, c.handlers, i, h);
    SumUpdate(MidHandler, c.handlers, i, h);
    SumMember(PendingHandler, c.handlers, i);
    SumMember(MidHandler, c.handlers, i);
  }

  lemma RunKeepsCounts(c: Cell, now: Time, i: nat)
    requires CellInv(c) && i < |c.handlers| && c.handlers[i].Running?
    ensures TokenInv(AdvanceRun(c, now, i))
  {
    var c' := AdvanceRun(c, now, i);
    assert Coherent(c, c.handlers[i]);
    HandlerChangesTokens(c, c', i, c'.handlers[i]);
  }

  lemma StepKeepsTokens(c: Cell, now: Time, i: nat)
    requires CellInv(c) && i < |c.handlers|
    ensures TokenInv(AdvanceHandler(c, now, i))
  {
    if c.handlers[i].Running? {
      RunKeepsCounts(c, now, i);
    } else {
      var c' := AdvanceHandler(c, now, i);
      assert Coherent(c, c.handlers[i]);
      assert c'.handlers == c.handlers[i := c'.handlers[i]];
      HandlerChangesTokens(c, c', i, c'.handlers[i]);
    }
  }

  lemma RetryKeepsTokens(c: Cell, now: Time)
    requires CellInv(c)
    ensures TokenInv(Act(c, now, Retry))
  {
    SumAppend(PendingCall, c.calls, SaveAction);
  }

  lemma DeliveryKeepsCounts(c: Cell, c': Cell)
    requires c'.handlers == c.handlers + [Delivered] && c'.queued + 1 == c.queued && c'.calls == c.calls
    ensures Pending(c') == Pending(c) && Mid(c') == Mid(c)
  {
    SumAppend(PendingHandler, c.handlers, Delivered);
    SumAppend(MidHandler, c.handlers, Delivered);
  }

  lemma DeliverKeepsTokens(c: Cell, now: Time)
    requires CellInv(c)
    ensures TokenInv(Act(c, now, Deliver))
  {
    if c.queued > 0 { DeliveryKeepsCounts(c, Act(c, now, Deliver)); }
  }

  /** A handler that stops keeps its progress. */
  lemma StopKeepsTokens(c: Cell, i: nat, h: Handler)
    requires CellInv(c) && i < |c.handlers| && HandlerProgress(h) == HandlerProgress(c.handlers[i])
    ensures TokenInv(c.(handlers := c.handlers[i := h]))
  {
    HandlerChangesTokens(c, c.(handlers := c.handlers[i := h]), i, h);
  }

  lemma CallActKeepsTokens(c: Cell, now: Time, a: Action)
    requires CellInv(c) && ((a.CallStep? && a.call < |c.calls|) || (a.CallThrow? && a.call < |c.calls|))
    ensures TokenInv(Act(c, now, a))
  {
    var i := a.call;
    if a.CallStep? {
      CallKeepsTokens(c, i, NextCall(c.calls[i]));
    } else {
      CallKeepsTokens(c, i, ThrowCall(c.calls[i]));
    }
  }

  lemma ActKeepsTokens(c: Cell, now: Time, a: Action)
    requires CellInv(c) && !a.Redeliver? && !a.ReadForRetry?
    ensures CellInv(Act(c, now, a))
  {
    TokensGiveOneWriter(c);
    ActKeepsTables(c, now, a);
    match a
    case Retry => RetryKeepsTokens(c, now);
    case CallStep(i) => if i < |c.calls| { CallActKeepsTokens(c, now, a); }
    case CallThrow(i) => if i < |c.calls| { CallActKeepsTokens(c, now, a); }
    case Deliver => DeliverKeepsTokens(c, now);
    case Step(i) => if i < |c.handlers| { StepKeepsTokens(c, now, i); }
    case Throw(i) => if i < |c.handlers| { StopKeepsTokens(c, i, ThrowHandler(c.handlers[i])); }
    case Die(i) => if i < |c.handlers| { StopKeepsTokens(c, i, KillHandler(c.handlers[i])); }
  }

  predicate SystemInv(s: System) {
    forall j :: 0 <= j < |s.cells| ==> CellInv(s.cells[j])
  }

  lemma NextKeepsTokens(s: System, l: Label)
    requires SystemInv(s) && DeliversOnceLabel(l)
    ensures SystemInv(Next(s, l))
  {
    match l
    case Create(payload, maxAttempts) => NewCellTokens(payload, maxAttempts);
    case Tick(_) =>
    case OnJob(j, a) => if j < |s.cells| { ActKeepsTokens(s.cells[j], s.now, a); }
  }

  lemma {:induction false} RunKeepsTokens(ls: seq<Label>)
    requires DeliversOnce(ls)
    ensures SystemInv(Run(ls))
  {
    if ls != [] {
      RunKeepsTokens(ls[..|ls| - 1]);
      NextKeepsTokens(Run(ls[..|ls| - 1]), ls[|ls| - 1]);
    }
  }

  // ------------------------------------------------------------- main results

  /** `attemptCount` never exceeds `maxAttempts`, and no accepted work could push it there. */
  lemma AttemptBudget(ls: seq<Label>, j: JobId)
    requires DeliversOnce(ls) && j < |Run(ls).cells|
    ensures var c := Run(ls).cells[j]; c.job.attemptCount + Pending(c) <= c.job.maxAttempts
  {
    RunKeepsTokens(ls);
  }

  /** A row no retry can move: completed, or failed with the budget spent. */
  predicate Final(job: JobRow) {
    job.status == Completed || (job.status == JobStatus.Failed && job.attemptCount >= job.maxAttempts)
  }

  lemma ActKeepsFinal(c: Cell, now: Time, a: Action)
    requires CellInv(c) && Final(c.job) && !a.ReadForRetry? && !a.Redeliver?
    ensures Act(c, now, a).job == c.job && Act(c, now, a).attempts == c.attempts
  {
    if a.Step? && a.handler < |c.handlers| {
      SumMember(PendingHandler, c.handlers, a.handler);
      SumMember(MidHandler, c.handlers, a.handler);
    }
  }

  /** Once a job's row is final, no later step of any run changes it or its attempts. */
  lemma {:induction false} OutcomesAreFinal(ls: seq<Label>, more: seq<Label>, j: JobId)
    requires DeliversOnce(ls + more) && j < |Run(ls).cells| && Final(Run(ls).cells[j].job)
    ensures j < |Run(ls + more).cells|
    ensures Run(ls + more).cells[j].job == Run(ls).cells[j].job
    ensures Run(ls + more).cells[j].attempts == Run(ls).cells[j].attempts
  {
    if more == [] {
      assert ls + more == ls;
    } else {
      var all := ls + more;
      assert all[..|all| - 1] == ls + more[..|more| - 1];
      assert forall i :: 0 <= i < |all| - 1 ==> all[..|all| - 1][i] == all[i];
      OutcomesAreFinal(ls, more[..|more| - 1], j);
      RunKeepsTokens(all[..|all| - 1]);
      var l := all[|all| - 1];
      assert DeliversOnceLabel(l);
      if l.OnJob? && l.job == j {
        ActKeepsFinal(Run(all[..|all| - 1]).cells[j], Run(all[..|all| - 1]).now, l.action);
      }
    }
  }
}
