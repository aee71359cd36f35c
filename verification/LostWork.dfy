/**
 Without redelivery: where every accepted create and retry went. A token of
 work is outstanding, counted as an attempt, or lost; the two ways of losing one
 are an exception before the count and a lock still held by a handler whose
 outcome is already saved.
 */
module LostWork {
  import opened Domain
  import opened Sums
  import opened Protocol
  import opened ProtocolTables
  import opened Tokens

  function OutstandingCall(call: Call): nat {
    if Published(call) || call.CallThrew? then 0 else 1
  }

  function LostCall(call: Call): nat {
    if call.CallThrew? && !call.published then 1 else 0
  }

  function OutstandingHandler(h: Handler): nat {
    if h.Delivered? || h.Locked? || h.Loaded? then 1 else 0
  }

  function LostHandler(h: Handler): nat {
    if (h.Releasing? || h.Ended?) && h.progress == Uncounted then 1 else 0
  }

  /** Unsent messages, queued messages and deliveries not yet counted. */
  function Outstanding(c: Cell): nat {
    Sum(OutstandingCall, c.calls) + c.queued + Sum(OutstandingHandler, c.handlers)
  }

  function Lost(c: Cell): nat {
    Sum(LostCall, c.calls) + Sum(LostHandler, c.handlers)
  }

  lemma PendingSplits(c: Cell)
    ensures Pending(c) == Outstanding(c) + Lost(c)
  {
    SumSplit(PendingCall, OutstandingCall, LostCall, c.calls);
    SumSplit(PendingHandler, OutstandingHandler, LostHandler, c.handlers);
  }

  /** Creates and accepted retries are all accounted for, and a queued job has exactly one token. */
  lemma AccountOfWork(ls: seq<Label>, j: JobId)
    requires DeliversOnce(ls) && j < |Run(ls).cells|
    ensures var c := Run(ls).cells[j];
      && |c.calls| == c.job.attemptCount + Outstanding(c) + Lost(c)
      && (c.job.status == Queued <==> Outstanding(c) + Lost(c) == 1)
      && (c.job.status != Queued <==> Outstanding(c) + Lost(c) == 0)
  {
    RunKeepsTokens(ls);
    PendingSplits(Run(ls).cells[j]);
  }

  // ------------------------------------------------------- who holds the lock

  /** Without deaths a lock key belongs to a handler that has yet to release it. */
  ghost predicate LockOwned(c: Cell) {
    c.lock.Some? ==> exists k :: Owner(c, k)
  }

  predicate Owner(c: Cell, k: int) {
    0 <= k < |c.handlers| && Holds(c.handlers[k]) && c.lock == Some(c.handlers[k].deadline)
  }

  lemma StepKeepsOwner(c: Cell, now: Time, i: nat)
    requires LockOwned(c) && i < |c.handlers|
    ensures LockOwned(AdvanceHandler(c, now, i))
  {
    var c' := AdvanceHandler(c, now, i);
    if c'.lock.Some? {
      var k :| c'.lock == c.lock ==> Owner(c, k);
      assert Owner(c', if c'.lock == c.lock then k else i);
    }
  }

  lemma ActKeepsOwner(c: Cell, now: Time, a: Action)
    requires LockOwned(c) && !a.Redeliver? && !a.Die?
    ensures LockOwned(Act(c, now, a))
  {
    if a.Step? {
      if a.handler < |c.handlers| { StepKeepsOwner(c, now, a.handler); }
    } else if c.lock.Some? {
      var k :| Owner(c, k);
      assert Owner(Act(c, now, a), k);
    }
  }

  lemma {:induction false} RunKeepsOwner(ls: seq<Label>)
    requires ExactlyOnce(ls)
    ensures forall j :: 0 <= j < |Run(ls).cells| ==> LockOwned(Run(ls).cells[j])
  {
    if ls != [] {
      var s, l := Run(ls[..|ls| - 1]), ls[|ls| - 1];
      RunKeepsOwner(ls[..|ls| - 1]);
      assert ExactlyOnceLabel(l);
      if l.OnJob? && l.job < |s.cells| {
        ActKeepsOwner(s.cells[l.job], s.now, l.action);
      }
    }
  }

  lemma StepMovesOne(c: Cell, now: Time, i: nat)
    requires i < |c.handlers|
    ensures var c' := AdvanceHandler(c, now, i);
      |c'.handlers| == |c.handlers| && c'.handlers == c.handlers[i := c'.handlers[i]] && c'.calls == c.calls
  {
  }

  lemma LossAt(c: Cell, now: Time, i: nat)
    requires i < |c.handlers| && |AdvanceHandler(c, now, i).handlers| == |c.handlers|
    ensures LostHandler(AdvanceHandler(c, now, i).handlers[i])
            == LostHandler(c.handlers[i]) + (if c.handlers[i].Delivered? && !KeyFree(c, now) then 1 else 0)
  {
  }

  lemma StepLoss(c: Cell, now: Time, i: nat)
    requires i < |c.handlers|
    ensures Lost(AdvanceHandler(c, now, i))
            == Lost(c) + (if c.handlers[i].Delivered? && !KeyFree(c, now) then 1 else 0)
  {
    var c' := AdvanceHandler(c, now, i);
    StepMovesOne(c, now, i);
    LossAt(c, now, i);
    SumUpdate(LostHandler, c.handlers, i, c'.handlers[i]);
  }

  lemma CallKeepsLost(c: Cell, now: Time, a: Action)
    requires a.Retry? || a.CallStep? || a.Deliver?
    ensures Lost(Act(c, now, a)) == Lost(c)
  {
    match a
    case Retry => SumAppend(LostCall, c.calls, SaveAction);
    case CallStep(i) => if i < |c.calls| { SumUpdate(LostCall, c.calls, i, NextCall(c.calls[i])); }
    case Deliver => SumAppend(LostHandler, c.handlers, Delivered);
  }

  /** Step `a` loses a token of work. */
  predicate LosesWork(c: Cell, now: Time, a: Action) {
    match a
    case Step(i) => i < |c.handlers| && c.handlers[i].Delivered? && !KeyFree(c, now)
    case Throw(i) => i < |c.handlers| && OutstandingHandler(c.handlers[i]) == 1
    case Die(i) => i < |c.handlers| && OutstandingHandler(c.handlers[i]) == 1
    case CallThrow(i) => i < |c.calls| && OutstandingCall(c.calls[i]) == 1
    case _ => false
  }

  /** A throw or death before the count, or a delivery that finds the key taken, loses one token; nothing else does. */
  lemma WhenWorkIsLost(c: Cell, now: Time, a: Action)
    requires !a.Redeliver? && !a.ReadForRetry?
    ensures Lost(Act(c, now, a)) == Lost(c) + (if LosesWork(c, now, a) then 1 else 0)
  {
    match a
    case Step(i) => if i < |c.handlers| { StepLoss(c, now, i); }
    case Throw(i) => if i < |c.handlers| { SumUpdate(LostHandler, c.handlers, i, ThrowHandler(c.handlers[i])); }
    case Die(i) => if i < |c.handlers| { SumUpdate(LostHandler, c.handlers, i, KillHandler(c.handlers[i])); }
    case CallThrow(i) => if i < |c.calls| { SumUpdate(LostCall, c.calls, i, ThrowCall(c.calls[i])); }
    case _ => CallKeepsLost(c, now, a);
  }

  /** How many steps of the run lost a token of job `j`. */
  function Losses(ls: seq<Label>, j: JobId): nat {
    if ls == [] then 0
    else Losses(ls[..|ls| - 1], j) + (if LosingLabel(Run(ls[..|ls| - 1]), ls[|ls| - 1], j) then 1 else 0)
  }

  predicate LosingLabel(s: System, l: Label, j: JobId) {
    l.OnJob? && l.job == j && j < |s.cells| && LosesWork(s.cells[j], s.now, l.action)
  }

  lemma NextLoses(s: System, l: Label, s': System, j: JobId)
    requires s' == Next(s, l) && DeliversOnceLabel(l) && j < |s'.cells|
    ensures Lost(s'.cells[j])
            == (if j < |s.cells| then Lost(s.cells[j]) else 0) + (if LosingLabel(s, l, j) then 1 else 0)
  {
    if l.OnJob? && l.job == j { WhenWorkIsLost(s.cells[j], s.now, l.action); }
    if l.Create? && j == |s.cells| {
      assert s'.cells[j].calls == [SaveAction];
      SumZero(LostCall, s'.cells[j].calls);
      SumZero(LostHandler, s'.cells[j].handlers);
    }
  }

  /** A job's lost tokens are as many as the run's exceptions before the count and deliveries that met a taken key. */
  lemma {:induction false} LostIsCounted(ls: seq<Label>, j: JobId)
    requires DeliversOnce(ls)
    ensures j < |Run(ls).cells| ==> Lost(Run(ls).cells[j]) == Losses(ls, j)
    ensures j >= |Run(ls).cells| ==> Losses(ls, j) == 0
  {
    if ls != [] {
      var before := ls[..|ls| - 1];
      assert DeliversOnceLabel(ls[|ls| - 1]);
      assert forall i :: 0 <= i < |before| ==> before[i] == ls[i];
      LostIsCounted(before, j);
      if j < |Run(ls).cells| { NextLoses(Run(before), ls[|ls| - 1], Run(ls), j); }
    }
  }

  /**
   A token is lost only by an exception, or by a delivery that finds the lock
   held by a handler whose failed outcome is already saved.
   */
  lemma {:induction false} LossNeedsASettledHolder(ls: seq<Label>, j: JobId, a: Action) returns (k: nat)
    requires ExactlyOnce(ls) && j < |Run(ls).cells|
    requires !a.Redeliver? && !a.Die? && !a.ReadForRetry? && !a.Throw? && !a.CallThrow?
    requires Lost(Act(Run(ls).cells[j], Run(ls).now, a)) > Lost(Run(ls).cells[j])
    ensures var c := Run(ls).cells[j];
      && a.Step? && a.handler < |c.handlers| && c.handlers[a.handler].Delivered?
      && k < |c.handlers| && Holds(c.handlers[k]) && HandlerProgress(c.handlers[k]) == Settled
      && c.lock == Some(c.handlers[k].deadline) && Run(ls).now < c.handlers[k].deadline
      && c.job.attemptCount in c.attempts && c.attempts[c.job.attemptCount].status == Unsuccessful
  {
    var c, now := Run(ls).cells[j], Run(ls).now;
    RunKeepsTokens(ls);
    RunKeepsOwner(ls);
    WhenWorkIsLost(c, now, a);
    var i := a.handler;
    k :| Owner(c, k);
    SumMember(PendingHandler, c.handlers, i);
    SumMember(MidHandler, c.handlers, k);
    if i < k { SumPair(PendingHandler, c.handlers, i, k); } else { SumPair(PendingHandler, c.handlers, k, i); }
    assert Coherent(c, c.handlers[k]);
  }

  /** A queued job whose token is lost stays queued: no later step of any run can move it. */
  lemma {:induction false} LostIsForever(ls: seq<Label>, more: seq<Label>, j: JobId)
    requires DeliversOnce(ls + more) && j < |Run(ls).cells|
    requires Run(ls).cells[j].job.status == Queued && Outstanding(Run(ls).cells[j]) == 0
    ensures j < |Run(ls + more).cells| && Run(ls + more).cells[j].job == Run(ls).cells[j].job
    ensures Outstanding(Run(ls + more).cells[j]) == 0
  {
    if more == [] {
      assert ls + more == ls;
    } else {
      var all := ls + more;
      var before, l := all[..|all| - 1], all[|all| - 1];
      assert before == ls + more[..|more| - 1];
      assert forall i :: 0 <= i < |all| - 1 ==> before[i] == all[i];
      LostIsForever(ls, more[..|more| - 1], j);
      RunKeepsTokens(before);
      assert DeliversOnceLabel(l);
      if l.OnJob? && l.job == j {
        ActKeepsStranded(Run(before).cells[j], Run(before).now, l.action);
      }
    }
  }

  lemma CallKeepsStranded(c: Cell, i: nat)
    requires NoSplitRetry(c) && Outstanding(c) == 0 && i < |c.calls|
    ensures AdvanceCall(c, i).job == c.job && Outstanding(AdvanceCall(c, i)) == 0
    ensures Outstanding(c.(calls := c.calls[i := ThrowCall(c.calls[i])])) == 0
  {
    SumMember(OutstandingCall, c.calls, i);
    SumUpdate(OutstandingCall, c.calls, i, NextCall(c.calls[i]));
    SumUpdate(OutstandingCall, c.calls, i, ThrowCall(c.calls[i]));
  }

  lemma ActKeepsStranded(c: Cell, now: Time, a: Action)
    requires CellInv(c) && c.job.status == Queued && Outstanding(c) == 0
    requires !a.Redeliver? && !a.ReadForRetry?
    ensures Act(c, now, a).job == c.job && Outstanding(Act(c, now, a)) == 0
  {
    match a
    case CallStep(i) => if i < |c.calls| { CallKeepsStranded(c, i); }
    case CallThrow(i) => if i < |c.calls| { CallKeepsStranded(c, i); }
    case Step(i) => if i < |c.handlers| { StepKeepsStranded(c, now, i); }
    case Throw(i) =>
      if i < |c.handlers| { SumUpdate(OutstandingHandler, c.handlers, i, ThrowHandler(c.handlers[i])); }
    case Die(i) =>
      if i < |c.handlers| { SumUpdate(OutstandingHandler, c.handlers, i, KillHandler(c.handlers[i])); }
    case _ =>
  }

  lemma StepKeepsStranded(c: Cell, now: Time, i: nat)
    requires CellInv(c) && c.job.status == Queued && Outstanding(c) == 0 && i < |c.handlers|
    ensures AdvanceHandler(c, now, i).job == c.job && Outstanding(AdvanceHandler(c, now, i)) == 0
  {
    SumMember(OutstandingHandler, c.handlers, i);
    SumMember(MidHandler, c.handlers, i);
    var c' := AdvanceHandler(c, now, i);
    assert c'.handlers == c.handlers[i := c'.handlers[i]];
    SumUpdate(OutstandingHandler, c.handlers, i, c'.handlers[i]);
  }

  // ------------------------------------------ retries that wait for the lock

  /** Nothing throws, and a retry is issued only while the job's lock key is free. */
  predicate PatientLabel(s: System, l: Label) {
    && ExactlyOnceLabel(l)
    && (l.OnJob? ==> !l.action.Throw? && !l.action.CallThrow?)
    && (l.OnJob? && l.action.Retry? && l.job < |s.cells| ==> KeyFree(s.cells[l.job], s.now))
  }

  predicate Patient(ls: seq<Label>) {
    ls == [] || (Patient(ls[..|ls| - 1]) && PatientLabel(Run(ls[..|ls| - 1]), ls[|ls| - 1]))
  }

  lemma {:induction false} PatientIsExactlyOnce(ls: seq<Label>)
    requires Patient(ls)
    ensures ExactlyOnce(ls)
  {
    if ls != [] {
      PatientIsExactlyOnce(ls[..|ls| - 1]);
      assert forall i :: 0 <= i < |ls| - 1 ==> ls[i] == ls[..|ls| - 1][i];
    }
  }

  predicate PastLock(h: Handler) {
    h.Locked? || h.Loaded?
  }

  /** Nothing is lost, and a queued job nobody has picked up yet has its key free. */
  predicate PatientInv(c: Cell, now: Time) {
    && (forall i :: 0 <= i < |c.calls| ==> LostCall(c.calls[i]) == 0)
    && (forall i :: 0 <= i < |c.handlers| ==> LostHandler(c.handlers[i]) == 0)
    && (c.job.status == Queued && (forall i :: 0 <= i < |c.handlers| ==> !PastLock(c.handlers[i])) ==> KeyFree(c, now))
  }

  lemma DeliveryFindsKeyFree(c: Cell, now: Time, i: nat)
    requires CellInv(c) && PatientInv(c, now) && i < |c.handlers| && c.handlers[i].Delivered?
    ensures KeyFree(c, now)
  {
    SumMember(PendingHandler, c.handlers, i);
    forall k | 0 <= k < |c.handlers|
      ensures !PastLock(c.handlers[k])
    {
      if k < i { SumPair(PendingHandler, c.handlers, k, i); }
      if i < k { SumPair(PendingHandler, c.handlers, i, k); }
    }
  }

  lemma StepKeepsPatience(c: Cell, now: Time, i: nat)
    requires CellInv(c) && PatientInv(c, now) && i < |c.handlers|
    ensures PatientInv(AdvanceHandler(c, now, i), now)
  {
    var c' := AdvanceHandler(c, now, i);
    assert Coherent(c, c.handlers[i]);
    assert c'.handlers == c.handlers[i := c'.handlers[i]];
    if c.handlers[i].Delivered? {
      DeliveryFindsKeyFree(c, now, i);
    } else if c.handlers[i].Running? {
      InsertNeverThrows(c, i);
    } else if forall k :: 0 <= k < |c'.handlers| ==> !PastLock(c'.handlers[k]) {
      assert forall k :: 0 <= k < |c.handlers| && k != i ==> c'.handlers[k] == c.handlers[k];
    }
  }

  lemma InsertNeverThrows(c: Cell, i: nat)
    requires CellInv(c) && i < |c.handlers| && c.handlers[i].Running?
    ensures c.handlers[i].run.InsertAttempt? ==> c.handlers[i].job.attemptCount !in c.attempts
    ensures c.job.status == Processing
  {
    assert Coherent(c, c.handlers[i]);
  }

  lemma ActKeepsPatience(c: Cell, now: Time, a: Action)
    requires CellInv(c) && PatientInv(c, now)
    requires !a.Redeliver? && !a.Die? && !a.ReadForRetry? && !a.Throw? && !a.CallThrow?
    requires a.Retry? ==> KeyFree(c, now)
    ensures PatientInv(Act(c, now, a), now)
  {
    var c' := Act(c, now, a);
    if a.Step? {
      if a.handler < |c.handlers| { StepKeepsPatience(c, now, a.handler); }
    } else {
      assert forall k :: 0 <= k < |c.handlers| ==> c'.handlers[k] == c.handlers[k];
    }
  }

  lemma {:induction false} RunKeepsPatience(ls: seq<Label>)
    requires Patient(ls)
    ensures forall j :: 0 <= j < |Run(ls).cells| ==> PatientInv(Run(ls).cells[j], Run(ls).now)
  {
    if ls != [] {
      var s, l := Run(ls[..|ls| - 1]), ls[|ls| - 1];
      RunKeepsPatience(ls[..|ls| - 1]);
      PatientIsExactlyOnce(ls[..|ls| - 1]);
      RunKeepsTokens(ls[..|ls| - 1]);
      if l.OnJob? && l.job < |s.cells| {
        ActKeepsPatience(s.cells[l.job], s.now, l.action);
      }
    }
  }

  /** Then nothing is ever lost: a queued job has exactly one send, message or delivery under way. */
  lemma {:induction false} PatientRetriesLoseNothing(ls: seq<Label>, j: JobId)
    requires Patient(ls) && j < |Run(ls).cells|
    ensures var c := Run(ls).cells[j];
      Lost(c) == 0 && Outstanding(c) == (if c.job.status == Queued then 1 else 0)
  {
    var c := Run(ls).cells[j];
    RunKeepsPatience(ls);
    PatientIsExactlyOnce(ls);
    AccountOfWork(ls, j);
    SumZero(LostCall, c.calls);
    SumZero(LostHandler, c.handlers);
  }
}
