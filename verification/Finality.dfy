/**
 When a job stays as it is for good. The worker does not test the status, so
 with at-least-once delivery a completed or exhausted row is safe exactly when
 no work for the job is outstanding and no message for it comes back; and without
 redelivery a queued job is stranded exactly when none is.
 */
module Finality {
  import opened Domain
  import opened JobRules
  import opened Sums
  import opened Protocol
  import opened ProtocolTables
  import opened SoundRuns
  import opened LostWork
  import opened Tokens
  import opened Serializability
  import opened Witnesses

  /** In every run of either environment the one step that changes a final row is a handler's first save. */
  lemma FinalRowsChangeByFirstSaves(ls: seq<Label>, j: JobId, a: Action)
    requires Sound(ls) && j < |Run(ls).cells| && Final(Run(ls).cells[j].job) && !a.ReadForRetry?
    ensures Act(Run(ls).cells[j], Run(ls).now, a).job != Run(ls).cells[j].job <==> FirstSave(Run(ls).cells[j], a)
  {
    SoundRuns.RunKeepsTables(ls);
    assert TablesInv(Run(ls).cells[j]);
    FinalRowStep(Run(ls).cells[j], Run(ls).now, a);
  }

  lemma FinalRowStep(c: Cell, now: Time, a: Action)
    requires TablesInv(c) && Final(c.job) && !a.ReadForRetry?
    ensures Act(c, now, a).job != c.job <==> FirstSave(c, a)
  {
    match a
    case Step(i) => if i < |c.handlers| { assert Coherent(c, c.handlers[i]); }
    case CallStep(i) => if i < |c.calls| { assert !c.calls[i].SaveRetry?; }
    case _ =>
  }

  // --------------------------------------------------- nothing outstanding

  predicate RedeliversTo(l: Label, j: JobId) {
    l.OnJob? && l.job == j && l.action.Redeliver?
  }

  /**
   Continuations in which no message of job `j` comes back: at-least-once ones
   if `timed`, otherwise any that deliver once.
   */
  predicate Follows(timed: bool, ls: seq<Label>, ls': seq<Label>, j: JobId) {
    && ls <= ls' && (if timed then AtLeastOnce(ls') else DeliversOnce(ls'))
    && forall i :: |ls| <= i < |ls'| ==> !RedeliversTo(ls'[i], j)
  }

  predicate RowStays(ls: seq<Label>, ls': seq<Label>, j: JobId)
    requires j < |Run(ls).cells|
  {
    && j < |Run(ls').cells|
    && Run(ls').cells[j].job == Run(ls).cells[j].job && Run(ls').cells[j].attempts == Run(ls).cells[j].attempts
  }

  lemma ActKeepsQuiet(c: Cell, now: Time, a: Action)
    requires TablesInv(c) && Final(c.job) && Outstanding(c) == 0 && !a.Redeliver? && !a.ReadForRetry?
    ensures var c' := Act(c, now, a); c'.job == c.job && c'.attempts == c.attempts && Outstanding(c') == 0
  {
    match a
    case CallStep(i) => if i < |c.calls| { CallKeepsStranded(c, i); }
    case CallThrow(i) => if i < |c.calls| { CallKeepsStranded(c, i); }
    case Step(i) => if i < |c.handlers| { StepKeepsQuiet(c, now, i); }
    case Throw(i) =>
      if i < |c.handlers| { StopKeepsQuiet(c, i, ThrowHandler(c.handlers[i])); }
    case Die(i) =>
      if i < |c.handlers| { StopKeepsQuiet(c, i, KillHandler(c.handlers[i])); }
    case _ =>
  }

  lemma StopKeepsQuiet(c: Cell, i: nat, h: Handler)
    requires i < |c.handlers| && Outstanding(c) == 0 && OutstandingHandler(h) == 0
    ensures Outstanding(c.(handlers := c.handlers[i := h])) == 0
  {
    SumUpdate(OutstandingHandler, c.handlers, i, h);
  }

  lemma StepKeepsQuiet(c: Cell, now: Time, i: nat)
    requires TablesInv(c) && Final(c.job) && Outstanding(c) == 0 && i < |c.handlers|
    ensures var c' := AdvanceHandler(c, now, i); c'.job == c.job && c'.attempts == c.attempts && Outstanding(c') == 0
  {
    assert Coherent(c, c.handlers[i]);
    SumMember(OutstandingHandler, c.handlers, i);
    var c' := AdvanceHandler(c, now, i);
    assert c'.handlers == c.handlers[i := c'.handlers[i]] && c'.calls == c.calls && c'.queued == c.queued;
    SumUpdate(OutstandingHandler, c.handlers, i, c'.handlers[i]);
  }

  lemma {:induction false} QuietRowStays(ls: seq<Label>, ls': seq<Label>, j: JobId)
    requires Follows(true, ls, ls', j) && j < |Run(ls).cells|
    requires Final(Run(ls).cells[j].job) && Outstanding(Run(ls).cells[j]) == 0
    ensures RowStays(ls, ls', j) && Outstanding(Run(ls').cells[j]) == 0
    decreases |ls'|
  {
    if |ls'| == |ls| {
      assert ls' == ls;
    } else {
      var before, l := ls'[..|ls'| - 1], ls'[|ls'| - 1];
      assert forall i :: |ls| <= i < |before| ==> before[i] == ls'[i];
      QuietRowStays(ls, before, j);
      SoundRuns.RunKeepsTables(before);
      assert TablesInv(Run(before).cells[j]);
      assert !RedeliversTo(l, j) && AtLeastOnceLabel(Run(before), l);
      if l.OnJob? && l.job == j {
        ActKeepsQuiet(Run(before).cells[j], Run(before).now, l.action);
      }
    }
  }

  // ------------------------------------------------- outstanding work can run

  /** One more step on any job. */
  lemma Then(timed: bool, ls: seq<Label>, ls': seq<Label>, j: JobId, x: JobId, a: Action) returns (ls'': seq<Label>)
    requires Follows(timed, ls, ls', j) && x < |Run(ls').cells| && (Ordinary(a) || a.Die?)
    ensures Follows(timed, ls, ls'', j)
    ensures Run(ls'') == System(Run(ls').now, Run(ls').cells[x := Act(Run(ls').cells[x], Run(ls').now, a)])
  {
    ls'' := Do(ls', x, a);
  }

  predicate NoHolder(c: Cell, n: nat)
    requires n <= |c.handlers|
  {
    forall k :: 0 <= k < n ==> !Holds(c.handlers[k])
  }

  /** The same job, with handlers inside the lock possibly killed. */
  predicate Thinned(c: Cell, c': Cell) {
    && c' == c.(handlers := c'.handlers) && |c'.handlers| == |c.handlers|
    && forall k :: 0 <= k < |c.handlers| && !Holds(c.handlers[k]) ==> c'.handlers[k] == c.handlers[k]
  }

  predicate AllThinned(s: System, s': System) {
    s'.now == s.now && |s'.cells| == |s.cells| && forall x :: 0 <= x < |s.cells| ==> Thinned(s.cells[x], s'.cells[x])
  }

  lemma {:induction false} KillOne(ls: seq<Label>, ls': seq<Label>, j: JobId, x: JobId, k: nat)
    returns (ls'': seq<Label>)
    requires Follows(true, ls, ls', j) && x < |Run(ls').cells| && k < |Run(ls').cells[x].handlers|
    requires NoHolder(Run(ls').cells[x], k)
    ensures Follows(true, ls, ls'', j) && AllThinned(Run(ls'), Run(ls'')) && NoHolder(Run(ls'').cells[x], k + 1)
    ensures forall y :: 0 <= y < |Run(ls').cells| && y != x ==> Run(ls'').cells[y] == Run(ls').cells[y]
  {
    ls'' := ls';
    if Holds(Run(ls').cells[x].handlers[k]) {
      ls'' := Then(true, ls, ls', j, x, Die(k));
    }
  }

  lemma {:induction false} KillIn(ls: seq<Label>, ls': seq<Label>, j: JobId, x: JobId, n: nat)
    returns (ls'': seq<Label>)
    requires Follows(true, ls, ls', j) && x < |Run(ls').cells| && n <= |Run(ls').cells[x].handlers|
    ensures Follows(true, ls, ls'', j) && AllThinned(Run(ls'), Run(ls'')) && NoHolder(Run(ls'').cells[x], n)
    ensures forall y :: 0 <= y < |Run(ls').cells| && y != x ==> Run(ls'').cells[y] == Run(ls').cells[y]
  {
    if n == 0 {
      ls'' := ls';
    } else {
      var killed := KillIn(ls, ls', j, x, n - 1);
      ls'' := KillOne(ls, killed, j, x, n - 1);
    }
  }

  lemma {:induction false} KillAll(ls: seq<Label>, ls': seq<Label>, j: JobId, m: nat) returns (ls'': seq<Label>)
    requires Follows(true, ls, ls', j) && m <= |Run(ls').cells|
    ensures Follows(true, ls, ls'', j) && AllThinned(Run(ls'), Run(ls''))
    ensures forall x :: 0 <= x < m ==> NoHolder(Run(ls'').cells[x], |Run(ls'').cells[x].handlers|)
  {
    if m == 0 {
      ls'' := ls';
    } else {
      var killed := KillAll(ls, ls', j, m - 1);
      ls'' := KillIn(ls, killed, j, m - 1, |Run(killed).cells[m - 1].handlers|);
    }
  }

  /** With nobody inside any lock, or no deadlines to keep, time can pass until the job's key has expired. */
  lemma WaitForKey(timed: bool, ls: seq<Label>, ls': seq<Label>, j: JobId) returns (ls'': seq<Label>)
    requires Follows(timed, ls, ls', j) && j < |Run(ls').cells|
    requires timed ==>
      forall x :: 0 <= x < |Run(ls').cells| ==> NoHolder(Run(ls').cells[x], |Run(ls').cells[x].handlers|)
    ensures Follows(timed, ls, ls'', j) && Run(ls'').cells == Run(ls').cells
    ensures KeyFree(Run(ls'').cells[j], Run(ls'').now)
  {
    var lock := Run(ls').cells[j].lock;
    var elapsed := if lock.Some? then lock.value else 0;
    ls'' := ls' + [Tick(elapsed)];
    assert ls''[..|ls'|] == ls';
    if timed {
      forall x | 0 <= x < |Run(ls').cells|
        ensures BeforeDeadlines(Run(ls').cells[x], Run(ls').now + elapsed)
      {
        assert NoHolder(Run(ls').cells[x], |Run(ls').cells[x].handlers|);
      }
    }
  }

  /** A delivery that waits can take the lock, read the row and save it. */
  lemma DeliveryCanRun(timed: bool, ls: seq<Label>, ls': seq<Label>, j: JobId, k: nat) returns (ls'': seq<Label>)
    requires Follows(timed, ls, ls', j) && j < |Run(ls').cells|
    requires k < |Run(ls').cells[j].handlers| && Run(ls').cells[j].handlers[k].Delivered?
    ensures Follows(timed, ls, ls'', j) && j < |Run(ls'').cells|
    ensures Run(ls'').cells[j].job.attemptCount == Run(ls').cells[j].job.attemptCount + 1
  {
    ls'' := ls';
    if timed {
      ls'' := KillAll(ls, ls', j, |Run(ls').cells|);
      assert Thinned(Run(ls').cells[j], Run(ls'').cells[j]);
    }
    ls'' := WaitForKey(timed, ls, ls'', j);
    ls'' := Then(timed, ls, ls'', j, j, Step(k));
    ls'' := LockedCanRun(timed, ls, ls'', j, k);
  }

  lemma LockedCanRun(timed: bool, ls: seq<Label>, ls': seq<Label>, j: JobId, k: nat) returns (ls'': seq<Label>)
    requires Follows(timed, ls, ls', j) && j < |Run(ls').cells|
    requires k < |Run(ls').cells[j].handlers| && Run(ls').cells[j].handlers[k].Locked?
    ensures Follows(timed, ls, ls'', j) && j < |Run(ls'').cells|
    ensures Run(ls'').cells[j].job.attemptCount == Run(ls').cells[j].job.attemptCount + 1
  {
    ls'' := Then(timed, ls, ls', j, j, Step(k));
    ls'' := Then(timed, ls, ls'', j, j, Step(k));
  }

  lemma LoadedCanRun(timed: bool, ls: seq<Label>, ls': seq<Label>, j: JobId, k: nat) returns (ls'': seq<Label>)
    requires Follows(timed, ls, ls', j) && j < |Run(ls').cells|
    requires k < |Run(ls').cells[j].handlers| && Run(ls').cells[j].handlers[k].Loaded?
    ensures Follows(timed, ls, ls'', j) && j < |Run(ls'').cells|
    ensures Run(ls'').cells[j].job.attemptCount == Run(ls').cells[j].job.attemptCount + 1
  {
    SoundRuns.RunKeepsTables(ls');
    assert TablesInv(Run(ls').cells[j]);
    assert Coherent(Run(ls').cells[j], Run(ls').cells[j].handlers[k]);
    ls'' := Then(timed, ls, ls', j, j, Step(k));
  }

  lemma {:induction false} CallCanSend(timed: bool, ls: seq<Label>, ls': seq<Label>, j: JobId, i: nat)
    returns (ls'': seq<Label>)
    requires Follows(timed, ls, ls', j) && j < |Run(ls').cells|
    requires i < |Run(ls').cells[j].calls| && StepsToSend(Run(ls').cells[j].calls[i]) > 0
    ensures Follows(timed, ls, ls'', j) && j < |Run(ls'').cells|
    ensures Run(ls'').cells[j].queued > 0 && Run(ls'').cells[j].job == Run(ls').cells[j].job
    decreases StepsToSend(Run(ls').cells[j].calls[i])
  {
    ls'' := Then(timed, ls, ls', j, j, CallStep(i));
    if StepsToSend(Run(ls').cells[j].calls[i]) > 1 {
      ls'' := CallCanSend(timed, ls, ls'', j, i);
    }
  }

  lemma QueuedCanRun(timed: bool, ls: seq<Label>, ls': seq<Label>, j: JobId) returns (ls'': seq<Label>)
    requires Follows(timed, ls, ls', j) && j < |Run(ls').cells| && Run(ls').cells[j].queued > 0
    ensures Follows(timed, ls, ls'', j) && j < |Run(ls'').cells|
    ensures Run(ls'').cells[j].job.attemptCount == Run(ls').cells[j].job.attemptCount + 1
  {
    ls'' := Then(timed, ls, ls', j, j, Deliver);
    ls'' := DeliveryCanRun(timed, ls, ls'', j, |Run(ls').cells[j].handlers|);
  }

  lemma SomePositive<T>(f: T -> nat, xs: seq<T>) returns (i: nat)
    requires Sum(f, xs) > 0
    ensures i < |xs| && f(xs[i]) > 0
  {
    if forall k :: 0 <= k < |xs| ==> f(xs[k]) == 0 { SumZero(f, xs); }
    i :| 0 <= i < |xs| && f(xs[i]) > 0;
  }

  /** Outstanding work can always still run another attempt. */
  lemma OutstandingCanRun(timed: bool, ls: seq<Label>, j: JobId) returns (ls': seq<Label>)
    requires Follows(timed, ls, ls, j) && j < |Run(ls).cells| && Outstanding(Run(ls).cells[j]) > 0
    ensures Follows(timed, ls, ls', j) && j < |Run(ls').cells|
    ensures Run(ls').cells[j].job.attemptCount == Run(ls).cells[j].job.attemptCount + 1
  {
    var c := Run(ls).cells[j];
    if c.queued > 0 {
      ls' := QueuedCanRun(timed, ls, ls, j);
    } else if Sum(OutstandingHandler, c.handlers) > 0 {
      var k := SomePositive(OutstandingHandler, c.handlers);
      match c.handlers[k]
      case Delivered => ls' := DeliveryCanRun(timed, ls, ls, j, k);
      case Locked(_) => ls' := LockedCanRun(timed, ls, ls, j, k);
      case Loaded(_, _, _) => ls' := LoadedCanRun(timed, ls, ls, j, k);
    } else {
      var i := SomePositive(OutstandingCall, c.calls);
      SoundRuns.RunKeepsTables(ls);
      assert TablesInv(c) && !c.calls[i].SaveRetry?;
      var sent := CallCanSend(timed, ls, ls, j, i);
      ls' := QueuedCanRun(timed, ls, sent, j);
    }
  }

  // ------------------------------------------------------------- main results

  /**
   A final row stays through every at-least-once continuation that brings no
   message of the job back, if and only if the job has no send, message or
   uncounted delivery outstanding.
   */
  lemma {:induction false} FinalUnlessWorkIsOutstanding(ls: seq<Label>, j: JobId)
    requires AtLeastOnce(ls) && j < |Run(ls).cells| && Final(Run(ls).cells[j].job)
    ensures Outstanding(Run(ls).cells[j]) == 0 <==> forall ls' :: Follows(true, ls, ls', j) ==> RowStays(ls, ls', j)
  {
    if Outstanding(Run(ls).cells[j]) == 0 {
      forall ls' | Follows(true, ls, ls', j)
        ensures RowStays(ls, ls', j)
      {
        QuietRowStays(ls, ls', j);
      }
    } else {
      var ls' := OutstandingCanRun(true, ls, j);
      assert Follows(true, ls, ls', j) && !RowStays(ls, ls', j);
    }
  }

  predicate JobStays(ls: seq<Label>, ls': seq<Label>, j: JobId)
    requires j < |Run(ls).cells|
  {
    j < |Run(ls').cells| && Run(ls').cells[j].job == Run(ls).cells[j].job
  }

  /** Without redelivery a queued job is stranded for good if and only if nothing of it is outstanding. */
  lemma {:induction false} StrandedExactlyWhenNothingIsOutstanding(ls: seq<Label>, j: JobId)
    requires DeliversOnce(ls) && j < |Run(ls).cells| && Run(ls).cells[j].job.status == Queued
    ensures Outstanding(Run(ls).cells[j]) == 0 <==> forall ls' :: Follows(false, ls, ls', j) ==> JobStays(ls, ls', j)
  {
    if Outstanding(Run(ls).cells[j]) == 0 {
      forall ls' | Follows(false, ls, ls', j)
        ensures JobStays(ls, ls', j)
      {
        assert ls + ls'[|ls|..] == ls';
        LostIsForever(ls, ls'[|ls|..], j);
      }
    } else {
      var ls' := OutstandingCanRun(false, ls, j);
      assert Follows(false, ls, ls', j) && !JobStays(ls, ls', j);
    }
  }

  /** A message that comes back can run any job again, whatever its status and budget. */
  lemma RedeliveryCanRunAgain(ls: seq<Label>, j: JobId) returns (ls': seq<Label>)
    requires AtLeastOnce(ls) && j < |Run(ls).cells|
    ensures ls <= ls' && AtLeastOnce(ls') && j < |Run(ls').cells|
    ensures Run(ls').cells[j].job.attemptCount == Run(ls).cells[j].job.attemptCount + 1
  {
    var back := Do(ls, j, Redeliver);
    ls' := DeliveryCanRun(true, back, back, j, |Run(ls).cells[j].handlers|);
  }

  /** A final row with work outstanding is reached when the message of a worker that died comes back. */
  lemma {:induction false} FinalRowsCanHaveWorkOutstanding() returns (ls: seq<Label>)
    ensures AtLeastOnce(ls) && |Run(ls).cells| == 1
    ensures Final(Run(ls).cells[0].job) && Outstanding(Run(ls).cells[0]) > 0
  {
    var all;
    ls, all := RedeliveryRunsACompletedJobAgain();
    ls := Do(ls, 0, Redeliver);
    SumMember(OutstandingHandler, Run(ls).cells[0].handlers, 1);
  }
}
