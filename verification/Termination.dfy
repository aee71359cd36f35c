/**
 Without redelivery: all work comes to an end. Whatever operators retry and
 however steps interleave, throw or wait, a job of `m` attempts changes state at
 most `28 * m` times, its creation included.
 */
module Termination {
  import opened Domain
  import opened JobRules
  import opened Sums
  import opened Protocol
  import opened ProtocolTables
  import opened Tokens

  function SettleRank(stage: SettleStage): nat {
    match stage
    case SaveAlert => 11
    case SaveIncident => 10
    case SaveNotification => 9
    case LogOutcome => 8
    case LogAlert => 7
    case LogIncident => 6
    case PublishOutcome => 5
    case PublishAlert => 4
    case PublishIncident => 3
    case PublishNotification => 2
    case Done => 2
  }

  function RunRank(run: RunStage): nat {
    match run
    case PublishProcessing => 17
    case LogProcessing => 16
    case InsertAttempt => 15
    case Work => 14
    case SaveAttempt(_) => 13
    case SaveJob(_) => 12
  }

  /** Steps a delivery can still make. */
  function HandlerRank(h: Handler): nat {
    match h
    case Delivered => 20
    case Locked(_) => 19
    case Loaded(_, _, _) => 18
    case Running(_, _, _, run) => RunRank(run)
    case Settling(_, _, stage) => SettleRank(stage)
    case Releasing(_, _, _) => 1
    case Ended(_, _) => 0
  }

  /** Steps a call can still make, with those of the delivery it will cause. */
  function CallRank(call: Call): nat {
    match call
    case SaveRetry(_) => 28
    case SaveAction => 27
    case LogCall => 26
    case SaveCallNotification => 25
    case PublishWork => 24
    case PublishCreated => 2
    case PublishCallNotification => 1
    case Returned => 0
    case CallThrew(_) => 0
  }

  /** Retries that can still be accepted. */
  function RetriesLeft(job: JobRow): int {
    job.maxAttempts - job.attemptCount - (if job.status == Queued then 1 else 0)
  }

  function Rank(c: Cell): int {
    28 * RetriesLeft(c.job) + Sum(CallRank, c.calls) + 21 * c.queued + Sum(HandlerRank, c.handlers)
  }

  lemma CallLowersRank(c: Cell, c': Cell, i: nat, call: Call)
    requires i < |c.calls| && c'.calls == c.calls[i := call] && c'.handlers == c.handlers
    requires CallRank(call) + 21 * c'.queued < CallRank(c.calls[i]) + 21 * c.queued
    requires RetriesLeft(c'.job) == RetriesLeft(c.job)
    ensures Rank(c') < Rank(c)
  {
    SumUpdate(CallRank, c.calls, i, call);
  }

  lemma HandlerLowersRank(c: Cell, c': Cell, i: nat, h: Handler)
    requires i < |c.handlers| && c'.handlers == c.handlers[i := h] && c'.calls == c.calls && c'.queued == c.queued
    requires HandlerRank(h) < HandlerRank(c.handlers[i]) && RetriesLeft(c'.job) == RetriesLeft(c.job)
    ensures Rank(c') < Rank(c)
  {
    SumUpdate(HandlerRank, c.handlers, i, h);
  }

  lemma RunLowersRank(c: Cell, now: Time, i: nat)
    requires CellInv(c) && i < |c.handlers| && c.handlers[i].Running?
    ensures Rank(AdvanceRun(c, now, i)) < Rank(c)
  {
    var c' := AdvanceRun(c, now, i);
    assert Coherent(c, c.handlers[i]);
    HandlerLowersRank(c, c', i, c'.handlers[i]);
  }

  lemma StepLowersRank(c: Cell, now: Time, i: nat)
    requires CellInv(c) && i < |c.handlers| && !c.handlers[i].Ended?
    ensures Rank(AdvanceHandler(c, now, i)) < Rank(c)
  {
    if c.handlers[i].Running? {
      RunLowersRank(c, now, i);
    } else {
      var c' := AdvanceHandler(c, now, i);
      assert Coherent(c, c.handlers[i]);
      assert c'.handlers == c.handlers[i := c'.handlers[i]];
      SumMember(PendingHandler, c.handlers, i);
      HandlerLowersRank(c, c', i, c'.handlers[i]);
    }
  }

  lemma RetryLowersRank(c: Cell)
    requires CanRetry(c.job)
    ensures Rank(c.(job := Requeue(c.job), calls := c.calls + [SaveAction])) < Rank(c)
  {
    var c' := c.(job := Requeue(c.job), calls := c.calls + [SaveAction]);
    SumAppend(CallRank, c.calls, SaveAction);
    assert RetriesLeft(c'.job) == RetriesLeft(c.job) - 1;
    assert Sum(CallRank, c'.calls) == Sum(CallRank, c.calls) + 27;
  }

  lemma DeliverLowersRank(c: Cell)
    requires c.queued > 0
    ensures Rank(c.(queued := c.queued - 1, handlers := c.handlers + [Delivered])) < Rank(c)
  {
    SumAppend(HandlerRank, c.handlers, Delivered);
  }

  /** Actions that leave the cell as it is. */
  predicate Idle(c: Cell, a: Action) {
    match a
    case Retry => !CanRetry(c.job)
    case CallStep(i) => i >= |c.calls| || c.calls[i].Returned? || c.calls[i].CallThrew?
    case CallThrow(i) => i >= |c.calls| || c.calls[i].Returned? || c.calls[i].CallThrew?
    case Deliver => c.queued == 0
    case Step(i) => i >= |c.handlers| || c.handlers[i].Ended?
    case Throw(i) => i >= |c.handlers| || c.handlers[i].Releasing? || c.handlers[i].Ended?
    case Die(i) => i >= |c.handlers| || c.handlers[i].Ended?
    case _ => false
  }

  lemma IdleChangesNothing(c: Cell, now: Time, a: Action)
    requires Idle(c, a)
    ensures Act(c, now, a) == c
  {
    match a
    case CallStep(i) => if i < |c.calls| { assert c.calls[i := c.calls[i]] == c.calls; }
    case CallThrow(i) => if i < |c.calls| { assert c.calls[i := c.calls[i]] == c.calls; }
    case Throw(i) => if i < |c.handlers| { assert c.handlers[i := c.handlers[i]] == c.handlers; }
    case Die(i) => if i < |c.handlers| { assert c.handlers[i := c.handlers[i]] == c.handlers; }
    case _ =>
  }

  lemma ActLowersRank(c: Cell, now: Time, a: Action)
    requires CellInv(c) && !a.Redeliver? && !a.ReadForRetry? && !Idle(c, a)
    ensures Rank(Act(c, now, a)) < Rank(c)
  {
    match a
    case Retry => RetryLowersRank(c);
    case CallStep(i) => CallLowersRank(c, Act(c, now, a), i, NextCall(c.calls[i]));
    case CallThrow(i) => CallLowersRank(c, Act(c, now, a), i, ThrowCall(c.calls[i]));
    case Deliver => DeliverLowersRank(c);
    case Step(i) => StepLowersRank(c, now, i);
    case Throw(i) => HandlerLowersRank(c, Act(c, now, a), i, ThrowHandler(c.handlers[i]));
    case Die(i) => HandlerLowersRank(c, Act(c, now, a), i, KillHandler(c.handlers[i]));
  }

  lemma RankIsNatural(c: Cell)
    requires CellInv(c)
    ensures Rank(c) >= 0
  {
  }

  /** What is left of the bound over all jobs. */
  function TotalRank(cells: seq<Cell>): int {
    if cells == [] then 0 else TotalRank(cells[..|cells| - 1]) + Rank(cells[|cells| - 1])
  }

  lemma {:induction false} TotalUpdate(cells: seq<Cell>, j: nat, c: Cell)
    requires j < |cells|
    ensures TotalRank(cells[j := c]) == TotalRank(cells) - Rank(cells[j]) + Rank(c)
  {
    var cells' := cells[j := c];
    if j == |cells| - 1 {
      assert cells'[..j] == cells[..j];
    } else {
      TotalUpdate(cells[..|cells| - 1], j, c);
      assert cells'[..|cells| - 1] == cells[..|cells| - 1][j := c];
    }
  }

  lemma {:induction false} TotalIsNatural(cells: seq<Cell>)
    requires forall j :: 0 <= j < |cells| ==> CellInv(cells[j])
    ensures TotalRank(cells) >= 0
  {
    if cells != [] {
      TotalIsNatural(cells[..|cells| - 1]);
      RankIsNatural(cells[|cells| - 1]);
    }
  }

  /** Labels of the run that changed something other than the clock. */
  function Changes(ls: seq<Label>): nat {
    if ls == [] then 0
    else Changes(ls[..|ls| - 1]) + (if Run(ls).cells == Run(ls[..|ls| - 1]).cells then 0 else 1)
  }

  /** The attempts granted to the jobs the run created. */
  function Granted(ls: seq<Label>): nat {
    if ls == [] then 0
    else Granted(ls[..|ls| - 1]) + (if ls[|ls| - 1].Create? then ls[|ls| - 1].maxAttempts else 0)
  }

  lemma {:induction false} ChangesAreBounded(ls: seq<Label>)
    requires DeliversOnce(ls)
    ensures Changes(ls) + TotalRank(Run(ls).cells) <= 28 * Granted(ls)
  {
    if ls != [] {
      var before, l := ls[..|ls| - 1], ls[|ls| - 1];
      var s := Run(before);
      ChangesAreBounded(before);
      RunKeepsTokens(before);
      assert DeliversOnceLabel(l);
      match l
      case Create(payload, maxAttempts) =>
        var c := NewCell(payload, maxAttempts);
        assert c.calls == [] + [SaveAction];
        SumAppend(CallRank, [], SaveAction);
        assert (s.cells + [c])[..|s.cells|] == s.cells;
      case Tick(_) =>
      case OnJob(j, a) =>
        if j < |s.cells| {
          TotalUpdate(s.cells, j, Act(s.cells[j], s.now, a));
          if Idle(s.cells[j], a) {
            IdleChangesNothing(s.cells[j], s.now, a);
            assert s.cells[j := s.cells[j]] == s.cells;
          } else {
            ActLowersRank(s.cells[j], s.now, a);
          }
        }
    }
  }

  /** Every run comes to rest: its state-changing steps are bounded by what its creations granted. */
  lemma RunsComeToRest(ls: seq<Label>)
    requires DeliversOnce(ls)
    ensures Changes(ls) <= 28 * Granted(ls)
  {
    ChangesAreBounded(ls);
    RunKeepsTokens(ls);
    TotalIsNatural(Run(ls).cells);
  }
}
