/**
 Runs that show which assumption each result needs: a retry can be lost to a
 lock that is still held, a late release deletes another handler's key, a
 redelivered message runs a completed job again, and two retries that do not
 save in one step roll the attempt count back.
 */
module Witnesses {
  import opened Domain
  import opened JobRules
  import opened Protocol
  import opened Sums
  import opened LostWork
  import opened LockScope
  import opened Termination
  import opened EventStream

  /** Actions of a run in which nothing goes wrong. */
  predicate Ordinary(a: Action) {
    a.Retry? || a.CallStep? || a.Deliver? || a.Step?
  }

  /** No time passes and no message comes back. */
  predicate Prompt(ls: seq<Label>) {
    forall i :: 0 <= i < |ls| ==> !ls[i].Tick? && (ls[i].OnJob? ==> !ls[i].action.Redeliver?)
  }

  lemma Do(ls: seq<Label>, j: JobId, a: Action) returns (ls': seq<Label>)
    requires j < |Run(ls).cells|
    ensures ls' == ls + [OnJob(j, a)]
    ensures Run(ls') == System(Run(ls).now, Run(ls).cells[j := Act(Run(ls).cells[j], Run(ls).now, a)])
    ensures ExactlyOnce(ls) && Ordinary(a) ==> ExactlyOnce(ls')
    ensures AtLeastOnce(ls) && !a.ReadForRetry? ==> AtLeastOnce(ls')
    ensures Prompt(ls) && !a.Redeliver? ==> Prompt(ls')
    ensures FaultFree(ls) && !a.Throw? && !a.CallThrow? && !a.Die? ==> FaultFree(ls')
  {
    ls' := ls + [OnJob(j, a)];
    assert ls'[..|ls|] == ls;
  }

  /** What a stretch of actions keeps of a run. */
  ghost predicate Continues(ls: seq<Label>, ls': seq<Label>) {
    && (ExactlyOnce(ls) ==> ExactlyOnce(ls'))
    && (AtLeastOnce(ls) ==> AtLeastOnce(ls'))
    && (FaultFree(ls) ==> FaultFree(ls'))
    && (Prompt(ls) ==> Prompt(ls'))
    && ls <= ls'
    && Run(ls').now == Run(ls).now
    && |Run(ls').cells| == |Run(ls).cells|
  }

  lemma Start(payload: Payload, maxAttempts: Attempts) returns (ls: seq<Label>)
    ensures Run(ls) == System(0, [NewCell(payload, maxAttempts)])
    ensures ExactlyOnce(ls) && AtLeastOnce(ls) && FaultFree(ls) && Prompt(ls)
  {
    ls := [Create(payload, maxAttempts)];
    assert ls[..0] == [];
    assert Run([]) == System(0, []);
    assert AtLeastOnce([]);
  }

  function StepsToSend(call: Call): nat {
    match call
    case SaveAction => 4
    case LogCall => 3
    case SaveCallNotification => 2
    case PublishWork => 1
    case _ => 0
  }

  /** A call goes on until its message is on the queue. */
  lemma {:induction false} Sends(ls: seq<Label>, j: JobId, k: nat) returns (ls': seq<Label>)
    requires j < |Run(ls).cells| && k < |Run(ls).cells[j].calls| && StepsToSend(Run(ls).cells[j].calls[k]) > 0
    ensures var c := Run(ls).cells[j];
      Continues(ls, ls')
      && Run(ls').cells[j] == c.(calls := c.calls[k := PublishCreated], queued := c.queued + 1)
    decreases StepsToSend(Run(ls).cells[j].calls[k])
  {
    ls' := Do(ls, j, CallStep(k));
    if !Run(ls).cells[j].calls[k].PublishWork? {
      ls' := Sends(ls', j, k);
    }
  }

  /** A call publishes its message and the broker delivers it. */
  lemma {:induction false} SendAndDeliver(ls: seq<Label>, j: JobId, k: nat) returns (ls': seq<Label>)
    requires j < |Run(ls).cells| && k < |Run(ls).cells[j].calls| && Run(ls).cells[j].calls[k].SaveAction?
    ensures var c := Run(ls).cells[j];
      Continues(ls, ls') && Run(ls').cells[j]
        == c.(calls := c.calls[k := PublishCreated], handlers := c.handlers + [Delivered])
  {
    ls' := Sends(ls, j, k);
    ls' := Do(ls', j, Deliver);
  }

  // ---------------------------------------------------------- one whole attempt

  function Thrice(c: Cell, now: Time, i: nat): Cell {
    Act(Act(Act(c, now, Step(i)), now, Step(i)), now, Step(i))
  }

  /** The delivery takes the free key, reads the row later and saves it. */
  lemma Begins(c: Cell, taken: Time, startedAt: Time, i: nat)
    requires i < |c.handlers| && c.handlers[i].Delivered? && KeyFree(c, taken)
    ensures var d, job := taken + LOCK_TTL, Begin(c.job, startedAt);
      Act(Act(Act(c, taken, Step(i)), startedAt, Step(i)), startedAt, Step(i))
        == c.(job := job, lock := Some(d), handlers := c.handlers[i := Running(d, job, startedAt, PublishProcessing)])
  {
    var d, job := taken + LOCK_TTL, Begin(c.job, startedAt);
    var locked := Act(c, taken, Step(i));
    assert locked == c.(lock := Some(d), handlers := c.handlers[i := Locked(d)]);
    assert Act(locked, startedAt, Step(i))
      == c.(lock := Some(d), handlers := c.handlers[i := Loaded(d, job, startedAt)]);
  }

  lemma Opens(c: Cell, now: Time, i: nat)
    requires i < |c.handlers| && c.handlers[i].Running? && c.handlers[i].run.PublishProcessing?
    requires c.handlers[i].job.attemptCount !in c.attempts
    ensures var Running(d, job, t, _) := c.handlers[i];
      Thrice(c, now, i)
        == c.(attempts := c.attempts[job.attemptCount := OpenAttempt(t)],
              events := c.events + [ProcessingEvent(job.attemptCount)],
              handlers := c.handlers[i := Running(d, job, t, Work)])
  {
    var Running(d, job, t, _) := c.handlers[i];
    var told := c.(events := c.events + [ProcessingEvent(job.attemptCount)],
                   handlers := c.handlers[i := Running(d, job, t, LogProcessing)]);
    assert Act(c, now, Step(i)) == told;
    assert Act(told, now, Step(i)) == told.(handlers := c.handlers[i := Running(d, job, t, InsertAttempt)]);
  }

  lemma Concludes(c: Cell, finishedAt: Time, i: nat)
    requires i < |c.handlers| && c.handlers[i].Running? && c.handlers[i].run.Work?
    ensures var Running(d, job, t, _) := c.handlers[i];
      var done := Conclude(job, finishedAt);
      Thrice(c, finishedAt, i)
        == c.(job := done,
              attempts := c.attempts[job.attemptCount := CloseAttempt(job, t, finishedAt)],
              handlers := c.handlers[i := Settling(d, done, FirstSettle(done))])
  {
    var Running(d, job, t, _) := c.handlers[i];
    var worked := c.(handlers := c.handlers[i := Running(d, job, t, SaveAttempt(finishedAt))]);
    assert Act(c, finishedAt, Step(i)) == worked;
    assert Act(worked, finishedAt, Step(i))
      == c.(attempts := c.attempts[job.attemptCount := CloseAttempt(job, t, finishedAt)],
            handlers := c.handlers[i := Running(d, job, t, SaveJob(finishedAt))]);
  }

  /** The cell after an undisturbed attempt by handler `i`, up to its last row save. */
  function Attempted(c: Cell, taken: Time, startedAt: Time, finishedAt: Time, i: nat): Cell
    requires i < |c.handlers|
  {
    var t := RunAttempt(JobTables(c.job, c.attempts), startedAt, finishedAt);
    c.(job := t.job, attempts := t.attempts, lock := Some(taken + LOCK_TTL),
       events := c.events + [ProcessingEvent(t.job.attemptCount)],
       handlers := c.handlers[i := Settling(taken + LOCK_TTL, t.job, FirstSettle(t.job))])
  }

  lemma OpensAndConcludes(c: Cell, begun: Cell, taken: Time, startedAt: Time, finishedAt: Time, i: nat)
    requires i < |c.handlers| && c.job.attemptCount + 1 !in c.attempts
    requires var d, job := taken + LOCK_TTL, Begin(c.job, startedAt);
      begun == c.(job := job, lock := Some(d),
                  handlers := c.handlers[i := Running(d, job, startedAt, PublishProcessing)])
    ensures Thrice(Thrice(begun, startedAt, i), finishedAt, i) == Attempted(c, taken, startedAt, finishedAt, i)
  {
    var job := Begin(c.job, startedAt);
    var n, closed := job.attemptCount, CloseAttempt(job, startedAt, finishedAt);
    Opens(begun, startedAt, i);
    Concludes(Thrice(begun, startedAt, i), finishedAt, i);
    assert c.attempts[n := OpenAttempt(startedAt)][n := closed] == c.attempts[n := closed];
  }

  /**
   A delivery that takes a free key at one time, reads the row at another and
   finishes at a third, undisturbed, leaves the rows `RunAttempt` describes.
   */
  lemma AttemptAlone(c: Cell, taken: Time, startedAt: Time, finishedAt: Time, i: nat)
    requires i < |c.handlers| && c.handlers[i].Delivered? && KeyFree(c, taken)
    requires c.job.attemptCount + 1 !in c.attempts
    ensures var begun := Act(Act(Act(c, taken, Step(i)), startedAt, Step(i)), startedAt, Step(i));
      Thrice(Thrice(begun, startedAt, i), finishedAt, i) == Attempted(c, taken, startedAt, finishedAt, i)
  {
    Begins(c, taken, startedAt, i);
    OpensAndConcludes(c, Act(Act(Act(c, taken, Step(i)), startedAt, Step(i)), startedAt, Step(i)),
                      taken, startedAt, finishedAt, i);
  }

  lemma StepThrice(ls: seq<Label>, j: JobId, i: nat) returns (ls': seq<Label>)
    requires j < |Run(ls).cells|
    ensures Continues(ls, ls') && Run(ls').cells[j] == Thrice(Run(ls).cells[j], Run(ls).now, i)
  {
    ls' := Do(ls, j, Step(i));
    ls' := Do(ls', j, Step(i));
    ls' := Do(ls', j, Step(i));
  }

  lemma {:induction false} RunAttemptAlone(ls: seq<Label>, j: JobId, i: nat) returns (ls': seq<Label>)
    requires j < |Run(ls).cells| && i < |Run(ls).cells[j].handlers| && Run(ls).cells[j].handlers[i].Delivered?
    requires KeyFree(Run(ls).cells[j], Run(ls).now)
    requires Run(ls).cells[j].job.attemptCount + 1 !in Run(ls).cells[j].attempts
    ensures var c, now := Run(ls).cells[j], Run(ls).now;
      Continues(ls, ls') && Run(ls').cells[j] == Attempted(c, now, now, now, i)
  {
    AttemptAlone(Run(ls).cells[j], Run(ls).now, Run(ls).now, Run(ls).now, i);
    ls' := StepThrice(ls, j, i);
    ls' := StepThrice(ls', j, i);
    ls' := StepThrice(ls', j, i);
  }

  // ------------------------------------------------------------ settling an attempt

  function AlertsDue(job: JobRow, stage: SettleStage): seq<Severity> {
    if stage.SaveAlert? then [FailureSeverity(job)] else []
  }

  function IncidentsDue(job: JobRow, stage: SettleStage): nat {
    if stage.SaveIncident? || (stage.SaveAlert? && FailureSeverity(job) == Critical) then 1 else 0
  }

  function EventsDue(job: JobRow, stage: SettleStage): seq<JobEvent> {
    if OutcomeUnpublished(stage) then [OutcomeEvent(job)] else []
  }

  /** The cell after handler `i` has settled its outcome and released the lock. */
  function Released(c: Cell, i: nat): Cell
    requires i < |c.handlers| && c.handlers[i].Settling?
  {
    var Settling(_, job, stage) := c.handlers[i];
    c.(lock := None, handlers := c.handlers[i := Ended(Settled, Acked)], events := c.events + EventsDue(job, stage),
       alerts := c.alerts + AlertsDue(job, stage), incidents := c.incidents + IncidentsDue(job, stage))
  }

  lemma SettlesOneStep(c: Cell, i: nat)
    requires i < |c.handlers| && c.handlers[i].Settling?
    ensures var c' := AdvanceSettle(c, i);
      if c'.handlers[i].Settling? then Released(c', i) == Released(c, i)
      else !c.handlers[i].settle.Done? && c'.handlers[i].Releasing?
           ==> c'.(lock := None, handlers := c.handlers[i := Ended(Settled, Acked)]) == Released(c, i)
  {
    var c' := AdvanceSettle(c, i);
    var Settling(d, job, stage) := c.handlers[i];
    var next := NextSettle(job, stage);
    assert c.events + EventsDue(job, stage) == c'.events + EventsDue(job, next);
    assert c.alerts + AlertsDue(job, stage) == c'.alerts + AlertsDue(job, next);
    assert c.handlers[i := c'.handlers[i]][i := Ended(Settled, Acked)] == c.handlers[i := Ended(Settled, Acked)];
  }

  lemma {:induction false} SettleOnce(ls: seq<Label>, j: JobId, i: nat) returns (ls': seq<Label>)
    requires j < |Run(ls).cells| && i < |Run(ls).cells[j].handlers|
    requires Run(ls).cells[j].handlers[i].Settling? && !Run(ls).cells[j].handlers[i].settle.Done?
    ensures Continues(ls, ls')
    ensures var c, c' := Run(ls).cells[j], Run(ls').cells[j];
      && |c'.handlers| == |c.handlers|
      && if c'.handlers[i].Settling?
         then !c'.handlers[i].settle.Done? && Released(c', i) == Released(c, i)
              && SettleRank(c'.handlers[i].settle) < SettleRank(c.handlers[i].settle)
         else c'.handlers[i] == Releasing(c.handlers[i].deadline, Settled, false)
              && Act(c', Run(ls').now, Step(i)) == Released(c, i)
  {
    SettlesOneStep(Run(ls).cells[j], i);
    ls' := Do(ls, j, Step(i));
  }

  /** An undisturbed handler settles its outcome, stage by stage, and releases the lock. */
  lemma {:induction false} Settles(ls: seq<Label>, j: JobId, i: nat) returns (ls': seq<Label>)
    requires j < |Run(ls).cells| && i < |Run(ls).cells[j].handlers|
    requires Run(ls).cells[j].handlers[i].Settling? && !Run(ls).cells[j].handlers[i].settle.Done?
    ensures Continues(ls, ls') && Run(ls').cells[j] == Released(Run(ls).cells[j], i)
    decreases SettleRank(Run(ls).cells[j].handlers[i].settle)
  {
    ls' := SettleOnce(ls, j, i);
    if Run(ls').cells[j].handlers[i].Settling? {
      ls' := Settles(ls', j, i);
    } else {
      ls' := Do(ls', j, Step(i));
    }
  }

  // ------------------------------------------------------------- the witnesses

  /** A created job's first attempt, up to its last row save at time zero. */
  lemma {:induction false} FirstAttempt(payload: Payload, maxAttempts: Attempts) returns (ls: seq<Label>)
    ensures ExactlyOnce(ls) && AtLeastOnce(ls) && FaultFree(ls) && Prompt(ls)
    ensures var t := RunAttempt(JobTables(NewJob(payload, maxAttempts), map[]), 0, 0);
      Run(ls).now == 0 && Run(ls).cells
        == [Cell(t.job, t.attempts, Some(LOCK_TTL), [PublishCreated], 0,
                 [Settling(LOCK_TTL, t.job, FirstSettle(t.job))], [], 0, [ProcessingEvent(1)])]
  {
    ls := Start(payload, maxAttempts);
    ls := SendAndDeliver(ls, 0, 0);
    assert Run(ls).cells[0].handlers == [Delivered] && Run(ls).cells[0].calls == [PublishCreated];
    ls := RunAttemptAlone(ls, 0, 0);
    var c := Run(ls).cells[0];
    assert c.handlers == [c.handlers[0]] && c.events == [ProcessingEvent(1)] && Run(ls).cells == [c];
  }

  const ALWAYS_FAILS: Payload := map["shouldFail" := Bool(true)]

  lemma {:induction false} RetrySent(ls: seq<Label>) returns (ls': seq<Label>)
    requires |Run(ls).cells| == 1 && CanRetry(Run(ls).cells[0].job) && |Run(ls).cells[0].calls| == 1
    ensures Continues(ls, ls')
    ensures var c := Run(ls).cells[0];
      Run(ls').cells[0] == c.(job := Requeue(c.job), calls := c.calls + [PublishCreated],
                              handlers := c.handlers + [Delivered])
  {
    ls' := Do(ls, 0, Retry);
    ls' := SendAndDeliver(ls', 0, 1);
  }

  /** A failed first attempt, still settling, and the retry's delivery behind it. */
  predicate RetryBehind(c: Cell) {
    && c.job.status == Queued && c.calls == [PublishCreated, PublishCreated] && c.queued == 0
    && c.lock == Some(LOCK_TTL) && |c.handlers| == 2 && c.handlers[1] == Delivered
    && c.handlers[0].Settling? && c.handlers[0].settle.SaveAlert? && c.handlers[0].deadline == LOCK_TTL
  }

  lemma {:induction false} FailedAndRetried() returns (ls: seq<Label>)
    ensures ExactlyOnce(ls) && AtLeastOnce(ls) && FaultFree(ls)
    ensures Run(ls).now == 0 && |Run(ls).cells| == 1 && RetryBehind(Run(ls).cells[0])
  {
    ls := FirstAttempt(ALWAYS_FAILS, 2);
    ls := RetrySent(ls);
  }

  lemma NothingOutstanding(c: Cell)
    requires c.calls == [PublishCreated, PublishCreated] && c.queued == 0
    requires |c.handlers| == 2 && c.handlers[0].Settling? && c.handlers[1].Ended?
    ensures Outstanding(c) == 0
  {
    SumZero(OutstandingCall, c.calls);
    SumZero(OutstandingHandler, c.handlers);
  }

  /** A retry accepted before the failed handler's release can have its only message acked and dropped. */
  lemma {:induction false} RetryUnderTheLockIsLost() returns (ls: seq<Label>)
    ensures ExactlyOnce(ls) && AtLeastOnce(ls) && FaultFree(ls) && |Run(ls).cells| == 1
    ensures var c := Run(ls).cells[0]; c.job.status == Queued && Outstanding(c) == 0 && Lost(c) == 1
  {
    ls := FailedAndRetried();
    ls := Do(ls, 0, Step(1));
    NothingOutstanding(Run(ls).cells[0]);
    AccountOfWork(ls, 0);
  }

  lemma Waits(ls: seq<Label>, elapsed: Time) returns (ls': seq<Label>)
    ensures ls <= ls' && Run(ls') == Run(ls).(now := Run(ls).now + elapsed)
    ensures ExactlyOnce(ls) ==> ExactlyOnce(ls')
    ensures FaultFree(ls) ==> FaultFree(ls')
    ensures AtLeastOnce(ls) && AtLeastOnceLabel(Run(ls), Tick(elapsed)) ==> AtLeastOnce(ls')
  {
    ls' := ls + [Tick(elapsed)];
    assert ls'[..|ls|] == ls;
  }

  /** Two handlers are inside the lock, the second with the key. */
  lemma {:induction false} Overtaken() returns (ls: seq<Label>)
    ensures ExactlyOnce(ls) && FaultFree(ls) && |Run(ls).cells| == 1 && Run(ls).now == LOCK_TTL
    ensures var c := Run(ls).cells[0];
      && |c.handlers| == 2 && c.handlers[1] == Locked(LOCK_TTL + LOCK_TTL)
      && c.handlers[0].Settling? && c.handlers[0].settle.SaveAlert?
  {
    ls := FailedAndRetried();
    ls := Waits(ls, LOCK_TTL);
    ls := Do(ls, 0, Step(1));
  }

  /** A handler that outlives its key deletes the key of the handler that took the lock after it. */
  lemma {:induction false} LateReleaseDeletesAnothersKey() returns (both: seq<Label>, ls: seq<Label>)
    ensures both <= ls && |Run(both).cells| == 1 && !OneHolder(Run(both).cells[0])
    ensures ExactlyOnce(ls) && FaultFree(ls) && |Run(ls).cells| == 1 && |Run(ls).cells[0].handlers| == 2
    ensures var c := Run(ls).cells[0];
      && c.handlers[0] == Ended(Settled, Acked) && c.lock == None
      && c.handlers[1].Locked? && Run(ls).now < c.handlers[1].deadline
  {
    both := Overtaken();
    ls := Settles(both, 0, 0);
  }

  /**
   A worker that dies after it completed a job leaves the message unacknowledged;
   when it comes back after the key has expired, the job runs again, past its budget.
   */
  lemma {:induction false} RedeliveryRunsACompletedJobAgain() returns (ls: seq<Label>, all: seq<Label>)
    ensures AtLeastOnce(ls) && AtLeastOnce(all) && ls <= all && |Run(ls).cells| == 1 == |Run(all).cells|
    ensures Run(ls).cells[0].job.status == Completed && Run(ls).cells[0].handlers == [Ended(Settled, Died)]
    ensures var job := Run(all).cells[0].job;
      job.status == Completed && job.attemptCount == 2 && job.maxAttempts == 1
  {
    ls := FirstAttempt(map[], 1);
    ls := Do(ls, 0, Die(0));
    assert Run(ls).cells[0].handlers == [Ended(Settled, Died)];
    all := ComesBack(ls);
    all := RunAttemptAlone(all, 0, 1);
  }

  lemma DeadHandlersMayWait(s: System, elapsed: Time)
    requires |s.cells| == 1 && s.cells[0].handlers == [Ended(Settled, Died)]
    ensures AtLeastOnceLabel(s, Tick(elapsed))
  {
  }

  lemma {:induction false} ComesBack(ls: seq<Label>) returns (all: seq<Label>)
    requires AtLeastOnce(ls) && |Run(ls).cells| == 1 && Run(ls).now == 0
    requires Run(ls).cells[0].handlers == [Ended(Settled, Died)]
    ensures AtLeastOnce(all) && ls <= all
    ensures Run(all) == System(LOCK_TTL, [Run(ls).cells[0].(handlers := [Ended(Settled, Died), Delivered])])
  {
    DeadHandlersMayWait(Run(ls), LOCK_TTL);
    var late := Waits(ls, LOCK_TTL);
    all := Do(late, 0, Redeliver);
    assert [Ended(Settled, Died)] + [Delivered] == [Ended(Settled, Died), Delivered];
  }

  lemma FirstFailure() returns (ls: seq<Label>)
    ensures FaultFree(ls) && Prompt(ls) && |Run(ls).cells| == 1
    ensures var c := Run(ls).cells[0];
      && CanRetry(c.job) && c.job.attemptCount == 1 && c.attempts.Keys == {1}
      && |c.calls| == 1 && |c.handlers| == 1 && c.lock == None
  {
    ls := FirstAttempt(ALWAYS_FAILS, 3);
    ls := Settles(ls, 0, 0);
  }

  /** The first retry of the two, alone: saved, sent, delivered and run to a second failure. */
  lemma {:induction false} SecondFailure(ls: seq<Label>) returns (ls': seq<Label>)
    requires |Run(ls).cells| == 1
    requires var c := Run(ls).cells[0];
      && |c.calls| == 3 && c.calls[1].SaveRetry? && |c.handlers| == 1 && c.lock == None
      && c.calls[1].row.attemptCount + 1 !in c.attempts
    ensures |Run(ls').cells| == 1
    ensures FaultFree(ls) ==> FaultFree(ls')
    ensures Prompt(ls) ==> Prompt(ls')
    ensures var c := Run(ls).cells[0];
      Run(ls').cells[0].calls == c.calls[1 := PublishCreated]
      && Run(ls').cells[0].job.attemptCount == c.calls[1].row.attemptCount + 1
  {
    ls' := Do(ls, 0, CallStep(1));
    ls' := SendAndDeliver(ls', 0, 1);
    ls' := RunAttemptAlone(ls', 0, 1);
  }

  /** Two retries that both read the row before either saves it roll the attempt count back. */
  lemma {:induction false} SplitRetriesRollBack() returns (ls: seq<Label>, l: Label)
    ensures FaultFree(ls + [l]) && Prompt(ls + [l]) && |Run(ls).cells| == 1 == |Run(ls + [l]).cells|
    ensures Run(ls + [l]).cells[0].job.attemptCount < Run(ls).cells[0].job.attemptCount
  {
    ls := FirstFailure();
    ls := Do(ls, 0, ReadForRetry);
    ls := Do(ls, 0, ReadForRetry);
    ls := SecondFailure(ls);
    l := OnJob(0, CallStep(2));
    var _ := Do(ls, 0, CallStep(2));
  }
}
