/**
 What every step keeps about a job's rows, as long as at most one handler has
 read the job row without having finished writing it.
 */
module ProtocolTables {
  import opened Domain
  import opened JobRules
  import opened Protocol

  /** Between reading the job row and saving it for the last time. */
  predicate Writes(h: Handler) {
    h.Loaded? || h.Running?
  }

  predicate OneWriter(c: Cell) {
    forall i, k :: 0 <= i < k < |c.handlers| ==> !(Writes(c.handlers[i]) && Writes(c.handlers[k]))
  }

  /** The attempt row a running handler has written so far. */
  predicate AttemptWritten(c: Cell, h: Handler)
    requires h.Running?
  {
    var n := h.job.attemptCount;
    match h.run
    case Work => n in c.attempts && c.attempts[n] == OpenAttempt(h.startedAt)
    case SaveAttempt(_) => n in c.attempts && c.attempts[n] == OpenAttempt(h.startedAt)
    case SaveJob(f) => n in c.attempts && c.attempts[n] == CloseAttempt(h.job, h.startedAt, f)
    case _ => n !in c.attempts
  }

  /** The handler's in-memory job agrees with the stored row. */
  predicate Coherent(c: Cell, h: Handler) {
    match h
    case Loaded(_, job, t) => job == Begin(c.job, t)
    case Running(_, job, t, _) =>
      && job == c.job && job.status == Processing && job.startedAt == Some(t) && job.attemptCount >= 1
      && AttemptWritten(c, h)
    case _ => HandlerProgress(h) != Uncounted ==> c.job.attemptCount >= 1
  }

  /** Attempt rows carry numbers already counted on the job. */
  predicate RowsNumbered(c: Cell) {
    forall n :: n in c.attempts ==> 1 <= n <= c.job.attemptCount
  }

  /** A job with an outcome, or queued again after one, has the attempt row that explains it. */
  predicate OutcomeRecorded(c: Cell) {
    var n := c.job.attemptCount;
    && (c.job.status == Completed ==>
          n in c.attempts && c.attempts[n].status == Succeeded && c.job.lastError == None
          && c.job.completedAt.Some? && c.attempts[n].finishedAt == c.job.completedAt)
    && (c.job.status == JobStatus.Failed ==>
          n in c.attempts && c.attempts[n].status == Unsuccessful && c.job.lastError.Some?
          && c.attempts[n].errorMessage == c.job.lastError
          && c.job.completedAt.Some? && c.attempts[n].finishedAt == c.job.completedAt)
    && (c.job.status == Queued && n > 0 ==> n in c.attempts && c.attempts[n].status == Unsuccessful)
  }

  predicate NoSplitRetry(c: Cell) {
    forall i :: 0 <= i < |c.calls| ==> !c.calls[i].SaveRetry?
  }

  predicate TablesInv(c: Cell) {
    && NoSplitRetry(c)
    && RowsNumbered(c)
    && OutcomeRecorded(c)
    && forall i :: 0 <= i < |c.handlers| ==> Coherent(c, c.handlers[i])
  }

  lemma NewCellTables(payload: Payload, maxAttempts: Attempts)
    ensures TablesInv(NewCell(payload, maxAttempts)) && OneWriter(NewCell(payload, maxAttempts))
  {
  }

  lemma RunKeepsTables(c: Cell, now: Time, i: nat)
    requires TablesInv(c) && OneWriter(c) && i < |c.handlers| && c.handlers[i].Running?
    ensures TablesInv(AdvanceRun(c, now, i))
  {
    assert Coherent(c, c.handlers[i]);
    var c' := AdvanceRun(c, now, i);
    forall k | 0 <= k < |c'.handlers|
      ensures Coherent(c', c'.handlers[k])
    {
      if k != i {
        assert Coherent(c, c.handlers[k]) && !Writes(c.handlers[k]);
      }
    }
  }

  lemma FirstSaveKeepsTables(c: Cell, now: Time, i: nat)
    requires TablesInv(c) && OneWriter(c) && i < |c.handlers| && c.handlers[i].Loaded?
    ensures TablesInv(AdvanceHandler(c, now, i))
  {
    var c' := AdvanceHandler(c, now, i);
    assert Coherent(c, c.handlers[i]);
    forall k | 0 <= k < |c'.handlers|
      ensures Coherent(c', c'.handlers[k])
    {
      if k != i {
        assert Coherent(c, c.handlers[k]) && !Writes(c.handlers[k]);
      }
    }
  }

  lemma StepKeepsTables(c: Cell, now: Time, i: nat)
    requires TablesInv(c) && OneWriter(c) && i < |c.handlers|
    ensures TablesInv(AdvanceHandler(c, now, i))
  {
    if c.handlers[i].Running? {
      RunKeepsTables(c, now, i);
    } else if c.handlers[i].Loaded? {
      FirstSaveKeepsTables(c, now, i);
    } else {
      var c' := AdvanceHandler(c, now, i);
      assert c'.job == c.job && c'.attempts == c.attempts && c'.calls == c.calls;
      assert Coherent(c, c.handlers[i]);
      forall k | 0 <= k < |c'.handlers|
        ensures Coherent(c', c'.handlers[k])
      {
        if k != i {
          assert Coherent(c, c.handlers[k]);
        }
      }
    }
  }

  lemma OtherActKeepsRows(c: Cell, now: Time, a: Action, c': Cell)
    requires TablesInv(c) && OneWriter(c) && !a.Step? && !a.ReadForRetry? && c' == Act(c, now, a)
    ensures RowsNumbered(c') && OutcomeRecorded(c') && NoSplitRetry(c')
  {
  }

  lemma OtherActKeepsTables(c: Cell, now: Time, a: Action, c': Cell)
    requires TablesInv(c) && OneWriter(c) && !a.Step? && !a.ReadForRetry? && c' == Act(c, now, a)
    ensures TablesInv(c')
  {
    OtherActKeepsRows(c, now, a, c');
    forall k | 0 <= k < |c'.handlers|
      ensures Coherent(c', c'.handlers[k])
    {
      if k < |c.handlers| { assert Coherent(c, c.handlers[k]); }
    }
  }

  /** Any step of any environment in which a retry saves the row in one step. */
  lemma {:induction false} ActKeepsTables(c: Cell, now: Time, a: Action)
    requires TablesInv(c) && OneWriter(c) && !a.ReadForRetry?
    ensures TablesInv(Act(c, now, a))
  {
    if a.Step? {
      if a.handler < |c.handlers| {
        StepKeepsTables(c, now, a.handler);
      }
    } else {
      OtherActKeepsTables(c, now, a, Act(c, now, a));
    }
  }

  /** The attempt insert is never turned away by the UNIQUE constraint. */
  lemma InsertIsNew(c: Cell, i: nat)
    requires TablesInv(c) && i < |c.handlers| && c.handlers[i].Running? && c.handlers[i].run.InsertAttempt?
    ensures c.handlers[i].job.attemptCount !in c.attempts
  {
    assert Coherent(c, c.handlers[i]);
  }

  /** An attempt row that has been closed. */
  predicate Closed(c: Cell, n: nat) {
    n in c.attempts && c.attempts[n].status != Started
  }

  /** Nothing recorded about earlier attempts is lost or rewritten. */
  ghost predicate Extends(c: Cell, c': Cell) {
    && c'.job.payload == c.job.payload && c'.job.maxAttempts == c.job.maxAttempts
    && c.job.attemptCount <= c'.job.attemptCount
    && (forall n :: n in c.attempts ==>
          n in c'.attempts && c'.attempts[n].startedAt == c.attempts[n].startedAt)
    && (forall n :: Closed(c, n) ==> Closed(c', n) && c'.attempts[n] == c.attempts[n])
    && c.events <= c'.events
  }

  lemma ActExtends(c: Cell, now: Time, a: Action)
    requires TablesInv(c) && OneWriter(c) && !a.ReadForRetry?
    ensures Extends(c, Act(c, now, a))
  {
    if a.Step? && a.handler < |c.handlers| {
      assert Coherent(c, c.handlers[a.handler]);
    }
  }
}
