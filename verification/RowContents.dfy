/**
 What the columns of attempt and job rows hold, in every state: the recorded
 duration is the time between the recorded start and finish, errors name their
 attempt, and a job row has exactly the times and error its status calls for.
 */
module RowContents {
  import opened Domain
  import opened Protocol
  import opened ProtocolTables
  import opened SoundRuns

  /** Start, finish and duration of a row closed by time `now`. */
  predicate TimesAgree(row: AttemptRow, now: Time) {
    && row.finishedAt.Some? && row.durationMs.Some?
    && row.durationMs.value >= 0 && row.startedAt + row.durationMs.value == row.finishedAt.value
    && row.finishedAt.value <= now
  }

  predicate AttemptTold(n: nat, row: AttemptRow, now: Time) {
    match row.status
    case Started =>
      row.startedAt <= now && row.finishedAt == None && row.durationMs == None && row.errorMessage == None
    case Succeeded => TimesAgree(row, now) && row.errorMessage == None
    case Unsuccessful => TimesAgree(row, now) && row.errorMessage == Some(FailedOnAttempt(n))
  }

  /** A handler's clock readings are past and in order. */
  predicate ClocksRead(h: Handler, now: Time) {
    match h
    case Loaded(_, _, t) => t <= now
    case Running(_, _, t, SaveAttempt(f)) => t <= f <= now
    case Running(_, _, t, SaveJob(f)) => t <= f <= now
    case Running(_, _, t, _) => t <= now
    case _ => true
  }

  predicate ClocksInv(c: Cell, now: Time) {
    && (forall i :: 0 <= i < |c.handlers| ==> ClocksRead(c.handlers[i], now))
    && (forall n :: n in c.attempts ==> AttemptTold(n, c.attempts[n], now))
  }

  lemma StepKeepsClocks(c: Cell, now: Time, i: nat)
    requires ClocksInv(c, now) && i < |c.handlers|
    ensures ClocksInv(AdvanceHandler(c, now, i), now)
  {
    assert ClocksRead(c.handlers[i], now);
    var c' := AdvanceHandler(c, now, i);
    forall k | 0 <= k < |c'.handlers|
      ensures ClocksRead(c'.handlers[k], now)
    {
      if k != i { assert ClocksRead(c.handlers[k], now); }
    }
  }

  lemma ActKeepsClocks(c: Cell, now: Time, a: Action)
    requires ClocksInv(c, now)
    ensures ClocksInv(Act(c, now, a), now)
  {
    if a.Step? {
      if a.handler < |c.handlers| { StepKeepsClocks(c, now, a.handler); }
    } else {
      var c' := Act(c, now, a);
      forall i | 0 <= i < |c'.handlers|
        ensures ClocksRead(c'.handlers[i], now)
      {
        if i < |c.handlers| { assert ClocksRead(c.handlers[i], now); }
      }
    }
  }

  lemma {:induction false} RunsKeepClocks(ls: seq<Label>)
    ensures forall j :: 0 <= j < |Run(ls).cells| ==> ClocksInv(Run(ls).cells[j], Run(ls).now)
  {
    if ls != [] {
      var s, l := Run(ls[..|ls| - 1]), ls[|ls| - 1];
      RunsKeepClocks(ls[..|ls| - 1]);
      match l
      case Create(_, _) =>
      case Tick(d) => TimePasses(s, d);
      case OnJob(j, a) => if j < |s.cells| { ActKeepsClocks(s.cells[j], s.now, a); }
    }
  }

  lemma TimePasses(s: System, d: Time)
    requires forall j :: 0 <= j < |s.cells| ==> ClocksInv(s.cells[j], s.now)
    ensures forall j :: 0 <= j < |s.cells| ==> ClocksInv(s.cells[j], s.now + d)
  {
    forall j | 0 <= j < |s.cells| ensures ClocksInv(s.cells[j], s.now + d) {
      assert ClocksInv(s.cells[j], s.now);
      forall i | 0 <= i < |s.cells[j].handlers| ensures ClocksRead(s.cells[j].handlers[i], s.now + d) {
        assert ClocksRead(s.cells[j].handlers[i], s.now);
      }
    }
  }

  /** In every state of every run, whatever the environment, an attempt row's columns agree with each other. */
  lemma {:induction false} AttemptRowsAddUp(ls: seq<Label>, j: JobId, n: nat)
    requires j < |Run(ls).cells| && n in Run(ls).cells[j].attempts
    ensures AttemptTold(n, Run(ls).cells[j].attempts[n], Run(ls).now)
  {
    RunsKeepClocks(ls);
    assert ClocksInv(Run(ls).cells[j], Run(ls).now);
  }

  // ----------------------------------------------------------------- job rows

  /** The columns of a job row that its status calls for, and the attempt row they repeat. */
  predicate JobTold(c: Cell) {
    var job, n := c.job, c.job.attemptCount;
    match job.status
    case Queued => job.startedAt == None && job.completedAt == None && job.lastError == None
    case Processing =>
      && n >= 1 && job.startedAt.Some? && job.completedAt == None && job.lastError == None
      && (n in c.attempts ==> job.startedAt == Some(c.attempts[n].startedAt))
    case Completed =>
      && n in c.attempts && c.attempts[n].status == Succeeded && job.startedAt == Some(c.attempts[n].startedAt)
      && job.completedAt == c.attempts[n].finishedAt && job.lastError == None
    case Failed =>
      && n in c.attempts && c.attempts[n].status == Unsuccessful && job.startedAt == Some(c.attempts[n].startedAt)
      && job.completedAt == c.attempts[n].finishedAt && job.lastError == Some(FailedOnAttempt(n))
  }

  lemma StepKeepsJobTold(c: Cell, now: Time, i: nat)
    requires TablesInv(c) && OneWriter(c) && JobTold(c) && i < |c.handlers|
    ensures JobTold(AdvanceHandler(c, now, i))
  {
    assert Coherent(c, c.handlers[i]);
  }

  lemma ActKeepsJobTold(c: Cell, now: Time, a: Action)
    requires TablesInv(c) && OneWriter(c) && JobTold(c) && !a.ReadForRetry?
    ensures JobTold(Act(c, now, a))
  {
    match a
    case Step(i) => if i < |c.handlers| { StepKeepsJobTold(c, now, i); }
    case CallStep(i) => if i < |c.calls| { assert !c.calls[i].SaveRetry?; }
    case _ =>
  }

  /** In every state of every sound run a job row says what its status and its last attempt call for. */
  lemma {:induction false} JobRowsAddUp(ls: seq<Label>)
    requires Sound(ls)
    ensures forall j :: 0 <= j < |Run(ls).cells| ==> JobTold(Run(ls).cells[j])
  {
    if ls != [] {
      var before, l := ls[..|ls| - 1], ls[|ls| - 1];
      var s := Run(before);
      SoundPrefix(ls);
      JobRowsAddUp(before);
      SoundRuns.RunKeepsTables(before);
      SoundRunsHaveOneWriter(before);
      if l.OnJob? && l.job < |s.cells| {
        assert TablesInv(s.cells[l.job]) && OneWriter(s.cells[l.job]);
        ActKeepsJobTold(s.cells[l.job], s.now, l.action);
      }
    }
  }
}
