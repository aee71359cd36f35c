/**
 Both environments: interleaved handlers and retries leave the `jobs` and
 `processing_attempts` tables exactly as running them one at a time would. The
 serial order is the order of the commits: the save of a new or retried row,
 and a handler's last save of the job row, which for one job is also the order
 of the handlers' first saves. Deliveries that lose the lock, and handlers that
 stop before their first save, commit nothing.
 */
module Serializability {
  import opened Domain
  import opened JobRules
  import opened Protocol
  import opened ProtocolTables
  import opened SoundRuns

  datatype Commit =
    | CreateCommit(payload: Payload, maxAttempts: Attempts)
    | RetryCommit(job: JobId)
    | AttemptCommit(job: JobId, startedAt: Time, finishedAt: Time)

  /** The whole use case that the label completes, if any. */
  function Commits(s: System, l: Label): seq<Commit> {
    match l
    case Create(payload, maxAttempts) => [CreateCommit(payload, maxAttempts)]
    case Tick(_) => []
    case OnJob(j, a) =>
      if j >= |s.cells| then []
      else if a.Retry? && CanRetry(s.cells[j].job) then [RetryCommit(j)]
      else if a.Step? && a.handler < |s.cells[j].handlers| && SavingJob(s.cells[j].handlers[a.handler])
      then [AttemptCommit(j, s.cells[j].handlers[a.handler].startedAt, s.cells[j].handlers[a.handler].run.finishedAt)]
      else []
  }

  predicate SavingJob(h: Handler) {
    h.Running? && h.run.SaveJob?
  }

  function SerialOrder(ls: seq<Label>): seq<Commit> {
    if ls == [] then [] else SerialOrder(ls[..|ls| - 1]) + Commits(Run(ls[..|ls| - 1]), ls[|ls| - 1])
  }

  /** One use case, run alone. */
  function Perform(tables: seq<JobTables>, commit: Commit): seq<JobTables> {
    match commit
    case CreateCommit(payload, maxAttempts) => tables + [JobTables(NewJob(payload, maxAttempts), map[])]
    case RetryCommit(j) => if j < |tables| then tables[j := RetryJob(tables[j])] else tables
    case AttemptCommit(j, startedAt, finishedAt) =>
      if j < |tables| then tables[j := RunAttempt(tables[j], startedAt, finishedAt)] else tables
  }

  /** Use cases run one at a time from empty tables. */
  function Replay(commits: seq<Commit>): seq<JobTables> {
    if commits == [] then [] else Perform(Replay(commits[..|commits| - 1]), commits[|commits| - 1])
  }

  predicate NoneRunning(c: Cell) {
    forall i :: 0 <= i < |c.handlers| ==> !c.handlers[i].Running?
  }

  /** No handler was stopped between its first and last save of the job row. */
  predicate NoneInterrupted(c: Cell) {
    forall i :: 0 <= i < |c.handlers| && HandlerProgress(c.handlers[i]) == Interrupted ==> c.handlers[i].Running?
  }

  /** The rows as a running handler leaves them until its commit. */
  predicate PartlyRun(t: JobTables, c: Cell, h: Handler)
    requires h.Running?
  {
    var n := h.job.attemptCount;
    && c.job == Begin(t.job, h.startedAt)
    && match h.run
       case Work => c.attempts == t.attempts[n := OpenAttempt(h.startedAt)]
       case SaveAttempt(_) => c.attempts == t.attempts[n := OpenAttempt(h.startedAt)]
       case SaveJob(f) => c.attempts == t.attempts[n := CloseAttempt(h.job, h.startedAt, f)]
       case _ => c.attempts == t.attempts
  }

  predicate Matches(t: JobTables, c: Cell) {
    && (NoneRunning(c) ==> c.job == t.job && c.attempts == t.attempts)
    && (forall i :: 0 <= i < |c.handlers| && c.handlers[i].Running? ==> PartlyRun(t, c, c.handlers[i]))
  }

  predicate CellSerial(t: JobTables, c: Cell) {
    NoneInterrupted(c) ==> Matches(t, c)
  }

  /** The tables after the commit that step `a` of job `j` makes. */
  function AfterCommit(t: JobTables, c: Cell, a: Action): JobTables {
    if a.Retry? && CanRetry(c.job) then RetryJob(t)
    else if a.Step? && a.handler < |c.handlers| && SavingJob(c.handlers[a.handler])
    then RunAttempt(t, c.handlers[a.handler].startedAt, c.handlers[a.handler].run.finishedAt)
    else t
  }

  lemma InterruptionStays(c: Cell, now: Time, a: Action)
    requires TablesInv(c) && !NoneInterrupted(c)
    ensures !NoneInterrupted(Act(c, now, a))
  {
    var i :| 0 <= i < |c.handlers| && HandlerProgress(c.handlers[i]) == Interrupted && !c.handlers[i].Running?;
    assert HandlerProgress(Act(c, now, a).handlers[i]) == Interrupted;
  }

  lemma SoleRunner(c: Cell, i: nat, k: nat)
    requires OneWriter(c) && i < |c.handlers| && Writes(c.handlers[i]) && k < |c.handlers| && k != i
    ensures !Writes(c.handlers[k])
  {
    if k < i { assert !Writes(c.handlers[k]); }
  }

  lemma RunKeepsSerial(t: JobTables, c: Cell, now: Time, i: nat)
    requires TablesInv(c) && OneWriter(c) && Matches(t, c) && i < |c.handlers| && c.handlers[i].Running?
    ensures Matches(AfterCommit(t, c, Step(i)), AdvanceRun(c, now, i))
  {
    var c' := AdvanceRun(c, now, i);
    assert Coherent(c, c.handlers[i]) && PartlyRun(t, c, c.handlers[i]);
    if c.handlers[i].run.SaveAttempt? {
      var n := c.handlers[i].job.attemptCount;
      var closed := CloseAttempt(c.handlers[i].job, c.handlers[i].startedAt, c.handlers[i].run.finishedAt);
      assert c'.attempts == t.attempts[n := closed];
    }
    assert c.handlers[i].run.SaveJob? || c'.handlers[i].Running?;
    forall k | 0 <= k < |c'.handlers| && k != i
      ensures !c'.handlers[k].Running?
    {
      SoleRunner(c, i, k);
    }
  }

  lemma FirstSaveKeepsSerial(t: JobTables, c: Cell, now: Time, i: nat)
    requires TablesInv(c) && OneWriter(c) && Matches(t, c) && i < |c.handlers| && c.handlers[i].Loaded?
    ensures Matches(t, AdvanceHandler(c, now, i))
  {
    var c' := AdvanceHandler(c, now, i);
    assert Coherent(c, c.handlers[i]);
    forall k | 0 <= k < |c.handlers|
      ensures !c.handlers[k].Running?
    {
      if k != i { SoleRunner(c, i, k); }
    }
    assert c'.handlers[i].Running?;
  }

  /** Steps that replace handlers other than running ones, and leave the rows alone. */
  lemma SameRunnersMatch(t: JobTables, c: Cell, c': Cell)
    requires Matches(t, c) && c'.job == c.job && c'.attempts == c.attempts && |c.handlers| <= |c'.handlers|
    requires forall k :: 0 <= k < |c.handlers| ==>
      c'.handlers[k] == c.handlers[k] || (!c'.handlers[k].Running? && !c.handlers[k].Running?)
    requires forall k :: |c.handlers| <= k < |c'.handlers| ==> !c'.handlers[k].Running?
    ensures Matches(t, c')
  {
    if NoneRunning(c') {
      forall k | 0 <= k < |c.handlers|
        ensures !c.handlers[k].Running?
      {
        assert !c'.handlers[k].Running?;
      }
    }
  }

  lemma {:induction false} StepKeepsSerial(t: JobTables, c: Cell, now: Time, i: nat)
    requires TablesInv(c) && OneWriter(c) && Matches(t, c) && i < |c.handlers|
    ensures Matches(AfterCommit(t, c, Step(i)), AdvanceHandler(c, now, i))
  {
    if c.handlers[i].Running? {
      RunKeepsSerial(t, c, now, i);
    } else if c.handlers[i].Loaded? {
      FirstSaveKeepsSerial(t, c, now, i);
    } else {
      SameRunnersMatch(t, c, AdvanceHandler(c, now, i));
    }
  }

  lemma RetryKeepsSerial(t: JobTables, c: Cell, now: Time)
    requires TablesInv(c) && Matches(t, c)
    ensures Matches(AfterCommit(t, c, Retry), Act(c, now, Retry))
  {
    forall i | 0 <= i < |c.handlers| && CanRetry(c.job)
      ensures !c.handlers[i].Running?
    {
      assert Coherent(c, c.handlers[i]);
    }
  }

  lemma StopKeepsSerial(t: JobTables, c: Cell, now: Time, a: Action)
    requires Matches(t, c) && (a.Throw? || a.Die?) && NoneInterrupted(Act(c, now, a))
    ensures Matches(t, Act(c, now, a))
  {
    if a.handler < |c.handlers| {
      var c' := Act(c, now, a);
      assert HandlerProgress(c'.handlers[a.handler]) == HandlerProgress(c.handlers[a.handler]);
      SameRunnersMatch(t, c, c');
    }
  }

  lemma ActKeepsSerial(t: JobTables, c: Cell, now: Time, a: Action)
    requires TablesInv(c) && OneWriter(c) && CellSerial(t, c) && !a.ReadForRetry?
    ensures CellSerial(AfterCommit(t, c, a), Act(c, now, a))
  {
    var c' := Act(c, now, a);
    if NoneInterrupted(c') {
      if !NoneInterrupted(c) { InterruptionStays(c, now, a); }
      match a
      case Step(i) => if i < |c.handlers| { StepKeepsSerial(t, c, now, i); }
      case Retry => RetryKeepsSerial(t, c, now);
      case Throw(_) => StopKeepsSerial(t, c, now, a);
      case Die(_) => StopKeepsSerial(t, c, now, a);
      case CallStep(i) => if i < |c.calls| { CallKeepsRows(c, i); } SameRunnersMatch(t, c, c');
      case _ => SameRunnersMatch(t, c, c');
    }
  }

  lemma CallKeepsRows(c: Cell, i: nat)
    requires NoSplitRetry(c) && i < |c.calls|
    ensures AdvanceCall(c, i).job == c.job && AdvanceCall(c, i).handlers == c.handlers
  {
  }

  lemma ReplayAppend(commits: seq<Commit>, commit: Commit)
    ensures Replay(commits + [commit]) == Perform(Replay(commits), commit)
  {
    assert (commits + [commit])[..|commits|] == commits;
  }

  predicate SystemSerial(tables: seq<JobTables>, s: System) {
    |tables| == |s.cells| && forall j :: 0 <= j < |tables| ==> CellSerial(tables[j], s.cells[j])
  }

  lemma ReplayCommits(order: seq<Commit>, commits: seq<Commit>)
    requires |commits| <= 1
    ensures Replay(order + commits) == if commits == [] then Replay(order) else Perform(Replay(order), commits[0])
  {
    if commits == [] { assert order + commits == order; }
    else {
      assert commits == [commits[0]];
      ReplayAppend(order, commits[0]);
    }
  }

  lemma NextJobIsSerial(tables: seq<JobTables>, s: System, j: JobId, a: Action)
    requires SystemSerial(tables, s) && SoundRuns.SystemInv(s) && WritersInv(s) && !a.ReadForRetry?
    ensures var commits := Commits(s, OnJob(j, a));
      SystemSerial(if commits == [] then tables else Perform(tables, commits[0]), Next(s, OnJob(j, a)))
  {
    if j < |s.cells| { ActKeepsSerial(tables[j], s.cells[j], s.now, a); }
  }

  lemma NextIsSerial(order: seq<Commit>, s: System, l: Label)
    requires SystemSerial(Replay(order), s) && SoundRuns.SystemInv(s) && WritersInv(s)
    requires l.OnJob? ==> !l.action.ReadForRetry?
    ensures SystemSerial(Replay(order + Commits(s, l)), Next(s, l))
  {
    ReplayCommits(order, Commits(s, l));
    if l.OnJob? { NextJobIsSerial(Replay(order), s, l.job, l.action); }
  }

  lemma {:induction false} RunIsSerial(ls: seq<Label>)
    requires Sound(ls)
    ensures SystemSerial(Replay(SerialOrder(ls)), Run(ls))
  {
    if ls != [] {
      var before := ls[..|ls| - 1];
      SoundPrefix(ls);
      RunIsSerial(before);
      SoundRuns.RunKeepsTables(before);
      SoundRunsHaveOneWriter(before);
      NextIsSerial(SerialOrder(before), Run(before), ls[|ls| - 1]);
    }
  }

  // ------------------------------------------------------------- main results

  /** Step `a` is a handler's first save of the job row. */
  predicate FirstSave(c: Cell, a: Action) {
    a.Step? && a.handler < |c.handlers| && c.handlers[a.handler].Loaded?
  }

  /**
   Between a handler's first and last save of the row nothing else commits on
   the job and no other handler makes its first save, so the order of commits
   is also the order of first saves.
   */
  lemma CommitsDoNotOverlap(ls: seq<Label>, j: JobId, i: nat, a: Action)
    requires Sound(ls) && j < |Run(ls).cells|
    requires i < |Run(ls).cells[j].handlers| && Run(ls).cells[j].handlers[i].Running?
    requires Commits(Run(ls), OnJob(j, a)) != [] || FirstSave(Run(ls).cells[j], a)
    ensures a == Step(i)
  {
    var c := Run(ls).cells[j];
    SoundRuns.RunKeepsTables(ls);
    SoundRunsHaveOneWriter(ls);
    assert TablesInv(c) && OneWriter(c) && Coherent(c, c.handlers[i]);
    if a.Step? && a.handler != i { SoleRunner(c, i, a.handler); }
  }

  /** No handler is between its first and last save of the job row, or was stopped there. */
  predicate Undisturbed(c: Cell) {
    forall i :: 0 <= i < |c.handlers| ==> HandlerProgress(c.handlers[i]) != Interrupted
  }

  lemma UndisturbedRows(t: JobTables, c: Cell)
    requires CellSerial(t, c) && Undisturbed(c)
    ensures JobTables(c.job, c.attempts) == t
  {
    assert NoneRunning(c);
  }

  /** Every undisturbed job has exactly the rows the serial run gives it. */
  lemma {:induction false} Serializable(ls: seq<Label>, j: JobId)
    requires Sound(ls) && j < |Run(ls).cells| && Undisturbed(Run(ls).cells[j])
    ensures |Replay(SerialOrder(ls))| == |Run(ls).cells|
    ensures JobTables(Run(ls).cells[j].job, Run(ls).cells[j].attempts) == Replay(SerialOrder(ls))[j]
  {
    RunIsSerial(ls);
    UndisturbedRows(Replay(SerialOrder(ls))[j], Run(ls).cells[j]);
  }

  ghost predicate NumberedExactly(t: JobTables) {
    forall n: nat :: n in t.attempts <==> 1 <= n <= t.job.attemptCount
  }

  lemma {:induction false} ReplayNumbersExactly(commits: seq<Commit>)
    ensures forall j :: 0 <= j < |Replay(commits)| ==> NumberedExactly(Replay(commits)[j])
  {
    if commits != [] {
      ReplayNumbersExactly(commits[..|commits| - 1]);
    }
  }

  /** The handler has counted its attempt and still has to insert its row. */
  predicate BeforeInsert(h: Handler) {
    h.Running? && (h.run.PublishProcessing? || h.run.LogProcessing? || h.run.InsertAttempt?)
  }

  lemma RunningRows(t: JobTables, c: Cell, i: nat)
    requires TablesInv(c) && Matches(t, c) && NumberedExactly(t)
    requires i < |c.handlers| && c.handlers[i].Running?
    ensures NumberedExactly(JobTables(c.job, c.attempts)) <==> !BeforeInsert(c.handlers[i])
  {
    assert PartlyRun(t, c, c.handlers[i]) && Coherent(c, c.handlers[i]);
    var n := c.job.attemptCount;
    assert n == t.job.attemptCount + 1 && n !in t.attempts;
    if BeforeInsert(c.handlers[i]) {
      assert n !in c.attempts;
    } else {
      assert c.attempts.Keys == t.attempts.Keys + {n};
    }
  }

  lemma RowsAreExact(t: JobTables, c: Cell)
    requires TablesInv(c) && CellSerial(t, c) && NoneInterrupted(c) && NumberedExactly(t)
    ensures NumberedExactly(JobTables(c.job, c.attempts))
            <==> forall i :: 0 <= i < |c.handlers| ==> !BeforeInsert(c.handlers[i])
  {
    if NoneRunning(c) {
      assert JobTables(c.job, c.attempts) == t;
    } else {
      forall i | 0 <= i < |c.handlers| && c.handlers[i].Running?
        ensures NumberedExactly(JobTables(c.job, c.attempts)) <==> !BeforeInsert(c.handlers[i])
      {
        RunningRows(t, c, i);
      }
    }
  }

  /**
   Unless a handler was stopped between its first and last save, a job's
   attempt rows are exactly 1, 2, ..., `attemptCount` if and only if no handler
   is between its first save and its attempt insert.
   */
  lemma {:induction false} AttemptsAreExact(ls: seq<Label>, j: JobId)
    requires Sound(ls) && j < |Run(ls).cells| && NoneInterrupted(Run(ls).cells[j])
    ensures var c := Run(ls).cells[j];
      NumberedExactly(JobTables(c.job, c.attempts))
      <==> forall i :: 0 <= i < |c.handlers| ==> !BeforeInsert(c.handlers[i])
  {
    RunIsSerial(ls);
    SoundRuns.RunKeepsTables(ls);
    ReplayNumbersExactly(SerialOrder(ls));
    assert TablesInv(Run(ls).cells[j]);
    RowsAreExact(Replay(SerialOrder(ls))[j], Run(ls).cells[j]);
  }
}
