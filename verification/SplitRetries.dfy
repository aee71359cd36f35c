/**
 Retries that read, check and save the job row in separate steps, next to
 handlers that release the lock in time: `attemptCount` falls exactly when a
 retry saves a row it read before a later attempt was counted.
 */
module SplitRetries {
  import opened Domain
  import opened JobRules
  import opened Protocol
  import opened ProtocolTables
  import opened LockScope
  import Witnesses

  /** At-least-once delivery with handlers that end in time; retries may interleave with anything. */
  predicate InTimeLabel(s: System, l: Label) {
    l.Tick? ==> forall j :: 0 <= j < |s.cells| ==> BeforeDeadlines(s.cells[j], s.now + l.elapsed)
  }

  predicate InTime(ls: seq<Label>) {
    ls == [] || (InTime(ls[..|ls| - 1]) && InTimeLabel(Run(ls[..|ls| - 1]), ls[|ls| - 1]))
  }

  predicate Scoped(s: System) {
    forall j :: 0 <= j < |s.cells| ==> OneHolder(s.cells[j]) && HoldersOwnKey(s.cells[j], s.now)
  }

  lemma NextKeepsScope(s: System, l: Label, s': System)
    requires Scoped(s) && InTimeLabel(s, l) && s' == Next(s, l)
    ensures Scoped(s')
  {
    match l
    case Create(_, _) =>
    case Tick(d) =>
      forall j | 0 <= j < |s.cells| ensures HoldersOwnKey(s'.cells[j], s'.now) {
        assert BeforeDeadlines(s.cells[j], s.now + d);
      }
    case OnJob(j, a) => if j < |s.cells| { ActKeepsScope(s.cells[j], s.now, a); }
  }

  lemma {:induction false} RunsKeepScope(ls: seq<Label>)
    requires InTime(ls)
    ensures Scoped(Run(ls))
  {
    if ls != [] {
      RunsKeepScope(ls[..|ls| - 1]);
      NextKeepsScope(Run(ls[..|ls| - 1]), ls[|ls| - 1], Run(ls));
    }
  }

  /** The step saves a retry whose row was read when fewer attempts were counted. */
  predicate SavesStaleRetry(c: Cell, a: Action) {
    && a.CallStep? && a.call < |c.calls| && c.calls[a.call].SaveRetry?
    && c.calls[a.call].row.attemptCount < c.job.attemptCount
  }

  /** Rows read for a retry are not ahead of the stored count, and rows a handler will save not behind it. */
  predicate CountInv(c: Cell) {
    && (forall i :: 0 <= i < |c.calls| && c.calls[i].SaveRetry? ==> c.calls[i].row.attemptCount <= c.job.attemptCount)
    && (forall i :: 0 <= i < |c.handlers| && Writes(c.handlers[i]) ==>
          c.job.attemptCount <= c.handlers[i].job.attemptCount)
  }

  lemma HandlerKeepsCount(c: Cell, now: Time, i: nat)
    requires OneHolder(c) && CountInv(c) && i < |c.handlers|
    ensures c.job.attemptCount <= AdvanceHandler(c, now, i).job.attemptCount && CountInv(AdvanceHandler(c, now, i))
  {
    var c' := AdvanceHandler(c, now, i);
    assert c'.calls == c.calls;
    forall k | 0 <= k < |c'.handlers| && Writes(c'.handlers[k])
      ensures c'.job.attemptCount <= c'.handlers[k].job.attemptCount
    {
      if k < i { assert !(Holds(c.handlers[k]) && Holds(c.handlers[i])); }
      if i < k { assert !(Holds(c.handlers[i]) && Holds(c.handlers[k])); }
    }
  }

  lemma ActFallsExactly(c: Cell, now: Time, a: Action)
    requires OneHolder(c) && CountInv(c)
    ensures Act(c, now, a).job.attemptCount < c.job.attemptCount <==> SavesStaleRetry(c, a)
    ensures !SavesStaleRetry(c, a) ==> CountInv(Act(c, now, a))
  {
    if a.Step? && a.handler < |c.handlers| { HandlerKeepsCount(c, now, a.handler); }
  }

  predicate NeverFalls(ls: seq<Label>, j: JobId) {
    ls == [] || (NeverFalls(ls[..|ls| - 1], j) && CountKept(Run(ls[..|ls| - 1]), Run(ls), j))
  }

  predicate CountKept(s: System, s': System, j: JobId) {
    j < |s.cells| && j < |s'.cells| ==> s.cells[j].job.attemptCount <= s'.cells[j].job.attemptCount
  }

  predicate NeverStale(ls: seq<Label>, j: JobId) {
    ls == [] || (NeverStale(ls[..|ls| - 1], j) && !StaleLabel(Run(ls[..|ls| - 1]), ls[|ls| - 1], j))
  }

  predicate StaleLabel(s: System, l: Label, j: JobId) {
    l.OnJob? && l.job == j && j < |s.cells| && SavesStaleRetry(s.cells[j], l.action)
  }

  lemma NextFallsExactly(s: System, l: Label, s': System, j: JobId)
    requires s' == Next(s, l) && (j < |s.cells| ==> OneHolder(s.cells[j]) && CountInv(s.cells[j]))
    ensures CountKept(s, s', j) <==> !StaleLabel(s, l, j)
    ensures CountKept(s, s', j) && j < |s'.cells| ==> CountInv(s'.cells[j])
  {
    if l.OnJob? && l.job == j && j < |s.cells| { ActFallsExactly(s.cells[j], s.now, l.action); }
  }

  /** Over whole runs the count never falls if and only if no retry saves a row read before a later attempt. */
  lemma {:induction false} CountFallsExactly(ls: seq<Label>, j: JobId)
    requires InTime(ls)
    ensures NeverFalls(ls, j) <==> NeverStale(ls, j)
    ensures NeverFalls(ls, j) && j < |Run(ls).cells| ==> CountInv(Run(ls).cells[j])
  {
    if ls != [] {
      var before := ls[..|ls| - 1];
      CountFallsExactly(before, j);
      RunsKeepScope(before);
      if NeverFalls(before, j) { NextFallsExactly(Run(before), ls[|ls| - 1], Run(ls), j); }
    }
  }

  lemma {:induction false} PromptIsInTime(ls: seq<Label>)
    requires Witnesses.Prompt(ls)
    ensures InTime(ls)
  {
    if ls != [] {
      assert forall i :: 0 <= i < |ls| - 1 ==> ls[..|ls| - 1][i] == ls[i];
      PromptIsInTime(ls[..|ls| - 1]);
    }
  }

  /** A retry that nothing comes between does what the retry in one step does. */
  lemma UndisturbedSplitRetryIsTheRetry(c: Cell, now: Time)
    ensures var read := Act(c, now, ReadForRetry);
      if CanRetry(c.job) then |read.calls| == |c.calls| + 1 && Act(read, now, CallStep(|c.calls|)) == Act(c, now, Retry)
      else read == c && Act(c, now, Retry) == c
  {
    var read := Act(c, now, ReadForRetry);
    if CanRetry(c.job) {
      assert read.calls[|c.calls| := SaveAction] == c.calls + [SaveAction];
    }
  }

  /** And it can fall: two retries that both read before either saves. */
  lemma {:induction false} CountCanFall() returns (ls: seq<Label>)
    ensures InTime(ls) && !NeverFalls(ls, 0)
  {
    var before, l := Witnesses.SplitRetriesRollBack();
    ls := before + [l];
    assert ls[..|ls| - 1] == before;
    PromptIsInTime(ls);
  }
}
