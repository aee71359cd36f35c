/**
 At-least-once delivery: the order of a job's published worker events. Attempt
 numbers on `job.processing` increase strictly, a terminal event directly
 follows the `job.processing` of its own attempt, and it tells the outcome the
 attempt row records.
 */
module EventStream {
  import opened Domain
  import opened Protocol
  import opened ProtocolTables
  import LockScope
  import SoundRuns

  predicate Ordered(events: seq<JobEvent>) {
    forall i :: 0 <= i < |events| ==> EventInPlace(events, i)
  }

  predicate EventInPlace(events: seq<JobEvent>, i: nat)
    requires i < |events|
  {
    if events[i].ProcessingEvent?
    then forall k :: 0 <= k < i ==> events[k].attempt < events[i].attempt
    else i > 0 && events[i - 1] == ProcessingEvent(events[i].attempt)
  }

  /** A terminal event agrees with the attempt row of its number. */
  predicate Truthful(c: Cell) {
    forall i :: 0 <= i < |c.events| ==> EventTold(c, c.events[i])
  }

  predicate EventTold(c: Cell, e: JobEvent) {
    match e
    case ProcessingEvent(n) => true
    case CompletedEvent(n) => n in c.attempts && c.attempts[n].status == Succeeded
    case FailedEvent(n) => n in c.attempts && c.attempts[n].status == Unsuccessful
  }

  predicate OutcomeUnpublished(stage: SettleStage) {
    stage.SaveAlert? || stage.SaveIncident? || stage.SaveNotification? || stage.LogOutcome? || stage.LogAlert?
    || stage.LogIncident? || stage.PublishOutcome?
  }

  predicate LastIsProcessing(events: seq<JobEvent>, n: nat) {
    events != [] && events[|events| - 1] == ProcessingEvent(n)
  }

  /** What the handler inside the lock has published so far. */
  predicate HandlerPublished(c: Cell, h: Handler) {
    match h
    case Running(_, job, _, run) =>
      if run.PublishProcessing?
      then forall i :: 0 <= i < |c.events| ==> c.events[i].attempt < job.attemptCount
      else LastIsProcessing(c.events, job.attemptCount)
    case Settling(_, job, stage) =>
      OutcomeUnpublished(stage) ==>
        && LastIsProcessing(c.events, job.attemptCount)
        && EventTold(c, OutcomeEvent(job))
        && (job.status == Completed || job.status == JobStatus.Failed)
    case _ => true
  }

  predicate EventsInv(c: Cell) {
    && Ordered(c.events)
    && Truthful(c)
    && (forall i :: 0 <= i < |c.events| ==> c.events[i].attempt <= c.job.attemptCount)
    && (forall i :: 0 <= i < |c.handlers| ==> HandlerPublished(c, c.handlers[i]))
  }

  lemma OrderedAppend(events: seq<JobEvent>, e: JobEvent)
    requires Ordered(events)
    requires if e.ProcessingEvent? then forall i :: 0 <= i < |events| ==> events[i].attempt < e.attempt
             else LastIsProcessing(events, e.attempt)
    ensures Ordered(events + [e])
  {
    forall i | 0 <= i < |events + [e]|
      ensures EventInPlace(events + [e], i)
    {
      if i < |events| { assert EventInPlace(events, i); }
    }
  }

  /** Closed rows stay closed, so what has been told stays true. */
  lemma ToldStaysTold(c: Cell, c': Cell, e: JobEvent)
    requires Extends(c, c') && EventTold(c, e)
    ensures EventTold(c', e)
  {
    if !e.ProcessingEvent? { assert Closed(c, e.attempt); }
  }

  lemma RunKeepsEvents(c: Cell, now: Time, i: nat)
    requires EventsInv(c) && TablesInv(c) && LockScope.OneHolder(c) && i < |c.handlers| && c.handlers[i].Running?
    ensures EventsInv(AdvanceRun(c, now, i))
  {
    var c' := AdvanceRun(c, now, i);
    assert Coherent(c, c.handlers[i]) && HandlerPublished(c, c.handlers[i]);
    LockScope.HoldersAreWriters(c);
    assert c' == Act(c, now, Step(i));
    ActExtends(c, now, Step(i));
    if c.handlers[i].run.PublishProcessing? {
      OrderedAppend(c.events, ProcessingEvent(c.handlers[i].job.attemptCount));
    }
    forall k | 0 <= k < |c.events|
      ensures EventTold(c', c.events[k])
    {
      ToldStaysTold(c, c', c.events[k]);
    }
    forall k | 0 <= k < |c'.handlers|
      ensures HandlerPublished(c', c'.handlers[k])
    {
      if k != i {
        assert !Holds(c.handlers[k]) by { if k < i { assert !Holds(c.handlers[k]); } }
      }
    }
  }

  lemma SettleKeepsEvents(c: Cell, i: nat)
    requires EventsInv(c) && LockScope.OneHolder(c) && i < |c.handlers| && c.handlers[i].Settling?
    ensures EventsInv(AdvanceSettle(c, i))
  {
    var c' := AdvanceSettle(c, i);
    var Settling(d, job, stage) := c.handlers[i];
    assert HandlerPublished(c, c.handlers[i]);
    if stage.PublishOutcome? {
      OrderedAppend(c.events, OutcomeEvent(job));
      assert c.events[|c.events| - 1].attempt <= c.job.attemptCount;
    }
    forall k | 0 <= k < |c.events|
      ensures EventTold(c', c.events[k])
    {
      assert EventTold(c, c.events[k]);
    }
    forall k | 0 <= k < |c'.handlers|
      ensures HandlerPublished(c', c'.handlers[k])
    {
      if k != i {
        assert !Holds(c.handlers[k]) by { if k < i { assert !Holds(c.handlers[k]); } }
      }
    }
  }

  /** Steps outside the run and settling stages publish nothing and write no attempt. */
  lemma QuietStepKeepsEvents(c: Cell, now: Time, i: nat)
    requires EventsInv(c) && TablesInv(c) && i < |c.handlers| && !c.handlers[i].Running? && !c.handlers[i].Settling?
    ensures EventsInv(AdvanceHandler(c, now, i))
  {
    assert Coherent(c, c.handlers[i]);
    var c' := AdvanceHandler(c, now, i);
    forall k | 0 <= k < |c'.handlers|
      ensures HandlerPublished(c', c'.handlers[k])
    {
      if k != i { assert HandlerPublished(c, c.handlers[k]); }
    }
  }

  lemma OtherActKeepsEvents(c: Cell, now: Time, a: Action)
    requires EventsInv(c) && NoSplitRetry(c) && !a.ReadForRetry? && !a.Step?
    ensures EventsInv(Act(c, now, a))
  {
    var c' := Act(c, now, a);
    forall k | 0 <= k < |c'.handlers|
      ensures HandlerPublished(c', c'.handlers[k])
    {
      if k < |c.handlers| { assert HandlerPublished(c, c.handlers[k]); }
    }
  }

  lemma {:induction false} ActKeepsEvents(c: Cell, now: Time, a: Action)
    requires EventsInv(c) && TablesInv(c) && LockScope.OneHolder(c) && !a.ReadForRetry?
    ensures EventsInv(Act(c, now, a))
  {
    if !a.Step? {
      OtherActKeepsEvents(c, now, a);
    } else if a.handler < |c.handlers| {
      if c.handlers[a.handler].Running? {
        RunKeepsEvents(c, now, a.handler);
      } else if c.handlers[a.handler].Settling? {
        SettleKeepsEvents(c, a.handler);
      } else {
        QuietStepKeepsEvents(c, now, a.handler);
      }
    }
  }

  lemma {:induction false} RunKeepsEventsInv(ls: seq<Label>)
    requires AtLeastOnce(ls)
    ensures forall j :: 0 <= j < |Run(ls).cells| ==> EventsInv(Run(ls).cells[j])
  {
    if ls != [] {
      var before, l := ls[..|ls| - 1], ls[|ls| - 1];
      var s := Run(before);
      RunKeepsEventsInv(before);
      SoundRuns.RunKeepsTables(before);
      LockScope.RunKeepsLock(before);
      if l.OnJob? && l.job < |s.cells| {
        assert TablesInv(s.cells[l.job]) && LockScope.LockInv(s.cells[l.job], s.now);
        ActKeepsEvents(s.cells[l.job], s.now, l.action);
      }
    }
  }

  // ------------------------------------------------------------- main results

  lemma StreamIsOrderedAndTrue(ls: seq<Label>, j: JobId)
    requires AtLeastOnce(ls) && j < |Run(ls).cells|
    ensures Ordered(Run(ls).cells[j].events) && Truthful(Run(ls).cells[j])
  {
    RunKeepsEventsInv(ls);
    assert EventsInv(Run(ls).cells[j]);
  }

  /** So an attempt is announced at most once and ends at most once. */
  lemma OneStartAndOneEnd(events: seq<JobEvent>, i: nat, k: nat)
    requires Ordered(events) && i < k < |events| && events[i].attempt == events[k].attempt
    ensures k == i + 1 && events[i].ProcessingEvent? && !events[k].ProcessingEvent?
  {
    assert EventInPlace(events, k);
    assert EventInPlace(events, i);
    assert EventInPlace(events, k - 1);
  }
}
