/**
 Sequential runs: the `job.*` events the services publish for one job, next to
 the stream of the interleaved protocol.
 */
module JobEventStream {
  import opened Domain
  import opened JobRules
  import opened Tables
  import opened UseCases
  import opened Requests
  import opened Protocol
  import opened AuditStory
  import opened ConsumptionHistory
  import Witnesses

  /** The worker's `job.*` events about job `j`. */
  function JobEventsOf(events: seq<Event>, j: JobId): seq<JobEvent> {
    if events == [] then []
    else
      JobEventsOf(events[..|events| - 1], j)
      + match events[|events| - 1]
        case JobProcessingEvent(id, n) => if id == j then [ProcessingEvent(n)] else []
        case JobCompletedEvent(id, n) => if id == j then [CompletedEvent(n)] else []
        case JobFailedEvent(id, n, _) => if id == j then [FailedEvent(n)] else []
        case _ => []
  }

  /** A start and an end for each of the attempts 1 to `n`. */
  function AttemptEvents(payload: Payload, n: nat): seq<JobEvent> {
    if n == 0 then []
    else AttemptEvents(payload, n - 1)
         + [ProcessingEvent(n), if EvaluateFailure(payload, n) then FailedEvent(n) else CompletedEvent(n)]
  }

  /** The start and the end of the job's next attempt. */
  function NextAttempt(job: JobRow): seq<JobEvent> {
    var n := job.attemptCount + 1;
    [ProcessingEvent(n), if EvaluateFailure(job.payload, n) then FailedEvent(n) else CompletedEvent(n)]
  }

  lemma {:induction false} EventsAppend(a: seq<Event>, b: seq<Event>, j: JobId)
    ensures JobEventsOf(a + b, j) == JobEventsOf(a, j) + JobEventsOf(b, j)
  {
    if b == [] {
      assert a + b == a;
    } else {
      assert (a + b)[..|a + b| - 1] == a + b[..|b| - 1];
      EventsAppend(a, b[..|b| - 1], j);
    }
  }

  lemma OneEvent(e: Event, j: JobId)
    ensures JobEventsOf([e], j)
            == match e
               case JobProcessingEvent(id, n) => if id == j then [ProcessingEvent(n)] else []
               case JobCompletedEvent(id, n) => if id == j then [CompletedEvent(n)] else []
               case JobFailedEvent(id, n, _) => if id == j then [FailedEvent(n)] else []
               case _ => []
  {
    assert [e][..0] == [];
  }

  predicate Quiet(e: Event) {
    !e.JobProcessingEvent? && !e.JobCompletedEvent? && !e.JobFailedEvent?
  }

  lemma {:induction false} QuietEvents(events: seq<Event>, j: JobId)
    requires forall k :: 0 <= k < |events| ==> Quiet(events[k])
    ensures JobEventsOf(events, j) == []
  {
    if events != [] { QuietEvents(events[..|events| - 1], j); }
  }

  lemma TwoThenQuiet(events: seq<Event>, j: JobId)
    requires |events| >= 2 && forall k :: 2 <= k < |events| ==> Quiet(events[k])
    ensures JobEventsOf(events, j) == JobEventsOf([events[0]], j) + JobEventsOf([events[1]], j)
  {
    assert events == [events[0]] + [events[1]] + events[2..];
    EventsAppend([events[0]] + [events[1]], events[2..], j);
    EventsAppend([events[0]], [events[1]], j);
    QuietEvents(events[2..], j);
  }

  lemma ProcessPublishesInOrder(t: Tables, id: JobId)
    requires id < |t.jobs| && !InsertConflicts(t, id)
    ensures var events, n := ProcessEvents(t, id), t.jobs[id].attemptCount + 1;
      && |events| >= 2 && events[0] == JobProcessingEvent(id, n)
      && events[1] == (if EvaluateFailure(t.jobs[id].payload, n) then JobFailedEvent(id, n, FailedOnAttempt(n))
                       else JobCompletedEvent(id, n))
      && forall k :: 2 <= k < |events| ==> Quiet(events[k])
  {
  }

  /** Processing a job publishes the start and the end of its attempt, and nothing about other jobs. */
  lemma ProcessPublishesOneAttempt(t: Tables, id: JobId, j: JobId)
    requires id < |t.jobs| && !InsertConflicts(t, id)
    ensures JobEventsOf(ProcessEvents(t, id), j) == if id == j then NextAttempt(t.jobs[id]) else []
  {
    var events := ProcessEvents(t, id);
    ProcessPublishesInOrder(t, id);
    TwoThenQuiet(events, j);
    OneEvent(events[0], j);
    OneEvent(events[1], j);
  }

  lemma ProtocolPublishesOneAttempt(c: Cell, i: nat, taken: Time, startedAt: Time, finishedAt: Time)
    requires i < |c.handlers|
    ensures var done := Witnesses.Attempted(c, taken, startedAt, finishedAt, i);
      Witnesses.Released(done, i).events == c.events + NextAttempt(c.job)
  {
    var done := Witnesses.Attempted(c, taken, startedAt, finishedAt, i);
    var n := c.job.attemptCount + 1;
    assert done.events == c.events + [ProcessingEvent(n)];
    assert Witnesses.Released(done, i).events == done.events + [OutcomeEvent(done.job)];
  }

  /** An undisturbed attempt of the protocol appends the events the service publishes for the job. */
  lemma {:induction false} ServiceAndProtocolPublishTheSame(t: Tables, j: JobId, c: Cell, i: nat, taken: Time,
                                                           startedAt: Time, finishedAt: Time)
    requires j < |t.jobs| && !InsertConflicts(t, j) && t.jobs[j] == c.job && i < |c.handlers|
    ensures var done := Witnesses.Attempted(c, taken, startedAt, finishedAt, i);
      Witnesses.Released(done, i).events == c.events + JobEventsOf(ProcessEvents(t, j), j)
  {
    ProcessPublishesOneAttempt(t, j, j);
    ProtocolPublishesOneAttempt(c, i, taken, startedAt, finishedAt);
  }

  lemma OtherRequestsAreQuiet(w: World, r: Request, j: JobId)
    requires !r.Consume?
    ensures JobEventsOf(EventsFor(w, r), j) == []
  {
    QuietEvents(EventsFor(w, r), j);
  }

  lemma ConsumePublishes(w: World, r: Request, j: JobId)
    requires RestInv(w) && r.Consume?
    ensures JobEventsOf(EventsFor(w, r), j)
            == if Runs(w, r, j) && j < |w.tables.jobs| then NextAttempt(w.tables.jobs[j]) else []
  {
    if r.message in w.queue {
      ProcessKeepsRest(w, r);
      ProcessPublishesOneAttempt(w.tables, r.message.jobId.value, j);
    }
  }

  /** Only a run of the job counts an attempt of it. */
  predicate CountsRuns(t: Tables, t': Tables, j: JobId, runs: bool) {
    && |t.jobs| <= |t'.jobs| && (runs ==> j < |t.jobs|)
    && (j < |t.jobs| ==>
          && t'.jobs[j].payload == t.jobs[j].payload
          && t'.jobs[j].attemptCount == t.jobs[j].attemptCount + (if runs then 1 else 0))
    && (|t.jobs| <= j < |t'.jobs| ==> t'.jobs[j].attemptCount == 0)
  }

  lemma OthersCountNothing(w: World, r: Request, w': World, j: JobId)
    requires w' == Exec(w, r) && !(r.Consume? && r.message in w.queue)
    ensures CountsRuns(w.tables, w'.tables, j, false)
  {
  }

  lemma RequestCounts(w: World, r: Request, w': World, j: JobId)
    requires RestInv(w) && w' == Exec(w, r)
    ensures CountsRuns(w.tables, w'.tables, j, Runs(w, r, j))
  {
    if r.Consume? && r.message in w.queue {
      ConsumeRuns(w, r, w');
    } else {
      OthersCountNothing(w, r, w', j);
    }
  }

  /** The events of the attempts the job has made. */
  function MadeAttempts(t: Tables, j: JobId): seq<JobEvent> {
    if j < |t.jobs| then AttemptEvents(t.jobs[j].payload, t.jobs[j].attemptCount) else []
  }

  predicate StreamFits(t: Tables, events: seq<Event>, j: JobId) {
    JobEventsOf(events, j) == MadeAttempts(t, j)
  }

  lemma OneMoreAttempt(job: JobRow)
    ensures AttemptEvents(job.payload, job.attemptCount + 1)
            == AttemptEvents(job.payload, job.attemptCount) + NextAttempt(job)
  {
  }

  lemma RunMakesAttempt(t: Tables, t': Tables, j: JobId)
    requires CountsRuns(t, t', j, true)
    ensures j < |t.jobs| && MadeAttempts(t', j) == MadeAttempts(t, j) + NextAttempt(t.jobs[j])
  {
    OneMoreAttempt(t.jobs[j]);
  }

  lemma OthersMakeNone(t: Tables, t': Tables, j: JobId)
    requires CountsRuns(t, t', j, false)
    ensures MadeAttempts(t', j) == MadeAttempts(t, j)
  {
  }

  lemma StreamGrows(t: Tables, t': Tables, events: seq<Event>, more: seq<Event>, j: JobId, runs: bool)
    requires StreamFits(t, events, j) && CountsRuns(t, t', j, runs)
    requires JobEventsOf(more, j) == if runs then NextAttempt(t.jobs[j]) else []
    ensures StreamFits(t', events + more, j)
  {
    EventsAppend(events, more, j);
    if runs { RunMakesAttempt(t, t', j); } else { OthersMakeNone(t, t', j); }
  }

  lemma RequestFits(w: World, r: Request, w': World, events: seq<Event>, j: JobId)
    requires RestInv(w) && w' == Exec(w, r) && StreamFits(w.tables, events, j)
    ensures StreamFits(w'.tables, events + EventsFor(w, r), j)
  {
    if r.Consume? { ConsumePublishes(w, r, j); } else { OtherRequestsAreQuiet(w, r, j); }
    RequestCounts(w, r, w', j);
    StreamGrows(w.tables, w'.tables, events, EventsFor(w, r), j, Runs(w, r, j));
  }

  /** After any sequential run a job's published stream is a start and an end for each attempt it has made. */
  lemma {:induction false} StreamIsTheAttempts(rs: seq<Request>, j: JobId)
    ensures StreamFits(ExecAll(rs).tables, PublishedBy(rs), j)
  {
    if rs != [] {
      StreamIsTheAttempts(rs[..|rs| - 1], j);
      RunsKeepRest(rs[..|rs| - 1]);
      RequestFits(ExecAll(rs[..|rs| - 1]), rs[|rs| - 1], ExecAll(rs), PublishedBy(rs[..|rs| - 1]), j);
    }
  }
}
