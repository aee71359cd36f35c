/**
 The job-execution protocol as a state machine. API calls and message handlers
 advance one awaited store operation at a time, in any order; a run is any
 sequence of labels, and a label that is not possible in a state leaves the
 state as it is.
 */
module Protocol {
  import opened Domain
  import opened JobRules

  /** Lifetime of a job's Redis lock key, in seconds. */
  const LOCK_TTL: Time := 60

  /**
   An API call that has written the job row: the next store operation it awaits.
   `SaveRetry` is a `retry` that has read and checked the row but not yet saved it.
   */
  datatype Call =
    | SaveRetry(row: JobRow)
    | SaveAction | LogCall | SaveCallNotification | PublishWork | PublishCreated | PublishCallNotification
    | Returned
    | CallThrew(published: bool)

  /** Awaits of a handler between its first save of the job row and its last. */
  datatype RunStage =
    | PublishProcessing | LogProcessing | InsertAttempt | Work
    | SaveAttempt(finishedAt: Time)
    | SaveJob(finishedAt: Time)

  /** Awaits of a handler after its last save of the job row. */
  datatype SettleStage =
    | SaveAlert | SaveIncident | SaveNotification | LogOutcome | LogAlert | LogIncident
    | PublishOutcome | PublishAlert | PublishIncident | PublishNotification
    | Done

  /** How far a handler that is leaving got. */
  datatype Progress = Uncounted | Interrupted | Settled

  datatype Ending = Acked | Nacked | Died

  /** One delivery of a `jobs.processing` message, named by its next await. */
  datatype Handler =
    | Delivered
    | Locked(deadline: Time)
    | Loaded(deadline: Time, job: JobRow, startedAt: Time)
    | Running(deadline: Time, job: JobRow, startedAt: Time, run: RunStage)
    | Settling(deadline: Time, job: JobRow, settle: SettleStage)
    | Releasing(deadline: Time, progress: Progress, threw: bool)
    | Ended(progress: Progress, ending: Ending)

  datatype JobEvent = ProcessingEvent(attempt: nat) | CompletedEvent(attempt: nat) | FailedEvent(attempt: nat)

  /**
   Everything the stores and the processes hold about one job: its rows, its
   lock key's expiry, its messages on the queue, the API calls that wrote it
   and the deliveries of its messages. `alerts` and `incidents` are the ones
   the worker raised for it, and `events` the worker's `job.*` events.
   */
  datatype Cell = Cell(
    job: JobRow,
    attempts: map<nat, AttemptRow>,
    lock: Option<Time>,
    calls: seq<Call>,
    queued: nat,
    handlers: seq<Handler>,
    alerts: seq<Severity>,
    incidents: nat,
    events: seq<JobEvent>)

  datatype Action =
    | Retry
    | ReadForRetry
    | CallStep(call: nat)
    | CallThrow(call: nat)
    | Deliver
    | Redeliver
    | Step(handler: nat)
    | Throw(handler: nat)
    | Die(handler: nat)

  datatype System = System(now: Time, cells: seq<Cell>)

  datatype Label =
    | Create(payload: Payload, maxAttempts: Attempts)
    | Tick(elapsed: Time)
    | OnJob(job: JobId, action: Action)

  // ---------------------------------------------------------------- API calls

  function NextCall(call: Call): Call {
    match call
    case SaveRetry(_) => SaveAction
    case SaveAction => LogCall
    case LogCall => SaveCallNotification
    case SaveCallNotification => PublishWork
    case PublishWork => PublishCreated
    case PublishCreated => PublishCallNotification
    case PublishCallNotification => Returned
    case Returned => Returned
    case CallThrew(p) => CallThrew(p)
  }

  predicate Published(call: Call) {
    call.PublishCreated? || call.PublishCallNotification? || call.Returned? || (call.CallThrew? && call.published)
  }

  function AdvanceCall(c: Cell, i: nat): Cell
    requires i < |c.calls|
  {
    var moved := c.(calls := c.calls[i := NextCall(c.calls[i])]);
    match c.calls[i]
    case SaveRetry(row) => moved.(job := row)
    case PublishWork => moved.(queued := c.queued + 1)
    case _ => moved
  }

  function ThrowCall(call: Call): Call {
    if call.Returned? || call.CallThrew? then call else CallThrew(Published(call))
  }

  // ----------------------------------------------------------------- handlers

  predicate KeyFree(c: Cell, now: Time) {
    c.lock.None? || c.lock.value <= now
  }

  /** The await after `stage`, given the job row as the handler concluded it. */
  function NextSettle(job: JobRow, stage: SettleStage): SettleStage {
    var failed := job.status == JobStatus.Failed;
    var critical := FailureSeverity(job) == Critical;
    match stage
    case SaveAlert => if critical then SaveIncident else SaveNotification
    case SaveIncident => SaveNotification
    case SaveNotification => LogOutcome
    case LogOutcome => if failed then LogAlert else PublishOutcome
    case LogAlert => if critical then LogIncident else PublishOutcome
    case LogIncident => PublishOutcome
    case PublishOutcome => if failed then PublishAlert else PublishNotification
    case PublishAlert => if critical then PublishIncident else PublishNotification
    case PublishIncident => PublishNotification
    case PublishNotification => Done
    case Done => Done
  }

  function FirstSettle(job: JobRow): SettleStage {
    if job.status == JobStatus.Failed then SaveAlert else SaveNotification
  }

  function OutcomeEvent(job: JobRow): JobEvent {
    if job.status == JobStatus.Failed then FailedEvent(job.attemptCount) else CompletedEvent(job.attemptCount)
  }

  function AdvanceRun(c: Cell, now: Time, i: nat): Cell
    requires i < |c.handlers| && c.handlers[i].Running?
  {
    var Running(d, job, t, run) := c.handlers[i];
    var n := job.attemptCount;
    match run
    case PublishProcessing =>
      c.(events := c.events + [ProcessingEvent(n)], handlers := c.handlers[i := Running(d, job, t, LogProcessing)])
    case LogProcessing =>
      c.(handlers := c.handlers[i := Running(d, job, t, InsertAttempt)])
    case InsertAttempt =>
      if n in c.attempts
      then c.(handlers := c.handlers[i := Releasing(d, Interrupted, true)])  // UNIQUE (jobId, attemptNumber)
      else c.(attempts := c.attempts[n := OpenAttempt(t)], handlers := c.handlers[i := Running(d, job, t, Work)])
    case Work =>
      c.(handlers := c.handlers[i := Running(d, job, t, SaveAttempt(now))])
    case SaveAttempt(f) =>
      c.(attempts := c.attempts[n := CloseAttempt(job, t, f)],
         handlers := c.handlers[i := Running(d, job, t, SaveJob(f))])
    case SaveJob(f) =>
      var done := Conclude(job, f);
      c.(job := done, handlers := c.handlers[i := Settling(d, done, FirstSettle(done))])
  }

  function AdvanceSettle(c: Cell, i: nat): Cell
    requires i < |c.handlers| && c.handlers[i].Settling?
  {
    var Settling(d, job, stage) := c.handlers[i];
    var next := NextSettle(job, stage);
    var h := if next.Done? then Releasing(d, Settled, false) else Settling(d, job, next);
    var moved := c.(handlers := c.handlers[i := h]);
    match stage
    case SaveAlert => moved.(alerts := c.alerts + [FailureSeverity(job)])
    case SaveIncident => moved.(incidents := c.incidents + 1)
    case PublishOutcome => moved.(events := c.events + [OutcomeEvent(job)])
    case _ => moved
  }

  /** One await of `JobProcessorService.process`. */
  function AdvanceHandler(c: Cell, now: Time, i: nat): Cell
    requires i < |c.handlers|
  {
    match c.handlers[i]
    case Delivered =>
      if KeyFree(c, now)
      then c.(lock := Some(now + LOCK_TTL), handlers := c.handlers[i := Locked(now + LOCK_TTL)])
      else c.(handlers := c.handlers[i := Ended(Uncounted, Acked)])
    case Locked(d) =>
      c.(handlers := c.handlers[i := Loaded(d, Begin(c.job, now), now)])
    case Loaded(d, job, t) =>
      c.(job := job, handlers := c.handlers[i := Running(d, job, t, PublishProcessing)])
    case Running(_, _, _, _) => AdvanceRun(c, now, i)
    case Settling(_, _, _) => AdvanceSettle(c, i)
    case Releasing(_, p, threw) =>
      c.(lock := None, handlers := c.handlers[i := Ended(p, if threw then Nacked else Acked)])
    case Ended(_, _) => c
  }

  /** An exception at the handler's await; the `finally` block still has to run. */
  function ThrowHandler(h: Handler): Handler {
    match h
    case Delivered => Ended(Uncounted, Nacked)
    case Locked(d) => Releasing(d, Uncounted, true)
    case Loaded(d, _, _) => Releasing(d, Uncounted, true)
    case Running(d, _, _, _) => Releasing(d, Interrupted, true)
    case Settling(d, _, _) => Releasing(d, Settled, true)
    case Releasing(_, _, _) => h
    case Ended(_, _) => h
  }

  function HandlerProgress(h: Handler): Progress {
    match h
    case Delivered => Uncounted
    case Locked(_) => Uncounted
    case Loaded(_, _, _) => Uncounted
    case Running(_, _, _, _) => Interrupted
    case Settling(_, _, _) => Settled
    case Releasing(_, p, _) => p
    case Ended(p, _) => p
  }

  /** The process dies, or its `DEL` fails: the lock key stays until it expires. */
  function KillHandler(h: Handler): Handler {
    if h.Ended? then h else Ended(HandlerProgress(h), Died)
  }

  /** Between a successful `SET NX EX` and the matching `DEL`. */
  predicate Holds(h: Handler) {
    h.Locked? || h.Loaded? || h.Running? || h.Settling? || h.Releasing?
  }

  // --------------------------------------------------------------- the system

  function NewCell(payload: Payload, maxAttempts: Attempts): Cell {
    Cell(NewJob(payload, maxAttempts), map[], None, [SaveAction], 0, [], [], 0, [])
  }

  function Act(c: Cell, now: Time, a: Action): Cell {
    match a
    case Retry =>
      if CanRetry(c.job) then c.(job := Requeue(c.job), calls := c.calls + [SaveAction]) else c
    case ReadForRetry =>
      if CanRetry(c.job) then c.(calls := c.calls + [SaveRetry(Requeue(c.job))]) else c
    case CallStep(i) => if i < |c.calls| then AdvanceCall(c, i) else c
    case CallThrow(i) => if i < |c.calls| then c.(calls := c.calls[i := ThrowCall(c.calls[i])]) else c
    case Deliver => if c.queued > 0 then c.(queued := c.queued - 1, handlers := c.handlers + [Delivered]) else c
    case Redeliver => c.(handlers := c.handlers + [Delivered])
    case Step(i) => if i < |c.handlers| then AdvanceHandler(c, now, i) else c
    case Throw(i) => if i < |c.handlers| then c.(handlers := c.handlers[i := ThrowHandler(c.handlers[i])]) else c
    case Die(i) => if i < |c.handlers| then c.(handlers := c.handlers[i := KillHandler(c.handlers[i])]) else c
  }

  function Next(s: System, l: Label): System {
    match l
    case Create(payload, maxAttempts) => s.(cells := s.cells + [NewCell(payload, maxAttempts)])
    case Tick(d) => s.(now := s.now + d)
    case OnJob(j, a) => if j < |s.cells| then s.(cells := s.cells[j := Act(s.cells[j], s.now, a)]) else s
  }

  /** The state a run reaches from empty tables. */
  function Run(ls: seq<Label>): System {
    if ls == [] then System(0, []) else Next(Run(ls[..|ls| - 1]), ls[|ls| - 1])
  }

  // -------------------------------------------------------------- environments

  /**
   Exactly-once delivery: no message comes back, no process dies, and a retry
   reads, checks and saves the row in one step. Handlers and calls may throw
   at any await, and locks may expire at any time.
   */
  predicate ExactlyOnceLabel(l: Label) {
    l.OnJob? ==> !l.action.Redeliver? && !l.action.Die? && !l.action.ReadForRetry?
  }

  predicate ExactlyOnce(ls: seq<Label>) {
    forall i :: 0 <= i < |ls| ==> ExactlyOnceLabel(ls[i])
  }

  /** No message comes back and retries save in one step; handlers may throw and die anywhere, and locks expire. */
  predicate DeliversOnceLabel(l: Label) {
    l.OnJob? ==> !l.action.Redeliver? && !l.action.ReadForRetry?
  }

  predicate DeliversOnce(ls: seq<Label>) {
    forall i :: 0 <= i < |ls| ==> DeliversOnceLabel(ls[i])
  }

  predicate BeforeDeadlines(c: Cell, now: Time) {
    forall i :: 0 <= i < |c.handlers| && Holds(c.handlers[i]) ==> now < c.handlers[i].deadline
  }

  /**
   At-least-once delivery: messages may be delivered again at any time and
   handlers may throw or die at any await, but every handler that took a lock
   is gone before its key expires, and a retry saves the row in one step.
   */
  predicate AtLeastOnceLabel(s: System, l: Label) {
    && (l.Tick? ==> forall j :: 0 <= j < |s.cells| ==> BeforeDeadlines(s.cells[j], s.now + l.elapsed))
    && (l.OnJob? ==> !l.action.ReadForRetry?)
  }

  predicate AtLeastOnce(ls: seq<Label>) {
    ls == [] || (AtLeastOnce(ls[..|ls| - 1]) && AtLeastOnceLabel(Run(ls[..|ls| - 1]), ls[|ls| - 1]))
  }

  /** Nothing throws and nothing dies. */
  predicate FaultFree(ls: seq<Label>) {
    forall i :: 0 <= i < |ls| && ls[i].OnJob? ==>
      !ls[i].action.Throw? && !ls[i].action.CallThrow? && !ls[i].action.Die?
  }
}
