# Realtime Ops Platform: a verified model

The platform accepts jobs over an API, queues them on RabbitMQ, runs them in a
worker under a per-job Redis lock, and turns failures into alerts and
incidents. This project models that behaviour and proves what it guarantees.
Check it with `dafny verify dfyconfig.toml`.

The guarantees worth having are not local. The worker never looks at a job's
status before running it, the lock's `DEL` does not check who holds the lock,
and every repository `save` overwrites a whole row. What keeps a completed job
from running again, or an attempt budget from being exceeded, is an invariant
over the API calls, the queue and the handlers together. It holds in some
environments and not in others, so each result names its environment.

## How it is built

**The interleaved protocol** (`Protocol.dfy`). Jobs, attempts, lock keys,
queued messages, API calls and message handlers form one state machine. Each
label advances one API call or one handler by one awaited store operation, or
lets time pass, delivers a message, throws an exception or kills a process. A
run is any sequence of labels from empty tables. The environments are
predicates over runs:

- `DeliversOnce`: no message comes back, and a retry reads, checks and saves
  the job row in one step. Calls and handlers may throw or die at any await,
  and lock keys may expire at any time.
- `ExactlyOnce`: `DeliversOnce` without deaths, so each message is delivered
  once and every handler runs its `finally`.
- `AtLeastOnce`: messages may be delivered again at any time, and handlers may
  throw or die at any await, but a handler that took a lock is gone before its
  60-second key expires. Retries save in one step here too.
- `Sound`: `DeliversOnce` or `AtLeastOnce`.
- `Patient`: `ExactlyOnce` without exceptions, with retries issued only while
  the job's key is free.

Where a guarantee fails outside its environment, a lemma says exactly when it
holds (`Finality.dfy`, `LockScope.dfy`, `SplitRetries.dfy`), and
`Witnesses.dfy` has concrete runs that reach the failing side.

**The services** (`Stores.dfy`, `JobServices.dfy`, `TicketServices.dfy`). The
source's classes, with the fields and stores they update, run one use case at
a time. Their methods are proved against functions on table values
(`UseCases.dfy`). `Requests.dfy` strings these functions together into
sequential runs from empty tables. `StepByStep.dfy` ties the services to the
protocol await by await, `LockService.dfy` ties the lock, and
`Requests.ProcessRunsOneAttempt` and `Requests.RetryIsTheProtocolsRetry` tie the
rows. `Serializability.Serializable` ties the interleaved runs to serial ones,
and `Settlement.dfy` says how each delivery's message is settled.

**What the columns mean** (`RowContents.dfy`, `ConsumptionHistory.dfy`,
`RequestLedger.dfy`, `TicketOperators.dfy`, `AuditHistory.dfy`,
`AuditStory.dfy`). Every column of a row, every audit entry and every published
event is derived from the requests of the run alone: attempts record the
messages consumed, tickets name the operators of the accepted requests, and the
audit log tells the rest of the tables and the published events.

**Incidents under concurrency** (`IncidentRace.dfy`, `SummaryCounts.dfy`).
Routed alert and incident commands, one repository operation at a time, any of
which may be a command's last, and what the status summary's separate counts
can make of them.

**The rate limiter** (`RateLimit.dfy`). The guard as a class over a Redis
counter store, and one key's counter under any interleaving of `INCR`,
`EXPIRE` and the passing of time. `ClientLimits.dfy` is about sequences of
guarded calls by any clients.

**Listings and fan-out** (`Paging.dfy`, `Realtime.dfy`).

Ids are positions in the tables, since rows are never deleted. Clock readings
are parameters.

## Where the documentation and the code differ

- The README and the security notes say the Redis lock prevents concurrent
  execution of a job. It does so exactly as long as no delivery asks for the
  lock after a handler inside it has outlived its key
  (`LockScope.ExclusionHoldsExactly`), so always when handlers end in time
  (`LockScope.TimedMutualExclusion`). Otherwise two handlers are inside, and one
  can delete the other's key (`Witnesses.LateReleaseDeletesAnothersKey`).
- The lifecycle diagram makes `completed` terminal. If no message comes back
  it is (`Tokens.OutcomesAreFinal`). With at-least-once delivery the row is safe
  exactly when no send, message or uncounted delivery of the job is outstanding
  and no message comes back (`Finality.FinalUnlessWorkIsOutstanding`); one that
  comes back can run the job again beyond its budget
  (`Finality.RedeliveryCanRunAgain`).
- A retry is accepted as soon as FAILED is saved, which is before the worker
  releases the lock. The retry's only message can then be acknowledged and
  dropped (`Witnesses.RetryUnderTheLockIsLost`). Tokens are lost exactly to
  exceptions and deaths before the count and to deliveries that find the key
  taken (`LostWork.LostIsCounted`), and a queued job stays queued for good
  exactly when its token is lost (`Finality.StrandedExactlyWhenNothingIsOutstanding`).
- The incident transition table forbids leaving `resolved`. Overlapping
  requests can: an acknowledgement that read the row earlier saves over the
  resolution (`IncidentRace.StaleAcknowledgementUndoesResolution`), or updates
  the resolved alert last (`IncidentRace.LateAlertUpdateUndoesResolution`).
  Incident and alert stay resolved exactly when no acknowledgement of the
  incident is under way (`IncidentRace.ResolutionIsFinal`,
  `IncidentRace.PairIsFinal`).
- Open incidents never outnumber open alerts in one snapshot of the tables, but
  the status summary counts them in separate queries and can report more
  (`SummaryCounts.SeparateCountsCanDisagree`). It cannot if no alert is raised
  between an alert count and a later incident count, or no alert is updated
  between an incident count and a later alert count; beyond that the state at
  the first count decides (`SummaryCounts.AlertsCountedFirst`,
  `SummaryCounts.IncidentsCountedFirst`).
- Resolving an open incident fills in its acknowledgement, but not the
  alert's: such an alert is resolved and names nobody as acknowledging
  (`TicketOperators.AlertsNameTheirOperators`).
- A fixed window admits up to twice the maximum in one window's length, and
  that is reached (`RateLimit.TwiceMaxIsReached`). A window of zero keeps no
  bound (`RateLimit.BoundNeedsAWindow`). A key never ends exactly when the
  `EXPIRE` after its first request was lost, and then shuts the route for that
  client (`RateLimit.NeverEndsExactlyWhenStuck`).

## Model

| member | source | states |
|---|---|---|
| Tokens.AttemptBudget | libs/application/src/jobs/job.service.ts:186-242 | In every state of every run without redelivery, `attemptCount` plus the work accepted but not yet counted (unsent, queued, delivered or lost) is within `maxAttempts`. |
| Tokens.TokensGiveOneWriter | libs/application/src/jobs/job-processor.service.ts:58-70 | Without redelivery at most one handler is between reading the job row and its last save, whatever the lock does. |
| Tokens.OutcomesAreFinal | libs/application/src/jobs/job-processor.service.ts:58-70 | Once a job is completed, or failed with its budget spent, no later step of any run without redelivery changes its row or its attempt rows, whatever throws or dies and however locks expire. |
| Finality.FinalRowsChangeByFirstSaves | libs/application/src/jobs/job-processor.service.ts:58-70 | In every run of either environment a step changes a final row if and only if it is a handler's first save. |
| Finality.FinalUnlessWorkIsOutstanding | libs/application/src/jobs/job-processor.service.ts:58-70 | A final row stays through every at-least-once continuation without a redelivery of the job if and only if no send, message or uncounted delivery of it is outstanding. |
| Finality.RedeliveryCanRunAgain | libs/messaging/src/rabbitmq.service.ts:68-80 | Any at-least-once run can go on with a message of any job coming back and another attempt of it being counted, whatever its status and budget. |
| Finality.FinalRowsCanHaveWorkOutstanding | libs/messaging/src/rabbitmq.service.ts:68-80 | A run in which a final row has work outstanding: the message of a worker that died comes back. |
| Finality.StrandedExactlyWhenNothingIsOutstanding | libs/application/src/jobs/job-processor.service.ts:51-53 | Without redelivery a queued job's row never changes again if and only if nothing of it is outstanding. |
| Tokens.ActKeepsTokens | libs/application/src/jobs/job-processor.service.ts:48-115 | The token invariant: a queued job has exactly one pending token, a processing one exactly one interrupted or running handler, any other none. Every step but a redelivery or a split retry keeps it. |
| LostWork.AccountOfWork | libs/application/src/jobs/job.service.ts:197-242 | Creates and accepted retries equal counted attempts plus outstanding plus lost tokens, and a job is queued exactly while one token is outstanding or lost. |
| LostWork.WhenWorkIsLost | libs/application/src/jobs/job-processor.service.ts:51-53 | Without redelivery a step loses one token if it is an exception or death before the attempt is counted or the message sent, or a delivery that finds the key taken; any other step leaves the number of lost tokens as it is. |
| LostWork.LostIsCounted | libs/application/src/jobs/job-processor.service.ts:49-53 | After any run without redelivery a job has lost exactly as many tokens as the run had such steps. |
| LostWork.LossNeedsASettledHolder | libs/application/src/jobs/job-processor.service.ts:176-179 | In exactly-once runs without an exception, the key that costs a token is held, unexpired, by a handler that has already saved a failed outcome. |
| LostWork.LostIsForever | libs/messaging/src/rabbitmq.service.ts:73-79 | A queued job without an outstanding token stays as it is through every later step without redelivery. |
| LostWork.PatientRetriesLoseNothing | libs/application/src/jobs/job.service.ts:186-242 | If nothing throws and retries wait for the key to be free, nothing is ever lost: a queued job has exactly one send, message or delivery under way. |
| Termination.RunsComeToRest | libs/application/src/jobs/job-processor.service.ts:48-115 | A run without redelivery makes at most 28 state-changing steps for each attempt its creations granted, whatever is retried, thrown, killed or interleaved. |
| Termination.ActLowersRank | libs/application/src/jobs/job.service.ts:193-202 | Every step that changes a job lowers the measure of remaining retries and ranks of calls, messages and handlers. |
| LockScope.TimedMutualExclusion | libs/redis/src/redis-lock.service.ts:8-15 | In at-least-once runs at most one handler per job is between acquire and release, and the key in force is its own throughout. |
| LockScope.ReleaseDeletesOwnKey | libs/application/src/jobs/job-processor.service.ts:112-114 | The unconditional `DEL` removes the releasing handler's own key and leaves nobody inside the lock. |
| LockScope.OnlyDeathsLeaveTheKey | libs/application/src/jobs/job-processor.service.ts:112-114 | A handler inside the lock leaves it only by its release, which frees the key, or by dying, which leaves its key behind; while it stays, the key is its own. |
| LockScope.NoKeyWithoutAHolder | libs/application/src/jobs/job-processor.service.ts:112-114 | Where no handler is inside the lock and none ever died, there is no key. |
| LockScope.ExclusionHoldsExactly | libs/redis/src/redis-lock.service.ts:8-15 | In any run of any environment at most one handler is ever inside the lock if and only if no delivery asks for it after a handler inside it outlived its key; until then the stored key is the holder's own. |
| LockScope.StepBreaksExclusion | libs/redis/src/redis-lock.service.ts:8-11 | With one holder owning the stored key, a step breaks exclusion if and only if it is a delivery asking for the lock at or after that key's deadline. |
| Serializability.Serializable | libs/application/src/jobs/job-processor.service.ts:48-115 | In every state of every sound run, an undisturbed job's row and attempt rows equal those of running the committed use cases one at a time; lock losers and early exits commit nothing. |
| Serializability.CommitsDoNotOverlap | libs/application/src/jobs/job-processor.service.ts:63-70 | Between a handler's first and last save of the row no other handler saves first, and nothing else commits on the job, so commit order is first-save order. |
| Serializability.AttemptsAreExact | libs/application/src/jobs/job-processor.service.ts:91-101 | Unless a handler was stopped between its first and last save, a job's attempt rows are exactly 1 to `attemptCount` if and only if no handler is between its first save and its attempt insert. |
| SoundRuns.AttemptsAreNumbered | libs/database/src/migrations/1710000000000-initial-schema.ts:46 | In every state of every sound run attempt rows are numbered within 1 to `attemptCount`, and an insert that is due never meets the UNIQUE constraint. |
| SoundRuns.OutcomesAreExplained | libs/application/src/jobs/job-processor.service.ts:117-179 | In every state, crashed or not, a completed or failed job has the closed attempt row of its number with the same finish time and error. |
| SoundRuns.HistoryIsKept | libs/application/src/jobs/job-processor.service.ts:63-70 | Through any later steps `attemptCount` never falls, attempt rows keep their start, closed ones all their contents, and published events stay a prefix. |
| RowContents.AttemptRowsAddUp | libs/application/src/jobs/job-processor.service.ts:117-174 | In every state of every run of any environment a closed attempt row has a duration of at least zero that added to its start gives its finish, a started one has neither finish nor duration, and an error names its own attempt and stands exactly on failed rows. |
| RowContents.JobRowsAddUp | libs/application/src/jobs/job-processor.service.ts:63-70 | In every state of every sound run a queued job has no times and no error, a processing one its start only, which its attempt row repeats, and a completed or failed one repeats start, finish and error of the attempt row of its number. |
| ProtocolTables.ActKeepsTables | libs/application/src/jobs/job-processor.service.ts:63-127 | Every step with one writer per job keeps handlers' in-memory rows coherent with the stored ones and outcomes recorded. |
| EventStream.StreamIsOrderedAndTrue | libs/application/src/jobs/job-processor.service.ts:72-76 | In at-least-once runs a job's `job.processing` numbers increase strictly, a terminal event directly follows the `job.processing` of its number, and it agrees with the attempt row. |
| EventStream.OneStartAndOneEnd | libs/application/src/jobs/job-processor.service.ts:149-153 | In such a stream an attempt is announced once and ends at most once, directly after. |
| WorkerAlerts.CriticalAtMostOnce | libs/application/src/jobs/job-processor.service.ts:181-205 | Without redelivery the worker raises at most one critical alert per job, only with the budget spent, and opens no more incidents than that. |
| Witnesses.RetryUnderTheLockIsLost | libs/application/src/jobs/job-processor.service.ts:176-179 | A fault-free run in which an accepted retry's only message is acknowledged unprocessed. |
| Witnesses.RedeliveryRunsACompletedJobAgain | libs/application/src/jobs/job-processor.service.ts:58-70 | A worker dies after completing a job of one attempt; the message comes back after the key expired and the job runs a second time. |
| Witnesses.SplitRetriesRollBack | libs/application/src/jobs/job.service.ts:187-202 | A fault-free run, each message delivered once, in which two retries that both read before either saves lower `attemptCount`. |
| SplitRetries.CountFallsExactly | libs/application/src/jobs/job.service.ts:187-202 | With retries whose read and save are apart, and handlers that end in time, `attemptCount` never falls over a run if and only if no retry saves a row it read before a later attempt was counted. |
| SplitRetries.CountCanFall | libs/application/src/jobs/job.service.ts:187-202 | Such a run in which it falls. |
| SplitRetries.UndisturbedSplitRetryIsTheRetry | libs/application/src/jobs/job.service.ts:187-202 | A retry that nothing comes between, read and saved in two steps, does what the retry in one step does, and is refused alike. |
| Witnesses.LateReleaseDeletesAnothersKey | libs/redis/src/redis-lock.service.ts:13-15 | A fault-free exactly-once run in which two handlers are inside the lock and the one that outlived its key deletes the other's unexpired key. |
| Witnesses.AttemptAlone | libs/application/src/jobs/job-processor.service.ts:48-115 | A delivery that takes a free key at one time, reads the row at another and finishes at a third, undisturbed step by step, leaves the rows of one whole attempt with those times. |
| StepByStep.CreateStepByStep | libs/application/src/jobs/job.service.ts:47-121 | Taken await by await through the protocol's call, an undisturbed create writes what the service writes, store by store in the source's order: the message is sent after all rows and before the events. |
| StepByStep.RetryStepByStep | libs/application/src/jobs/job.service.ts:186-261 | The same for an accepted retry. |
| StepByStep.DeliveryStepByStep | libs/application/src/jobs/job-processor.service.ts:58-284 | Taken await by await through the protocol's handler, an undisturbed delivery writes the rows, audit entries, notification, alert, incident and events the worker service writes, in the source's order of stores, for success, either failure and the insert conflict. |
| Settlement.SettledByItsCourse | libs/messaging/src/rabbitmq.service.ts:68-80 | In every run of any environment an ended delivery is acknowledged exactly when `process` returned, rejected exactly when an exception or the insert conflict made it throw, and unsettled exactly when its process died. |
| Settlement.OnlyExceptionsReject | libs/application/src/jobs/job-processor.service.ts:91-101 | In sound runs only an exception makes `process` throw. |
| Stores.RedisLockService.AcquireLock | libs/redis/src/redis-lock.service.ts:8-11 | Succeeds exactly when the key is missing or expired, and only then sets it with the time to live. |
| Stores.RedisLockService.ReleaseLock | libs/redis/src/redis-lock.service.ts:13-15 | Removes the key, whoever set it. |
| LockService.AcquireTwice | libs/redis/src/redis-lock.service.ts:8-11 | After a successful acquire a second one, with any call on another key in between, succeeds if and only if the time to live has passed, and leaves the key as it was if it fails. |
| LockService.ReleaseThenAcquire | libs/redis/src/redis-lock.service.ts:13-15 | After a release any acquire succeeds. |
| LockService.BusyIsTheProtocolsBusy | libs/application/src/jobs/job-processor.service.ts:49-53 | With the same key, the service turns a worker away exactly when the protocol's delivery finds the key taken, and both leave the same key behind. |
| LockService.ProcessMeetsTheProtocolsKey | libs/application/src/jobs/job-processor.service.ts:49-53 | A worker run answers busy, and touches nothing, exactly when the protocol's key is taken; otherwise the key is gone afterwards. |
| Stores.RabbitMqService.PublishToQueue | libs/messaging/src/rabbitmq.service.ts:36-42 | Adds the message to the queue if the channel is open; otherwise reports failure and changes nothing. |
| Stores.AuditService.Log | libs/application/src/audit/audit.service.ts:32-35 | Appends one entry and changes no other. |
| JobServices.JobService.Create | libs/application/src/jobs/job.service.ts:47-121 | The whole effect of a create: row, command record, audit entry, notification, one queued message, events in order. |
| JobServices.JobService.List | libs/application/src/jobs/job.service.ts:123-156 | The requested page of the jobs that have the wanted status, if one is wanted, and pass the other filters, with the number of such jobs in the table and the page count. |
| JobServices.PagesShowTheWantedJobs | libs/application/src/jobs/job.service.ts:123-156 | Reading pages 1 to `totalPages` shows each job that has the wanted status, if one is wanted, and passes the other filters as often as the table holds it, and no other. |
| JobServices.JobService.Retry | libs/application/src/jobs/job.service.ts:186-261 | Accepted exactly for a failed job with budget left, with its whole effect; otherwise the first failing check decides the error and nothing changes. |
| JobServices.JobProcessorService.Process | libs/application/src/jobs/job-processor.service.ts:48-115 | The whole effect of a worker run for a busy lock, an unknown job, an insert conflict and a processed attempt; except when busy the lock is free afterwards. |
| JobServices.JobProcessorService.MarkCompleted | libs/application/src/jobs/job-processor.service.ts:117-161 | Attempt row, job row, notification, audit entry and events of a success. |
| JobServices.JobProcessorService.MarkFailed | libs/application/src/jobs/job-processor.service.ts:163-284 | Attempt row, job row, alert, incident when critical, notification, audit entries and events of a failure. |
| JobServices.JobProcessingConsumer.OnMessage | apps/processing-service/src/job-processing.consumer.ts:16-31 | Takes the message off the queue, fills in missing fields, drops it without a job id, nacks it exactly when the insert conflicts. |
| Requests.RunsKeepRest | libs/application/src/jobs/job.service.ts:186-242 | Between use cases no job is processing, each queued message is its job's only one and its job is queued, and attempts fit the budget. |
| Requests.ProcessRunsOneAttempt | libs/application/src/jobs/job-processor.service.ts:63-127 | On the job's rows the worker service does exactly the attempt the interleaved protocol commits, and touches no other job. |
| Requests.RetryIsTheProtocolsRetry | libs/application/src/jobs/job.service.ts:187-202 | On the job's rows the retry service does exactly the retry the protocol commits. |
| JobEventStream.ServiceAndProtocolPublishTheSame | libs/application/src/jobs/job-processor.service.ts:72-76 | The service's `job.*` events of one attempt are those an undisturbed attempt of the protocol appends. |
| JobEventStream.StreamIsTheAttempts | libs/application/src/jobs/job-processor.service.ts:149-153 | After any sequential run a job's published `job.*` stream of the worker is a start and an end for each of its attempts 1 to `attemptCount`, the end as payload and number decide. |
| ConsumptionHistory.AttemptsAreTheRuns | libs/application/src/jobs/job-processor.service.ts:91-101 | After any sequential run a job's attempt rows are one for each message that ran it, in order, with that message's times, their difference as duration, and the outcome and error its number gives; the job row repeats the last. |
| RetryLoop.BudgetDecides | libs/application/src/jobs/job-processor.service.ts:286-307 | An attempt fails exactly when its number is within floor(`failTimes`), or always if `shouldFail` is true; other payload values count as zero. |
| RetryLoop.CompletesAfterItsFailures | libs/application/src/jobs/job-processor.service.ts:181-216 | With F failures below `maxAttempts`, process-and-retry ends completed after F+1 attempts with F high alerts, no incident and 2F+2 notifications. |
| RetryLoop.FailsForGood | libs/application/src/jobs/job-processor.service.ts:181-216 | Otherwise it ends failed after `maxAttempts` attempts with one critical alert after the high ones, one incident for it and 2·`maxAttempts` notifications. |
| Escalation.AlertsTellRetries | libs/application/src/jobs/job-processor.service.ts:181-205 | After any sequential run a job's worker alerts count its failures, exactly the exhausted jobs have a critical one, and a failed job can be retried if and only if its newest worker alert is high. |
| Escalation.IncidentsAreLinkedOnce | libs/application/src/alerts/alert.service.ts:59-69 | After any sequential run every incident has its alert, no alert has two, and every critical one, from either path, has exactly one. |
| RequestLedger.TablesKeepTheLedger | libs/application/src/alerts/alert.service.ts:48-82 | After any sequential run the jobs are the create requests with their payloads and budgets, alerts and incident links the accepted alert requests and failed attempts with their job, source and severity, and command records the accepted commands, each in order. |
| RequestLedger.WantedIncidentIsOpened | libs/application/src/alerts/alert.service.ts:59-69 | An accepted alert that asks for an incident, or is critical, gets a new open one linked to it; any other gets none. |
| AuditHistory.AuditRebuildsTheState | libs/application/src/audit/audit.service.ts:32-35 | After any sequential run folding the audit log gives every job's status and attempt numbers, every alert's status, severity and source and every incident's status and link. |
| AuditStory.AuditTellsTheRest | libs/application/src/audit/audit.service.ts:32-35 | After any sequential run the audit log alone gives the command records, the notifications, the published events and the incident links, each in order. |
| AuditStory.EntriesNameTheirCause | libs/application/src/jobs/job-processor.service.ts:77-90 | After any sequential run exactly the worker's entries are the system's, and each processing entry names the latest create or retry of its job and the operator who asked. |
| AuditStory.MissingFieldsAreFilledIn | apps/processing-service/src/job-processing.consumer.ts:16-31 | A message without reason and requester is run as created, by the system. |
| TicketServices.AlertService.Create | libs/application/src/alerts/alert.service.ts:45-115 | The whole effect of creating an alert, with an incident exactly when asked for or critical; an unknown job saves nothing. |
| TicketServices.AlertService.List | libs/application/src/alerts/alert.service.ts:117-143 | The requested page of the alerts that have the wanted status and severity, where given, each with its incident, with the number of such alerts in the table and the page count. |
| TicketServices.PagesShowTheWantedAlerts | libs/application/src/alerts/alert.service.ts:117-143 | Reading pages 1 to `totalPages` shows each alert that has the wanted status and severity, where given, exactly once with its incident, and no other alert. |
| TicketServices.IncidentOf | libs/application/src/alerts/alert.service.ts:118-121 | The join finds an incident of the alert, and none only if there is none. |
| TicketServices.AlertService.Acknowledge | libs/application/src/alerts/alert.service.ts:158-187 | Rejects unknown and resolved alerts; otherwise the row, audit entry and event. |
| TicketServices.IncidentService.Acknowledge | libs/application/src/incidents/incident.service.ts:22-76 | Rejects unknown and resolved incidents; otherwise moves incident and linked alert, also if already acknowledged. |
| TicketServices.IncidentService.Resolve | libs/application/src/incidents/incident.service.ts:78-135 | Rejects unknown and resolved incidents; otherwise resolves incident and alert, filling in the acknowledgement of an open one. |
| IncidentLifecycle.AlertsFollowIncidents | libs/application/src/incidents/incident.service.ts:22-135 | After any sequential run of routed requests an incident and its alert have the same status, and alerts without one are open. |
| IncidentLifecycle.AlertsMayRunAhead | libs/application/src/alerts/alert.service.ts:158-187 | With the unrouted alert acknowledgement the alert is at or ahead of its incident, and both are resolved together. |
| IncidentLifecycle.IncidentsAreHandled | libs/application/src/incidents/incident.service.ts:84-91 | After any sequential run an incident that has left `open` names who acknowledged it and when, and a resolved one also who resolved it and when. |
| TicketOperators.IncidentsNameTheirOperators | libs/application/src/incidents/incident.service.ts:29-91 | After any sequential run a resolved incident names the operator and time of the one resolution accepted for it, and as acknowledgement the last accepted one, or the resolution if there was none. |
| TicketOperators.AlertsNameTheirOperators | libs/application/src/incidents/incident.service.ts:36-104 | The linked alert names the operator and time of the resolution and of its last acknowledgement, by either path; resolved without an acknowledgement it names nobody as acknowledging. |
| IncidentLifecycle.IncidentsAreHandledInOrder | libs/application/src/incidents/incident.service.ts:84-91 | With clocks that do not run back, a resolved incident was acknowledged no later than resolved. |
| IncidentLifecycle.TicketsOnlyAdvance | libs/application/src/incidents/incident.service.ts:25-31 | Over sequential runs no ticket's status moves back and resolved rows never change again. |
| IncidentRace.OpenIncidentHasOpenAlert | libs/application/src/incidents/incident.service.ts:29-44 | In every snapshot of every overlapping or crashed run an open incident's alert is open and no alert has two incidents. |
| IncidentRace.OpenIncidentsWithinOpenAlerts | libs/application/src/jobs/processing-status.service.ts:32-33 | In every such snapshot open incidents are no more than open alerts. |
| SummaryCounts.ComingWithinOpenAlerts | libs/application/src/alerts/alert.service.ts:48-69 | In every snapshot open incidents together with those whose alert is saved and whose own save is to come are no more than open alerts. |
| SummaryCounts.AlertsCountedFirst | libs/application/src/jobs/processing-status.service.ts:25-41 | Alerts counted first: later incident counts stay within it, for every course of events with at most n new alerts in between, if and only if open incidents, those under way and n fit in the open alerts. |
| SummaryCounts.CountsAgreeWithoutNewAlerts | libs/application/src/jobs/processing-status.service.ts:25-41 | So a later incident count never exceeds an earlier alert count with no new alert between them. |
| SummaryCounts.IncidentsCountedFirst | libs/application/src/jobs/processing-status.service.ts:25-41 | Incidents counted first: later alert counts stay above it, for every course of events with at most m alert updates in between, if and only if open incidents and m fit in the open alerts, or the open alerts no command can close any more are enough. |
| SummaryCounts.CountsAgreeWithoutUpdates | libs/application/src/jobs/processing-status.service.ts:25-41 | So an earlier incident count never exceeds a later alert count with no alert update between them. |
| SummaryCounts.SeparateCountsCanDisagree | libs/application/src/jobs/processing-status.service.ts:25-41 | One run in which both orders report more open incidents than open alerts. |
| IncidentRace.OpenIsNeverRegained | libs/application/src/incidents/incident.service.ts:89-93 | An incident that has left `open` is never open again, whatever overlaps. |
| IncidentRace.ResolutionIsFinal | libs/application/src/incidents/incident.service.ts:23-33 | A resolved incident stays resolved through all later steps if and only if no acknowledgement that read it earlier is still to be saved. |
| IncidentRace.StaleAcknowledgementUndoesResolution | libs/application/src/incidents/incident.service.ts:23-33 | A run in which such an acknowledgement takes a resolved incident back. |
| IncidentRace.PairIsFinal | libs/application/src/incidents/incident.service.ts:33-44 | A resolved incident and its alert both stay resolved if and only if no acknowledgement of the incident is still to be saved or to update the alert. |
| IncidentRace.LateAlertUpdateUndoesResolution | libs/application/src/incidents/incident.service.ts:33-44 | A run in which a saved acknowledgement's alert update takes the resolved alert back while the incident stays resolved; the alert keeps naming its resolver. |
| IncidentRace.IncidentsTellTheirStatus | libs/application/src/incidents/incident.service.ts:22-93 | In every snapshot of every overlapping or crashed run an open incident names nobody, and an incident names a resolver and a resolution time exactly while it is resolved: whole-row saves of what was read earlier erase them with the status. |
| IncidentRace.UndisturbedCommandIsTheUseCase | libs/application/src/incidents/incident.service.ts:78-104 | Read, save and alert update without interruption change incident and alert rows as the whole use case does. |
| IncidentRace.UndisturbedRaiseIsTheUseCase | libs/application/src/alerts/alert.service.ts:48-69 | Saving an alert and, where one is due, its incident without interruption adds the rows the whole use case adds. |
| IncidentRace.UndisturbedFailureIsTheUseCase | libs/application/src/jobs/job-processor.service.ts:181-205 | The same for the worker's alert on a failed attempt. |
| RateLimit.RedisRateLimitGuard.CanActivate | libs/auth/src/redis-rate-limit.guard.ts:32-60 | Public routes pass uncounted; any other request counts on its own key alone, sets the expiry exactly when it opened the key, and passes exactly if the count it left is within the maximum. |
| RateLimit.CallIsTheMachines | libs/auth/src/redis-rate-limit.guard.ts:49-57 | An undisturbed call takes the counter machine's arrival on its own key and, exactly when it opened the key, its expiry, and leaves all other keys as they are. |
| ClientLimits.KeysTellClientsApart | libs/auth/src/redis-rate-limit.guard.ts:43-46 | Two requests have the same key if and only if they have the same address, or none, the same method and the same route. |
| ClientLimits.ClientsHaveTheirOwnBudget | libs/auth/src/redis-rate-limit.guard.ts:43-57 | Over any sequence of calls by any clients, a call passes exactly when its client's calls on that method and route in the current window are within the maximum. |
| ClientLimits.OthersDoNotCount | libs/auth/src/redis-rate-limit.guard.ts:43-57 | Whatever other clients send leaves a client's counter as it is. |
| RateLimit.LifetimeAdmitsAtMostMax | libs/auth/src/redis-rate-limit.guard.ts:49-57 | However `INCR` and `EXPIRE` interleave or get lost, one lifetime of a key admits at most the maximum. |
| RateLimit.IntervalAdmitsAtMostTwiceMax | libs/auth/src/redis-rate-limit.guard.ts:49-57 | Any closed interval as long as a window of at least one admits at most twice the maximum. |
| RateLimit.TwiceMaxIsReached | libs/auth/src/redis-rate-limit.guard.ts:49-57 | For every window of at least one and every maximum some run reaches that bound. |
| RateLimit.BoundNeedsAWindow | libs/auth/src/redis-rate-limit.guard.ts:24-29 | All runs keep the interval bound if and only if the window is at least one or the maximum is zero. |
| RateLimit.ExpiryIsFixed | libs/auth/src/redis-rate-limit.guard.ts:51-53 | Once set, a lifetime's expiry is not moved by any request, and a new lifetime starts exactly with the first arrival at or after it. |
| RateLimit.LostExpireEndsAdmission | libs/auth/src/redis-rate-limit.guard.ts:51-53 | After a lost `EXPIRE` all later runs together admit no more than what was left of the maximum. |
| RateLimit.NeverEndsExactlyWhenStuck | libs/auth/src/redis-rate-limit.guard.ts:51-53 | A key's lifetime ends in no continuation if and only if it has no expiry and no `EXPIRE` is to come. |
| RateLimit.ExpireCanBeLost | libs/auth/src/redis-rate-limit.guard.ts:49-53 | A failure between the first request's `INCR` and `EXPIRE` leaves a key that way. |
| Paging.TotalPagesIsLeast | libs/application/src/jobs/job.service.ts:148-154 | The page count is the least number, at least one, of pages that hold every row. |
| Paging.PagesPartition | libs/application/src/jobs/job.service.ts:138-155 | Pages 1 to `totalPages` in order give the list once; all but the last are full, the last is not empty unless the list is, later ones are empty. |
| Paging.RowIsOnOnePage | libs/application/src/audit/audit.service.ts:52-66 | Row i is on page i/limit+1 at position i%limit and on no other page. |
| Paging.WalkShowsEachMatch | libs/application/src/alerts/alert.service.ts:131-142 | Walking all pages of a filtered listing shows each matching row as often as the table holds it and no other row. |
| Realtime.RealtimeEventsGateway.Subscribe | apps/realtime-gateway/src/realtime-events.gateway.ts:77-95 | Joins exactly the supported channels of the request and answers them in its order. |
| Realtime.RealtimeEventsGateway.Unsubscribe | apps/realtime-gateway/src/realtime-events.gateway.ts:97-115 | Leaves exactly the supported channels of the request, never the common room. |
| Realtime.RealtimeEventsGateway.Broadcast | apps/realtime-gateway/src/realtime-events.gateway.ts:117-144 | Emits to the common room and then to the room of the topic's prefix, if it has one. |
| Realtime.TopicsReachTheirRooms | apps/realtime-gateway/src/realtime-events.gateway.ts:117-144 | Each of the four topic families reaches exactly the common room and its own room, any other topic the common room alone. |
| Realtime.PublishedTopicsReachTheirRooms | libs/messaging/src/messaging.constants.ts:9-18 | Every topic the services publish reaches a channel room, and the one of its family. |
| Realtime.SubscriptionsTakeEffect | apps/realtime-gateway/src/realtime-events.gateway.ts:77-115 | A subscription puts the socket in exactly the named rooms among the four, an unsubscription takes it out of exactly those, and no other membership changes; a request without channels changes nothing. |
| Realtime.SupportedAppends | apps/realtime-gateway/src/realtime-events.gateway.ts:82-95 | The answer to a subscription keeps the order and repetitions of the request. |
| Realtime.OnlyAcceptedSocketsListen | apps/realtime-gateway/src/realtime-events.gateway.ts:46-71 | After any run exactly the accepted sockets are in the common room and get anything, the others are in no room, and an accepted socket's first frame names its operator. |
| Realtime.StreamIsThePublishedStream | apps/realtime-gateway/src/realtime-events.gateway.ts:117-144 | From its connection on, whatever it subscribes to, a socket gets every broadcast through the common room once and in order. |
| Realtime.CopiesFollowTheirFrame | apps/realtime-gateway/src/realtime-events.gateway.ts:124-143 | Every further event frame it gets is the channel copy directly behind the frame it repeats. |

## Left out

- Retry's read, check and save are one step in both environments: the source relies on nobody else saving the row in between. `SplitRetries` says what happens to `attemptCount` otherwise; the other results are not restated for split retries.
- The interleaved machines are modelled on values, not as classes: a Dafny method runs to its end, so the step boundaries at each await need explicit program counters. The services as classes capture the updates in place.
- The prefetch of 10 messages is not a bound in the protocol: any number of deliveries may run at once, which covers it.
- A failing `DEL` counts as the handler's death, and so does a `SET` that takes effect and whose reply is lost: it throws before the `try`, and the key stays. `DEL` with the following acknowledgement is one step.
- The protocol lets a message come back at any time, also one that was acknowledged; `Witnesses.RedeliveryRunsACompletedJobAgain` uses one whose worker died.
- Messages for unknown jobs appear only in the sequential worker and consumer; the protocol's messages always name a created job.
- A publisher or API process dying part-way is modelled as its call throwing: the effect on the stores is the same.
- Services assume an open channel, which the framework's start-up provides; `PublishToQueue` and `PublishEvent` model the closed one.
- Names, types, priorities, titles, message texts, `createdAt` and `updatedAt` are not modelled; the payload keeps every field as a JSON value, and `failTimes` is a real number.
- The `job.created` and notification events are in the services' event lists but not in the protocol's per-job stream, which holds the worker's three topics; nothing is claimed about `job.created` coming first.
- The previous status that an incident acknowledgement logs is always `open` in the code and is not used.
- Seed data does not satisfy the invariants; all runs start from empty tables.
- `AuditService.list` and `NotificationService.list` page and filter like the modelled listings and are not modelled themselves; job type and text search are one arbitrary predicate.
- TicketServices.AlertService.List: takes the order of the alerts as given, because `createdAt` is not modelled and the database does not fix the order of equal ones.
- TypeORM's comparison before a save is not modelled: a save overwrites the whole row, an update the named columns.
- RateLimit.RedisRateLimitGuard.CanActivate: takes the window and maximum as natural numbers; negative or unparsable configuration is not modelled. A request counts as admitted when its `INCR` runs.
- Paging.TotalPagesIsLeast: divides exactly; the rounding of double-precision quotients is not modelled.
- ClientLimits.KeysTellClientsApart: takes addresses without `/`, method names without `/` and `:`, and paths that start with `/`, as HTTP and the router provide them; it does not model a client whose address is the text `unknown-ip`, which would share the counter of those without one.
- Realtime: token checking and operator-id extraction are a verdict and a name passed in; disconnects and failed deliveries are not modelled, and the channel table holds exactly its four names.
- Redis is one clock and one store: evictions, replication and clock skew are not modelled. A key is gone from its expiry time on.
- Status summary averages, health checks, token guards, DTO validation, response envelopes and database set-up.
