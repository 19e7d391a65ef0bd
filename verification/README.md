# Verification of the PDF job service

This project models the job pipeline of the PDF service and its SSE broker, and proves what survives of a job under
any interleaving of workers, API calls, connections and faults.

## What is modelled

**The job pipeline** (`Pipeline.dfy`). A state holds the rows of `jobs`, the messages of the main queue, the three
retry queues, the unacknowledged deliveries and the DLQ, the workers with their place inside `processMessage` and
`Process`, the API calls with their place inside `CreateJob`, the files, the published events, and a clock. A step is
one database call, one publish, one acknowledgement, one file write, or one move of the message broker (delivery,
expiry of a TTL, redelivery), so workers and calls interleave wherever the program talks to the outside. There are
any number of workers, calls and jobs. The order in which the main queue hands out messages is left open; retry
queues expire at the head only, as RabbitMQ does.

Each step carries its outside answer, and a record `Faults` says which answers may be bad: the insert, status writes,
the increment, publishes, the encoding before them, events, acknowledgements, the death of an API call,
the crash of a worker, and when an unacknowledged delivery returns to its queue: `Never`, only after its holder has
stopped (`HolderStopped`), or `Anytime`. The last one happens too: when the channel breaks, the broker requeues a
delivery while the worker goes on with it. File writes are free, or follow an oracle per job and attempt. Theorems
name the faults they exclude and allow all others. A `Ledger` per job counts what happened to it; no step reads it.

The code is followed where it is surprising: the acknowledgement comes before the message is passed on; the worker
decides with its own `maxRetries` and not the message's; `PublishToRetry` refuses levels above 3, so with
`maxRetries > 3` a job that keeps failing is marked failed at level 4 and never reaches the DLQ, although the
repository's README says that it is moved there after the last retry; several errors are thrown away; a retry takes
the status from failed back to processing.

**The code itself** (`WorkerPool.dfy`, `BrokerCode.dfy`, `RateLimiterCode.dfy`, `JobTable.dfy`). Classes with the
fields that the program updates, and methods in the program's order of calls. Before each call or lock operation an
arbitrary schedule of the others runs, and each call ends as an arbitrary answer says. `Valid()` says that the fields
hold exactly what a run of the state machine leaves, and that the run allows no more than the chosen faults; every
method keeps it and says where its thread stands afterwards. So the theorems about runs hold for the code, which
`CodeGuarantees.dfy` spells out for three of them. A wait for a lock ends with the lock or with the schedule.

**The SSE broker** (`Broker.dfy`). Stream handlers and broadcasts are threads that stop at every operation on the
read-write lock, the client map, the channels and the counter. A send on a closed channel or a second close sets
`panicked`. The comment at `internal/SSE/broker.go:138` says that closing `done` keeps broadcasts away from `Events`;
it does not by itself. The proof rests on the write lock and the removal from the map, which come between the two
closes.

**The rest.** The retry delays, the queue topology as `setup` declares it, the reconnect backoff in 64-bit
nanoseconds, the double-checked `getLimiter`, and the generator reduced to its outcome and the file it writes.

## How the proofs are built

`Decomposition.dfy` shows that what a run does to one job is a run of its own, made of the steps that concern the
job. Per-job theorems are proved on those and carried over. `Sequential.dfy` shows that without redelivery a job's
own run is a walk of a small sequential machine with one message; the event log, the retry count, the finality of
`completed` and the refinement follow from it. Where a natural claim is false of the code, the exact condition is
proved, with the runs that break it: a job can be left behind (`LeftBehindExact`, `StrandingExact`), a completed job
can be taken back (`FinalityExact`), a run can be unable to finish (`FinishExact`), a message can be doubled
(`DoublingExact`), the connection limit can be exceeded (`LimitExact`), and `setup` can fail for ever
(`SetupSucceedsExactly`). `Lone.dfy` builds the breaking runs of the first four, with one job under any configuration. What rows and events say
is tied to payload, disk, faults and time rather than to the code that says it: `Reports.dfy` for paths and errors,
`AttemptLog.dfy` attempt by attempt, `Dates.dfy` for the last write and its time.

## Model

| member | source | states |
|---|---|---|
| Decomposition.Decompose | internal/worker/worker.go:92-196 | for every run with every fault set and every job, the steps that concern the job are by themselves a run under the same faults, and they end in exactly the job's part of the whole state |
| Refinement.QuiescentRowMeetsSpec | internal/worker/worker.go:106-181 | without faults but failing generator attempts and lost events, any workers in any interleaving: a job with nothing left to do agrees in status, path, error, retry count, failed attempts and DLQ copies with a pure function of the oracle, for every maxRetries; one message is done with or dropped, none lost or doubled |
| Refinement.QuiescentMeetsSpec | internal/worker/pdf_processor.go:37-71 | when events are not lost either, the user was moreover told exactly the statuses of that function, in order |
| Refinement.SpecMeans | internal/worker/worker.go:121-168 | that function, read without recursion: completed exactly when the document has a title and something to print and the disk takes it at some attempt among 0..min(maxRetries, 3), the retry count being the first such; otherwise failed after all of them, with one DLQ copy exactly when maxRetries <= 3, and with the error that the payload itself explains (unparseable, no title, title but nothing to print, printable but refused by the disk), or the refused level 4; the statuses told alternate between processing and failed, the last being completed if the job is |
| AttemptLog.EachEventTellsItsAttempt | internal/worker/pdf_processor.go:45-63 | without faults but failing generator attempts, at any moment of any interleaving: the events of a job come in pairs, one for each attempt in order, the first saying processing, the second carrying the path or the error that this attempt answered, all for the user of the row |
| Reports.EventsTellTheTruth | internal/worker/pdf_processor.go:45-82 | under every fault set: a completed event names the existing file of its job and has no error, and the document was printable; a failed one has no path and the one error that the payload explains; a processing one has neither; a refused write is blamed only if the disk may have refused an attempt |
| Reports.ErrorsTellTheTruth | internal/worker/worker.go:121-168 | under every fault set, of the error text of each row: each text appears only if what it says can have happened (payload, disk, level, limit, encoding or publish or status write failing); a row whose job was not queued is the inserted one, or marked as not queued after a failed publish, or that mark could not be written |
| Dates.RowShowsLastWrite | internal/repository/postgres/job_repository.go:90-110 | in every run a row exists from the first status written on and shows the last one; completed_at is the time of that write if it was terminal and is unset otherwise; the path is set exactly for completed, the error exactly for failed |
| Dates.CompletionTime | internal/repository/postgres/job_repository.go:91-95 | in every run a completion time lies between the publish of the job and now, and a row that says its retries are exhausted, or its level refused, is dated after all retry delays up to there: with three retries 16000 ms |
| Progress.CanFinish | internal/worker/worker.go:73-90 | when acks work and nobody crashes, every run, whatever else has failed and whatever the disk takes, can be continued, with no new work, to one in which all its jobs are done with |
| Progress.CanFinishByRedelivery | internal/worker/worker.go:73-90 | when deliveries can return, the same holds after any faults at all, crashes and failed acks included |
| Progress.FinishExact | internal/worker/worker.go:115-116 | for each configuration, every run can be finished if and only if deliveries can return, or neither crashes nor failed acks happen; otherwise a run leaves a message unacknowledged for ever |
| Progress.CanMove | internal/worker/worker.go:73-90 | unless everything rests, some step other than the arrival of work is possible in which nothing goes wrong |
| Stranding.NoStrandedJob | internal/worker/pdf_processor.go:45-63 | while status writes succeed and deliveries return only after their holder stopped: under any crashes, redeliveries, failed acks, duplicates and failed publishes, a pending or processing row has a live message or a call that is, or died, between insert and publish |
| Stranding.NobodyCrashesNobodyStrands | internal/worker/pdf_processor.go:45-63 | if no worker crashes the same holds with redelivery at any time, somebody still at work on the job being the third way out |
| Stranding.StrandedForever | internal/worker/worker.go:115-181 | a stranded job stays stranded with its row unchanged, whatever happens |
| Stranding.StaleCrashStrands | internal/worker/worker.go:115-119 | for every configuration a run that strands a job: its delivery is taken over by a second worker, which fails and crashes after its ack; then the first worker writes processing and crashes |
| Stranding.UnwrittenStatusStrands | internal/worker/worker.go:133-168 | for every configuration a run in which all status writes fail and a job goes through all its attempts to the DLQ, or to the refused level 4, while its row still says pending |
| Stranding.StrandingExact | internal/worker/worker.go:115-181 | for each configuration, no job whose API call did not end between insert and publish is ever stranded if and only if status writes succeed and not both workers crash and deliveries return while held |
| Stranding.UnpublishedIsLeft | internal/service/pdf_service.go:73-100 | for every configuration a run in which the API process dies, or the encoding fails, between insert and publish, and the row stays pending with nobody left |
| Stranding.LeftBehindExact | internal/service/pdf_service.go:73-100 | for each configuration, no row ever stays pending or processing with no open call, no message and no worker if and only if status writes succeed, API processes do not die, messages can be encoded, and not both workers crash and deliveries return while held; no other fault matters |
| Conservation.Conservation | internal/worker/worker.go:115-181 | under every fault, for each job: publishes pending, messages, workers holding one between ack and republish, and messages done, dropped or lost add up to the inserted row plus the duplicates made by acks without effect |
| Conservation.AtMostOneMessage | internal/worker/worker.go:115-137 | when acks succeed and no delivery is taken from a busy worker, then under any crashes and failures a job has at most one of: a publish pending, a message, a worker between ack and republish; never two messages |
| Doubling.DoublingExact | internal/worker/worker.go:115-137 | for each configuration, a job never has two such places if and only if acks succeed and no delivery is taken from a busy worker |
| Conservation.ExactlyOneMessage | internal/service/pdf_service.go:73-97 | when moreover no worker and no API call dies, a created job is in exactly one place: publish pending, one message, one worker between ack and republish, done, or dropped |
| Unreadable.UnreadableKept | internal/worker/worker.go:95-104 | under every fault, the broker holds exactly as many messages with a malformed body as ever arrived with it, body by body; once none is live, all are in the DLQ |
| Termination.StepAccount | internal/pkg/queue/rabbitMq.go:164-190 | steps taken plus the weight of what is left never exceed a fixed price for each submitted job, malformed message and redelivery, under every fault |
| Termination.RunsAreBounded | internal/worker/worker.go:92-181 | any run takes at most 43 steps a job, 3 a malformed message and 41 a redelivery, so it stops when those do |
| RetryLevels.MessageLevels | internal/pkg/queue/rabbitMq.go:255-278 | under every fault, retry queue k holds only messages with count k, 1 <= k <= min(maxRetries, 3); a readable message in the DLQ has count max(0, maxRetries) and exists only if maxRetries <= 3 |
| RetryLevels.GivenUpAtLevelFour | internal/worker/worker.go:121-151 | with maxRetries > 3 no worker comes to the DLQ branch; a message past level 3 is at level 4 and its publish is refused, whatever the broker would say |
| RetryLevels.RetryLevelsAlways | internal/worker/worker.go:121-168 | the invariant over messages and workers behind the two |
| Columns.ColumnsAlways | internal/repository/postgres/job_repository.go:90-110 | in every run the columns agree with the status: completed has the path of an existing file, a completion time and no error; failed has an error, a completion time and no path; pending and processing have none of the three |
| JobHistory.CompletedIsFinal | internal/worker/pdf_processor.go:63-71 | without redelivery a completed row never changes again, in any column |
| Finality.FinalityExact | internal/worker/worker.go:184-190 | for each configuration, completed stays completed if and only if nothing is redelivered, or deliveries return only after their holder stopped and neither crashes nor failed acks happen, or the disk refuses every write of every attempt, so that nothing completes |
| Finality.RedeliveryUndoes | internal/worker/worker.go:184-190 | for every configuration and every job that the disk lets complete at some attempt, a run that takes its completed row back to processing: through a crash or a failed ack after the completed write, or a redelivery to a second worker |
| Finality.NeverTakenBack | internal/worker/worker.go:115-116 | if acks work and nobody crashes, redelivery after the holder stopped never happens |
| JobHistory.EventLogMatchesRow | internal/worker/pdf_processor.go:37-71 | with status writes and events working, no crash and no redelivery, a job's events are (processing failed)^n, possibly followed by processing completed, n being the failed attempts; outside Process the row has the last event's status |
| RetryCount.RetryCountBounded | internal/worker/worker.go:118-119 | in every run, under every fault and any redelivery: retry_count, the increments that failed and the failures still to be counted are together at most the failed attempts |
| JobHistory.RetryCountLags | internal/worker/worker.go:118-125 | without redelivery, whatever else fails: a queued message's count equals the failed attempts, and the row lags behind it by exactly the failed increments |
| Sequential.RunsSequentially | internal/worker/worker.go:92-196 | without redelivery a job's part of any concurrent run is a walk of a sequential machine with one message |
| Delays.RetryDelay | internal/pkg/queue/rabbitMq.go:164-190 | a message with count k is in the main queue no earlier than its first publish plus 0, 1000, 6000, 16000 ms; with maxRetries 3 none is in the DLQ before 16000 ms; under every fault |
| Delays.HeadExpiresFirst | internal/pkg/queue/rabbitMq.go:174-182 | in a retry queue the head, no younger than any other, can expire whenever some message's TTL is over |
| Ownership.OwnedAlways | internal/worker/pdf_processor.go:73-82 | in every run each message, worker and event carries the user of its job's row |
| EndToEnd.EventsReachTheirOwner | internal/SSE/broker.go:83-107 | whatever fails in the pipeline and however the broker's threads interleave, each event that a client received or has waiting carries the client's user, belongs to a job whose row has that user, and says the truth about file and error |
| EndToEnd.ReceivedInOrder | internal/SSE/broker.go:56-77 | if the listener passes on events of the bus in order, possibly not all, then what any client has received at any moment is an in-order selection of the bus's events for its user, none twice |
| EndToEnd.ToldEverything | internal/worker/pdf_processor.go:37-71 | the whole way without faults but failing generator attempts: a client in the map from the first broadcast on, with nothing dropped or skipped, has received at rest all its user's events in order, and for each finished job of its user exactly the statuses of the specification, each with the path or error of its attempt |
| BrokerSafety.NeverPanics | internal/SSE/broker.go:79-151 | any number of handlers and broadcasts, any interleaving: no send on a closed channel, no channel closed twice; what a broadcast has still to visit stays registered and open; readers exclude the writer |
| BrokerSafety.NoEmptySets | internal/SSE/broker.go:141-147 | when nobody holds the write lock no user key maps to an empty set |
| BrokerSafety.BroadcastNeverBlocks | internal/SSE/broker.go:79-107 | past its lock a broadcast always has an enabled step, however full the buffers are, which brings it closer to its end |
| BrokerSafety.BroadcastBounded | internal/SSE/broker.go:79-107 | in every run a broadcast makes, after taking the read lock, at most two steps for each client that its user then has and three more, whatever the other threads do |
| BrokerCounter.CounterAccount | internal/SSE/broker.go:109-158 | in every interleaving active equals the registered clients, minus those between insertion and Add(1), plus those between removal and Add(-1) |
| BrokerCounter.Overshoot | internal/SSE/broker.go:110-127 | with at most K Subscribe calls in flight, active plus the callers past the check never exceeds maxConnections - 1 + K |
| BrokerCounter.OvershootReached | internal/SSE/broker.go:110-127 | for every K and every limit there is a run in which active reaches maxConnections - 1 + K |
| BrokerCounter.LimitExact | internal/SSE/broker.go:110-127 | active stays within maxConnections if and only if at most one call is in flight |
| BrokerDelivery.DeliveryAccount | internal/SSE/broker.go:83-107 | for each client: taken then buffered events are an in-order selection of the broadcasts that visited it, all of its user; received, dropped and skipped add up to the visits; the buffer never exceeds its capacity; nothing is dropped before there were more visits than the buffer holds |
| BrokerDelivery.MissedOnlyWhen | internal/SSE/broker.go:87-106 | in every reachable state, a step that makes a client miss an event finds its buffer full and its channels open, or its done channel closed |
| BrokerDelivery.LeavingIsSpared | internal/SSE/broker.go:87-93 | in every reachable state, once a client's done channel is closed, no step makes a broadcast start to send to it, and it gets nothing but the events of broadcasts that already had |
| BrokerDelivery.CompleteDelivery | internal/SSE/broker.go:56-107 | with the single listening goroutine, for every client at every moment, also during a broadcast and after it left: its visits are exactly the broadcasts for its user between its entry into the map and its leaving, in order, but for the last one while that is on its way; what it received is an in-order selection of them, the rest is counted as dropped, skipped or on its way, and with nothing dropped or skipped it received them all, as does a client that is not leaving and was sent no more than its buffer holds |
| RateLimiter.InstalledForGood | internal/middleware/rate_limit.go:45-47 | an installed limiter is never replaced or removed |
| RateLimiter.InstalledNeedsNoLock | internal/middleware/rate_limit.go:29-35 | a call for a key whose limiter was installed before the call began never asks for the write lock, whatever interleaves |
| RateLimiter.SameKeySameLimiter | internal/middleware/rate_limit.go:28-48 | any number of interleaved calls: two return the same limiter exactly when they have the same key |
| Backoff.BackoffIs | internal/pkg/queue/rabbitMq.go:136-142 | after n failures the backoff is min(30, 2^n) times 1000000000 nanoseconds, and doubling it never overflows 64 bits |
| Backoff.TotalSleep | internal/pkg/queue/rabbitMq.go:96-128 | the first n sleeps take 2^n - 1 seconds for n <= 5 and 31 + 30(n - 5) seconds after |
| Backoff.Connection.Close | internal/pkg/queue/rabbitMq.go:361-374 | closes at once when the mutex is free, and otherwise waits and changes nothing |
| Backoff.Connection.HandleReconnect | internal/pkg/queue/rabbitMq.go:92-134 | the loop, holding the mutex: it stops if and only if the connection was closed before it began, and then has not slept; otherwise it sleeps the backoffs in order until the first turn that dials and sets up, and a Close that comes meanwhile takes effect only then |
| Topology.RetryNames | internal/pkg/queue/rabbitMq.go:226-228 | for every queue name, retry names differ exactly when their levels do and never equal the queue's own name |
| Topology.RetryNameMeans | internal/pkg/queue/rabbitMq.go:226-228 | a retry name is the queue's name, _retry_, and a numeral that reads back as the level, for every integer |
| Topology.SetupSucceedsExactly | internal/pkg/queue/rabbitMq.go:144-224 | setup on a bare broker gets through if and only if the DLQ differs from the job queue and its retry queues and the two exchanges differ |
| Topology.SetupNeedsDistinct | internal/pkg/queue/rabbitMq.go:144-224 | whatever the broker already holds, setup never gets through when those names clash |
| Topology.SetupConverges | internal/pkg/queue/rabbitMq.go:144-224 | from whatever prefix an aborted setup left, and from any part of the topology, setup reaches the same topology, and running it again changes nothing |
| Topology.EveryMessageRouted | internal/pkg/queue/rabbitMq.go:151-208 | there are these five queues and two exchanges and no others; each publish and each dead letter goes to exactly one queue, the intended one; retry queues 1, 2, 3 expire after 1000, 5000, 10000 ms into the main queue; main queue and DLQ have no TTL, and nothing leads out of the DLQ |
| Topology.EventsFanOut | internal/pkg/queue/rabbitMq.go:280-299 | an event goes to every listener's queue and to nothing else |
| Topology.Channel.Send | internal/pkg/queue/rabbitMq.go:146-150 | one declaration is answered and takes effect, or is refused and changes nothing |
| Topology.Channel.Setup | internal/pkg/queue/rabbitMq.go:144-224 | the code of setup, loop included, leaves the topology that its declarations leave up to the first failure; on a broker with nothing but parts of the topology, a bare one in particular, it succeeds if and only if the names are distinct and all twelve declarations are answered, and then messages are routed as EveryMessageRouted says |
| Generator.PathInjective | internal/pkg/pdf/generator.go:83-90 | a file lies in the output directory under its job's id and .pdf, so two jobs never share one |
| Generator.GenerateMeans | internal/pkg/pdf/generator.go:37-90 | for each outcome exactly when it occurs, read from payload and disk: success with the path, and each of the four errors, the title being checked before the content |
| JobTable.JobRepository.Create | internal/repository/postgres/job_repository.go:23-36 | the whole table after an insert, which fails when the id exists; the new row column by column |
| JobTable.JobRepository.UpdateStatus | internal/repository/postgres/job_repository.go:90-110 | the whole table after a status write; a missing row is an error; status, path and error are those given, completed_at is the present time for completed and failed and unset for others, the other columns are kept |
| JobTable.JobRepository.IncrementRetry | internal/repository/postgres/job_repository.go:112-119 | the whole table after an increment; a missing row is no error |
| WorkerPool.System.Process | internal/worker/pdf_processor.go:37-71 | the code of Process takes only the steps of its worker, whatever others do and however calls end, and returns an error exactly when the worker goes on to the failure path, with that cause |
| WorkerPool.System.HandleError | internal/worker/worker.go:106-181 | ack, increment, then retry queue or failed row and DLQ, as steps of the state machine, to the end of the delivery |
| WorkerPool.System.ProcessMessage | internal/worker/worker.go:92-196 | a delivery is handled to its end by steps of its worker alone among arbitrary steps of others; the worker does not crash by itself |
| WorkerPool.System.ServeOne | internal/worker/worker.go:77-88 | one turn of an idle worker: it takes a delivery and handles it to its end, or the main queue was empty |
| WorkerPool.System.Serve | internal/worker/worker.go:73-90 | the loop of a worker: in each of its turns it took exactly one delivery, and is idle again, or the main queue was empty at that point of the run; it took no others |
| WorkerPool.System.CreateJob | internal/service/pdf_service.go:44-110 | insert, publish, compensate, as steps of the state machine; success is answered exactly when the message was queued, and is when insert, encoding and publish may not fail; the row has the user, template and payload of the request and the API's retry limit; without success it is as inserted, or failed as not queued |
| CodeGuarantees.CodeStrandsNoJob | internal/worker/worker.go:92-196 | what NoStrandedJob says, of the fields that the code left |
| CodeGuarantees.CodeMeetsSpec | internal/worker/worker.go:92-196 | what QuiescentMeetsSpec and EachEventTellsItsAttempt say, of the fields that the code left |
| CodeGuarantees.RowsStayCoherent | internal/repository/postgres/job_repository.go:90-110 | what ColumnsAlways, EventsTellTheTruth and ErrorsTellTheTruth say, of the fields that the code left |
| BrokerCode.EventBroker.Subscribe | internal/SSE/broker.go:109-135 | the code registers and counts its client, which is then in the set of its user with both channels open, or is refused, or waits for a lock that is not given back; only steps of the state machine, among arbitrary steps of others |
| BrokerCode.EventBroker.Unsubscribe | internal/SSE/broker.go:137-158 | the code closes each channel once, each open when it does, and leaves, being then in no set and both channels closed, or waits for a lock that is not given back |
| BrokerCode.EventBroker.Broadcast | internal/SSE/broker.go:79-107 | the loop over the clients ends with the lock given back, every send being on an open channel |
| BrokerCode.EventBroker.Choose | internal/SSE/broker.go:95-106 | some case of the second select is always ready, and the default only when the buffer is full |
| RateLimiterCode.Limiters.GetLimiter | internal/middleware/rate_limit.go:28-48 | the code returns the limiter installed for its key, whatever other calls do between its operations, or waits for a lock that is not given back |

## Left out

- Request validation and the backpressure check of `CreateJob`: a call may start at any time, which allows more; no bound on the main queue is claimed, since the check goes on when it fails and retries come back unchecked.
- `created_at`, `updated_at` and the timestamps of events: nothing reads them.
- Calls that take effect and yet report an error: each call takes effect exactly when it reports success. This bounds CompletedIsFinal and FinalityExact, StrandingExact and LeftBehindExact, as the next lines say.
- CompletedIsFinal: does not speak of a completed write that commits and reports an error, after which `Process` fails, the job is tried again, and its row goes back to processing without any redelivery.
- FinalityExact: as CompletedIsFinal; such a write would be one more conjunct of its condition.
- StrandingExact: does not speak of an insert that commits and reports an error, after which the call is refused and the row stays pending, nor of such a status write.
- LeftBehindExact: as StrandingExact.
- Messages that parse but were not published by this program: only malformed foreign bodies are modelled.
- The 32-bit width of `retry_count`: the count is unbounded here; it grows by at most one a failed attempt.
- First-in-first-out order of the main queue: any message may be delivered next, which allows more runs.
- Drawing, fonts and templates of the PDF; `filepath.Join` cleans paths, and the model joins with a slash.
- Bytes of JSON: a body is parsed or malformed, a payload a document or not; the payload's fields that no check reads are dropped.
- Files that are written in part when a write fails.
- Resuming consumption after a reconnect: workers whose delivery channel closed do not consume again in the code; redelivery of what they held is modelled, and other workers are any number.
- Preference of waiting writers in `sync.RWMutex`: the lock lets in whoever is allowed, which allows more runs.
- Names that RabbitMQ reserves, and queues of other programs on the same broker: a declaration is refused only for a clash with an existing one.
- The token bucket inside `rate.Limiter`, and generation of UUIDs, which are taken as fresh.
- Gin handlers, JWT, configuration, logging, listing of jobs: they only pass values on. Of the stream handler it is kept that each successful Subscribe has one Unsubscribe and that it reads `Events`.
- `listenEvents` and `reconnectLoop` as code: the first is a sequence of broadcasts, one at a time; the second a sequence of calls of `handleReconnect`.
- A second call of `Close`, which would close `done` twice and panic: the programs defer it once.
- Fairness: that a wait for a lock ends is not claimed for arbitrary schedules, which may never give it back.
- Overshoot: for limits of at least one; with a smaller limit the code admits nobody.
- LimitExact: for limits of at least one, as above.
