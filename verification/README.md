# Prospecting protocol, matching and planning: a verified model

This Dafny project models the parts of the CRM and prospecting system whose correctness is hardest to see from the
code, and proves what they promise.

**The lease, outbox and idempotency protocol.** Worker processes take prospecting runs from a CRM under a lease that
can expire and be claimed again. Everything a worker has to say goes through a durable outbox: running events,
candidates, completion and failure events, reports. Messages can be lost before or after the CRM accepts them,
rejected, split in half until the offending candidate is isolated, discarded, buried as dead letters, or replayed after
a restart. `Contracts`, `CrmSpec` and `StoreSpec` say what each operation of the CRM and of the store does to one run.
`FakeCrmPort.FakeCrm` and `MemoryStore.MemoryWorkerStore` are the two objects of the source, changed in place and
proved equal to those functions. `Delivery` is one delivery attempt, with every fate that the request and its answer
can have. `UpsertLaws`, `CrmLaws`, `StoreLaws`, `RecordLaws` and `DeliveryLaws` state what these functions mean
for the records themselves. `Protocol` puts them together as a state machine: any number of workers, each with its own store, that can
stop at any point; a clock that moves at will; other runs that use the same idempotency tables. The theorems in
`ProtocolKeys`, `ProtocolCounts`, `ProtocolSaved`, `ProtocolTerminal`, `ProtocolGrants`, `ProtocolLeases`,
`ProtocolSingle` and `ProtocolWork` are about every state of every run of that machine. The last fields of `Protocol.Sys` only record history, so that the theorems
can speak of it.

**Where the guarantees end.** `RepeatedIds`, `Stranding`, `SearchedAgain` and `SharedStores` prove that the hypotheses
of those theorems (distinct task ids, a single worker, separate stores) are exactly what is needed: they build the run
that goes wrong without them, from every start.
`ProtocolSessions` holds the stretches of a session of which such runs are made. `SharedStores` extends the machine by a
map from workers to stores, so that workers can share one.

**The worker's loops.** `Worker.ProspectingWorker` is the loop structure of the worker itself, run against the two
objects: delivering the outbox, executing a task, and processing a claim, which is proved to end. Each of these is
proved to be a run of the state machine (`WorkerSteps`), with a clock that moves at every request and with every outcome
that the environment can choose, so the theorems about reachable states hold of it. `Reports` says when a report is
justified; every report of the worker is, in the state in which it decided to end the run. `Isolation` and `TaskLoop`
hold what its loops keep.

**Matching and merging.** `Dedup` decides whether a discovered candidate is a known one, by identifiers in order of
strength, with contradictions that block; `Compaction` keeps one observation per source, field and value; `Merging`
merges two records, re-indexes the evidence that points into their lists of locations, and partitions discoveries.
`Identity` and `MergeLaws` say what a match and a merge mean over the identifiers and fields themselves.

**Arithmetic with loops.** `Calendar`, `WorkingDays` and `Planner` are the factory calendar search of the trade
planner on real Gregorian dates; `Batching` the order-preserving batches of the hub; `Budget` the spend ledgers;
`Purchase` the container proposal; `Rut` the modulo-11 check of tax numbers.

## How to read the state machine

A worker's position (`Pc`, `Phase`, `Stage`) follows `_process_claim` and `_execute_task`: a claim is answered, loaded
into the store, the outbox is drained, a task is claimed, the run lease renewed, the running event saved and drained,
the source searched, and the result saved. A step is one locked method of the store or of the CRM, or a stop. Tests
that the worker makes on values the model leaves open (cancellation seen by a background heartbeat, the outcome of a
search) are free choices of the machine, so the theorems cover every outcome. A permanent rejection rejects the whole
payload and depends on the payload alone. Keys, digests and payload hashes are compared as values; tokens and event
ids are fresh numbers.

The theorems about a single worker (`s.agents.Keys == {i}`) are those that the source promises for one durable store
(`Stranding` and `SearchedAgain` show what fails with a second one); the others hold for any number of workers with a
store each. They start from a run whose task ids are distinct; the CRM derives them from source, keyword and commune
(app/crm/fake.py:39-61), so a campaign that lists a commune twice repeats ids. The modules that show where the
guarantees end ask for no more than a failing run needs: a CRM that refuses no event, a positive cap, and a task that
may be tried (twice, where the run tries it twice).

In `Worker.ExecuteTask` the heartbeat of the task lease during the search is a test whose failing branch ends the
session, where the source returns to the loop. Neither is ever taken: `ProtocolLeases.TaskLeaseHolds` proves, for any
number of workers, that the lease of a task that is searched is held.

Findings beside the theorems, all about the code as it is:

- With a repeated task id the CRM counts an attempt on the first entry and the worker loads the last one, so the same
  (task, attempt) key is used again; the keys stay unique if and only if the ids are distinct
  (`RepeatedIds.KeysAreUniqueIffIdsAreDistinct`).
- With several stores, a failure report that arrives after the CRM has counted the last attempt leaves the task pending;
  `claim_task` then never takes it while `work_remaining` stays true. That is the only way in which a task is stranded
  (`Stranding.StepStrandsIffLateFailure`), and it can happen if and only if there are two workers
  (`Stranding.WorkSticksIffTwoWorkers`).
- With several stores, a task whose completion is still queued in one of them can be searched again from another
  (`SearchedAgain.SearchedAgainIffTwoWorkers`); with one store never.
- With one store shared by two workers (app/scheduler/worker.py:36-42), one of them can deliver the running event of the
  other, and both then search under one attempt; the keys stay unique if and only if no two workers share a store
  (`SharedStores.KeysAreUniqueIffStoresAreSeparate`).
- A completion event that becomes a dead letter is forgotten by `ensure_run` (app/prospecting/store.py:1291-1299), which
  then reloads the completed task as running. The task is still not searched again by a single worker, because a dead
  letter ends the loop before a task is claimed (`ProtocolSingle.NeverSearchedAgain`).
- The retry delay is capped at 300 seconds, but its exponent is capped at 8, so it never exceeds 256
  (`StoreLaws.BackoffGrows`).
- For a single worker the branch that sleeps because work remains is never taken (`ProtocolWork.NoTaskMeansNoWork`); for
  any number it is taken exactly when a task is stranded (`ProtocolWork.NoTaskLeavesOnlyStranded`).

## Model

| member | source | states |
|---|---|---|
| ProtocolKeys.CandidateKeysAreUnique | app/prospecting/worker.py:272-299 | In every run with any number of workers, restarts, re-claims, lost messages and separate stores, two different executions never save candidates under one (task, attempt) key. |
| ProtocolKeys.StepKeeps | app/prospecting/store.py:1309-1338 | The handshake behind it: every step keeps that the attempts the CRM, a current claim and a current session hold cover every execution whose running event was accepted. |
| ProtocolCounts.EachMessageCountsOnce | app/crm/fake.py:163-171 | Exactly once: the CRM's events and candidates are those of applying each accepted message once, in the order of first acceptance; every accepted key of the run is logged once, and no refused payload is among them. |
| ProtocolCounts.CandidatesNeverConflict | app/crm/fake.py:218-228 | No candidates message, whole or split, is ever answered with an idempotency conflict. |
| ProtocolSaved.NothingSavedIsLost | app/prospecting/worker.py:464-511 | With any number of workers, in every run after a batch is saved: once no candidates message of the worker is waiting or buried, each candidate of the batch is held by the CRM, unless the run is full or the CRM refuses that very candidate. |
| ProtocolSaved.NothingHeldIsInvented | app/crm/fake.py:229-249 | Every candidate that the CRM holds is one of a batch that some worker saved. |
| ProtocolCounts.CountsAgree | app/prospecting/store.py:1688-1703 | With one durable store, when no candidates message is queued or dead, `crm_accepted` is the number of candidates the CRM holds. |
| ProtocolCounts.NeverOverCounts | app/prospecting/store.py:1688-1703 | With any number of stores, none counts more accepted candidates than the CRM holds. |
| ProtocolCounts.LimitReachedMeansFull | app/prospecting/worker.py:151-164 | The CRM never exceeds `max_candidates`, no baseline exceeds the CRM's count, so a worker that stops at the limit stops only when the CRM is full. |
| ProtocolCounts.BaselineNeverFalls | app/prospecting/store.py:1376-1378 | No step of any worker, stale replayed acknowledgements included, lowers a store's baseline. |
| ProtocolCounts.StepKeeps | app/prospecting/worker.py:464-511 | Every step of the protocol keeps that the acceptance log, the idempotency tables, the CRM's state and each store's counters describe the same history. |
| ProtocolTerminal.EarlierTokensAreFenced | app/crm/fake.py:173-182 | After a later claim, in every continuation, a heartbeat, event, candidates message or new report with an earlier token changes nothing; only a known report key is still answered. |
| ProtocolTerminal.OneTerminalMessage | app/crm/fake.py:251-295 | At most one terminal message of a run is ever accepted; the CRM's report or error is its payload, and its status the reported one unless a cancellation was requested afterwards. |
| ProtocolTerminal.FinalizedIsReported | app/prospecting/worker.py:513-586 | Whatever terminal payload a worker records as delivered, directly or by a replay after a restart, is the CRM's report or error, so all of them agree. |
| ProtocolTerminal.EndIsFinal | app/crm/fake.py:251-295 | After a terminal message is accepted, every continuation leaves events, candidates, report and error as they are. |
| ProtocolTerminal.EndedStep | app/crm/fake.py:89-98 | After the end every step except a cancellation request leaves the whole run as it is. |
| ProtocolGrants.LeaseIsTakenOnlyWhenRunOut | app/crm/fake.py:100-121 | In every run in which the lease passes from one token to another there is a claim at a moment when the clock had reached the end of the lease as its holder last renewed it: a live lease is never taken away. |
| ProtocolGrants.LeaseChangesOnlyBy | app/crm/fake.py:134-151 | In every reachable state a step leaves the lease, or its holder renews it before it runs out, or a worker claims the run after it ran out, or the run ends. |
| ProtocolGrants.ClaimableIffFree | app/crm/fake.py:105-110 | In every reachable state the run can be claimed if and only if it is pending or running and no token is valid. |
| ProtocolSingle.NeverSearchedAgain | app/prospecting/store.py:160-178 | With one durable store, once a task's completion event is queued, undelivered, delivered or dead, the worker is never again about to search, or searching, for that task. |
| ProtocolSingle.DoneTaskStaysDone | app/prospecting/worker.py:352-393 | As long as nothing is a dead letter, a task whose completion was queued is completed and unowned in the store; the CRM has it running, or cancelled with its run, until it accepts that event, and completed from then on. |
| SearchedAgain.SearchedAgainIffTwoWorkers | app/prospecting/store.py:1309-1338 | From every start with a positive cap and a task that may be tried twice, some run searches a task again after its completion was queued if and only if there is a second worker with a store of its own. |
| ProtocolSingle.PendingHasAttemptsLeft | app/prospecting/store.py:1453-1462 | With one durable store a pending task has attempts left, on the CRM and in the store. |
| ProtocolLeases.TaskLeaseHolds | app/prospecting/store.py:1428-1436 | With any number of workers: while a source is searched, the task heartbeat of the worker cannot fail. |
| ProtocolLeases.StepKeeps | app/prospecting/store.py:1384-1426 | Every step of any worker keeps, store by store: a worker that searches owns a running record of that task, the only one it owns, and every running record at the top of the loop is unowned and expired. |
| ProtocolSingle.StepKeeps | app/prospecting/store.py:1309-1338 | Every step keeps, task by task: at most one undelivered task event; a done task completed in the store and running or completed on the CRM; store and CRM attempts at most one apart. |
| ProtocolWork.NoTaskLeavesOnlyStranded | app/prospecting/worker.py:166-183 | With any number of workers: when `claim_task` finds nothing at the top of the loop, nothing is running, and the pending tasks are exactly those without an attempt left. |
| ProtocolWork.NoTaskMeansNoWork | app/prospecting/worker.py:166-183 | With a single worker, when `claim_task` finds nothing at the top of the loop, no task is pending or running, so the sleep-and-retry branch is never taken. |
| ProtocolWork.TaskLoopIsBounded | app/prospecting/worker.py:134-208 | With any number of workers: between two claims, in every run, a worker takes at most as many tasks as its unfinished tasks have attempts left, and each task taken uses one up. |
| Stranding.StepStrandsIffLateFailure | app/crm/fake.py:191-216 | With any number of workers, a step leaves a task pending without an attempt left if and only if it is the first arrival, under the current lease, of a report that says pending after the CRM has counted the last attempt. |
| Stranding.OnlyLateFailuresStrand | app/crm/fake.py:191-216 | A run without such a late report leaves every pending task of the CRM an attempt. |
| Stranding.LateReportSticks | app/prospecting/worker.py:166-183 | From every start with two workers some run ends with a worker at the top of the loop for which `claim_task` finds nothing while the summary counts pending work. |
| Stranding.WorkSticksIffTwoWorkers | app/prospecting/worker.py:166-183 | From every start with a positive cap and a task that may be tried twice, a run can get stuck in that way if and only if there is a second worker with a store of its own. |
| RepeatedIds.AttemptIsCountedIffFirst | app/crm/fake.py:197-207 | With repeated task ids an accepted attempt is counted by the entry that the next claim loads if and only if no earlier entry has the same id. |
| RepeatedIds.RepeatedIdRepeatsKey | app/prospecting/store.py:1309-1338 | From every start with a repeated task id some run, of one worker or of two, saves candidates twice under one (task, attempt) key. |
| RepeatedIds.KeysAreUniqueIffIdsAreDistinct | app/prospecting/worker.py:272-299 | The candidates keys stay unique in every run if and only if the claimed task ids are distinct, whenever the cap leaves room for a second search. |
| SharedStores.SharedStoreRepeatsKey | app/prospecting/worker.py:464-511 | From every start with two workers on one store some run saves candidates twice under one (task, attempt) key: one worker delivers the running event of the other, and both search. |
| SharedStores.KeysAreUniqueIffStoresAreSeparate | app/scheduler/worker.py:36-42 | For every assignment of stores to workers, a positive cap and some task, the candidates keys stay unique in every run if and only if no two workers share a store. |
| FakeCrmPort.FakeCrm.constructor | app/crm/fake.py:76-80 | A new CRM knows no run and no key. |
| FakeCrmPort.FakeCrm.Enqueue | app/crm/fake.py:82-87 | A new run is added last, pending; a known one is left alone. |
| FakeCrmPort.FakeCrm.RequestCancel | app/crm/fake.py:89-98 | The run is flagged and its open tasks, no others, are cancelled. |
| FakeCrmPort.FakeCrm.ClaimRun | app/crm/fake.py:100-121 | The first run in order that is pending, or running with no valid token, gets the new token for the given time and is handed out as it stands; if none is claimed, no run is pending and every running one is held. |
| FakeCrmPort.FakeCrm.Heartbeat | app/crm/fake.py:134-151 | Extends the lease exactly for the current, unexpired token. |
| FakeCrmPort.FakeCrm.IsCancelRequested | app/crm/fake.py:153-157 | True for a cancelled run and for every token but the current one. |
| FakeCrmPort.FakeCrm.AppendEvents | app/crm/fake.py:184-216 | Without the lease nothing happens; a known key is answered as done or as a conflict; a new one appends the events and moves each first task named, as the protocol assumes. |
| FakeCrmPort.FakeCrm.UpsertCandidates | app/crm/fake.py:218-249 | The answer lists the new ids and the totals, the cap decides what is rejected, and a repeated key gets the stored answer or a conflict. |
| FakeCrmPort.FakeCrm.CompleteRun | app/crm/fake.py:251-272 | A known key is answered without a lease; a new one needs the lease, stores the report, takes its status and ends the lease. |
| FakeCrmPort.FakeCrm.FailRun | app/crm/fake.py:274-295 | A known key is answered without a lease; a new one needs the lease, stores the error, fails the run and ends the lease. |
| CrmLaws.UpsertCounts | app/crm/fake.py:229-249 | The acknowledged ids are exactly the new ones, no candidate is lost, and the cap holds. |
| UpsertLaws.FirstDeliveryStores | app/crm/fake.py:229-249 | A first delivery accepts the new keys in the order of the batch, as many as there is room for; rejected is exactly each candidate not held afterwards, and only once the cap is reached; under each key the last candidate of the batch is held, or the old one. |
| UpsertLaws.WhatFitsIsHeld | app/crm/fake.py:229-249 | If the new keys fit under the cap, every candidate of the batch is held, the ids are the new keys, and nothing is rejected. |
| UpsertLaws.NewKeysAre | app/crm/fake.py:231-241 | The new keys are those of the batch that were not held, each once, in the order in which they first appear. |
| UpsertLaws.SameKeyIff | app/crm/fake.py:233 | Two candidates are one exactly if they carry the same id, or carry none and are equal. |
| CrmLaws.SubmitCases | app/crm/fake.py:163-171 | A call either changes nothing or is a first acceptance under the current unexpired lease; a key keeps its first payload. |
| CrmLaws.ApplyEventExact | app/crm/fake.py:191-216 | With distinct ids an event changes exactly the task it names. |
| CrmLaws.TaskAfterEvents | app/crm/fake.py:191-216 | After any list of events, in any order, the status of a task is the last one reported and each of its counters the greatest reported, and nothing else of it changed. |
| CrmLaws.FirstDeliveryApplies | app/crm/fake.py:184-216 | A first delivery appends all its events and leaves each task as after all of them; a second one changes nothing and is answered as done or as a conflict. |
| MemoryStore.MemoryWorkerStore.EnsureRun | app/prospecting/store.py:1276-1382 | Every task is loaded from the claim, a locally finished one kept while its completion is queued, unlisted ones withdrawn, the baseline never lowered. |
| MemoryStore.MemoryWorkerStore.CompletedTaskIds | app/prospecting/store.py:160-178 | Exactly the tasks that an undelivered, living event message reports completed. |
| MemoryStore.MemoryWorkerStore.ClaimTask | app/prospecting/store.py:1384-1426 | Exhausted expired tasks fail, and the first takable task by priority is taken. |
| MemoryStore.MemoryWorkerStore.HeartbeatTask | app/prospecting/store.py:1428-1436 | Extends the lease exactly for the owner of a running task. |
| MemoryStore.MemoryWorkerStore.FinishTask | app/prospecting/store.py:1441-1451 | Completes the task for its owner and refuses anyone else. |
| MemoryStore.MemoryWorkerStore.FailTask | app/prospecting/store.py:1453-1462 | Gives the task back, as failed when its attempts are used up; for anyone but its owner nothing happens. |
| MemoryStore.MemoryWorkerStore.CancelTasks | app/prospecting/store.py:1464-1468 | Cancels the pending and running tasks, no others. |
| MemoryStore.MemoryWorkerStore.QueueSaved | app/prospecting/store.py:1512-1520 | Queues the kept candidates under the (task, attempt) key, and nothing when none were kept. |
| MemoryStore.MemoryWorkerStore.SaveEvent | app/prospecting/store.py:1541-1551 | Queues the event under its own id. |
| MemoryStore.MemoryWorkerStore.GetOutbox | app/prospecting/store.py:1553-1563 | The first messages in queue order that are undelivered, living and due. |
| MemoryStore.MemoryWorkerStore.HasPendingOutbox | app/prospecting/store.py:1565-1570 | True exactly when some message is undelivered and living, due or not. |
| MemoryStore.MemoryWorkerStore.PendingTerminalReplays | app/prospecting/store.py:1572-1596 | The first queued terminal messages, run by run, of the runs that know their worker and token. |
| MemoryStore.MemoryWorkerStore.MarkOutboxDelivered | app/prospecting/store.py:1598-1602 | Marks the message in the run that holds it. |
| MemoryStore.MemoryWorkerStore.FinalizeTerminalOutbox | app/prospecting/store.py:1604-1617 | Marks the key delivered, whether or not the outbox holds it, and takes over the status. |
| MemoryStore.MemoryWorkerStore.MarkOutboxFailed | app/prospecting/store.py:1619-1635 | Counts the try and either postpones the message or buries it. |
| MemoryStore.MemoryWorkerStore.SplitCandidateOutbox | app/prospecting/store.py:1637-1668 | Replaces an undelivered batch of two or more by its halves, and refuses anything else. |
| MemoryStore.MemoryWorkerStore.DiscardCandidateOutbox | app/prospecting/store.py:1670-1686 | Drops a batch of one and counts it, and refuses anything else. |
| MemoryStore.MemoryWorkerStore.RecordCandidateAck | app/prospecting/store.py:1688-1703 | Counts an answer once per key, with or without a total; the baseline only rises. |
| MemoryStore.MemoryWorkerStore.QueueTerminal | app/prospecting/store.py:1705-1715 | Queues the report under its key. |
| MemoryStore.MemoryWorkerStore.Summarise | app/prospecting/store.py:1717-1740 | The counts by status, the totals and the budget-limited events, counted in loops, are those of the record. |
| MemoryStore.MemoryWorkerStore.SetRunStatus | app/prospecting/store.py:1742-1747 | Changes the status of the run and nothing else. |
| StoreLaws.EnsureExact | app/prospecting/store.py:1309-1338 | With distinct ids each record is made from its own entry of the claim and the record it replaces. |
| RecordLaws.LoadedRecord | app/prospecting/store.py:1309-1338 | Field by field: a loaded record has the claim's source, limits and counts and no owner, and the claim's status and attempts unless it is completed locally and a queued event says so. |
| RecordLaws.UnlistedRecord | app/prospecting/store.py:1339-1343 | A task that the claim does not list is cancelled, without owner or lease. |
| RecordLaws.LoadedRun | app/prospecting/store.py:1276-1382 | Loading remembers the token and the worker, takes the greater baseline, leaves every message alone, and lists new tasks last, in the order of the claim. |
| RecordLaws.TakenRecord | app/prospecting/store.py:1397-1426 | `claim_task` takes a task exactly if one is pending or expired with attempts left; it counts the attempt and leases it to the worker from now on; of the others only expired ones without attempts change, to failed. |
| RecordLaws.FirstRipeIsTaken | app/prospecting/store.py:1389-1426 | The task taken is the first in the order of priority that can be taken. |
| RecordLaws.OwnedRecord | app/prospecting/store.py:1428-1462 | Only its owner extends, finishes or gives back a task, and what is given back is pending exactly if it has attempts left. |
| RecordLaws.CancelledRecord | app/prospecting/store.py:1464-1468 | Cancelling changes the status of the pending and running tasks and nothing else. |
| RecordLaws.PostponedOrBuried | app/prospecting/store.py:1619-1635 | A message whose try failed is due again exactly after the waiting time of its tries, or is buried and never due; other messages are as due as before. |
| RecordLaws.QueuedLast | app/prospecting/store.py:1512-1551 | A new message is queued last; one with a known key takes the place of the old one. |
| MemoryStore.DueKeysInOrder | app/prospecting/store.py:1553-1563 | The messages to deliver come in the order of the queue. |
| RecordLaws.AnswerCountsOnce | app/prospecting/store.py:1688-1703 | An answer is counted once, with its accepted and rejected candidates and its total, and never for a delivered message. |
| RecordLaws.SplitRecord | app/prospecting/store.py:1637-1668 | Splitting queues the first and the second half of the batch, in this order, in place of the batch. |
| MemoryStore.ReplaysAre | app/prospecting/store.py:1572-1596 | Replayed are exactly the terminal messages neither delivered nor buried of the runs that know their worker and token. |
| StoreLaws.ByPriorityIsStableSort | app/prospecting/store.py:1389-1396 | Google Places before Brave before the rest, insertion order kept within each. |
| StoreLaws.ClaimTaskPasses | app/prospecting/store.py:1397-1426 | When no task is taken, none is left that could be taken or given up. |
| StoreLaws.BackoffGrows | app/prospecting/store.py:1631-1633 | Waiting times double up to 256 seconds and stay there: the limit of 300 is never reached. |
| StoreLaws.SummaryCountsEveryTask | app/prospecting/store.py:1720-1725 | The five counts of the summary add up to the number of tasks. |
| Worker.ProspectingWorker.DeliverMessage | app/prospecting/worker.py:588-614 | Makes the call that the kind of the message selects. |
| Worker.ProspectingWorker.DeliverOne | app/prospecting/worker.py:470-511 | One message of the delivery loop does to store and CRM exactly what the protocol's delivery step does. |
| Worker.ProspectingWorker.DeliverOutbox | app/prospecting/worker.py:464-511 | Does to store and CRM what a sequence of the protocol's delivery attempts does, each at its own clock value; true only if nothing is queued; at most 2n - 1 requests for a batch of n; every valid candidate is acknowledged or still queued as often as before, every invalid one discarded and counted or still queued, unless a message was buried; if nothing goes wrong before the lease ends, everything is delivered. |
| Worker.ProspectingWorker.IsolateBatch | app/prospecting/worker.py:480-498 | Delivering a single queued batch of n candidates takes at most 2n - 1 requests; if it drains, each valid candidate was acknowledged exactly as often as the batch holds it, no invalid one was, and exactly the invalid ones were discarded and counted; under a lease that holds and a channel that answers, it drains. |
| Worker.ProspectingWorker.ReplayOne | app/prospecting/worker.py:513-543 | One terminal replay does exactly what the protocol's replay step does. |
| DeliveryLaws.ReplayKeepsTheReport | app/prospecting/worker.py:513-586 | A replayed report is delivered exactly if the CRM has it or takes it, buried exactly if it is rejected or its key is taken, and otherwise stays queued: a lost lease does not lose it. |
| Worker.ProspectingWorker.ReportRun | app/prospecting/worker.py:616-631 | Queues the summary as it stood as the report of the run. |
| Worker.ProspectingWorker.Cancel | app/prospecting/worker.py:638-650 | Leaves no task open and a cancelled report queued. |
| Worker.ProspectingWorker.ExecuteTask | app/prospecting/worker.py:256-419 | Is a run of the protocol machine, whatever the clock, the network and the search do; the search starts only after the CRM has accepted the running event; a finished execution leaves no task owned, uses no further attempt, and leaves exactly the record and the messages that the outcome of the search calls for. |
| Worker.ProspectingWorker.ProcessClaim | app/prospecting/worker.py:119-211 | Is a run of the protocol machine that ends outside any session; at most as many tasks are taken as the loaded claim has attempts left; every search was announced to the CRM; it waits only if the loaded claim strands a task; when it reports, no task is open and the queued report is justified by the state in which it decided: dead letters, the limit, nothing left, or a cancellation seen, and partial exactly for the reasons the source names; if it reports the limit, the CRM is full. |
| Worker.ProspectingWorker.Choose | app/prospecting/worker.py:141-183 | At the top of the loop a task is taken whenever there is one to take, no message is dead and the limit is not reached; otherwise the run is ended only for a reason that its records give. |
| Worker.ProspectingWorker.Turn | app/prospecting/worker.py:134-140 | A lost lease abandons the run, a cancellation seen ends it as cancelled, and otherwise a task is taken whenever nothing stands against it. |
| Reports.SummarySays | app/prospecting/store.py:1717-1740 | The numbers on which the worker decides are positive exactly if a task failed, is open, a message is dead, or an event ran out of budget. |
| Reports.SummaryCounts | app/prospecting/store.py:1717-1740 | Each count of the summary is the number of tasks with that status. |
| Reports.CancelledSummary | app/prospecting/worker.py:141-164 | The report of a run that was ended early counts no open task and the same completed and failed ones. |
| WorkerSteps.StaysReachable | app/prospecting/worker.py:119-211 | So whatever these methods lead to from a reachable state is reachable, and every theorem of the state machine holds of it. |
| WorkerSteps.DriveLeads | app/prospecting/worker.py:464-511 | Every sequence of delivery attempts that the loop can make is a run of the protocol machine, with its store, CRM and position. |
| Isolation.OutcomeConserves | app/prospecting/store.py:1637-1686 | Splitting, postponing and acknowledging keep the number of queued plus acknowledged copies of every valid candidate. |
| Isolation.OutcomeDiscards | app/prospecting/store.py:1670-1686 | Only discarding takes an invalid candidate out, and `rejected_invalid` counts it. |
| Isolation.Attempted | app/prospecting/worker.py:470-511 | Every attempt either stops the loop or uses up weight and touches no other message; under a held lease and a reliable channel it never stops. |
| TaskLoop.EnsureRests | app/prospecting/store.py:1309-1338 | After any claim is loaded, every running record is unowned and expired, whatever the store held. |
| TaskLoop.ClaimExecutes | app/prospecting/store.py:1384-1426 | From such a state, claiming takes a task and uses up one attempt, or only tasks pending without an attempt left are open. |
| Dedup.IdentityIsSymmetric | app/prospecting/dedup.py:56-138 | Neither the shared identifier nor the blocking conflict depends on which record is the known one. |
| Identity.KeyIsStrongestShared | app/prospecting/dedup.py:104-138 | The matching key is the strongest identifier that both records have with the same value, and there is none exactly if they share none. |
| Identity.BlockingIsStrongestClash | app/prospecting/dedup.py:56-101 | What blocks is the strongest contradicting identifier above the key, or a second provider; an identifier missing on one side or equal on both never blocks. |
| Identity.ExactMatchIff | app/prospecting/dedup.py:155-212 | Over the identifiers: an exact match exactly if some record of the pool shares one, all that do are the same entity, and no stronger identifier of any of them contradicts. |
| Identity.ExactMatchNeverContradicts | app/prospecting/dedup.py:56-101 | With an exact match no record that shares an identifier has another RUT; another provider id only under the same RUT; another website or phone only under something stronger that is shared. |
| Identity.ReportedKeyIsStrongest | app/prospecting/dedup.py:204-212 | The key of an exact match is the strongest identifier that the candidate shares with any record, and the id is that of a record that shares it. |
| Identity.ContradictionIsReported | app/prospecting/dedup.py:178-196 | A contradiction anywhere makes a possible duplicate, and the strongest one is reported with the key it blocks. |
| Identity.NamesDecideLast | app/prospecting/dedup.py:141-225 | Names are compared only when no identifier is shared, and only within a commune; the best score decides, and a record is unique exactly if none reaches the threshold. |
| Identity.IdentifiersDecideFully | app/prospecting/dedup.py:190-225 | Whatever identifiers decide scores 100, an ambiguous match names no record, and a unique candidate scores zero. |
| Dedup.MatchCandidate | app/prospecting/dedup.py:155-225 | The loops compute the specified match. |
| Dedup.ExactMatchMeans | app/prospecting/dedup.py:171-212 | An exact match means, in both directions: some record shares an identifier, all that do are one entity, and none carries a contradicting stronger identifier; the id is that entity's. |
| Dedup.OrderDoesNotMatter | app/prospecting/dedup.py:155-225 | The order of the pool changes nothing in the result but the id of a fuzzy match: disposition, reason, score and the id of exact and conflicting matches are the same. |
| Dedup.FuzzyTieFollowsOrder | app/prospecting/dedup.py:214-224 | The id of a fuzzy match does depend on it: on a tie the first record wins. |
| Merging.ExactMatchMerges | app/prospecting/dedup.py:228-239 | An exact match in a pool with distinct ids is found again by its id and satisfies every check of the merge. |
| Merging.PartitionDiscoveries | app/prospecting/store.py:1523-1539 | No exception is possible, and novel and merged together account for every input, in order. |
| Merging.EachPlaceOnce | app/prospecting/dedup.py:242-258 | Every location key of either record appears exactly once in the merged list, and nothing else does. |
| Merging.EvidenceKeepsMeaning | app/prospecting/dedup.py:260-283 | Every surviving piece of evidence comes from one of the records, and one that names a location names the merged location with the same key. |
| Merging.EvidenceIsLostOnlyToBetter | app/prospecting/dedup.py:260-283 | Conversely, each observation of either record whose index is in range is represented by one with its key that it does not beat, and that one is kept unless the limit of 100 is filled by items that it does not precede. |
| Merging.MergeExactCandidate | app/prospecting/dedup.py:228-297 | The step-by-step construction computes the specified merge, and fails exactly where the source raises. |
| MergeLaws.CanonicalFieldsStay | app/prospecting/dedup.py:294-297 | A merge keeps the identity and every business field of the canonical record; only missing fields are taken from the other. |
| MergeLaws.SignalsCombine | app/prospecting/dedup.py:284-293 | The merged scores are the greatest present, the rank the least known, and the query hits add up. |
| MergeLaws.ProvidersAreKept | app/prospecting/dedup.py:240 | Every provider of either record is kept, the incoming id where both have one. |
| MergeLaws.LaterPlaceIsKept | app/prospecting/dedup.py:242-258 | Of two locations with one key the later is kept, so the incoming record's. |
| MergeLaws.SamePlaceIff | app/prospecting/dedup.py:242-247 | Two locations are one place exactly if region, commune and address agree, codes standing before names. |
| MergeLaws.MergesIff | app/prospecting/dedup.py:228-239 | A merge is refused exactly if no identifier is shared or a stronger one contradicts. |
| Compaction.CompactEvidence | app/prospecting/evidence.py:34-76 | The loop over a dictionary computes the specified compaction. |
| Compaction.CompactMeans | app/prospecting/evidence.py:34-76 | At most the limit, in priority order, one observation per source, field and value, all from the input, none beaten by another with its key. |
| Compaction.LeftOutOnlyByLimit | app/prospecting/evidence.py:52-76 | Every observation is represented by an unbeaten one, left out only when the limit is filled by others that it does not precede. |
| Compaction.CompactIsIdempotent | app/prospecting/evidence.py:34-76 | Compacting again changes nothing. |
| Compaction.KeptIsBest | app/prospecting/evidence.py:38-49 | Of the observations with one key the most confident is kept, and of those the most recent. |
| Compaction.SameKeyIff | app/prospecting/evidence.py:38-44 | Observations repeat each other exactly if provider, source, field and normalised value agree; a record id names the source before a URL. |
| Compaction.PrecedesIff | app/prospecting/evidence.py:52-74 | The order is by field, provider, text of the field, confidence and recency. |
| Compaction.FieldsByImportance | app/prospecting/evidence.py:53-66 | Names before tax numbers, contacts, codes, addresses and the rest, for the record and its locations alike. |
| Planner.ForeignTradePlanner.AddFactoryDays | app/foreign_trade/planning.py:74-81 | The day-by-day loop reaches the working day that lies the given number of working days ahead. |
| Planner.ForeignTradePlanner.ProjectedArrival | app/foreign_trade/planning.py:55-61 | Production takes working days; travel and customs take calendar days after it. |
| Planner.ForeignTradePlanner.RequiredOrderDate | app/foreign_trade/planning.py:63-72 | The day-by-day loop reaches the working day that lies the given number of working days back. |
| Planner.ArrivalOfOrderDate | app/foreign_trade/planning.py:55-72 | Ordering on the required date, goods arrive on the desired day when production can end on its day, and otherwise as if it ended on the first working day after it. |
| Planner.OrderDateOfArrival | app/foreign_trade/planning.py:55-72 | The required order date of a projected arrival is the latest working day on or before the order. |
| Planner.ArrivalIsMonotone | app/foreign_trade/planning.py:55-61 | Ordering later never brings goods earlier. |
| Planner.ArrivalCountsWorkingDays | app/foreign_trade/planning.py:55-61 | Between the order and the end of production lie exactly the production days outside the shutdown months, the last of them the end itself. |
| Planner.OrderDateCountsWorkingDays | app/foreign_trade/planning.py:63-72 | From the required order date on, exactly the production days outside the shutdown months are left. |
| Planner.ArrivalTakes95To124Days | app/foreign_trade/planning.py:10-19 | Under the default policy goods arrive 95 to 124 days after the order, whatever the date. |
| Calendar.MonthIs | app/foreign_trade/planning.py:70 | The month of a day number is the month of its Gregorian date. |
| Calendar.LeapYears | app/foreign_trade/planning.py:70 | Every fourth year is a leap year, but of the centuries only every fourth. |
| Calendar.KnownDays | app/foreign_trade/planning.py:70 | Day numbers are those of `date.toordinal`: 1 January of the years 1, 1970 and 2000. |
| Calendar.FourCenturies | app/foreign_trade/planning.py:70 | 400 years have 146097 days. |
| Batching.Batches | app/hub/crm.py:180-203 | The loop computes the greedy batches. |
| Batching.BatchesAreAPartition | app/hub/crm.py:180-203 | The batches join back to the input in order; each is non-empty, with at most 25 records and at most 64 KiB unless it is a single record. |
| Batching.BatchesAreFewest | app/hub/crm.py:180-203 | No partition in order within those limits has fewer parts. |
| Budget.MemoryGooglePlacesBudget.constructor | app/prospecting/budget.py:118-124 | A new ledger agrees with the empty log. |
| Budget.MemoryGooglePlacesBudget.RollPeriods | app/prospecting/budget.py:126-134 | Starting a new day or month keeps the counters equal to the sums over the log. |
| Budget.MemoryGooglePlacesBudget.Reserve | app/prospecting/budget.py:136-160 | Under a clock that does not go back, the running counters stay the sums over the log of allowed reservations, and the answer is the one the persistent ledger gives. |
| Budget.PeriodSums | app/prospecting/budget.py:196-217 | The sums since midnight and since the first of the month are those of the day and of the month. |
| Budget.DecisionMeans | app/prospecting/budget.py:81-112 | A reservation is allowed exactly if none of the three projected spends exceeds its limit, and then spent; the reason is the first limit exceeded, from the run to the month; an alert is given exactly if it is allowed and some spend reaches the alert share of its limit. |
| Budget.BudgetsHold | app/prospecting/budget.py:179-236 | Whatever is requested in the order of the clock, no run, day or month ever spends more than its budget. |
| Purchase.SelectLines | app/foreign_trade/catalog.py:660-684 | The loop computes the specified picks, and what remains is the caps minus the totals. |
| Purchase.UnitsAreMost | app/foreign_trade/catalog.py:664-671 | A line takes whole cartons within its recommendation, budget and volume, and not one carton less than possible. |
| Purchase.ProposalIsMaximal | app/foreign_trade/catalog.py:660-684 | The proposal costs at most USD 70 000 FOB, fits the container, is in whole cartons within each recommendation, and no row can grow by a carton within what is left. |
| Purchase.EarlierRowsFirst | app/foreign_trade/catalog.py:660-684 | Each row takes as many whole cartons as its recommendation and what the rows before it have left allow. |
| Purchase.LinesArePicks | app/foreign_trade/catalog.py:660-684 | The lines of the proposal are exactly the rows of which something is taken, with the units taken. |
| Purchase.FloorIsGreatest | app/foreign_trade/catalog.py:446-449 | The largest number of whole cartons up to the quantity. |
| Purchase.CeilIsLeast | app/foreign_trade/catalog.py:440-443 | The smallest number of whole cartons from the quantity on. |
| Rut.CheckDigit | app/normalization/rut.py:6-17 | The loop computes the specified check character. |
| Rut.NormalizeRut | app/normalization/rut.py:20-41 | Nothing for a missing, short, non-numeric or zero number or a wrong check character; otherwise the number without leading zeros, a dash and the check character. |
| Rut.ExactlyOneCheck | app/normalization/rut.py:6-17 | Every positive body, of any length, has exactly one accepted check character. |
| Rut.AcceptedIffMultipleOf11 | app/normalization/rut.py:6-41 | A number is accepted exactly if it is positive and its weighted sum and check value add up to a multiple of 11. |
| Rut.TotalIsWeighted | app/normalization/rut.py:7-11 | Each digit counts with the weight of its place: 2 to 7 from the right, again and again. |
| Rut.NormalForm | app/normalization/rut.py:20-41 | The accepted form has the digits of the number without leading zeros, a dash, and the check character as a capital. |
| Rut.PunctuationIsIgnored | app/normalization/rut.py:3-28 | Characters that are neither a digit nor a K make no difference. |
| Rut.NormalizeIsIdempotent | app/normalization/rut.py:20-41 | Normalising an accepted number again changes nothing. |
| Rut.ReplacedDigitIsRejected | app/normalization/rut.py:6-41 | Replacing one digit of the body of an accepted number is always rejected. |
| Rut.SwappedDigitsAreRejected | app/normalization/rut.py:6-41 | Swapping two unequal neighbouring digits of the body is always rejected. |

## Left out

- SQL sessions, row and advisory locks, migrations: each locked method is one atomic step, and the in-memory store is
  the one modelled. Failures of the storage itself inside a method are not modelled.
- Two workers that share one store in the class: there the store is one object used by one worker. The state machine of
  `SharedStores` has the general case.
- HTTP adapters, provider clients, web routes, templates and scripts: plumbing.
- Background heartbeat tasks: a heartbeat is a step that can happen at any point of a session; in the loop methods its
  findings are parameters.
- Enrichment jobs of `poll_once`, and the retention purge of the outbox.
- The candidate pool of `save_candidates` across runs: the protocol takes the list it keeps as given.
- Quality scoring, classification and validation of candidates, and all text normalisation and fuzzy scoring: functions
  given as parameters.
- Error texts, and fields that are only copied: the name, the disposition that a merged record gets, other market signals.
- Dates outside the years 1 to 9999, where Python raises: day numbers are unbounded, and a policy has some open month.
- Decimal rounding and binary floating point: amounts are exact rationals and cartons hold whole numbers of units.
- The order of urgency of the purchase rows, their landed costs and all report builders: field lookups and sums.
- MemoryStore.MemoryWorkerStore.EnsureRun: the expansion of the campaign when `claim.tasks` is absent and the error of `validate_claimed_task` are left out; records are values in maps, so aliasing between records is not modelled.
- MemoryStore.MemoryWorkerStore.MarkOutboxDelivered: a key names its run, so the search over all runs finds at most one holder.
- Worker.ProspectingWorker.ExecuteTask: partitioning by the candidate pool and enrichment are left out; what a search keeps is a parameter.
- Worker.ProspectingWorker.ProcessClaim: task ids are not shared between runs of the store, and `patience` bounds how often it waits for a stranded task, which the source does until it is stopped.
- Budget.MemoryGooglePlacesBudget.Reserve: the equality with the log is claimed only for a clock that does not go back.
