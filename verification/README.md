# Rustvello in Dafny

A model of the protocols and stateful structures at the core of Rustvello, a
distributed task engine, with proofs of what they guarantee over every input,
every interleaving and every crash.

| files | what they model |
|---|---|
| `Exporter.dfy`, `ExporterInvariant.dfy`, `ExporterTheorems.dfy`, `ExporterProgress.dfy`, `ExporterFigures.dfy` | the bounded asynchronous telemetry exporter: producers, flush and shutdown callers and the worker, one step per atomic access or channel operation |
| `TriggerOutbox.dfy`, `TriggerRegistry.dfy`, `TriggerEvaluation.dfy` | the trigger claim batch, the in-memory store with its condition index, and trigger evaluation |
| `TriggerProtocol.dfy`, `TriggerGuarantees.dfy` | concurrent evaluators and publishers over one store, every store call a step, every process able to crash between two |
| `Cron.dfy` | cron slots and the compare-and-swap race of runners with arbitrary clocks |
| `Broker.dfy`, `BrokerRuns.dfy` | the in-memory priority broker |
| `Workflow.dfy` | deterministic workflow replay with backend failures and crashes |
| `ClientData.dfy` | the client data store manager: reference keys, size routing and the LRU cache |
| `Json.dfy`, `JsonRoundTrip.dfy`, `Arguments.dfy` | JSON as serde_json prints and reads it; splitting and rebuilding call arguments |
| `Abandon.dfy` | the attempt-abandon signal and its hooks |
| `Execution.dfy` | execution identities over retries and recoveries |
| `Wrappers.dfy` | the option and result types the modules share |
| `StateIndex.dfy` | the state backend's derived indexes, workflow runs and paging |

Protocols that are about interleaving (exporter, trigger outbox, cron race,
abandon signal) are transition systems whose steps are the source's atomic
accesses, lock sections and store calls. Objects that one lock protects are
classes whose methods are proved against specification functions, and the
theorems are about those functions over whole histories.

## What the proofs found

- The documented rule that a cron slot fires at most 120 seconds late is off by
  almost a second: the age is truncated to whole seconds, so a slot fires until
  it is 121 seconds old (`SlotDueMeaning`, `LateSlotStillFires`).
- Evaluation through the condition index equals a scan of all definitions if and
  only if no pending condition still lists an AND definition that was
  re-registered without conditions (`IndexedEqualsScan`, `StaleEntryFires`).
- A completed run can become pending again when a slow evaluator stores its
  record late (`CompletedRunCanReopen`); it stays completed for good if and only
  if no evaluation is about to store a record of it (`StaysCompleteIff`). The
  derived invocation id keeps it to one invocation either way.
- Re-running a crashed claim batch converges if and only if no unclaimed run of
  the batch has a different record already (`ConvergesIff`), which holds in every
  store the protocol reaches.
- The exporter's `exported` can exceed its `accepted`
  (`ExportedCanOvertakeAccepted`, with the exact condition in
  `ProcessedExceedsAcceptedIff`): flush is sound only because of the in-flight
  barrier.
- A broker call keeps languages apart if and only if it is not a retrieval, from
  a valid queue, that names neither a language nor a task (`HarmlessIff`, with a
  run in `UnfilteredRetrievalDisturbs`).
- An executor that goes on after a failed call leaves a gap in the stored
  sequences if and only if the call failed before its result was stored
  (`GoingOnIff`, with a run in `LostWriteLeavesGap`). Replay, order of times and the absence of overwrites hold
  however executors go on.
- The client data cache is transparent in every history if and only if no
  reference key is given two values, by colliding texts or by direct writes
  (`TransparentIff`, with a lying history in `ClashLies`). One direct write is
  safe among ordinary operations if and only if its key is no reference or no text
  offered for storing has that key and another value (`DirectWriteIsSafeIff`,
  `DirectWriteLies`).
- Rebuilding fails to undo splitting exactly for objects whose only key is
  `__args__` and for values nested deeper than the reader allows
  (`RebuildUndoesSplit`).
- The parent and workflow indexes follow an invocation's first upsert; they equal
  a scan of the stored invocations exactly when every invocation's current parent
  or workflow is the one of its first upsert (`LinksCurrentIff`, with a stale log in
  `MovedChildIsStale`).

## Model

| member | source | states |
|---|---|---|
| `ExporterInvariant.RunInv` | crates/rustvello-core/src/observability.rs:590-814 | the joint invariant of accounting, FIFO delivery, flush targets and closure holds in every state of every interleaving |
| `ExporterTheorems.FlushSound` | crates/rustvello-core/src/observability.rs:590-613 | if `flush` answers Ok, every event sent (so every event accepted) before it began has been exported or counted as failed, and the answer's figures cover them |
| `ExporterTheorems.NoSendAfterBarrier` | crates/rustvello-core/src/observability.rs:615-628 | once a shutdown caller has seen the in-flight count at 0, no event is ever sent again |
| `ExporterTheorems.ShutdownComplete` | crates/rustvello-core/src/observability.rs:795-814 | when the worker has exited the queue is empty, accepted = exported + failed = sent, and the exporter's `shutdown` ran exactly once; before that it never ran |
| `ExporterTheorems.ShutdownOkIsFinal` | crates/rustvello-core/src/observability.rs:642-681 | a `shutdown` that answers Ok, among any number of callers, reports final figures with everything accepted exported or failed |
| `ExporterTheorems.ShutdownSendNeverFails` | crates/rustvello-core/src/observability.rs:629-641 | only one caller ever holds the shutdown target, the target is the number of sent events, and sending it never fails |
| `ExporterTheorems.EventAccounting` | crates/rustvello-core/src/observability.rs:683-714 | sent = exported and failed + batch + queue in send order = accepted + sent-but-uncounted, without repeats; batches are consecutive slices within the configured size |
| `ExporterFigures.FiguresAreExact` | crates/rustvello-core/src/observability.rs:683-785 | over every run `exported` is the length of the batches whose exporter call succeeded, `export_failed` that of those whose call failed, rejected calls are those that read a gate not open, sent events those of the calls that found it open and the queue not full, and all others are dropped |
| `ExporterFigures.FlushReports` | crates/rustvello-core/src/observability.rs:608-613 | each figure of an Ok flush stood in some state after its target was read; exported and failed are the lengths of the batches that succeeded and failed by then |
| `ExporterFigures.ShutdownReports` | crates/rustvello-core/src/observability.rs:642-681 | an Ok shutdown reports the batches that succeeded, those that failed and everything sent over the whole run, and dropped and rejected figures that stood while it waited |
| `ExporterFigures.ShortBatchMeansEmptyQueue` | crates/rustvello-core/src/observability.rs:764-769 | a batch short of its size is exported only when the queue ran empty |
| `ExporterFigures.FlushFailsExactlyWhen` | crates/rustvello-core/src/observability.rs:590-613 | a flush fails exactly on a timeout, a gate not open, a full control queue or a worker gone |
| `ExporterFigures.ShutdownFailsExactlyWhen` | crates/rustvello-core/src/observability.rs:668-681 | a waiting shutdown caller that goes on fails exactly when the exporter's own `shutdown` failed |
| `ExporterFigures.FlushCanSucceed` | crates/rustvello-core/src/observability.rs:590-613 | with any exporter some run answers a flush |
| `ExporterFigures.ShutdownCanSucceed` | crates/rustvello-core/src/observability.rs:615-681 | with an exporter that does not fail some run answers a shutdown |
| `ExporterTheorems.EveryCallCountedOnce` | crates/rustvello-core/src/observability.rs:683-704 | with no call in progress every call counts in exactly one of accepted and dropped, and exactly the accepted ones were sent |
| `ExporterTheorems.ExportedCanOvertakeAccepted` | crates/rustvello-core/src/observability.rs:693-696 | a run in which `exported` exceeds `accepted` |
| `ExporterTheorems.ProcessedExceedsAcceptedIff` | crates/rustvello-core/src/observability.rs:690-714 | exported + failed exceeds accepted exactly when more sent events are uncounted than wait in queue and batch |
| `ExporterProgress.RunKept` | crates/rustvello-core/src/observability.rs:590-647 | in every reachable state each sent flush is answered, in the worker's hands or queued, none aims beyond the events sent, and the elected shutdown caller that waits has handed its target over |
| `ExporterProgress.FlushIsAnswered` | crates/rustvello-core/src/observability.rs:739-794 | from every reachable state the worker alone, whatever its exporter does, answers a sent flush, or exits if a shutdown target is on its way |
| `ExporterProgress.ShutdownIsServed` | crates/rustvello-core/src/observability.rs:739-814 | once the elected shutdown caller waits, the worker alone exits with everything sent processed, and every waiting caller can return |
| `TriggerOutbox.ClaimAllAnywhere` | crates/rustvello-mem/src/trigger.rs:401-423 | what a claim batch leaves, run by run: which claims exist, which records are kept and which are stored |
| `TriggerOutbox.FirstsMeaning` | crates/rustvello-core/src/trigger.rs:186-199 | a record of a batch reports its claim exactly when the run was free and no earlier record of the batch has it |
| `TriggerOutbox.CrashConverges` | crates/rustvello-core/src/trigger.rs:180-203 | crashing at any claim boundary and re-running the batch gives the same claims, records and valid conditions as an undisturbed run and overwrites nothing |
| `TriggerOutbox.ManyCrashesConverge` | crates/rustvello-core/src/trigger.rs:180-203 | the same after any number of crashed attempts |
| `TriggerOutbox.BatchIsIdempotent` | crates/rustvello-core/src/trigger.rs:180-203 | re-running a batch that was complete, its reply lost, changes nothing, from any store |
| `TriggerOutbox.ConvergesIff` | crates/rustvello-core/src/trigger.rs:180-203 | from an arbitrary store, re-running converges after every crash if and only if no free run of the batch has another record |
| `TriggerRegistry.MemTriggerStore.ClaimTriggerRunsWithRecords` | crates/rustvello-mem/src/trigger.rs:401-423 | the one-lock batch computes the batch specification and reports the first claims |
| `TriggerRegistry.ClaimInOrder` | crates/rustvello-core/src/trigger.rs:180-203 | the ordered default sequence ends in the same state as the one-lock batch, and a failure at a crash point leaves exactly that prefix |
| `TriggerRegistry.MemTriggerStore.RegisterTrigger` | crates/rustvello-mem/src/trigger.rs:164-183 | registration stores the definition, lists it once under each condition, and keeps the index |
| `TriggerRegistry.MemTriggerStore.GetTriggersForCondition` | crates/rustvello-mem/src/trigger.rs:193-209 | the existing definitions of the ids listed under the condition, in list order |
| `TriggerRegistry.MemTriggerStore.RemoveTriggersForTask` | crates/rustvello-mem/src/trigger.rs:211-235 | removes exactly the task's definitions and their index entries, in whatever order |
| `TriggerRegistry.MemTriggerStore.RecordValidCondition` | crates/rustvello-mem/src/trigger.rs:237-243 | the pending conditions with this one added or replaced |
| `TriggerRegistry.MemTriggerStore.ClearValidConditions` | crates/rustvello-mem/src/trigger.rs:250-256 | exactly the named conditions are gone |
| `TriggerRegistry.MemTriggerStore.ClaimTriggerRun` | crates/rustvello-mem/src/trigger.rs:286-296 | the first claim of a run answers true and every later one false |
| `TriggerRegistry.RegisterIndexed` | crates/rustvello-mem/src/trigger.rs:164-183 | registration keeps every definition listed under each of its conditions, once |
| `TriggerRegistry.RemoveIndexed` | crates/rustvello-mem/src/trigger.rs:211-235 | removal keeps it too |
| `TriggerEvaluation.IndexedEqualsScan` | crates/rustvello-core/src/trigger.rs:492-592 | the runs found through the index are exactly those of a full scan, if and only if no stale empty AND definition is listed |
| `TriggerEvaluation.HistoryIndexedEqualsScan` | crates/rustvello-mem/src/trigger.rs:164-235 | after any history of registrations and removals that does not register an id both with conditions and as an AND definition without any, indexed evaluation is the scan |
| `TriggerEvaluation.DeterminedIndexedEqualsScan` | crates/rustvello-mem/src/trigger.rs:164-235 | the same after any history in which a trigger id determines its condition list |
| `TriggerEvaluation.StaleEntryFires` | crates/rustvello-mem/src/trigger.rs:164-183 | a history after which the index fires a run the scan does not |
| `TriggerEvaluation.OrCandidatesDistinct` | crates/rustvello-core/src/trigger.rs:564-590 | with no condition listed twice an OR trigger has exactly the runs of the pending valid conditions of its list, each once |
| `TriggerEvaluation.OrIsPlanned` | crates/rustvello-core/src/trigger.rs:564-590 | a run is planned for every OR trigger read that lists a pending condition |
| `TriggerEvaluation.AndIsPlanned` | crates/rustvello-core/src/trigger.rs:521-563 | a run is planned for every satisfied AND trigger read |
| `TriggerEvaluation.ConsumedHasTrigger` | crates/rustvello-core/src/trigger.rs:516-592 | a condition is consumed only by a trigger that lists it and fires |
| `TriggerEvaluation.ConsumedExactly` | crates/rustvello-core/src/trigger.rs:552-589 | an evaluation consumes exactly the pending conditions listed by an OR trigger read, or by an AND trigger read whose conditions are all pending |
| `TriggerEvaluation.NothingConsumed` | crates/rustvello-core/src/trigger.rs:594-596 | without a candidate nothing is consumed, so returning early clears nothing |
| `TriggerEvaluation.RecordIsFaithful` | crates/rustvello-core/src/trigger.rs:629-663 | every planned record is unexecuted under its run's derived invocation, carries its trigger's task, logic and arguments, and its run id names exactly its participants: for an AND trigger the first pending one of each condition |
| `TriggerEvaluation.PlanRuns` | crates/rustvello-core/src/trigger.rs:516-592 | the planning loops compute exactly the candidates and the consumed conditions |
| `TriggerEvaluation.FindTriggers` | crates/rustvello-core/src/trigger.rs:492-515 | exactly the definitions the index lists under pending conditions, each once |
| `TriggerEvaluation.EvaluateTriggerRuns` | crates/rustvello-core/src/trigger.rs:492-613 | one evaluation on the in-memory store performs the claim batch of its plan and reports, in order, exactly the candidates whose run was free and that no earlier candidate has |
| `TriggerEvaluation.ReportedRuns` | crates/rustvello-core/src/trigger.rs:609-613 | a run is reported exactly when some candidate finds it free, and then once |
| `TriggerEvaluation.NoRunReportedTwice` | crates/rustvello-core/src/trigger.rs:609-613 | two evaluations in a row report no run both |
| `TriggerProtocol.RunInv` | crates/rustvello-core/src/trigger.rs:180-203 | the protocol invariant over every interleaving of evaluators, publishers and crashes |
| `TriggerGuarantees.NoLostFiring` | crates/rustvello-core/src/trigger.rs:516-613 | whenever a valid condition disappears, an evaluation consumed it and every run that evaluation planned is claimed and recorded from then on |
| `TriggerGuarantees.OnePlannedInvocation` | crates/rustvello-core/src/trigger.rs:629-663 | every record of a run at every time carries the run's derived invocation, planned and attached |
| `TriggerGuarantees.AtMostOneInvocation` | crates/rustvello/src/orchestration/triggers.rs:52-108 | at most one invocation is ever created for a run, under its derived id |
| `TriggerGuarantees.AtMostOneReport` | crates/rustvello-core/src/trigger.rs:609-613 | at most one evaluation, at one position of its batch, ever reports a run as claimed |
| `TriggerGuarantees.CompletedRunCanReopen` | crates/rustvello-core/src/trigger.rs:676-697 | a run in which a completed record becomes pending again |
| `TriggerGuarantees.ReopensExactlyWhen` | crates/rustvello-core/src/trigger.rs:186-199 | a completed record becomes pending exactly in the late store of an evaluation |
| `TriggerGuarantees.StaysCompleteIff` | crates/rustvello-core/src/trigger.rs:186-199 | in every reachable state a completed run stays completed in every continuation if and only if no evaluation is about to store a record of it |
| `Cron.SlotDueMeaning` | crates/rustvello-core/src/trigger.rs:38-48 | a past slot is due exactly when it is less than 121 seconds old and later than the last execution |
| `Cron.LateSlotStillFires` | crates/rustvello-core/src/trigger.rs:38-48 | a slot more than 120 seconds old that is due |
| `Cron.FiringIsSound` | crates/rustvello-core/src/trigger.rs:431-459 | any firing, with any clock, is of a slot after the last execution, within the grace and the minimum interval |
| `Cron.FiresExactlyWhen` | crates/rustvello-core/src/trigger.rs:425-459 | a condition fires exactly when its latest slot is under 121 seconds old and, after an execution, later than it with the minimum interval kept, in nanoseconds |
| `Cron.UndisturbedRunnerFires` | crates/rustvello-core/src/trigger.rs:410-480 | from any state an undisturbed runner fires, stores and records exactly when the condition is due by the stored execution |
| `Cron.RecordedMeaning` | crates/rustvello-core/src/trigger.rs:467-474 | afterwards every firing's condition is pending under its name and nothing else has changed |
| `Cron.PassMeaning` | crates/rustvello-core/src/trigger.rs:410-480 | one pass fires each condition id once at most, exactly when a condition of that id is due by the execution stored before the pass, and stores its time and no other |
| `Cron.StoreCronExecution` | crates/rustvello-mem/src/trigger.rs:266-284 | the time is written exactly when the stored one is the expected one |
| `Cron.EvaluateCronConditions` | crates/rustvello-core/src/trigger.rs:410-480 | an undisturbed pass fires, stores and records as `PassMeaning` says |
| `Cron.CronFiresOnce` | crates/rustvello-core/src/trigger.rs:410-480 | for any interleaving of runners, crashes and clocks, fired slots and execution times strictly increase and keep the minimum interval |
| `Cron.CronWithinGrace` | crates/rustvello-core/src/trigger.rs:38-48 | every firing is of the latest slot its clock knew, within the grace, and records at most one valid condition |
| `Cron.StoredTimesIncrease` | crates/rustvello-mem/src/trigger.rs:266-284 | the stored last-execution time never goes back and changes only upward |
| `Broker.BestMeaning` | crates/rustvello-mem/src/broker.rs:142-156 | the scan finds the first matching entry in delivery order, or none exactly when none matches |
| `BrokerRuns.RetrievalMeaning` | crates/rustvello-mem/src/broker.rs:134-195 | field by field: the delivered entry is of the queue, due, of the task or language asked for, of the highest priority (+0 over -0) and the earliest among equals; nothing is delivered exactly when no entry is asked for |
| `BrokerRuns.HigherPriorityFirst` | crates/rustvello-mem/src/broker.rs:150-155 | an entry is never delivered while one of greater priority could be |
| `BrokerRuns.RoutingMeaning` | crates/rustvello-core/src/broker.rs:14-32 | which queue names and priorities are accepted, character code by character code |
| `Broker.MemBroker.RouteInvocationWithOptions` | crates/rustvello-mem/src/broker.rs:74-93 | appends the entry exactly when queue name and priority are valid |
| `Broker.MemBroker.RouteInvocationAfter` | crates/rustvello-mem/src/broker.rs:99-118 | appends the entry with its not-before time under the same check |
| `Broker.MemBroker.Retrieve` | crates/rustvello-mem/src/broker.rs:134-195 | removes exactly the selected entry and leaves the rest in arrival order; an invalid queue name changes nothing |
| `Broker.MemBroker.CountInvocationsInQueues` | crates/rustvello-mem/src/broker.rs:205-223 | counts exactly the due entries of the named queues and task, or fails exactly for an invalid name |
| `Broker.MemBroker.Purge` | crates/rustvello-mem/src/broker.rs:229-236 | keeps exactly the entries of other tasks, in order |
| `Broker.MemBroker.RetrieveInvocations` | crates/rustvello-core/src/broker.rs:168-182 | the batch loop computes repeated retrieval from the default queue, capped at 10000 |
| `BrokerRuns.BatchIsStableSort` | crates/rustvello-core/src/broker.rs:163-182 | a batch yields the first min(max, 10000, count) entries asked for, falling in priority value and in arrival order among equals, and leaves the rest in arrival order |
| `BrokerRuns.StableSortExists` | crates/rustvello-mem/src/broker.rs:142-156 | every queue has such a stable sort |
| `BrokerRuns.DeliveredOnceAndNotEarly` | crates/rustvello-mem/src/broker.rs:73-118 | over every run a delivered entry was routed, is delivered once, is neither queued nor purged, and was due |
| `BrokerRuns.RunConserves` | crates/rustvello-mem/src/broker.rs:73-236 | over every run each routed entry is in exactly one of queue, deliveries and purged entries |
| `BrokerRuns.LanguagesAreIsolated` | crates/rustvello-mem/src/broker.rs:134-195 | over every run of routings, purges and retrievals that name a language or a task, the sequence delivered to one language is the one it would get if the other language never retrieved |
| `BrokerRuns.UnfilteredRetrievalDisturbs` | crates/rustvello-mem/src/broker.rs:134-157 | a run in which an unfiltered retrieval makes what one language gets depend on the other |
| `BrokerRuns.HarmlessIff` | crates/rustvello-mem/src/broker.rs:134-195 | a call keeps languages apart in all such runs if and only if it is not a retrieval from a valid queue that names neither a language nor a task |
| `Workflow.DeterministicExecutor.DeterministicOperation` | crates/rustvello-core/src/workflow.rs:130-171 | replays the stored value of the next sequence or stores a new one, with a failure at any backend call |
| `Workflow.DeterministicExecutor.UtcNow` | crates/rustvello-core/src/workflow.rs:218-232 | establishes or reads the base time and runs the time operation on it |
| `Workflow.ReplayIsDeterministic` | crates/rustvello-core/src/workflow.rs:130-171 | over any history of executors, failures and crashes, also of executors that go on after a failure, the same operation and sequence always returns the same value |
| `Workflow.NeverOverwritten` | crates/rustvello-core/src/workflow.rs:130-193 | from any state on, stored results and the base time are never overwritten, and every value returned is stored |
| `Workflow.PrefixKept` | crates/rustvello-core/src/workflow.rs:130-193 | stored sequences form a prefix 1..k over any run whose executors stop, or go on only after failures that left the result stored |
| `Workflow.TimesIncrease` | crates/rustvello-core/src/workflow.rs:173-232 | every `utc_now` value is the stored base time plus one second per sequence, across crashes |
| `Workflow.TotalsNeverAhead` | crates/rustvello-core/src/workflow.rs:156-170 | over any history a total count is the number of a stored sequence |
| `Workflow.TotalKeepsUp` | crates/rustvello-core/src/workflow.rs:156-170 | a call that stores without failure leaves a total at least its sequence |
| `Workflow.WholeReplay` | crates/rustvello-core/src/workflow.rs:130-232 | a later executor making the calls of an earlier one gets all its values, whatever its generators and clock give and whatever executors, failures and crashes came between |
| `Workflow.ExecutionReplays` | crates/rustvello-core/src/workflow.rs:130-232 | such a replay reads only: it leaves the data as it found them |
| `Workflow.GoingOnIff` | crates/rustvello-core/src/workflow.rs:130-171 | after any such run, going on after a call keeps the prefix if and only if the call did not fail before its result was stored |
| `Workflow.LostWriteLeavesGap` | crates/rustvello-core/src/workflow.rs:150-154 | a run in which going on after a lost write leaves a gap |
| `ClientData.ReferenceKeyMeaning` | crates/rustvello-core/src/client_data_store.rs:54-70 | a generated key is a reference, and two texts share one exactly when their digests agree |
| `ClientData.HexMeaning` | crates/rustvello-core/src/client_data_store.rs:59-70 | each digest byte is two digits of 0123456789abcdef, the high one first |
| `ClientData.ClientDataStoreManager.GenerateReferenceKey` | crates/rustvello-core/src/client_data_store.rs:59-70 | the hex loop builds the prefix and two lower-case digits per byte |
| `ClientData.ClientDataStoreManager.StoreIfLarge` | crates/rustvello-core/src/client_data_store.rs:107-152 | inline, reference and external cases, with the backend write failing lost or applied |
| `ClientData.ClientDataStoreManager.Resolve` | crates/rustvello-core/src/client_data_store.rs:156-183 | cache hit, miss and error cases and the new order of the cache |
| `ClientData.ClientDataStoreManager.Purge` | crates/rustvello-core/src/client_data_store.rs:196-204 | clears the cache first and then the backend |
| `ClientData.CacheIsTransparent` | crates/rustvello-core/src/client_data_store.rs:93-204 | over any history the cache stays within max(1, size), agrees with the backend, the backend is that of a manager without a cache, and `resolve` answers as that manager would |
| `ClientData.StoredTextResolves` | crates/rustvello-core/src/client_data_store.rs:107-183 | what `store_if_large` returned for a text that is no reference resolves to the text, under every configuration, until a purge |
| `ClientData.CacheIsLeastRecentlyUsed` | crates/rustvello-core/src/client_data_store.rs:93-183 | the cached keys are the most recently used ones since the last purge, in order, as many as the capacity allows |
| `ClientData.InlineExactlyWhen` | crates/rustvello-core/src/client_data_store.rs:107-152 | a text stays inline exactly when the store is disabled, it is a reference or its UTF-8 size is out of bounds; otherwise a reference replaces it |
| `ClientData.ByteLengthMeaning` | crates/rustvello-core/src/client_data_store.rs:117-120 | the size compared is the length in UTF-8: one byte a character and one more from U+0080, U+0800 and U+10000 on |
| `ClientData.TransparentIff` | crates/rustvello-core/src/client_data_store.rs:93-204 | every history over given texts and direct writes, with any resolves, purges and faults, answers as without a cache if and only if no reference key is given two values |
| `ClientData.ClashLies` | crates/rustvello-core/src/client_data_store.rs:107-188 | a history after which `resolve` answers one value where the backend holds another, for any key given two |
| `ClientData.DirectWriteIsSafeIff` | crates/rustvello-core/src/client_data_store.rs:186-188 | a direct write among ordinary operations keeps every history transparent if and only if its key is no reference or no text offered has that key and another value |
| `ClientData.DirectWriteLies` | crates/rustvello-core/src/client_data_store.rs:186-188 | storing a text and then writing another value under its key makes `resolve` answer the text |
| `JsonRoundTrip.ReadsInContext` | crates/rustvello-core/src/task.rs:194-203 | a text that reads as one value on its own reads as that value in front of a comma or closing bracket |
| `JsonRoundTrip.ParseUndoesPrint` | crates/rustvello-core/src/call.rs:31-48 | reading undoes printing for every value within the nesting limit |
| `JsonRoundTrip.ValidNumberMeaning` | crates/rustvello-core/src/task.rs:194-199 | the number tokens read are exactly those of the JSON number grammar |
| `JsonRoundTrip.JoinedObjectReads` | crates/rustvello-core/src/task.rs:183-205 | members joined under distinct sorted keys read as exactly that object |
| `Arguments.ParamsToSerializedArguments` | crates/rustvello-core/src/call.rs:23-50 | the splitting loop gives one printed text per member, sorted, or one under `__args__` |
| `Arguments.SerializedArgsToJson` | crates/rustvello-core/src/task.rs:174-207 | the buffer loop gives the raw text, the joined object, or an error exactly when some text is not JSON |
| `Arguments.RebuildUndoesSplit` | crates/rustvello-core/src/task.rs:174-207 | the rebuilt text reads back as the split value if and only if the value is within the nesting limit and not an object whose only key is `__args__` |
| `Arguments.NoStructuralInjection` | crates/rustvello-core/src/task.rs:169-207 | for arbitrary argument texts the rebuilt object has exactly the given keys with the values their texts read as alone |
| `Abandon.NoHookRunsTwice` | crates/rustvello-core/src/context.rs:437-466 | in every interleaving no hook runs twice, unregistered or before abandonment |
| `Abandon.EveryHookRunsOnce` | crates/rustvello-core/src/context.rs:437-466 | once abandoned with all calls returned, every registered hook has run exactly once and the list is empty |
| `Abandon.ListStaysEmpty` | crates/rustvello-core/src/context.rs:446-466 | once empty after abandonment the list stays empty through every further step |
| `Abandon.HooksRunInOrder` | crates/rustvello-core/src/context.rs:446-466 | of two listed hooks the one registered first runs first, in every interleaving |
| `Abandon.LostOnlyByPanic` | crates/rustvello-core/src/context.rs:457-466 | with nothing in progress a registered hook is neither listed nor run exactly when a call in which an earlier hook panicked dropped it |
| `Execution.IdentityStore.BeginExecution` | crates/rustvello-core/src/execution.rs:31-48 | reads, allocates and persists the identity, with a failure at either backend call |
| `Execution.IdentityChain` | crates/rustvello-core/src/execution.rs:31-79 | persisted attempts strictly increase, each is at least its retry count and links to the context persisted before it, the first to none |
| `Execution.AttemptsExact` | crates/rustvello-core/src/execution.rs:55-63 | the first attempt is its retry count, every later one the larger of its retry count and one more than the attempt before |
| `Execution.AttemptsConsecutive` | crates/rustvello-core/src/execution.rs:55-63 | with no retry count ahead of the counter the attempts are consecutive |
| `Execution.ReturnedIncrease` | crates/rustvello-core/src/execution.rs:31-48 | the identities handed to callers strictly increase and none is ahead of the persisted one |
| `Execution.ExhaustionIsFinal` | crates/rustvello-core/src/execution.rs:56-63 | at the largest attempt every further call fails and stores nothing |
| `Execution.FailsExactlyWhen` | crates/rustvello-core/src/execution.rs:31-63 | exactly when a call fails, and what it then leaves stored |
| `Execution.TraceStep` | crates/rustvello-core/src/observability.rs:96-128 | the trace id carries over exactly when the incoming carrier is empty, has that trace, or is unreadable while the generator draws it |
| `Execution.TraceIsConstantIff` | crates/rustvello-core/src/execution.rs:64-79 | all attempts share one trace if and only if every later call keeps the first one's |
| `Execution.TraceIsConstant` | crates/rustvello-core/src/execution.rs:64-79 | so they do when the incoming carrier is always empty or always the same readable one |
| `Execution.ContextIsConstant` | crates/rustvello-core/src/observability.rs:96-128 | with such carriers trace, flags and state are those of the carrier, or the first drawn trace, sampled and without state; each attempt has its own drawn span |
| `StateIndex.MemStateBackend.UpsertInvocation` | crates/rustvello-mem/src/state_backend.rs:81-116 | parent and workflow indexes stay equal to a scan of first upserts |
| `StateIndex.MemStateBackend.AddHistory` | crates/rustvello-mem/src/state_backend.rs:178-198 | the runner index stays the first-occurrence de-duplication of the history |
| `StateIndex.MemStateBackend.StoreWorkflowRun` | crates/rustvello-mem/src/state_backend.rs:329-344 | runs per type stay the first record of each run id |
| `StateIndex.MemStateBackend.GetInvocationIdsByRunner` | crates/rustvello-mem/src/state_backend.rs:499-519 | the requested page of the de-duplicated history of the runner |
| `StateIndex.ScanByRunner` | crates/rustvello-mongo/src/state_backend.rs:663-691 | the scan with a seen-set gives the same page as the index |
| `StateIndex.MemStateBackend.GetWorkflowRunOffset` | crates/rustvello-mem/src/state_backend.rs:268-285 | an offset exactly for stored runs: the number of greater ids |
| `StateIndex.MemStateBackend.GetWorkflowRunsPaginated` | crates/rustvello-mem/src/state_backend.rs:371-385 | the requested page of the descending order |
| `StateIndex.DistinctMeaning` | crates/rustvello-mem/src/state_backend.rs:185-190 | de-duplication keeps every id once, in the order of first occurrence |
| `StateIndex.RunsOfMeaning` | crates/rustvello-mem/src/state_backend.rs:329-344 | run ids per type are distinct, none is missing, and each is the first record stored of its run |
| `StateIndex.OffsetIsPosition` | crates/rustvello-mem/src/state_backend.rs:268-285 | a run's offset is its position in the descending order: the page there starts with it |
| `StateIndex.PagesConcatenate` | crates/rustvello-mem/src/state_backend.rs:371-385 | pages of any size concatenate to the descending order, each run once |
| `StateIndex.RunnerPagesConcatenate` | crates/rustvello-mem/src/state_backend.rs:499-519 | runner pages concatenate to the invocations with a record of that runner, by its own field or else its status, each once in the order of first occurrence; a zero limit gives all from the offset on |
| `StateIndex.PageMeaning` | crates/rustvello-mem/src/state_backend.rs:371-385 | a page holds the items from the offset on, as many as the limit unless the end comes first |
| `StateIndex.LinksCurrentIff` | crates/rustvello-mem/src/state_backend.rs:81-116 | the parent and workflow indexes equal a scan of the stored invocations exactly when every current target is that of the first upsert |
| `StateIndex.MovedChildIsStale` | crates/rustvello-mem/src/state_backend.rs:81-116 | a log of two upserts after which the parent index differs from the stored invocation |

## Left out

- Fair scheduling: progress is proved for the exporter's worker running alone from any reachable state.
- Weak memory orderings: the exporter is proved for sequentially consistent interleavings.
- Time in the exporter: a timeout is an Err outcome that can happen at any waiting point; latency counters, 64-bit wrap-around of counters and panics of the worker thread itself are not modelled.
- The exporter, the trigger protocol, the cron race and the abandon signal are modelled on values, as transition systems, because what matters is the interleaving of their atomic steps; their in-place updates appear as steps.
- In the trigger protocol the definitions an evaluation reads are arbitrary (its several index reads are not separate steps), so its guarantees hold for whatever the index returned.
- AND triggers with several pending valid conditions for one condition: the model takes the first in the order the store yields, and claims nothing about one run per firing across re-evaluations.
- The event back-links that `complete_trigger_run` writes, event storage and trigger-store purge.
- In the cron race, recording the valid condition after a won swap is a step of its own; a crash before it loses that firing, and nothing is claimed about it beyond "at most once".
- Cron expressions are known only through their previous-occurrence function; instants are integers in nanoseconds.
- The run-derived invocation id (UUID v5) is an arbitrary function of the run id; run ids are structured values instead of texts.
- SHA-256 is an arbitrary function; `CacheIsTransparent` and `StoredTextResolves` assume the stored texts do not collide (`TransparentIff` does not).
- The purge and resolve calls of the client data store are modelled one at a time; a resolve that races a purge can cache what the purge removed, which the source does not prevent either.
- JSON numbers are tokens of the grammar and are not evaluated; the nesting limit is a parameter, and parser stack use is not modelled. The reader stands for serde_json; that it rejects every text outside the grammar is proved of numbers only.
- The generators of `random` and `uuid` are arbitrary values; their seeds are not modelled.
- W3C carriers are parsed values (absent, unreadable, or a trace with a span); their text syntax and the random generators are not modelled, and generated ids are never all zeros.
- `counter:<operation>` of a workflow can lag behind after failures; it is not claimed to be an exact count.
- `MemBroker::wait_for_work`, wake-ups and broker concurrency beyond its one lock.
- Membership pages in ascending order, workflow types and workflow data of the state backend: easy members beside those proved.
- The MongoDB, SQL, Redis and RabbitMQ backends, the orchestrator and runner loops, the status machine, the Python bindings, the CLI and the monitoring server.
