# Knowledge service: durable delivery, ingestion, metric queries

A Dafny 4.11 model of the parts of the knowledge service whose correctness is hardest to see by reading one
function, with proofs of what they promise. Verify everything with `dafny verify dfyconfig.toml`.

- **Delivery** (`Tables`, `DeliverySpec`, `DurableTasks`, `DeliveryMachine`, `DeliverySafety`,
  `DeliveryProgress`, `PumpRuns`, `DeliveryWitnesses`, `DeliveryObservation`). Outbox, inbox, publisher leases,
  fenced consumer leases and dead letters. `DurableTasks.dfy` holds the transactions as methods that update tables in place, proved against the
  functions of `DeliverySpec`; `DeliveryMachine` runs any number of publishers and consumers over those
  functions, one database transaction a step, `claim_execution` as two (the unlocked SELECT, then the upsert
  with the inbox recheck). Every step carries its own clock reading and nothing says that readings grow.
- **Ingestion** (`IngestionSpec`, `IngestionTransactions`, `IngestionMachine`, then `IngestionInvariants` to
  `IngestionRecovery`). The (generation, step) cursor, the provider-operation journal,
  retries and polling, on top of the delivery machine. A handler is a small program whose points are the places between two commits or
  remote writes; it can stop at any of them, the provider answers nondeterministically, and every commit needs
  the lease and the generation. The provider policy may change between any two steps. Only `IngestionPolling`
  assumes a clock that does not run backwards.
- **Metric queries** (`Semantic`, `Expressions`, `MetricCompiler`, `MetricMeaning`, `MetricPreservation`,
  `MetricOrder`, `MetricAnswers`). Descriptions, definitions and requests compiled into a SELECT with left joins,
  a three-valued semantics for that query, and the theorem that every ordered answer, once reshaped, says of each
  selected base row exactly what the definitions say of it.
- **Two loops** (`CallRate`, `EvidenceAssembly`). The per-minute limit over whole call histories, and the
  assembly of retrieved chunks under a token budget.

Four promises one could expect turn out false of the code. Each has a concrete instance and its exact condition:

- `attempt_count <= max_attempts` is not an invariant (`AttemptsCanExceedBudget`); a claim exceeds the budget
  exactly when it takes over an expired lease of a row without attempts left (`ClaimExceedsIff`).
- An acknowledged message can be dead-lettered (`AcknowledgedCanBeBuried`), exactly through the paths that do
  not look at the inbox (`BuriedThoughAcknowledgedIff`).
- A definition that is admitted need not be queryable: when a key or label column of its base table is called
  like its applicability flag, every query built for it is refused for repeating a column name
  (`ClashIsRefused`). A metric can be answered if and only if its name with the flag's suffix is no such column
  (`AnswerableIff`), a test that admission makes for the bare name only
  (app/app/application/services/semantic_metrics.py:150-151; the refusal is at
  app/app/infrastructure/semantic/duckdb_store.py:185-188).
- An accepted job need not be able to succeed, however often it is retried (`AcceptedButBarred`). It can if and only
  if the upload operation of its identity was neither inherited from before the journal nor recorded for other
  artifact references, application or version (`MaySucceedIff`): jobs share that operation by application, version
  and dataset, but its intent also names the artifact references
  (app/app/application/services/provider_delivery.py:214-219 and 244-252, compared at 75-76).

## Model

Main results are marked; the other rows are the operations and the steps they rest on.

| member | source | states |
|---|---|---|
| Tables.ResourceInjective | app/app/infrastructure/messaging/durable_tasks.py:107 | Topics hold no ':', so a resource key names one topic and aggregate key: no two topics share an execution lease |
| DurableTasks.DurableTasks.Enqueue | app/app/infrastructure/repositories/outbox.py:15-52 | A free deduplication key stores the intent; a used one is accepted exactly for the same intent and then changes nothing |
| DurableTasks.DurableTasks.ClaimDelivery | app/app/infrastructure/messaging/durable_delivery.py:40-74 | Leases the earliest claimable row and counts the attempt; returns none only when no row is claimable |
| DurableTasks.DurableTasks.FinishDelivery | app/app/infrastructure/messaging/durable_delivery.py:76-101 | Changes the row exactly while the claim's live lease is on it; an error at the last attempt also dead-letters |
| DurableTasks.DurableTasks.Reconcile | app/app/infrastructure/messaging/durable_delivery.py:114-175 | **Main.** The two passes over all topics have the effect of a row-wise specification, whatever the order of rows; the count is the number of requeued rows |
| DurableTasks.DurableTasks.Replay | app/app/infrastructure/messaging/durable_delivery.py:177-208 | Only a message of the policy with an open dead letter is reset, with a fresh budget and its inbox row kept |
| DurableTasks.DurableTasks.SelectExecution | app/app/infrastructure/messaging/durable_tasks.py:86-106 | The unlocked SELECT of claim_execution: due, not acknowledged, no open dead letter |
| DurableTasks.DurableTasks.TakeExecution | app/app/infrastructure/messaging/durable_tasks.py:107-149 | Upsert under a lapsed lease with the next epoch, then the inbox recheck that leaves a released row |
| DurableTasks.DurableTasks.Renew | app/app/infrastructure/messaging/durable_tasks.py:151-164 | Extends exactly a lease that still passes the guard |
| DurableTasks.DurableTasks.Release | app/app/infrastructure/messaging/durable_tasks.py:166-177 | Releases only the row that still names this lease and keeps its epoch |
| DurableTasks.DurableTasks.CommitHandled | app/app/infrastructure/messaging/durable_tasks.py:187-201 | The final commit writes the inbox row exactly under a live lease |
| DurableTasks.DurableTasks.Pump | app/app/tasks/durable_delivery.py:18-35 | Reconcile, then rounds of claim, publish and finish, none of them idle and each for the first claimable row, until none is left or the limit is reached; the count is the number of messages claimed |
| PumpRuns.PumpExtendsRun | app/app/tasks/durable_delivery.py:18-35 | A pump at the end of any run is one more stretch of that run: row steps of reconcile, then a claim and its outcome, or a lost lease, for each round |
| PumpRuns.PumpKeepsPromises | app/app/tasks/durable_delivery.py:18-35 | **Main.** After a pump the tables are sound, pending rows are within budget or dead-lettered, and a row over budget was put there by a takeover of an expired lease, before the pump or in it |
| DeliveryMachine.StepKeepsInv | app/app/infrastructure/messaging/durable_delivery.py:40-208 | Every transaction of any worker keeps index, row shapes, retry budget, lease and inbox invariants under any clock |
| DeliveryMachine.StepBudget | app/app/infrastructure/messaging/durable_delivery.py:76-101 | A pending row has attempts left or an open dead letter |
| DeliveryMachine.StepClaims | app/app/infrastructure/messaging/durable_delivery.py:59-74 | A publisher whose owner is still on the row remembers the row's attempt count |
| DeliveryMachine.StepFresh | app/app/infrastructure/messaging/durable_tasks.py:131-148 | While a running consumer's row is still its own, its message is not acknowledged, although nobody looks at the inbox again |
| DeliveryMachine.RunInv | app/app/infrastructure/messaging/durable_tasks.py:86-226 | **Main.** The invariants hold in every state of every run |
| DeliverySafety.AtMostOnce | app/app/infrastructure/messaging/durable_tasks.py:179-201 | **Main.** In any run a message's final handler transaction commits at most once, and exactly when its inbox row is there |
| DeliverySafety.TakeSupersedes | app/app/infrastructure/messaging/durable_tasks.py:109-130 | Each successful claim raises the resource's epoch by one and supersedes every lease issued on it before |
| DeliverySafety.LostForever | app/app/infrastructure/messaging/durable_tasks.py:57-61 | **Main.** A lease that was superseded or released passes no guard at any later clock reading, and its late release disturbs nobody |
| DeliverySafety.ReleasedForever | app/app/infrastructure/messaging/durable_tasks.py:166-177 | In any run, after a consumer has released its lease no guard ever accepts it again |
| DeliverySafety.EpochMonotone | app/app/infrastructure/messaging/durable_tasks.py:116-120 | Along a run epochs never fall, and an equal epoch means the same owner and message |
| DeliverySafety.ConsumerLeaseLasts | app/app/infrastructure/messaging/durable_tasks.py:109-164 | A consumer lease passes the guard, and keeps others out, exactly until it runs out; a renewal starts the time afresh |
| DeliverySafety.ClaimExceedsIff | app/app/infrastructure/messaging/durable_delivery.py:48-63 | A claim pushes a row over its budget exactly when it takes over an expired lease of a row without attempts left |
| DeliverySafety.OverBudgetOnlyByTakeover | app/app/infrastructure/messaging/durable_delivery.py:48-63 | **Main.** Any row over budget in a run was put there by such a takeover |
| DeliverySafety.BuriedThoughAcknowledgedIff | app/app/infrastructure/messaging/durable_delivery.py:76-133 | **Main.** An acknowledged message is dead-lettered exactly through the exhausted pass or a last failed publish |
| DeliverySafety.ReconcileSettles | app/app/infrastructure/messaging/durable_delivery.py:114-175 | Right after reconcile no row is left for either of its passes |
| DeliverySafety.ReconcileIsRowSteps | app/app/infrastructure/messaging/durable_delivery.py:114-175 | **Main.** The reconcile transaction equals reconciling its rows one at a time in some order |
| DeliverySafety.IntentForever | app/app/infrastructure/repositories/outbox.py:30-36 | A stored message keeps its intent and its key for good |
| DeliverySafety.OneIntentPerKey | app/app/infrastructure/repositories/outbox.py:30-52 | **Main.** Producers that succeed with one key asked for the same intent, and all but the first change nothing |
| DeliverySafety.NeverEarly | app/app/infrastructure/messaging/delivery_schedule.py:10-13 | **Main.** No publisher claims and no consumer selects a message before its not-before time, however often available_at is rewritten |
| DeliveryProgress.SettledRun | app/app/infrastructure/messaging/durable_delivery.py:40-208 | Along any run, whatever still runs for a message that nobody has worked on since a reading ends within a lease or a backoff of that reading |
| DeliveryProgress.ReconcileRecovers | app/app/infrastructure/messaging/durable_delivery.py:114-175 | **Main.** In any run, whatever else happened, a reconcile more than a lease and a backoff after the last work on a message of a consumed topic leaves it acknowledged, claimable or in the dead-letter journal |
| DeliveryProgress.NeverStranded | app/app/infrastructure/messaging/durable_delivery.py:40-175 | At any point of any run there is a reading from which every reconcile leaves the message acknowledged, claimable or in the dead-letter journal |
| DeliveryWitnesses.AttemptsCanExceedBudget | app/app/infrastructure/messaging/durable_delivery.py:48-63 | **Main.** A run in which attempt_count exceeds max_attempts |
| DeliveryWitnesses.AcknowledgedCanBeBuried | app/app/infrastructure/messaging/durable_delivery.py:117-133 | **Main.** A run in which an acknowledged message is dead-lettered |
| DeliveryObservation.MessagesConserved | app/app/infrastructure/messaging/delivery_observation.py:99-105 | Where receipts are required, messages = receipts + incomplete |
| DeliveryObservation.CandidatesAreReconciled | app/app/infrastructure/messaging/delivery_observation.py:121-124 | **Main.** reconcile_candidates is the number of published messages that reconcile at that reading requeues or dead-letters |
| DeliveryObservation.PublishablePromise | app/app/infrastructure/messaging/delivery_observation.py:108-112 | The gauge is positive exactly when such a message exists, and then claim_delivery has one to return |
| IngestionTransactions.Ingestion.Operation | app/app/application/services/provider_delivery.py:51-78 | An intent is recorded once; a legacy row or another intent is an error, and nothing commits without the fence |
| IngestionTransactions.Ingestion.Start | app/app/application/services/provider_delivery.py:81-96 | Claims an operation exactly when it is still intended; a second start cannot |
| IngestionTransactions.Ingestion.Confirm | app/app/application/services/provider_delivery.py:99-113 | Stores a receipt unless a different one is confirmed; confirmed rows never change |
| IngestionTransactions.Ingestion.MarkUnknown | app/app/application/services/provider_delivery.py:116-125 | Only an executing operation becomes unknown |
| IngestionTransactions.Ingestion.Submit | app/app/application/services/knowledge_ingestion_service.py:96-171 | A new key creates an accepted job with its command; a known key must mean the same source and dispatches a live job again |
| IngestionTransactions.Ingestion.Retry | app/app/application/services/knowledge_ingestion_service.py:456-526 | Exactly terminal, unsucceeded jobs restart under the next generation with the verified upload kept |
| IngestionTransactions.Ingestion.Process | app/app/application/services/knowledge_ingestion_service.py:562-585 | Which commands are refused, acknowledged as obsolete, served, or ahead of the cursor |
| IngestionTransactions.Ingestion.Complete | app/app/application/services/knowledge_ingestion_service.py:600-720 | **Main.** Job row, version row, successor command and inbox row commit together or not at all |
| IngestionTransactions.FinalCoreIsFinalDb | app/app/application/services/knowledge_ingestion_service.py:704-720 | The machine's last handler step changes the delivery tables as that transaction does |
| IngestionSteps.AllowsJournal | app/app/application/services/provider_delivery.py:51-125 | Each handler commit only moves operations forward |
| IngestionSteps.IdentitiesApart | app/app/infrastructure/messaging/durable_tasks.py:107-130 | Two handlers whose rows are both still their own serve different upload identities |
| IngestionSteps.OwnCommand | app/app/application/services/knowledge_ingestion_service.py:575-585 | A handler that passes its guards holds the unacknowledged command of its job's current cursor |
| IngestionPosts.ContinueInFlight | app/app/application/services/provider_delivery.py:436-463 | A commit keeps at most one parse submission per identity executing or unknown |
| IngestionPosts.ContinueCheck | app/app/application/services/provider_delivery.py:441-463 | What the unfinished query saw stays true until the handler's own start, while its lease row is its own |
| IngestionPosts.ContinuePosts | app/app/application/services/provider_delivery.py:162-185 | Each remote write is issued once, for a claimed operation, by one handler |
| IngestionEnds.FinishLive | app/app/application/services/knowledge_ingestion_service.py:704-720 | Cursor, successor and acknowledgement commit together, so live jobs keep an unacknowledged current command |
| IngestionEnds.FinishBound | app/app/application/services/knowledge_ingestion_service.py:343-416 | Success binds a version row to the confirmed document and later successes of the same version bind the same document |
| IngestionSafety.StepKeepsInv | app/app/application/services/knowledge_ingestion_service.py:96-720 | Every step of users, operators, delivery and handlers keeps the ingestion invariants under any clock |
| IngestionSafety.RunInv | app/app/application/services/provider_delivery.py:294-522 | **Main.** They hold in every state of every run |
| IngestionTheorems.OperationsNeverRegress | app/app/application/services/provider_delivery.py:51-125 | **Main.** Over a run no operation is forgotten, changes its intent, returns to intended, or changes once confirmed |
| IngestionTheorems.CursorsNeverRegress | app/app/application/services/ingestion_execution.py:35-56 | **Main.** The cursor grows lexicographically, keeps its upload, and within a generation its deadline, interval and poll phase |
| IngestionTheorems.PollsReadyByDeadline | app/app/application/services/knowledge_ingestion_service.py:704-706 | A scheduled poll is never due after the deadline, whatever the clock does |
| IngestionTheorems.FencedForGood | app/app/application/services/ingestion_execution.py:84-110 | **Main.** No worker of generation g commits once its job has been at a later one |
| IngestionTheorems.AtMostOnePost | app/app/application/services/provider_delivery.py:81-96 | **Main.** Per upload identity at most one upload POST, per identity, job and generation at most one parse POST, over any run |
| IngestionTheorems.PostWasClaimed | app/app/application/services/provider_delivery.py:174-185 | **Main.** Every POST follows a commit that took its operation from intent to executing |
| IngestionPromises.CursorClaimsAreConfirmed | app/app/application/services/provider_delivery.py:355-395 | **Main.** The cursor's upload is the confirmed receipt; polling means a confirmed parse; success means both and a version row |
| IngestionPromises.PollReceiptIsThere | app/app/application/services/provider_delivery.py:494-504 | The branch for a missing poll receipt is unreachable |
| IngestionPromises.CursorConflictIff | app/app/application/services/provider_delivery.py:355-376 | The check of a stored upload fails exactly when the provider scope changed |
| IngestionPromises.IdentityInjective | app/app/application/services/provider_delivery.py:214-219 | An upload identity stands for one application, version and dataset |
| IngestionPromises.OneDocumentPerVersion | app/app/application/services/provider_delivery.py:214-219 | **Main.** Jobs of one upload identity share one provider document |
| IngestionPromises.OneParseInDoubt | app/app/application/services/provider_delivery.py:436-479 | **Main.** At most one parse submission per identity is executing or unknown, across jobs, generations and crashes |
| IngestionPromises.CurrentCommandWaits | app/app/application/services/knowledge_ingestion_service.py:162-171 | **Main.** A live job has exactly one command for its current position, unacknowledged, on its identity's resource |
| IngestionPromises.CommandsNeverAhead | app/app/application/services/knowledge_ingestion_service.py:583-584 | No command with generation and step is ahead of the cursor, so that error is unreachable |
| IngestionPromises.AcknowledgedIsObsolete | app/app/infrastructure/messaging/delivery_handlers.py:8-26 | **Main.** An acknowledged message on the topic is a command of a terminal job or of an earlier position; messages without generation and step are never acknowledged |
| IngestionPromises.ObsoleteAckChangesNothing | app/app/application/services/knowledge_ingestion_service.py:575-582 | An obsolete command is acknowledged with its inbox row and nothing else: no job, operation or version changes |
| IngestionPromises.DispatchIsIdempotent | app/app/application/services/knowledge_ingestion_service.py:174-191 | Dispatching or submitting a job again changes nothing |
| IngestionPromises.RetryStartsOver | app/app/application/services/knowledge_ingestion_service.py:456-526 | **Main.** A retry opens the next generation with one fresh command, keeps the upload, blocks a second retry and fences every old handler |
| IngestionPromises.EachCommandOnce | app/app/infrastructure/messaging/durable_tasks.py:179-201 | **Main.** A command's final transaction commits at most once, exactly when its inbox row appears |
| IngestionProgress.LoadFindsJob | app/app/application/services/knowledge_ingestion_service.py:562-585 | Reading the job finds it on the lease's own resource with a command that is not ahead: none of these errors can occur |
| IngestionProgress.FinishGoesThrough | app/app/application/services/knowledge_ingestion_service.py:684-720 | The final transaction never raises: the deadline is set and the successor's key is free |
| IngestionProgress.HandlersNeverStuck | app/app/application/services/provider_delivery.py:294-522 | In every reachable state a handler with a live lease and its job's generation has a next step of its own, be it to fail or to give up |
| IngestionProgress.ForwardIff | app/app/application/services/provider_delivery.py:294-522 | In every reachable state a handler before its last transaction can take a successful step, for suitable provider answers, if and only if none of the listed obstacles holds |
| IngestionWitness.CanSucceed | app/app/application/services/knowledge_ingestion_service.py:562-720 | **Main.** A run with one upload POST, one parse POST and one scheduled poll that succeeds, binds the version and acknowledges both commands |
| IngestionParses.StepBelongs | app/app/application/services/provider_delivery.py:398-406 | Every step keeps each parse operation about the confirmed upload of its identity |
| IngestionParses.OwnParseIsRecorded | app/app/application/services/provider_delivery.py:71-76 | The error branches for another intent, or an inherited one, under a job's own parse key are unreachable |
| IngestionOpen.GoesOnto | app/app/application/services/provider_delivery.py:294-522 | At every open program point some provider answer leads to a later open point: POST what is only intended, ask the provider about what is in doubt |
| IngestionRecovery.LiveSucceeds | app/app/application/services/knowledge_ingestion_service.py:562-720 | A live job that is not barred succeeds in some continuation: replay its command if it was given up, wait out every older lease, serve it |
| IngestionRecovery.SuccessorNotBarred | app/app/application/services/provider_delivery.py:51-78 | A bar is for good: no continuation of a state with a barred job has it succeeded |
| IngestionRecovery.MaySucceedIff | app/app/application/services/provider_delivery.py:51-78 | **Main.** In every reachable state, whatever crashes, retries and operators have left behind, some continuation has the job succeeded if and only if its identity's upload operation does not bar it |
| IngestionRecovery.AcceptedButBarred | app/app/application/services/provider_delivery.py:75-76 | **Main.** A run that accepts a job which can never succeed |
| IngestionPolling.ScheduledTimed | app/app/application/services/knowledge_ingestion_service.py:684-720 | One more poll keeps the schedule: earlier delays have been waited out unless the deadline cut them |
| IngestionPolling.ServedWhenReady | app/app/infrastructure/messaging/durable_tasks.py:91-93 | A handler at a scheduled position runs after the position's ready time |
| IngestionPolling.StepTimed | app/app/application/services/provider_delivery.py:383-395 | On a clock that does not run backwards every step keeps the polling schedule |
| IngestionPolling.PollsBounded | app/app/application/services/knowledge_ingestion_service.py:684-720 | **Main.** The step never exceeds the least number of delays that add up to the timeout read when the deadline was set, for the interval read with it, whatever the configuration becomes |
| IngestionPolling.LastPollFails | app/app/application/services/knowledge_ingestion_service.py:690-703 | A poll request at that bound finds the deadline passed and fails the job |
| IngestionPolling.PollsBoundedByRatio | app/app/application/services/knowledge_ingestion_service.py:704 | **Main.** One poll less than the step, times the interval, stays below that timeout: polls never exceed timeout / interval, rounded up |
| IngestionPolling.SevenPolls | app/core/config.py:197-205 | While the timeout and interval are the defaults a parse is polled at most seven times |
| Semantic.Validate | app/app/domain/semantic.py:119-191 | **Main.** Accepts exactly the well-formed descriptions |
| Semantic.ValidateTables | app/app/domain/semantic.py:119-152 | Identifiers, reserved prefix, types, and names distinct without case, in both directions |
| Semantic.ValidateLinks | app/app/domain/semantic.py:163-178 | Link kinds, ends and columns, and one link per pair of tables |
| Semantic.ValidateKeys | app/app/domain/semantic.py:179-191 | One key per table, of existing distinct columns |
| Semantic.FindTableUnique | app/app/domain/semantic.py:103-104 | With names distinct the lookup finds the one table of a name |
| Expressions.Expression | app/app/application/services/semantic_metrics.py:89-119 | **Main.** The walk succeeds exactly when every node is allowed, puts its table on every column in place and returns the linked tables |
| Expressions.RetagQualifies | app/app/application/services/semantic_metrics.py:98-119 | Rewriting the walk's nodes in place is the qualified tree |
| Expressions.QualifyPreservesMeaning | app/app/application/services/semantic_metrics.py:107-118 | **Main.** Qualification preserves meaning: unqualified columns are those of the base table |
| Expressions.MeaningLooksOnlyAt | app/app/application/services/semantic_metrics.py:112-117 | An expression depends on no table but the base and the collected ones |
| MetricCompiler.CompileExpression | app/app/application/services/semantic_metrics.py:89-119 | Accepts exactly the admissible sources; the result is the qualified tree with its linked tables, all linked to the base |
| MetricCompiler.CompileMetric | app/app/application/services/semantic_metrics.py:136-170 | **Main.** Accepts exactly the rows that define a metric, and what a compiled metric guarantees |
| MetricCompiler.QueryableMetrics | app/app/application/services/semantic_metrics.py:122-133 | A name is offered exactly when some queryable row defines it, with base, formula, condition, reason and unit of the last such row; a bad row harms no other |
| MetricCompiler.LastOfferIs | app/app/application/services/semantic_metrics.py:122-133 | The row a name stands for is the last one that offers it |
| MetricCompiler.ChooseMetrics | app/app/application/services/semantic_metrics.py:237-266 | Accepts exactly one to ten different known names of one base table |
| MetricCompiler.BuildSelect | app/app/application/services/semantic_metrics.py:272-290 | The select list is the key columns, then value and flag of each metric |
| MetricCompiler.BuildJoins | app/app/application/services/semantic_metrics.py:292-301 | One left join on the link's columns for each linked table |
| MetricCompiler.BuildWhere | app/app/application/services/semantic_metrics.py:199-225 | Accepts exactly the allowed filters and keeps each as one condition |
| MetricCompiler.BuildOrder | app/app/application/services/semantic_metrics.py:309-337 | Accepts exactly the allowed order entries; missing key columns follow |
| MetricCompiler.BuildQuery | app/app/application/services/semantic_metrics.py:228-306 | **Main.** Builds a query for exactly the acceptable requests |
| MetricMeaning.JoinCondition | app/app/application/services/semantic_metrics.py:295-300 | The join condition is true exactly for rows that agree on every column of the link |
| MetricMeaning.AppearsOnceIff | app/app/application/services/semantic_metrics.py:292-301 | **Main.** No base row is lost, and it appears once if and only if each linked table holds at most one match |
| MetricMeaning.JoinsGiveSurroundings | app/app/application/services/semantic_metrics.py:292-301 | For a base row with at most one match in each linked table the joins add exactly its one partner of each |
| MetricMeaning.ShapeRows | app/app/application/services/semantic_metrics.py:340-362 | The reshaping loops compute value, applicability and reason of every metric of every row |
| MetricPreservation.LiteralMeansItsValue | app/app/application/services/semantic_metrics.py:184-196 | Literals round-trip, negative numbers included |
| MetricPreservation.FilterTrueIff | app/app/application/services/semantic_metrics.py:199-225 | **Main.** A compiled filter is true exactly when the request selects the base row; missing values are never selected |
| MetricPreservation.MetricColumns | app/app/application/services/semantic_metrics.py:275-290 | No later column overwrites a metric's value or flag |
| MetricPreservation.ApplicableTrue | app/app/application/services/semantic_metrics.py:277-282 | The flag is true exactly when the condition is; unknown counts as not applicable |
| MetricPreservation.ValueMasked | app/app/application/services/semantic_metrics.py:283-285 | The CASE yields the formula's value exactly where the condition is true, otherwise NULL |
| MetricPreservation.OwnTablesSuffice | app/app/application/services/semantic_metrics.py:292-301 | Tables joined for other metrics do not change a metric |
| MetricPreservation.OutputIsWanted | app/app/application/services/semantic_metrics.py:291-306 | Before ordering the result is one row for each base row the filters select, when none of those has two matches in a linked table |
| MetricPreservation.OneRowEachIff | app/app/application/services/semantic_metrics.py:291-306 | No selected base row is lost, and there is one result row each if and only if none has two matches |
| MetricPreservation.KeyColumnsShown | app/app/application/services/semantic_metrics.py:272-274 | Without a clash of names every entry shows its row's key and label columns |
| MetricOrder.InOrderTotal | app/app/application/services/semantic_metrics.py:309-337 | The order is total, and only equal keys tie |
| MetricOrder.KeyIsOrdered | app/app/application/services/semantic_metrics.py:333-337 | Every key column is ordered by, asked for or added |
| MetricOrder.AnswerExists | app/app/application/services/semantic_metrics.py:305 | Every query that is not refused has a result that satisfies its order |
| MetricOrder.AnswerUnique | app/app/application/services/semantic_metrics.py:332-337 | **Main.** When no selected row has two matches or the key of another, the result sequence is determined |
| MetricAnswers.Collect | app/app/infrastructure/semantic/duckdb_store.py:185-193 | Refuses exactly the results that repeat a column name; otherwise the first rows up to the limit as dictionaries that lose no value, and whether there were more |
| MetricAnswers.ProjectIsZip | app/app/infrastructure/semantic/duckdb_store.py:189-192 | The dictionary of a fetched tuple is the row the query semantics speaks of |
| MetricAnswers.DistinctIffNoClash | app/app/application/services/semantic_metrics.py:272-290 | A built query names its columns differently if and only if no flag is called like a key or label column |
| MetricAnswers.AnsweredIff | app/app/infrastructure/semantic/duckdb_store.py:185-188 | A built query has an answer, whatever the data, if and only if there is no such clash |
| MetricAnswers.AnswerTells | app/app/application/services/semantic_query.py:109-157 | **Main.** When no selected base row has two matches, every answer is the selected base rows in an order the request allows, one entry each, and each entry shows its row's key columns and says of every metric what its definition says of that row |
| MetricAnswers.OneEntryEachIff | app/app/application/services/semantic_query.py:109-157 | **Main.** An answer has at least one entry for each selected base row, and exactly one each if and only if none has two matches |
| MetricAnswers.ResponseUnique | app/app/application/services/semantic_query.py:129-157 | **Main.** ... and so are the entries of the first rows and the truncation mark |
| MetricAnswers.AnswerableIff | app/app/application/services/semantic_metrics.py:136-170 | **Main.** An admitted metric can be answered by some request if and only if its name with the flag's suffix is not a key or label column of its base table |
| MetricAnswers.ClashIsRefused | app/app/application/services/semantic_metrics.py:139-151 | **Main.** A description and a definition that pass every check, the query built for the definition, and its refusal on any data |
| CallRate.RateLimiter.Allow | app/app/application/services/call_rate.py:14-22 | **Main.** Allows exactly while fewer than the limit of the key's allowed calls are recent; the deque stays the whole allowed history filtered to the last minute |
| CallRate.DropOld | app/app/application/services/call_rate.py:17-18 | Popping expired times off the front is filtering the history |
| CallRate.EveryMinuteWithinLimit | app/app/application/services/call_rate.py:9-22 | **Main.** Over every history no closed minute holds more than the limit of allowed calls of a key |
| CallRate.RefusedOnlyWhenFull | app/app/application/services/call_rate.py:19-20 | A refused call finds the minute before it full |
| EvidenceAssembly.MapChunks | app/app/application/services/knowledge_retrieval_service.py:153-166 | Keeps, in order, the chunks with a document bound to an eligible version, the last one of a binding |
| EvidenceAssembly.MappedAreEligible | app/app/application/services/knowledge_retrieval_service.py:153-166 | Nothing outside the eligible versions is mapped |
| EvidenceAssembly.Assemble | app/app/application/services/knowledge_retrieval_service.py:168-216 | Remaining budget and the evidence's cost add up to the budget, and the remainder is never negative |
| EvidenceAssembly.WithinBudget | app/app/application/services/knowledge_retrieval_service.py:171-184 | The evidence never costs more than the budget |
| EvidenceAssembly.RanksCount | app/app/application/services/knowledge_retrieval_service.py:172-199 | Ranks are 1 to n with n at most top_k |
| EvidenceAssembly.AssembledInOrder | app/app/application/services/knowledge_retrieval_service.py:171-184 | **Main.** Each content is a non-empty prefix of its chunk, in provider order, passing over only empty chunks |
| EvidenceAssembly.StopsOnlyWhenFull | app/app/application/services/knowledge_retrieval_service.py:171-176 | **Main.** With ranks and budget left every non-empty mapped chunk is shown |
| EvidenceAssembly.AssembleResponse | app/app/application/services/knowledge_retrieval_service.py:218-225 | The response is not truncated exactly when every mapped chunk is shown whole and the provider held nothing back |

## Left out

- Transport and wiring: HTTP, Celery, Redis, SQLAlchemy sessions, the provider and object-store clients; the provider answers nondeterministically and the clock, uuids and publish outcomes are parameters.
- Row-lock waits and SKIP LOCKED: each transaction is atomic; single-row reconcile steps and claims of any claimable row cover rows that are passed over.
- More than one clock reading inside one transaction, except between the two parts of claim_execution.
- `SqlOutboxRepository.claim_batch`, `mark_published` and `mark_failed`: a parallel path that `pump` does not use.
- Payload and header validation, malformed not-before headers, last_error and updated_at columns, the age and latest-receipt gauges, observation policy checks and rendering.
- The in-task heartbeat's timing: renewals are steps that may or may not happen.
- Status history, error texts and their classification (any failure kind may follow any failure), retry history, last_run and read_error.
- Jobs migrated from before the cursor existed: their uploads without a journal row and their commands without generation and step are in the model, the job rows themselves are not.
- Binding checks against configuration and the dataset receipt operations, which issue no remote write: they appear as a handler that may fail.
- Operator overrides to anything but a failure status: an override back to a live status or to succeeded bypasses the protocol.
- The lease, generation and deadline checks right before a POST: the bounds on POSTs do not need them, so the model lets the POST happen without them.
- The upload identity is the name that is hashed into it, and operation and deduplication keys are structured values; hashes and formatted texts are taken as injective.
- Parsing and printing SQL: expressions are trees. A CASE with an operand is its searched form, and IF is a CASE.
- Engine type errors, casts, NaN and infinities, and identifiers compared without case by the engine: an operator on operands of the wrong kind gives NULL, division by zero gives NULL, and numbers are exact.
- The order of the joins, which the code sorts by table name: the theorems hold for every order.
- The planner and the query guard between building and executing a query, the timeout of its execution, the normalisation of engine values, and the texts of rejections.
- Base keys that repeat: the order among their rows is then the engine's choice.
- Evidence and chunk ids (hashes of version and fingerprint), titles and cleaned source addresses; `_eligible_versions` is the list of versions handed in.
- Login, configuration, catalogue, registry and page caches: short checks next to the protocols above.
