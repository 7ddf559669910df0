# Batch assessment: a verified model

The platform scores batches of CVs. A batch names applications and a run count; an
orchestration sends one message per application and run to an engine, waits for one event per
run, and folds the results into a document the API serves. This project models that path in
Dafny and proves what it promises: which events reach the orchestration, what its progress
record says at any moment, what the final document contains, and when a client gets it.

`dafny verify dfyconfig.toml` checks everything.

## How the model is built

- `Text`, `RunNaming`, `Json`, `Options`, `Sums`, `Contracts`: strings, run names, parsed JSON
  and the payloads. A name-based UUID (version 5, section 4.3 of RFC 4122) is represented by a
  tagged copy of its name, of which only injectivity is used.
- `Statistics`, `Spread`, `CvScoring`, `Flatten`, `PathKeys`, `GenericAggregation`: the aggregation
  library. Each aggregation method turns out to be the mean of a slice of the sorted values, which
  gives monotonicity, robustness and bounds for all of them at once. `PathKeys` says which keys a
  tree may have so that its flattened dictionary keeps every number.
- `Progress`, `Tracker`: the progress record as a value with its update functions, and the
  objects the orchestrator updates in place, proved to follow those functions.
- `Reachability`, `ProgressTheorems`: a predicate `Describes` that says what the record looks
  like given which runs were sent and what each reported. Every reachable record satisfies it;
  exact caches, monotone counters, confluence and the verdict follow from it.
- `Orchestration`, `EventTheorems`, `EventCounts`, `Orchestrator`, `Finalize`: the events an
  orchestration sends, their numbers, what each tells of and carries, the orchestration with its
  loops, and the final document.
- `Reported`, `CvReading`, `Verdicts`, `MessageReading`, `TreeNumbers`: what the record, an output,
  a document, a message and a tree say, read off the inputs by places and words and without the
  functions that compute it; and that what is computed says exactly that.
- `Delivery`, `DeliveryTheorems`, `QueueTheorems`, `Intake`, `ResultIntake`, `DlqReplay`: the at-least-once
  protocol as a state machine whose behaviours are sequences of steps (dispatch, engine, queues,
  dead letters, replay, the four stages of intake, crashes, receipt), and the handlers as they
  run, tied to those steps.
- `StatusApi`, `EndToEnd`: the client's answer, purging, and the whole path from deliveries to
  the answer.

## Hypotheses and findings

- Nothing enforces distinct application ids (`api/models.py:57`). Results that need them require
  `DistinctApplications`; `DuplicateApplicationStaysQueued` shows what happens otherwise.
- A batch id contains no colon (it is a UUID). `ColonInBatchIdCollides` shows the condition is
  needed across batches.
- `runsDispatched` equals the number of runs not queued only as long as no engine reports the
  status `queued` itself; `CountersMean` has the equivalence.
- With two equal application ids the orchestration waits twice for one event and never ends
  (`FinishesExactlyWhenDistinct`, `DuplicateNeverFinishes`).
- One succeeded run whose must-haves list starts with a plain string fails the whole batch,
  scored or not; `FinalisationSucceeds` has the equivalence and `OneOutputFailsTheBatch` the input.
- A `Partial` result is not terminal: its application never ends, and a second result for the
  run would be counted again (`SecondResult`). The marker of the delivery protocol prevents it.
- Finalisation compares with `Succeeded` exactly, the progress record ignores case. The model
  keeps both.
- A key is safe for flattening when it is not blank, has no dot and is not a non-blank text followed
  by an index in brackets; a tree of safe keys keeps every number. One further key does no harm
  exactly when it starts with a dot or has two dots in a row; every other one loses a number in
  some tree whose other keys are safe (`KeyRuleIsExact`). Two such keys together can collide
  (`TwoOddKeysLose`).
- The projection of the last event can fail when the document is already stored. The client is told
  of a failed batch until the history is purged, and of a completed one afterwards
  (`PurgeAfterLateFailure`).
- The comment on `_aggregate` derives decisions from must-haves alone; the code lets an explicit
  decision word overrule them, and `DecisionContradictsMustHaves` says when the two disagree.
- Purging history is invisible exactly for completed instances, as long as the container can be read.
- The replay tests raw keys, so it drops a message that intake would have accepted by alias.
- The intake module's comment speaks of `task_all` and of an index below each batch, and the
  orchestrator's of a run id made from application and index; the code waits with `task_any`,
  keeps one flat index and includes the batch id. The model follows the code.

## Model

The main results come first, from the whole path to its parts; then the steps they rest on,
module by module; at the end small members and witnesses.

| member | source | states |
|---|---|---|
| EndToEnd.HandledBatchIsServed | api/routes_assess.py:88-117 | after any behaviour in which every run of a batch with distinct application ids had a delivery handled and none was lost, whatever else was delivered, repeated, crashed or replayed, the orchestration can answer all its waits with the payloads that won the markers; and whoever asks a host that ran it to its end, be it that the last projection failed, is told exactly what those payloads and their outputs call for |
| EndToEnd.FinishesExactlyWhenDistinct | orchestrator/functions/fanout/__init__.py:445-498 | with every run's event raised, all waits of a batch can be answered if and only if its application ids are distinct |
| EndToEnd.DuplicateNeverFinishes | api/models.py:57 | of a batch with two equal application ids some wait is open in every reachable state |
| EndToEnd.FunctionsHost.ServeDelivered | api/routes_assess.py:88-117 | runs the events a finished behaviour left, and answers the client from what was stored: the result, with every application as its runs and outputs call for, a contract error or a failed batch |
| DeliveryTheorems.AtMostOnce | orchestrator/functions/result_intake/__init__.py:56-98 | over every interleaving of Service Bus and HTTP intake, redelivery, repeated dispatch, dead-lettering, replay and crashes, at most one event is raised per run; it goes to the batch owning the run, carries that run id and is the payload of the delivery that won the marker |
| DeliveryTheorems.Fate | orchestrator/functions/result_intake/__init__.py:257-293 | a marker exists exactly when its run's event was raised, or its winner is between claiming and raising, or its winner crashed there, and these three exclude each other |
| DeliveryTheorems.ExactlyOnce | orchestrator/functions/result_intake/__init__.py:39-177 | a run with a delivery handled has its event raised exactly once if and only if its winner neither holds the marker still nor crashed while it did; all other crashes are harmless |
| DeliveryTheorems.LostForGood | orchestrator/functions/result_intake/__init__.py:61-67 | a crash between claim and raise loses the event for ever: no later delivery of that run is let through |
| DeliveryTheorems.NoReplyUnknown | orchestrator/functions/fanout/__init__.py:595-639 | the index is written before the run is sent and never changes, so any later reply to a run ever sent is found to belong to its own batch |
| DeliveryTheorems.ReceivedOnce | orchestrator/functions/fanout/__init__.py:465-498 | each wait, one per CV and index, is either open or was answered by the one event raised for its run; of two waits for one run at most one is answered |
| DeliveryTheorems.UnprotectedClaimUnreachable | orchestrator/functions/result_intake/__init__.py:234-273 | no account hypothesis is needed: in every reachable state a handler that may claim has an account, since the lookup before the claim finds nothing without one |
| QueueTheorems.ResultsAccounted | orchestrator/functions/result_intake/__init__.py:39-98 | over every behaviour, each copy of a result message that was submitted, or made by a replay that failed half-way, is in the queue, among the dead letters, was taken off by a handler that had finished, or was dropped as poison |
| QueueTheorems.RunsAccounted | orchestrator/functions/fanout/__init__.py:585-639 | over every behaviour, each dispatch that wrote its index is under way, has sent or was given up, and each copy of a run sent is in the queue, among the dead letters or was taken by the engine |
| QueueTheorems.OnlySubmitted | orchestrator/functions/result_intake/__init__.py:39-98 | over every behaviour, a message in the queue, among the dead letters or with a handler was submitted |
| Orchestrator.BatchOrchestrator | orchestrator/functions/fanout/__init__.py:414-564 | after exactly runsTotal turns: the document determined by the batch and its results alone, stored exactly when there is one and returned unless the last projection fails, with the final record and the events sent; a failing start ends it before anything is recorded |
| Reported.RecordTells | orchestrator/functions/fanout/__init__.py:115-216 | after all dispatches and any results, at most one per run and in any order: a run shows what its own result said, field by field, and when it came; an application is completed, failed, cancelled, queued or partial exactly when the words its runs reported call for it, and else running; the counters count the runs heard from and the CVs whose runs all ended |
| Reachability.ResultPhase | orchestrator/functions/fanout/__init__.py:491-504 | the same in terms of the record: it describes which runs were sent and what they reported, and every cached value is a recount |
| ProgressTheorems.CountersMean | orchestrator/functions/fanout/__init__.py:115-184 | runsCompleted is at most runsDispatched, which is at most runsTotal; runsCompleted is the sum over applications and the number of completed runs; cvsCompleted counts the terminal applications; runsDispatched counts the runs not queued if and only if no engine reported the status `queued` |
| ProgressTheorems.ResultPhaseProgresses | orchestrator/functions/fanout/__init__.py:491-504 | between any two moments of the result phase no counter goes down and no terminal run changes |
| ProgressTheorems.Confluence | orchestrator/functions/fanout/__init__.py:491-547 | two arrival orders of the same results leave the same record up to timestamps |
| Finalize.DocumentConfluence | orchestrator/functions/fanout/__init__.py:491-547 | two arrival orders of the same results give the same document up to tied decisions, or fail alike |
| EventTheorems.LoopHeadsInStep | orchestrator/functions/fanout/__init__.py:494-537 | at every head of the result loop the events sent are numbered from 1 without gap, the number computed from progress alone is the next one, and they tell of each thing once: one dispatch event for each run; for each run that reported, one event that it failed if its status reads `failed`, that it was cancelled if it reads `cancelled` or `canceled`, that it completed otherwise, and no other; one announcement, naming its first run, for each terminal application and none for any other |
| EventTheorems.FinishedBatch | orchestrator/functions/fanout/__init__.py:539-563 | a finished batch has sent, numbered without gap, for each run its dispatch and its end, failed, cancelled or completed as its status reads, for each terminal application its own announcement, and one last event; that event says cancelled exactly when every run was told of as cancelled, which is when every result reported it |
| EventCounts.EventsCarryCounts | runtime/events.py:80-140 | every event carries the number of dispatches and results told of up to then, the applications announced by then or right after, and the time of its own dispatch or result; the last one the final status |
| ProgressTheorems.VerdictFromRuns | orchestrator/functions/fanout/__init__.py:205-216 | a fully reported batch is judged cancelled exactly when every run reported cancelled in either spelling and any case, although only cached application statuses are read |
| Verdicts.DocumentTells | orchestrator/functions/fanout/__init__.py:645-698 | every block of the final document says what its own application's runs call for: ids, each run with all fields of its result, the first complaint, and an aggregate of what the outputs say, with the artifacts of the succeeded runs as sources |
| Verdicts.AggregateSays | orchestrator/functions/fanout/__init__.py:706-750 | the aggregate of some runs: one signal for each succeeded run whose output says something, the median and variance of the scores there are, the most frequent decision, the conjunction of the must-have results, the artifacts of the succeeded runs in order; nothing without signals |
| Verdicts.OutputRead | orchestrator/functions/fanout/__init__.py:753-784 | the output of a run is the object behind the first artifact named exactly `output.json` that has an address, or without one behind the first whose name ends in `.json` in any case; none if there is no such file, or the chosen one cannot be read or holds no object |
| Finalize.FinalisationPartitions | orchestrator/functions/fanout/__init__.py:649-684 | the document does not depend on the order of the results: each CV lists the runs minted for it |
| Finalize.EveryResultOnce | orchestrator/functions/fanout/__init__.py:649-684 | every run is listed once in the whole document, in its own block at its own index |
| Finalize.FinalisationSucceeds | orchestrator/functions/fanout/__init__.py:653-698 | finalisation succeeds if and only if the must-haves of every readable output of a succeeded run can be evaluated |
| EndToEnd.AnswerAfterRun | api/routes_assess.py:88-182 | after a run to the end the client gets the result exactly when every application has a scored run, every succeeded run's readable output has must-haves that can be evaluated and the last projection did not fail; it then reads of each application its ids, its runs with what their results said, the first complaint, and the score, decision, must-have result, variance, sources and count its outputs amount to; otherwise it is told which of the conditions failed |
| StatusApi.Servable | api/routes_assess.py:162-182 | a completed batch is served exactly when every application has a run with status exactly `Succeeded` whose readable output has a numeric score; otherwise the refusal says what the first application without one lacks |
| StatusApi.PurgeTransparency | api/routes_assess.py:94-107 | purging leaves status and result as they were exactly for completed instances when the container can be read |
| StatusApi.EachStateTells | orchestrator/functions/fanout/__init__.py:990-1019 | what a client is told of an instance in each state: name, progress, a result exactly with a completed one, an error exactly with a failed one, when to ask again exactly with one that has not ended |
| StatusApi.NotFoundExactly | api/routes_assess.py:88-117 | 404 exactly when neither the history nor a readable container has the batch |
| EndToEnd.PurgeAfterLateFailure | api/routes_assess.py:94-107 | a batch whose last projection failed reads as failed; once its history is purged the client is told what a completed batch would have told it |
| CvReading.ExtractionTells | runtime/aggregation/shared.py:79-148 | what one output says: its score by the precedence of the score keys, or zero when withheld; must-haves met when every listed one is, or with none listed when it approves; Approve exactly when the stated word approves, or does not reject and the must-haves are met; no signal exactly when there is nothing to go by; an exception exactly when its own must-haves cannot be evaluated |
| CvScoring.RaisingOneOutput | runtime/aggregation/shared.py:45-76 | seen from the outputs: raising one numeric score, all else fixed, never lowers the final score and changes neither decision nor must-have result, nor whether aggregation succeeds |
| CvScoring.ExtractionSucceeds | runtime/aggregation/shared.py:118-135 | an output is turned into a signal, or none, without an exception if and only if its must-haves are falsy or a list in which each item up to the first unmet one is a dictionary |
| CvScoring.PublishedSpread | runtime/aggregation/shared.py:62-64 | variance non-negative, zero exactly when all scores are equal, at most a quarter of the squared range; final score within range and within a standard deviation of the mean |
| Statistics.AggregateMonotone | runtime/aggregation/shared.py:199-217 | raising any values never lowers any method's result |
| Statistics.MethodsByName | runtime/aggregation/shared.py:199-217 | what each name stands for: the mean; the mean without a tenth at either end, at least one value once there are more than two; the mean of the middle half from four values on; the median for any other name |
| Statistics.AggregateRobust | runtime/aggregation/shared.py:199-217 | outliers within what a method drops at each end cannot pull its result out of a range |
| Statistics.MedianFollowsMajority | runtime/aggregation/shared.py:217 | the median lies where more than half of the values lie |
| Spread.MedianNearMean | runtime/aggregation/shared.py:62-64 | the squared distance of mean and median is at most the variance |
| Spread.VarianceByRange | runtime/aggregation/shared.py:64 | at most a quarter of the squared range |
| PathKeys.FlatteningIsLossless | runtime/aggregation/shared.py:178-196 | when all keys but at most one are safe, and that one is harmless, there is exactly one entry per numeric leaf, with its number |
| TreeNumbers.FlatteningTells | runtime/aggregation/shared.py:178-196 | under the same condition a path has a number exactly when the tree, walked down, has that number at an address that prints as the path; booleans are no numbers |
| PathKeys.KeyRuleIsExact | runtime/aggregation/shared.py:184-190 | some tree whose keys are safe but for this one loses a number if and only if the key is not harmless |
| PathKeys.TwoOddKeysLose | runtime/aggregation/shared.py:184-190 | the rule is for one such key at a time: two keys harmless each for itself can collide |
| GenericAggregation.AggregateGeneric | runtime/aggregation/shared.py:151-175 | the fields are the union of the outputs' paths, each aggregating the numbers at that path in output order; profile, method, run count and sources are echoed |
| GenericAggregation.GenericPermutation | runtime/aggregation/shared.py:161-168 | two calls on permuted outputs give the same fields with the same values |
| DlqReplay.Queues.Replay | orchestrator/functions/dlq_replay/__init__.py:88-122 | replayed plus failed is the number received; what both queues hold afterwards and which messages are reported failed, for any pattern of failing calls |
| DlqReplay.NothingGoodIsLost | orchestrator/functions/dlq_replay/__init__.py:95-122 | a message that is not poison is never lost, whatever calls fail; if none fails it moves as often as it was received |
| DlqReplay.ReplayByCalls | orchestrator/functions/dlq_replay/__init__.py:88-122 | by the calls that went through: each copy sent arrives, each copy completed leaves, poison leaves without being sent, and all but those sent and completed are reported failed |
| DlqReplay.ResultsReplayIsSteps | orchestrator/functions/dlq_replay/__init__.py:95-122 | a whole replay of the results queue is a sequence of at most as many delivery protocol steps as messages, so the markers absorb its duplicates |
| DlqReplay.RunsReplayIsSteps | orchestrator/functions/dlq_replay/__init__.py:95-122 | and so is one of the runs queue |
| MessageReading.SbEventReads | orchestrator/sb_contracts.py:56-94 | a Service Bus message is a given event exactly when it says each of its fields, under its own key or the other name of it and with the right type |
| MessageReading.HttpEventReads | orchestrator/functions/result_intake/__init__.py:104-177 | a report over HTTP is accepted exactly when its address names a run and it says every field a report has; its event has those fields, the run of the address and the trace metadata of the headers before those of the body |
| Intake.CanonicalReads | orchestrator/engine_contracts.py:75-89 | each key of a canonical message reads as sent, or else as sent under its alias; nothing sent is overridden or lost |
| Intake.TwoPathsOneEffect | orchestrator/functions/result_intake/__init__.py:1-13 | what Service Bus accepts for a run HTTP accepts too, with the same event but for trace metadata and the writing of an empty artifact list |
| Intake.SameTrace | orchestrator/functions/result_intake/__init__.py:63-96 | whatever trace metadata come beside the two: exactly when the correlation ids and trace contexts agree, too |
| Intake.PoisonLosesAcceptable | orchestrator/functions/dlq_replay/__init__.py:98-110 | of the messages intake accepts, replay throws away exactly those naming their run by the alias only, or with a blank run id or status |
| RunNaming.SameRunId | orchestrator/functions/fanout/__init__.py:60-61 | two run ids are equal exactly when the indexes are and batch and application read the same when joined by a colon |
| RunNaming.RunIdInjective | orchestrator/functions/fanout/__init__.py:60-61 | a run id determines batch, application and index when batch ids have no colon, whatever application ids contain |
| ProgressTheorems.DuplicateApplicationStaysQueued | api/models.py:57 | of two CVs with one application id the second stays queued for ever, so distinct ids are needed |
| Progress.LateDispatch | orchestrator/functions/fanout/__init__.py:123 | it does so precisely while the application is not finished, so dispatches must precede results |
| Progress.SecondResult | orchestrator/functions/fanout/__init__.py:142-145 | a second result keeps them exact if and only if the first one was terminal; after a `Partial` it is counted twice |
| ProgressTheorems.PartialCountsButNeverEnds | orchestrator/functions/fanout/__init__.py:197-198 | a run reported `Partial` counts as completed and its application never ends |
| EndToEnd.FunctionsHost.RunBatch | orchestrator/functions/fanout/__init__.py:875-912 | starts a batch once; a completed instance has stored the document it returned, one that fails at its start or in finalisation stores nothing, one whose last projection fails has stored its document, and no other document changes |
| EndToEnd.ConditionsTell | api/routes_assess.py:162-182 | the two conditions of the answer in terms of the runs' outputs: a numeric score for each application, and no must-haves that cannot be evaluated |
| EndToEnd.ReceivesAll | orchestrator/functions/fanout/__init__.py:494-498 | with distinct application ids and every run's event raised, the orchestration answers all its waits, one step for each |
| EndToEnd.CompleteEvents | orchestrator/functions/fanout/__init__.py:494-498 | when no wait is open there is one result per run, each the payload of the delivery that won the run's marker |
| EndToEnd.FinishedIsDistinct | orchestrator/functions/fanout/__init__.py:494 | a batch none of whose waits is open has distinct application ids |
| EndToEnd.FunctionsHost.RunUntilTerminated | orchestrator/functions/fanout/__init__.py:930-987 | any batch terminated while it waits ends as terminated with nothing stored; terminated after storing its document it keeps the document, and if finalisation raised it has failed by then |
| DeliveryTheorems.HandledIsMarked | orchestrator/functions/result_intake/__init__.py:285-293 | once some delivery of a run reached its claim the run's marker exists, and stays |
| DeliveryTheorems.QueuedIsIndexed | orchestrator/functions/fanout/__init__.py:595-639 | a run on the engine queue or among its dead letters is indexed under the batch that owns it |
| DeliveryTheorems.HarmlessCrashesLoseNothing | orchestrator/functions/result_intake/__init__.py:56-98 | no event is lost in a behaviour in which no handler crashes between claiming and raising |
| Delivery.AlwaysGrows | orchestrator/functions/result_intake/__init__.py:221-293 | what index, markers and raised events say at one moment they say at every later one |
| Delivery.StepKeeps | orchestrator/functions/result_intake/__init__.py:56-177 | every step of dispatch, queues, replay, intake, crash and receipt keeps the protocol invariant |
| Delivery.IndexWrite | orchestrator/functions/fanout/__init__.py:595-615 | repeating a dispatch never changes the batch a run is indexed under, although the blob is overwritten |
| Delivery.OneOwner | orchestrator/functions/fanout/__init__.py:60-61 | a run id belongs to one batch only, batch ids having no colon |
| ResultIntake.IntakeHost.ClaimResultDelivery | orchestrator/functions/result_intake/__init__.py:269-293 | true exactly for whoever created the marker (and for everybody without an account); the marker is written once |
| ResultIntake.IntakeHost.Deliver | orchestrator/functions/result_intake/__init__.py:56-98 | look up, claim, raise: leaves index, markers and raised events as the protocol steps do, and tells unknown, duplicate and delivered apart |
| ResultIntake.IntakeHost.SbResultHandler | orchestrator/functions/result_intake/__init__.py:44-98 | refuses exactly the messages that are not valid, changing nothing; otherwise ends in the state the protocol steps lead to |
| ResultIntake.IntakeHost.HttpPatchRun | orchestrator/functions/result_intake/__init__.py:104-177 | 400 exactly for an invalid report, 404 exactly for a valid one of an unknown run, else 202; ends in the state the protocol steps lead to |
| ResultIntake.UninterruptedIsSteps | orchestrator/functions/result_intake/__init__.py:56-98 | an uninterrupted handler is a sequence of at most three protocol steps, so the results on all behaviours apply to it |
| DlqReplay.Conserved | orchestrator/functions/dlq_replay/__init__.py:95-122 | over both queues a message is gained only by a failed completion after a send and lost only as poison |
| DlqReplay.CountsOf | orchestrator/functions/dlq_replay/__init__.py:95-122 | message by message, how often it arrived in the main queue and left the dead letters |
| Intake.NormalizeCompletionPayload | orchestrator/engine_contracts.py:59-89 | refuses whatever is not an object and otherwise gives the canonical message |
| Intake.CanonicalIdempotent | orchestrator/engine_contracts.py:75-89 | canonicalising twice is canonicalising once |
| Intake.AliasedMessageIsLost | orchestrator/functions/dlq_replay/__init__.py:98-110 | such a message exists |
| Orchestrator.PlanDispatch | orchestrator/functions/fanout/__init__.py:442-465 | dispatches exactly the batch's run ids in order, with one wait each, and a map telling each run's place; application ids need not be distinct |
| Orchestrator.TakeOne | orchestrator/functions/fanout/__init__.py:495-498 | what has arrived and what is awaited always make up the batch, with nothing in both |
| Orchestrator.RecordDispatches | orchestrator/functions/fanout/__init__.py:470-489 | record and events after the dispatch loop |
| Orchestrator.HandleResult | orchestrator/functions/fanout/__init__.py:500-537 | record, event counter, announced applications and events after one turn of the result loop |
| Orchestrator.CollectResults | orchestrator/functions/fanout/__init__.py:491-537 | the result loop ends with every run heard from once, in whatever order, and in the state the turns lead to |
| Orchestrator.CloseBatch | orchestrator/functions/fanout/__init__.py:549-563 | final status and time, and the batch's own event unless its projection fails |
| EventTheorems.DispatchesInStep | orchestrator/functions/fanout/__init__.py:470-488 | throughout dispatch, too, the numbers run from 1 without gap, and exactly the runs dispatched so far have been told of, once each |
| EventTheorems.DispatchTold | orchestrator/functions/fanout/__init__.py:470-488 | after a dispatch exactly the dispatched runs have been told of, once each |
| EventTheorems.ResultTold | orchestrator/functions/fanout/__init__.py:500-537 | after a result exactly the reported runs and terminal applications have been told of, once each and by the words reported |
| Orchestration.TerminalAfterResult | orchestrator/functions/fanout/__init__.py:518-524 | a result can complete its own application and no other, and was not announced before |
| EventTheorems.Verdict | orchestrator/functions/fanout/__init__.py:550 | the final status is cancelled exactly when there are CVs and every result that arrived reported cancelled |
| ProgressTheorems.TerminalFromRuns | orchestrator/functions/fanout/__init__.py:197-202 | an application is terminal exactly when each of its runs reported a terminal status |
| ProgressTheorems.RecordDetermined | orchestrator/functions/fanout/__init__.py:131-184 | what each run reported determines the record up to timestamps |
| ProgressTheorems.SummaryIsCancelled | orchestrator/functions/fanout/__init__.py:205-216 | an application is summarised as cancelled exactly when all its runs are |
| Reachability.InitialDescribes | orchestrator/functions/fanout/__init__.py:64-112 | the initial record describes a batch of which nothing was sent or reported |
| Reachability.FindsItsPlace | orchestrator/functions/fanout/__init__.py:187-194 | the search ends at the run's own application and index |
| Reachability.DispatchStep | orchestrator/functions/fanout/__init__.py:470-488 | recording a dispatch gives the record that describes one more run sent |
| Reachability.ResultStep | orchestrator/functions/fanout/__init__.py:494-504 | recording a result gives the record that describes one more run reported, and changes its own application only |
| Reachability.DispatchPhase | orchestrator/functions/fanout/__init__.py:470-488 | after any number of dispatches every run is what it should be and every cache is a recount |
| Progress.DispatchKeepsCaches | orchestrator/functions/fanout/__init__.py:115-128 | recording a dispatch keeps all cached values equal to recounts |
| Progress.ResultKeepsCaches | orchestrator/functions/fanout/__init__.py:131-184 | recording a first result keeps all cached values equal to recounts, although completed CVs are recounted only sometimes |
| Tracker.Application.RunDispatched | orchestrator/functions/fanout/__init__.py:123-126 | sets one run and its application as the recorded dispatch says, nothing else |
| Tracker.Application.RunFinished | orchestrator/functions/fanout/__init__.py:148-181 | sets one run from its result, counts it and summarises the application anew, nothing else |
| Tracker.ProgressRecord.RecordDispatchedRun | orchestrator/functions/fanout/__init__.py:115-128 | the record afterwards, in every field, for a known and for an unknown run |
| Tracker.ProgressRecord.RecordRunResult | orchestrator/functions/fanout/__init__.py:131-184 | the record afterwards, in every field, for a first result, a repeated one, an unknown run and a blank run id |
| Finalize.Aggregated | orchestrator/functions/fanout/__init__.py:706-750 | the aggregate of the readable outputs of exactly the succeeded runs, with their artifacts as sources |
| Finalize.GroupByApplication | orchestrator/functions/fanout/__init__.py:649-651 | each application's results in arrival order |
| Finalize.FirstError | orchestrator/functions/fanout/__init__.py:657-660 | the message of the first run that did not succeed and has one |
| Finalize.FinalizeBatch | orchestrator/functions/fanout/__init__.py:645-698 | returns the document of the given results and stores that very document, or stores nothing when an output cannot be aggregated |
| Finalize.ListedByIndex | orchestrator/functions/fanout/__init__.py:655-676 | a CV lists its own results at indexes 0 to runCount - 1, whatever order they came in |
| Finalize.ListsOwnResults | orchestrator/functions/fanout/__init__.py:655-676 | whatever results there are, a CV lists its own only, each under the index it came with |
| Finalize.BlockContents | orchestrator/functions/fanout/__init__.py:678-684 | runs, aggregate and error of one block |
| Finalize.BlockByBlock | orchestrator/functions/fanout/__init__.py:653-684 | finalisation succeeds exactly when every block does, and then block for block |
| Finalize.OnlyTiesDiffer | orchestrator/functions/fanout/__init__.py:706-750 | two documents of the same results differ in tied decisions at most |
| Finalize.OneOutputFailsTheBatch | orchestrator/functions/fanout/__init__.py:653-698 | one run with a number as its score and a plain string among its must-haves fails the whole batch |
| StatusApi.BlockComplaint | api/routes_assess.py:166-181 | of the required fields only the score can be missing, never the decision or the must-have result |
| StatusApi.ScoredTells | api/routes_assess.py:166-181 | a run counts as scored exactly when it succeeded and its output has a number where the score is looked for |
| StatusApi.SignalsOf | orchestrator/functions/fanout/__init__.py:723-750 | an aggregate exists exactly when a succeeded run has a readable output with a signal, and has a score exactly when one has a number there |
| StatusApi.FirstComplaintMeans | api/routes_assess.py:165-181 | the refusal is about the first block that deserves one |
| CvScoring.AggregateCvScoring | runtime/aggregation/shared.py:45-76 | the aggregate of the outputs' signals, nothing without signals, or the first failure |
| CvScoring.DecisionContradictsMustHaves | runtime/aggregation/shared.py:118-142 | a decision contradicts the must-have flag exactly when must-haves are listed and an explicit word says otherwise |
| CvScoring.FinalDecisionIsMode | runtime/aggregation/shared.py:65-66 | the final decision was cast and none was cast more often; iteration order matters exactly on a tie |
| CvScoring.ScoresExist | runtime/aggregation/shared.py:62-63 | there is a score to aggregate exactly when some signal has one |
| CvScoring.MonotoneScoring | runtime/aggregation/shared.py:62-67 | raising scores never lowers the final score and changes neither decision nor must-have result |
| CvScoring.ParsingSucceeds | runtime/aggregation/shared.py:54-58 | aggregation succeeds if and only if this holds of each output |
| CvScoring.ScoredYetRaises | runtime/aggregation/shared.py:128-129 | an output with a score that raises |
| CvScoring.ScoreMovesOnlyScore | runtime/aggregation/shared.py:108-148 | outputs that differ only in their numeric score, under whichever key and of whichever numeric type, give signals that differ only in the score |
| CvScoring.FirstScoreSettlesIt | runtime/aggregation/shared.py:108-110 | once `overall_score` is present, neither `score` nor, unless it is null, `composite_score` makes a difference to the signal |
| Statistics.AggregateIsWindowMean | runtime/aggregation/shared.py:199-217 | every method is the mean of one non-empty slice of the sorted values |
| Statistics.SortedMonotone | runtime/aggregation/shared.py:205-213 | pointwise dominated lists stay dominated after sorting |
| Statistics.AggregatePermutation | runtime/aggregation/shared.py:199-217 | no method depends on the order of its values |
| Statistics.AggregateBreaksBelow | runtime/aggregation/shared.py:199-217 | one more low outlier than it drops can |
| Statistics.AggregateBreaksAbove | runtime/aggregation/shared.py:199-217 | one more high outlier than it drops can |
| Spread.VarianceZero | runtime/aggregation/shared.py:64 | variance is non-negative and zero exactly when all values are equal |
| Flatten.Flattener.Visit | runtime/aggregation/shared.py:181-193 | writes the entries of one subtree in order, after what was there |
| Flatten.ExtractNumericPaths | runtime/aggregation/shared.py:178-196 | the dictionary of all paths and numbers of a tree |
| PathKeys.RenderInjective | runtime/aggregation/shared.py:184-190 | different addresses of one tree print differently when all keys but at most one are safe and that one is harmless |
| GenericAggregation.GenericWithinRange | runtime/aggregation/shared.py:199-217 | each field lies between the least and greatest number it was made from |
| GenericAggregation.ValuesAtPresent | runtime/aggregation/shared.py:161-164 | there is a number to aggregate at a path exactly when some output has one there, so no field is made from nothing and none is missing |
| Contracts.RunIdsExactly | orchestrator/functions/fanout/__init__.py:445-465 | a batch dispatches one run for each application and index, runCount times the number of CVs |
| Contracts.RunIdsDistinct | orchestrator/functions/fanout/__init__.py:445-465 | with distinct application ids no run id occurs twice |
| Contracts.RunPlaceUnique | orchestrator/functions/fanout/__init__.py:447-448 | with distinct application ids a run id names one place only |
| Contracts.DuplicateApplicationRepeatsRunId | api/models.py:57 | two CVs with one application id make the list of waits repeat a run id |
| RunNaming.RunIdInjectiveInBatch | orchestrator/functions/fanout/__init__.py:60-61 | inside one batch it does so without any condition |
| Text.KeyMeans | orchestrator/functions/fanout/__init__.py:219-220 | a status has a word as its key exactly when it is that word in any case with any spaces around it |
| Text.DecimalReads | orchestrator/functions/fanout/__init__.py:61 | an index prints as the digits that read as it, without leading zeros |
| Text.DecimalInjective | orchestrator/functions/fanout/__init__.py:61 | different indexes print differently |
| ResultIntake.IntakeHost.LookupBatchId | orchestrator/functions/result_intake/__init__.py:234-254 | the batch in the run index, and nothing without an account or an entry |
| EndToEnd.FunctionsHost.Purge | api/routes_assess.py:94-107 | clears the history and keeps the documents |
| StatusApi.PurgeRevealsUnfinished | api/routes_assess.py:94-107 | a batch that did not complete but had stored a document reads as completed after a purge |
| RunNaming.ColonInBatchIdCollides | orchestrator/functions/fanout/__init__.py:60-61 | across batches the condition on batch ids is needed |
| Tracker.Application.constructor | orchestrator/functions/fanout/__init__.py:73-97 | starts an application with runCount queued runs under their minted ids |
| Tracker.ProgressRecord.constructor | orchestrator/functions/fanout/__init__.py:64-112 | builds the initial record |
| Statistics.InterquartileWindow | runtime/aggregation/shared.py:209-216 | the interquartile slice drops n/4 low values and one fewer than n/4 rounded up high ones; the ends are treated alike exactly when 4 does not divide n |
| Orchestrator.LookupSucceeds | orchestrator/functions/fanout/__init__.py:518 | every lookup in the run index map succeeds and gives the place the run id was minted for |
| Progress.FindRun | orchestrator/functions/fanout/__init__.py:187-194 | finds a run with this id if there is one |
| Orchestration.FindApplication | orchestrator/functions/fanout/__init__.py:362-366 | the first application with this id |
| Tracker.ProgressRecord.FindApplication | orchestrator/functions/fanout/__init__.py:362-366 | the first application with this id |
| Tracker.ProgressRecord.FindApplicationRun | orchestrator/functions/fanout/__init__.py:187-194 | the first run with this id, application by application |
| Tracker.ProgressRecord.CompletedIds | orchestrator/functions/fanout/__init__.py:176-180 | the ids of the applications all of whose runs are terminal |
| ProgressTheorems.ShadowedIsUntouched | orchestrator/functions/fanout/__init__.py:187-194 | an application whose run ids all occur earlier is never touched |

## Left out

- RunNaming.RunIdInjective: rests on the name-based UUID being collision-free; hashing is not modelled.
- ResultIntake.IntakeHost.HttpPatchRun: the text of a correlation id that is not a string is a placeholder.
- Orchestrator.BatchOrchestrator: a projection that raises between the first dispatch and finalisation, and so ends the batch with nothing stored and the record as it then was, is not modelled; the events sent out carry their number, kind, time, run and counters, not their correlation and trace ids; the blob with the prompt is not modelled.
- EndToEnd.FunctionsHost.RunUntilTerminated: knows two moments of termination, before and after the document is stored; the progress an instance shows when it is terminated in between is not modelled.
- Tracker.Application: each run is held as a value in an array, not as an object of its own; aliasing between runs is thereby excluded.
- CvScoring.PublishedSpread: scores are exact reals; rounding, infinities and NaN are not modelled.
- CvScoring.ExtractionSucceeds: a score is converted to an exact real, so an integer too large for a float, on which the source raises, is taken as it is.
- CvScoring.ParsingSucceeds: the same integers raise here, and so does a variance beyond the range of a float.
- CvScoring.RaisingOneOutput: says nothing of scores raised beyond the range of a float, for the same reason.
- CvReading.ExtractionTells: reads scores as exact reals, likewise.
- Finalize.FinalisationSucceeds: holds of outputs whose scores and their variance lie within the range of a float.
- EndToEnd.AnswerAfterRun: knows raised must-haves as the reason of a failed finalisation, not scores beyond the range of a float.
- DlqReplay.Queues.Replay: a message of the runs queue stands for its run id, and the message ids and properties the replay copies are not modelled.
- Text.Lower: lower-casing changes ASCII letters only, which is all the words compared with contain.
- Pydantic's conversions other than the strict checks on completion messages, and decoding text to JSON: messages and outputs come parsed.
- Timestamps are opaque and erased where two runs are compared.
- Azure clients, credentials, blob hashing, logging, telemetry, live-event projection and authentication.
- Status requests that fail for reasons other than a missing instance, the cancel and terminate endpoints and `_status_exists`.
- Concurrent starts of one batch and the replay of an orchestration's own history.
- `normalize_profile` and the choice between the two aggregation profiles: one comparison.
- Peeking at dead letters, the cap on how many are received, and `db/repository.py`, which the platform no longer uses.
