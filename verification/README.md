# AegisEdge edge agent: protocol proofs

AegisEdge is an edge agent that watches a node, correlates anomalies into incidents, tries bounded automatic
remediation, escalates to an operator, and ships telemetry to a control plane. Each of those duties is a small
protocol over a durable store. This project models the protocols and proves what they keep over whole runs.

| file | component | main results |
|---|---|---|
| `Escalation.dfy` | failure window, retry budget, cooldown, circuit breaker | retries per window are bounded whenever escalation ids are new, and on all runs only if the policy never retries; an open circuit stays open until an operator resets it |
| `IsolationTree.dfy` | isolation-forest validation and inference walk | the depth-first check accepts exactly the bounded binary trees; the walk always ends at a leaf at its tree depth |
| `ObservationWindow.dfy`, `IncidentEngine.dfy`, `LocalIncidentEngine.dfy` | M-of-N incident correlation, lifecycle, crash recovery | the pruned and capped window gives the replies of a reference that counts over the full history; recovery restores exactly the active incidents |
| `SingleFlight.dfy`, `Executor.dfy`, `ExecutorAgreement.dfy`, `ExecutorSafety.dfy` | concurrent execution of one decision | a refused decision is never simulated and EXECUTED is never claimed without a simulation; one leader per decision, one simulation per decision, followers get the leader's result, under every interleaving; all callers get a leader's result exactly when there is no store |
| `Orchestrator.dfy`, `ExecutionLimit.dfy` | bounded remediation loop | executor calls per incident never exceed the ceiling, across restarts, exactly when the ceiling is within the query limit or the rules yield one decision for the incident; otherwise the exact maximum |
| `SharedStore.dfy`, `OneDecision.dfy` | orchestrator and executor over one mitigation table | a cycle can simulate exactly when it is a later attempt and the decision id it passes names no earlier row; with one decision per incident nothing is ever simulated |
| `TelemetryStore.dfy`, `TelemetrySync.dfy` | batch table, sync cycle, quarantine, prune | order, conservation, isolation, draining, and a sequence high-water mark |
| `ModelActivation.dfy` | model activation and rollback | memory and disk agree exactly when the store writes succeed; two rollbacks restore both slots |
| `Approvals.dfy` | operator approvals | single use, in time, after a named approval |
| `Recovery.dfy` | restart reconciliation | fail-closed changes only; blocks exactly when something is ambiguous, and keeps blocking |
| `ResponsePolicy.dfy` | rule selection | unique best rule; independent of insertion order exactly when one candidate is unbeaten |

How the models are built. Every object whose methods change its fields is a class with those fields; its methods are
proved equal to specification functions, and the run-level theorems are about those functions. A mutex section or a
SQL transaction is one atomic step. For each main operation a theorem also says, from the state before the call,
what the call must answer and change, in the terms of the state alone. Instants and durations are integers. Generated ids, clocks, hashes, store faults,
transport answers and context cancellation are parameters of the steps, so every theorem holds for all of them unless
it says otherwise. Concurrency (`Executor`, the gate and the cycles of `Orchestrator`) is a state machine whose steps
are single critical sections, store calls or simulations of any caller, in any order.

Where the code and its own documentation disagree, the model follows the code:

- The executor is documented to give all concurrent callers of a decision the identical result
  (`edge/agent/response/executor.go:190-191`). Every caller that does not give up gets the result of a leader exactly
  when the executor has no mitigation store (`ExecutorAgreement.AgreesIffNoStore`). With one, a caller that reads the
  record while the leader is simulating returns EXECUTING (`ExecutorAgreement.ReaderReturnsSnapshot`), and if it caches
  that after the leader cached EXECUTED, every later caller of the process gets EXECUTING
  (`ExecutorAgreement.StaleSnapshotSticks`).
- The orchestrator stores its EXECUTING record under the decision id before it calls the executor. An executor built
  over the same table finds that record and returns it: a first attempt is never simulated
  (`SharedStore.CycleSimulatesIff`, `SharedStore.FirstAttemptNeverSimulates`), and with one decision per incident no
  attempt is (`OneDecision.OneDecisionNeverSimulates`).
- The hard execution ceiling is documented to bound executions. Prior attempts are counted with a query limited to 100
  rows, so with a ceiling above 100 it does so only while the rules yield one decision for the incident, whose record
  ids are then taken (`ExecutionLimit.BoundedIffWithinLimitOrOneDecision`). In general the calls of an incident are at
  most 100 and, for each decision, one per attempt number above 100 (`ExecutionLimit.CallsAreBoundedByDecisions`), and
  runs reach that number (`ExecutionLimit.BoundIsReached`).
- A RETRY whose escalation id repeats an earlier one is not recorded, so it is neither counted nor followed by a
  cooldown, and can repeat without bound (`Escalation.BoundFailsOnRepeatedAction`). The budget holds on all runs only
  if the policy never answers RETRY (`Escalation.BoundedIffNeverRetries`); a caller keeps it by not reporting the same
  failed action of a scope twice (`Escalation.NoRepeatsIsBounded`), where names that differ only in surrounding spaces
  are the same (`Escalation.SameIdIff`).
- Terminal approvals are documented as final and APPROVED as not cancellable; a consume attempt expires REJECTED and
  CANCELLED records, and cancelling accepts APPROVED (`Approvals.ConformsIff`,
  `Approvals.ApprovedCanBeCancelled`, `Approvals.RejectedCanExpire`).
- Restart recovery is documented to reconcile pending mitigations; only the 100 that the query lists are skipped
  (`Recovery.AllPendingSkippedIff`, `Recovery.BacklogIsMissed`). A used recovery tracker can disagree with the returned
  state (`Recovery.TrackerEndsInReturnedStateIff`, `Recovery.UsedTrackerDisagrees`), and a failed save of the final
  checkpoint leaves a fresh tracker reporting completion (`Recovery.FreshTrackerFailsIff`,
  `Recovery.FailedSaveLooksComplete`).
- Closing an incident in ANOMALY_DETECTED removes it from memory only, and closing with a failing store write changes
  memory first (`IncidentEngine.CloseKeepsSyncedIff`, `IncidentEngine.ClosedAnomalyComesBack`).
- Rule selection is documented as deterministic; two rules with one rule id are selected by insertion order
  (`ResponsePolicy.OrderIndependentIff`).
- Starting the activation manager with an initial model on a store in use makes it forget the stored previous model
  (`ModelActivation.InitialAgreesIff`, `ModelActivation.InitialForgetsPrevious`).

`dafny verify dfyconfig.toml` checks the whole project.

## Model

| member | source | states |
|---|---|---|
| Escalation.Engine.EvaluateFailure | edge/agent/escalation/engine.go:90-364 | decision, records and circuit after a failure, for every class and every store fault |
| Escalation.Engine.CanRetry | edge/agent/escalation/engine.go:504-532 | a retry is permitted exactly when the circuit is closed and no failure lies within the cooldown; an open circuit says no even when the failures cannot be read |
| Escalation.Engine.ResetCircuitBreaker | edge/agent/escalation/engine.go:536-568 | a reset needs a named operator, closes the circuit and leaves the failure records |
| Escalation.Engine.RecordEscalation | edge/agent/storage/sqlite.go:3263-3334 | a record with a taken id is not inserted |
| Escalation.Engine.EvaluateMitigationResult | edge/agent/escalation/engine.go:369-430 | how a mitigation outcome becomes a failure evaluation, and when none is needed |
| Escalation.Engine.EvaluateVerificationResult | edge/agent/escalation/engine.go:439-501 | how a verification outcome becomes a failure evaluation, and when none is needed |
| Escalation.EvaluationDecides | edge/agent/escalation/engine.go:177-363 | outside the cooldown, on a closed circuit: rejected verifications and unknown reconciliations escalate at once and leave the circuit; any other failure opens it when the failures in the window reach the threshold or exceed the retry budget, and is answered RETRY otherwise; with answer, circuit and record field by field |
| Escalation.RetriesIff | edge/agent/escalation/engine.go:177-363 | RETRY is answered exactly under these conditions on class, circuit, cooldown, counts and faults |
| Escalation.CooldownAnswers | edge/agent/escalation/engine.go:156-175 | a failure within the cooldown changes nothing and is answered with the end of the newest failure's cooldown |
| Escalation.OpenCircuitFiles | edge/agent/escalation/engine.go:111-144 | an open circuit escalates and files the failure under the next number |
| Escalation.InquiriesChangeNothing | edge/agent/escalation/engine.go:90-154 | malformed requests and cooldown inquiries change nothing, and each error names the first defect |
| Escalation.FaultsDecide | edge/agent/escalation/engine.go:104-352 | exactly the store faults that stop an evaluation, which then changes nothing; all others change no answer and no circuit |
| Escalation.CountIsFailures | edge/agent/storage/sqlite.go:3429-3450 | the failures in the window are the records of the scope created since its start |
| Escalation.PermitsIff | edge/agent/escalation/engine.go:504-532 | a retry is permitted exactly when the circuit is closed and every failure of the scope is a cooldown ago |
| Escalation.ResetDecides | edge/agent/escalation/engine.go:536-568 | who may reset, what a reset writes, and that it touches no failure and no other circuit |
| Escalation.RetryIsCountedIffFresh | edge/agent/escalation/engine.go:177-363 | a RETRY adds to the failures of later windows exactly when its id is new |
| Escalation.RetryBound | edge/agent/escalation/engine.go:177-363 | with new ids, any window of length FailureWindow holds at most min(MaxAutomaticRetries, threshold - 1) RETRY decisions, in every run and across resets |
| Escalation.DuplicateRetryRepeats | edge/agent/escalation/engine.go:177-363 | a RETRY whose id is taken is repeated any number of times at one instant |
| Escalation.StaleRetryExceeds | edge/agent/escalation/engine.go:177-363 | one RETRY with a taken id gives a run, with the clock never turned back, that exceeds the bound |
| Escalation.IdsRepeat | edge/agent/escalation/engine.go:177-363 | from every state, a policy that retries at all reaches a RETRY with a taken id by a reset and two failures of one action |
| Escalation.BoundedIffNeverRetries | edge/agent/escalation/engine.go:177-363 | from every state, the bound holds on all runs exactly when the policy allows no retry or the scope has a blank name |
| Escalation.SameIdIff | edge/agent/escalation/id.go:16-27 | with a collision-free hash, two inputs get one id exactly when they are equal after trimming; one of them has no bar in its names and a recognized class |
| Escalation.PaddingKeepsId | edge/agent/escalation/id.go:16-27 | a padded action name gives the same id, under any hash |
| Escalation.NoRepeatsIsBounded | edge/agent/escalation/engine.go:177-363 | with a collision-free hash and names without bars, the bound holds on every run in which no action of the scope, trimmed, fails twice with one class |
| Escalation.RetryCoolsDownIffFresh | edge/agent/escalation/engine.go:504-532 | after a RETRY with a new id no retry is permitted until the cooldown is over; after one with a taken id it is permitted at once |
| Escalation.BoundFailsOnRepeatedAction | edge/agent/escalation/engine.go:177-363 | a concrete run in which the same failing action exceeds the bound |
| Escalation.OnlyOperatorCloses | edge/agent/escalation/engine.go:536-568 | an open circuit closes in one step only by a reset with a non-blank operator |
| Escalation.StaysOpen | edge/agent/escalation/engine.go:90-144 | an open circuit stays open through every run without such a reset |
| Escalation.OpenCircuitEscalates | edge/agent/escalation/engine.go:90-144 | after any such run every evaluation escalates with the circuit open and no retry is permitted |
| Escalation.CanRetryAgrees | edge/agent/escalation/engine.go:504-532 | the retry check agrees with the open-circuit and cooldown tests of an evaluation at the same instant |
| Escalation.LatestIsNewest | edge/agent/storage/sqlite.go:3452-3480 | the latest record query returns the newest record of the scope |
| Escalation.ClosedFailuresAreSpaced | edge/agent/escalation/engine.go:146-175 | while the circuit is closed, failures recorded for one scope are at least the cooldown apart |
| IsolationTree.CheckGraph | shared/ml/model.go:408-457 | the explicit-stack search accepts exactly the trees rooted at the root index with depth at most 50, ends on cyclic input, and each error names a real defect |
| IsolationTree.CheckNodes | shared/ml/model.go:367-406 | the per-node checks accept exactly the well-formed node arrays |
| IsolationTree.ValidateForest | shared/ml/model.go:340-458 | accepts exactly the forests within the size limits whose trees are bounded trees |
| IsolationTree.NodeIsOkIff | shared/ml/model.go:367-406 | the demands on a leaf and on an inner node, field by field |
| IsolationTree.ForestIsOkIff | shared/ml/model.go:340-366 | the numeric limits on trees and nodes |
| IsolationTree.RevisitIsNoTree | shared/ml/model.go:431-446 | reaching a visited node shows a second parent or a parent of the root |
| IsolationTree.FinishedIsTree | shared/ml/model.go:420-457 | a finished search that visited everything proves a bounded tree |
| IsolationTree.DeepIsNoTree | shared/ml/model.go:424-427 | an entry beyond the depth limit shows a path longer than the limit |
| IsolationTree.UnvisitedIsUnreachable | shared/ml/model.go:451-457 | a node left unvisited is not reachable from the root |
| IsolationTree.WalkReachesLeaf | edge/agent/detector/ml.go:175-207 | in a validated tree any vector of at least the model's dimension is led by its own split decisions to a leaf within the depth limit |
| IsolationTree.WalkFailsOnlyOnFeature | edge/agent/detector/ml.go:175-207 | a shorter vector reaches a leaf or meets a feature it lacks; the depth error is never returned |
| IsolationTree.PathsAreUnique | shared/ml/model.go:408-457 | a bounded tree has one path from the root to each node |
| IsolationTree.CountedDepthIsTreeDepth | edge/agent/detector/ml.go:175-207 | the counted depth is the leaf's depth in the tree, and neither error is returned |
| IsolationTree.LandsIffDescends | edge/agent/detector/ml.go:175-207 | a vector lands on a leaf exactly when going left where its value is less than the split value, and right otherwise, leads there in as many steps as the depth says |
| IsolationTree.LessIsIeee | edge/agent/detector/ml.go:197-202 | the comparison is that of IEEE 754, false on a NaN |
| IsolationTree.PathLengthIs | edge/agent/detector/ml.go:184-188 | a tree contributes the steps to the leaf and the correction for the leaf's samples |
| IsolationTree.TraverseTree | edge/agent/detector/ml.go:175-207 | the loop lands where comparing the vector with the splits leads, left below the split value and right otherwise, with the root's split feature |
| IsolationTree.AveragePathLength | edge/agent/detector/ml.go:212-234 | the average over all trees of depth plus leaf correction, or, exactly when the vector meets a split on a feature it lacks, the feature error; never an error at the model's dimension |
| ObservationWindow.SortSorts | edge/agent/incident/engine.go:610-612 | the sort orders observations by time |
| ObservationWindow.SortMultiset | edge/agent/incident/engine.go:610-612 | the sort loses and invents nothing |
| ObservationWindow.SortIsStable | edge/agent/incident/engine.go:610-612 | observations of one instant keep their order of arrival |
| ObservationWindow.KeepIsSuffix | edge/agent/incident/engine.go:614-631 | what is kept of a sorted sequence is its newest recent part, up to the cap |
| ObservationWindow.PruneAndCap | edge/agent/incident/engine.go:614-631 | the prune and cap slices are exactly that |
| ObservationWindow.KeepInsert | edge/agent/incident/engine.go:607-632 | what an earlier insertion dropped cannot matter to a later one |
| ObservationWindow.WindowStep | edge/agent/incident/engine.go:607-632 | the window kept one insertion at a time is the window of the whole history, for any order of arrival |
| ObservationWindow.VerdictAgrees | edge/agent/incident/engine.go:335-355 | the M-of-N test on the window equals the naive count over the full history, for in-order and out-of-order signals |
| ObservationWindow.StalenessAgrees | edge/agent/incident/engine.go:279-287 | the staleness test on the window equals the test on the full history |
| IncidentEngine.Configured | edge/agent/incident/engine.go:142-166 | the defaults give 1 <= M <= N and a positive window, or the configuration is refused |
| IncidentEngine.SeverityFollowsScore | edge/agent/incident/engine.go:106-117 | overrides win; otherwise severity is monotone in the score |
| IncidentEngine.ProcessAgrees | edge/agent/incident/engine.go:237-442 | one call on windows gives the reply and the next state of one call on full histories |
| IncidentEngine.RunAgrees | edge/agent/incident/engine.go:237-632 | every run of signals, transitions and closes, faults included, replies as the full-history reference does |
| IncidentEngine.CreatesIncidentIffCorrelated | edge/agent/incident/engine.go:279-442 | after any run a new signal on an idle stream is stale, or is kept and creates an incident, exactly as the distinct observations since the last clear say; the incident has the severity of the metric's override or of the score, and the signal's values and instants |
| IncidentEngine.CorrelatedIs | edge/agent/incident/engine.go:335-355 | the rule counts the observations within the window of every observation |
| IncidentEngine.StaleIff | edge/agent/incident/engine.go:279-287 | a signal is stale exactly when it predates the window of some observation |
| IncidentEngine.ActiveCorrelates | edge/agent/incident/engine.go:302-333 | a signal in time on an active stream updates the incident's instant and value, in memory and in its row, and nothing else |
| IncidentEngine.KnownIsNotCounted | edge/agent/incident/engine.go:261-277 | a known signal is answered with the stream's incident and not counted again |
| IncidentEngine.RefusedChangesNothing | edge/agent/incident/engine.go:237-442 | each error, with its cause, leaves streams and store as they were |
| IncidentEngine.RedeliveryChangesNothing | edge/agent/incident/engine.go:261-277 | redelivering an accepted or known signal changes nothing and returns the stream's current incident |
| IncidentEngine.StreamsAreIsolated | edge/agent/incident/engine.go:237-259 | a call touches no stream but its own |
| IncidentEngine.ActiveIncidentPersists | edge/agent/incident/engine.go:302-333 | without a lifecycle call, an active incident keeps its identity, severity, status and trigger through every run of signals |
| IncidentEngine.RunKeepsDistinct | edge/agent/incident/engine.go:261-277 | accepted observations of a stream have distinct ids in every run |
| IncidentEngine.OneActiveRow | edge/agent/storage/sqlite.go:1436-1596 | the store never holds two active incidents for one stream |
| IncidentEngine.TransitionKeepsSynced | edge/agent/incident/engine.go:530-561 | a lifecycle transition keeps memory and store in step, store faults included |
| IncidentEngine.TransitionDecides | edge/agent/incident/engine.go:530-561 | exactly the transitions along the lifecycle succeed; incident, observations and row after each |
| IncidentEngine.CloseDecides | edge/agent/incident/engine.go:568-597 | what a close answers, drops and writes for every status and fault |
| IncidentEngine.CloseKeepsSyncedIff | edge/agent/incident/engine.go:568-597 | closing keeps them in step exactly when it does not drop an ANOMALY_DETECTED incident and its write succeeds |
| IncidentEngine.ClosedAnomalyComesBack | edge/agent/incident/engine.go:568-597 | a closed ANOMALY_DETECTED incident leaves memory, stays active in the store, and is active again after a recovery |
| IncidentEngine.RecoveryAgrees | edge/agent/incident/engine.go:175-202 | a fresh engine recovering from the store has exactly the old engine's active incident on every stream |
| IncidentEngine.ReplayRebuilds | edge/agent/incident/engine.go:203-233 | a recovery rebuilds a stream's window from the listed observations and knows them all again |
| IncidentEngine.RunKeepsSynced | edge/agent/incident/engine.go:175-632 | every orderly run, faults and restarts included, keeps memory and store in step |
| IncidentEngine.RecoveryAfterRunAgrees | edge/agent/incident/engine.go:175-202 | after any orderly run from an empty store, recovery agrees with memory and active rows are unique per stream |
| LocalIncidentEngine.StreamState.InsertObservation | edge/agent/incident/engine.go:608-632 | sort, prune and cap in place do what the window specification says |
| LocalIncidentEngine.SortStable | edge/agent/incident/engine.go:342-344 | a stable sort by detection time |
| LocalIncidentEngine.CountCandidates | edge/agent/incident/engine.go:335-352 | the number of candidates within the signal's window |
| LocalIncidentEngine.LocalEngine.Process | edge/agent/incident/engine.go:237-442 | reply, streams and store after a signal, on every branch |
| LocalIncidentEngine.LocalEngine.Commit | edge/agent/incident/engine.go:315-333 | memory changes only after the store accepted the observation and its incident |
| LocalIncidentEngine.LocalEngine.TransitionActiveIncident | edge/agent/incident/engine.go:530-561 | reply, stream and row after a transition; only the named stream changes |
| LocalIncidentEngine.LocalEngine.ResolveIncident | edge/agent/incident/engine.go:603-605 | resolving is the transition to RECOVERED |
| LocalIncidentEngine.LocalEngine.CloseActiveIncident | edge/agent/incident/engine.go:568-597 | reply, stream and row after a close, the failed write included |
| LocalIncidentEngine.LocalEngine.RecoverFromStoreAt | edge/agent/incident/engine.go:175-233 | the streams rebuilt from the listed incidents and observations |
| SingleFlight.EnterKeepsGate | edge/agent/response/executor.go:265-288 | entering keeps exactly one running flight per id |
| SingleFlight.FinishKeepsGate | edge/agent/response/executor.go:293-303 | finishing keeps it too |
| Executor.AtMostOneLeader | edge/agent/response/executor.go:265-303 | at most one caller leads a decision at a time, under every interleaving |
| Executor.FollowersShareTheLeadersResult | edge/agent/response/executor.go:271-303 | a caller that waited to completion returned its leader's result, and every awaited flight has a live leader |
| Executor.SimulatedAtMostOnce | edge/agent/response/executor.go:192-405 | in one process the body runs at most once per decision with an allowlisted action, whatever the store does |
| Executor.SimulatedAtMostOnceAcrossRestarts | edge/agent/response/executor.go:246-255 | with working lookups and pre-execution records this holds across any number of crashes |
| ExecutorSafety.RefusedNeverSimulated | edge/agent/response/executor.go:189-343 | over whole runs from any store, crashes included: a decision that no check allows and no caller brings validated is never simulated |
| ExecutorSafety.RefusalIsPublished | edge/agent/response/executor.go:305-343 | a refused leader returns and publishes exactly SKIPPED or FAILED under its code, or the check's error, in every continuation, and publishing does not cache it |
| ExecutorSafety.ExecutedMeansSimulated | edge/agent/response/executor.go:189-405 | over whole runs, whoever is told EXECUTED, and whatever store says it, the body ran for the decision, unless the store said so before |
| ExecutorSafety.LeaderDecides | edge/agent/response/executor.go:345-379 | an allowed leader writes its EXECUTING record, runs the body unless cancelled, and gets EXECUTED, or FAILED under the code of its cause |
| ExecutorSafety.ResultIsMarkedIff | edge/agent/storage/sqlite.go:1963-2060 | which records a result is written over |
| ExecutorSafety.LookupDecides | edge/agent/response/executor.go:236-255 | a cached decision is returned, a stored one returned and cached, any other goes on to the gate |
| ExecutorSafety.WaitingDecides | edge/agent/response/executor.go:271-280 | a waiting caller returns what its flight published, or its own cancellation |
| ExecutorAgreement.OneFaultSimulatesTwice | edge/agent/response/executor.go:246-255 | both conditions are needed: one failed record, or one failed lookup, and a crash give two simulations |
| ExecutorAgreement.AgreesIffNoStore | edge/agent/response/executor.go:189-303 | in all runs of a process every caller that does not give up returns some leader's outcome, exactly when there is no store |
| ExecutorAgreement.StoredIsReturned | edge/agent/response/executor.go:246-255 | a decision stored before the process starts is answered from its record, without any leader |
| ExecutorAgreement.ReaderReturnsSnapshot | edge/agent/response/executor.go:246-255 | over every store without the decision, a reader overtakes the leader and returns a result no leader published |
| ExecutorAgreement.StaleSnapshotSticks | edge/agent/response/executor.go:246-255 | a run after which the leader has returned EXECUTED and, whatever follows in the process, every later caller that returns gets EXECUTING |
| Executor.StepKeepsProtocol | edge/agent/response/executor.go:192-967 | every step of every caller keeps gate, waiting callers and leaders consistent |
| Executor.SimulatedExecutor.EnterGate | edge/agent/response/executor.go:265-288 | cached result, flight to follow, or new flight, and the gate invariant |
| Executor.SimulatedExecutor.FinishFlight | edge/agent/response/executor.go:293-303 | publishes the outcome, caches only EXECUTED results, removes the flight |
| Executor.SimulatedExecutor.CacheStored | edge/agent/response/executor.go:248-254 | a stored result becomes the cached one |
| Executor.SimulatedExecutor.ExecuteSimulation | edge/agent/response/executor.go:530-615 | outcome by cancellation and allowlist; the counter counts exactly the bodies run |
| Orchestrator.Ceiling | edge/agent/orchestrator/orchestrator.go:203-214 | a non-positive ceiling becomes a positive default, others are kept |
| Orchestrator.ExecutionsAreBounded | edge/agent/orchestrator/orchestrator.go:619-627 | within the query limit, executor calls per incident never exceed the ceiling, over cycles, concurrency, crashes and foreign writes |
| Orchestrator.ReachesAttemptIff | edge/agent/orchestrator/orchestrator.go:519-617 | a cycle reaches its first attempt exactly when the query works, recovery is unconfirmed, no row shown is UNKNOWN, the circuit is closed, and there is no prior row or a retry is permitted; otherwise it ends by the first obstacle |
| Orchestrator.ListedAreShown | edge/agent/storage/sqlite.go:1904-1960 | the query shows the first 100 rows of the incident |
| Orchestrator.RecordsIff | edge/agent/orchestrator/orchestrator.go:619-860 | an attempt records exactly when it is not cancelled, within the ceiling, not refused, and its ids are free; the row it adds, and how it ends otherwise |
| Orchestrator.ExecuteDecides | edge/agent/orchestrator/orchestrator.go:912-1025 | one call, then the next attempt or the result |
| Orchestrator.PublishDecides | edge/agent/orchestrator/orchestrator.go:494-507 | the outcome is published, and cached exactly when it is Escalated, Recovered, Failed or Cancelled; otherwise the next caller starts a new cycle |
| Orchestrator.RecordPrecedesCall | edge/agent/orchestrator/orchestrator.go:837-915 | each executor call follows its stored record, whose record ids no earlier call's record had; the id passed is the record's without the attempt suffix |
| Orchestrator.AttemptsHaveOwnIds | edge/agent/orchestrator/orchestrator.go:839-844 | two attempts of one decision never share an action id or a decision id |
| Orchestrator.TerminalResultIsFinal | edge/agent/orchestrator/orchestrator.go:467-507 | after a terminal result the process never calls the executor for the incident again, and later callers get that result |
| Orchestrator.DefaultOrchestrator.constructor | edge/agent/orchestrator/orchestrator.go:305-373 | the ceiling after defaulting, with no flight and no history |
| Orchestrator.DefaultOrchestrator.EnterGate | edge/agent/orchestrator/orchestrator.go:467-489 | cached result, flight to follow, or new cycle |
| Orchestrator.DefaultOrchestrator.ExecuteCycle | edge/agent/orchestrator/orchestrator.go:520-1262 | the attempt loop does the steps of one cycle, makes no more calls than attempts remain, and none at all, with nothing written, when the checks before it refuse |
| Orchestrator.DefaultOrchestrator.Attempt | edge/agent/orchestrator/orchestrator.go:620-1025 | one attempt: one record and one call, or none of either when cancellation, ceiling, a refusal or a taken id stops it |
| Orchestrator.DefaultOrchestrator.PublishResult | edge/agent/orchestrator/orchestrator.go:494-507 | the outcome is published and only a terminal one is cached |
| ExecutionLimit.CallsAreBoundedByDecisions | edge/agent/orchestrator/orchestrator.go:519-867 | with a ceiling of at least 100, an incident gets at most 100 calls and, for each of its decisions, one per attempt number from 101 to the ceiling, over cycles, concurrency, crashes and foreign writes |
| ExecutionLimit.OneDecisionIsBounded | edge/agent/response/decision.go:94-107 | while the rules yield one decision for an incident, every configured ceiling bounds its calls |
| ExecutionLimit.EvaluationsAreTails | edge/agent/response/policy.go:263-264 | every decision id the policy gives an incident is one of those of the actions and targets in its rules |
| ExecutionLimit.CallsAreBoundedByRules | edge/agent/response/policy.go:263-264 | the bound for a rule set counts the different pairs of action and target that it orders |
| ExecutionLimit.BoundIsReached | edge/agent/orchestrator/orchestrator.go:519-867 | for any distinct decisions the orchestrator's own cycles, from an empty store and without a restart, make exactly that many calls |
| ExecutionLimit.TwoDecisionsExceed | edge/agent/orchestrator/orchestrator.go:525 | two decisions: calls on attempts 1 to the ceiling for one, then on 101 to the ceiling for the other |
| ExecutionLimit.BoundedIffWithinLimitOrOneDecision | edge/agent/orchestrator/orchestrator.go:619-627 | the ceiling bounds the calls of an incident in every run exactly when it is within the query limit or there is at most one decision |
| SharedStore.CanSimulateIffNew | edge/agent/response/executor.go:406-440 | with nobody past the store lookup, some healthy run simulates the decision exactly when it is neither stored nor cached |
| SharedStore.StoredNeverSimulates | edge/agent/response/executor.go:425-440 | a stored decision is never simulated, whatever callers, other writers and crashes do, as long as lookups succeed |
| SharedStore.CycleSimulatesIff | edge/agent/orchestrator/orchestrator.go:837-915 | a cycle that has recorded its attempt in the executor's table can simulate exactly when it is a later attempt and no earlier row or cached result bears the id it passes |
| SharedStore.FirstAttemptNeverSimulates | edge/agent/orchestrator/orchestrator.go:837-915 | in every run of the orchestrator a call whose record has the id it passes is never simulated |
| SharedStore.FirstAttemptGetsItsOwnRecord | edge/agent/orchestrator/orchestrator.go:837-915 | such a call returns the EXECUTING record of its own cycle |
| OneDecision.OneDecisionNeverSimulates | edge/agent/orchestrator/orchestrator.go:837-915 | in every run in which the incident keeps one decision, no call of any attempt is simulated by an executor that shares the table |
| TelemetryStore.NextSequenceIsNew | edge/agent/main.go:216-223 | after any interleaving of store operations the next sequence exceeds every one ever persisted for the node |
| TelemetryStore.PruneDeletesOnlyCompleted | edge/agent/storage/sqlite.go:990-1034 | a pruned batch was SYNCED or PUBLISHED and a later batch of its node remains |
| TelemetryStore.PruneKeepsLatest | edge/agent/storage/sqlite.go:990-1034 | pruning leaves every node's latest sequence number unchanged |
| TelemetryStore.PruneDecides | edge/agent/storage/sqlite.go:990-1034 | only batches completed before the cutoff and overtaken by a later one go; all of them unless the limit is reached, and then the lowest |
| TelemetryStore.BatchStore.PersistBatch | edge/agent/storage/sqlite.go:487-561 | a valid new batch is stored PENDING; duplicates, invalid batches and faults change nothing |
| TelemetryStore.BatchStore.GetLatestSequenceNumber | edge/agent/storage/sqlite.go:950-966 | the highest sequence number of the node, or -1 |
| TelemetryStore.BatchStore.PruneCompletedBatches | edge/agent/storage/sqlite.go:990-1034 | deletes the selected rows, no more than the limit, and counts them |
| TelemetrySync.MaxAttempts | edge/agent/sync/syncer.go:32-38 | the retry threshold is always positive |
| TelemetrySync.CycleConserves | edge/agent/sync/syncer.go:151-335 | no batch is lost or invented; the drop in PENDING equals synced plus quarantined, and both equal their per-node sums, on every exit path |
| TelemetrySync.CycleExplainsEveryBatch | edge/agent/sync/syncer.go:172-331 | each batch ends a cycle as the one answer to its own transmission calls for, and only pending batches change |
| TelemetrySync.CycleTransmitsInOrder | edge/agent/sync/syncer.go:172-331 | no smaller sequence of the node is pending when a batch is sent, and a node halts after a batch that stays pending |
| TelemetrySync.TryDecides | edge/agent/sync/syncer.go:172-331 | a node goes on after a batch exactly when nothing halts it there; row, books and log for every answer and fault |
| TelemetrySync.NodeStopsAtFirstHalt | edge/agent/sync/syncer.go:172-331 | a node's turn goes exactly to its first halt: all before it is transmitted in order, completed and counted, all after it untouched |
| TelemetrySync.NothingTransientCompletesAll | edge/agent/sync/syncer.go:298-300 | a quarantined batch holds up none behind it: without a transient failure short of the threshold the whole list is transmitted and completed |
| TelemetrySync.CycleCompletesUpToHalt | edge/agent/sync/syncer.go:141-335 | the same for every node of an uncancelled cycle, whatever happens to the others |
| TelemetrySync.NodesInTurn | edge/agent/sync/syncer.go:151-172 | cancellation ends a cycle at a node's turn, and a node whose query fails is booked and passed over |
| TelemetrySync.NodesAreIsolated | edge/agent/sync/syncer.go:157-332 | an uncancelled cycle treats a node as if it were alone |
| TelemetrySync.NodeIsLocal | edge/agent/sync/syncer.go:172-331 | what happens to a node's rows depends only on those rows |
| TelemetrySync.CycleMakesProgress | edge/agent/sync/syncer.go:230-327 | with a transport and a working store, the remaining attempts of a node with pending batches strictly decrease, whatever the transport answers |
| TelemetrySync.RoundsDrain | edge/agent/sync/syncer.go:230-327 | that many cycles leave the node with nothing pending |
| TelemetrySync.CycleKeepsAttempts | edge/agent/sync/syncer.go:230-327 | a cycle keeps the attempts of every pending batch below the threshold, faults and cancellation included |
| TelemetrySync.RunKeepsAttemptsIff | edge/agent/sync/syncer.go:230-343 | in every run of persisting, requeueing, pruning and cycles from an empty table, pending attempts stay below the threshold exactly when those of the accepted batches are |
| TelemetrySync.Syncer.SyncPendingBatches | edge/agent/sync/syncer.go:141-335 | table, statistics and transmissions of a cycle, on every exit path |
| TelemetrySync.Syncer.SyncOneNode | edge/agent/sync/syncer.go:172-331 | the inner loop over one node's batches |
| TelemetrySync.Syncer.SyncOneBatch | edge/agent/sync/syncer.go:172-331 | one transmission and its bookkeeping |
| TelemetrySync.Syncer.RequeueBatch | edge/agent/sync/syncer.go:340-343 | only a FAILED batch returns to PENDING, with attempt zero |
| ModelActivation.AlwaysServesValidModel | edge/agent/modelactivation/manager.go:200-473 | no fault, corrupt slot or restart makes the agent serve an invalid or incompatible model |
| ModelActivation.StepKeepsSound | edge/agent/modelactivation/manager.go:294-657 | detector, active manifest and distinct versions stay consistent in every step from an agreeing state |
| ModelActivation.ActivationAgreesIff | edge/agent/modelactivation/manager.go:427-473 | after a switching activation memory and disk agree exactly when its writes succeeded |
| ModelActivation.RollbackAgreesIff | edge/agent/modelactivation/manager.go:613-657 | after a switching rollback they agree exactly when the swap completed |
| ModelActivation.UnlessSwitchedUnchanged | edge/agent/modelactivation/manager.go:294-657 | a failed or idempotent call changes neither memory nor disk |
| ModelActivation.ActivateDecides | edge/agent/modelactivation/manager.go:294-473 | exactly which staged model an activation switches to, by target, checks and version, which error it gives otherwise, and memory and slots after it |
| ModelActivation.RollbackDecides | edge/agent/modelactivation/manager.go:489-657 | the same for a rollback, with the model it restores |
| ModelActivation.StartDecides | edge/agent/modelactivation/manager.go:200-238 | which stored models a start serves |
| ModelActivation.InitialDecides | edge/agent/modelactivation/manager.go:241-280 | which initial models are accepted, and what is saved |
| ModelActivation.RestartRestores | edge/agent/modelactivation/manager.go:200-238 | a restart serves the same active model with the same previous one |
| ModelActivation.ReachableIsSound | edge/agent/modelactivation/manager.go:171-657 | all of this in every state reachable from a fresh store whose operations succeed |
| ModelActivation.InitialAgreesIff | edge/agent/modelactivation/manager.go:241-280 | an initial model agrees with the store exactly when no previous model is stored |
| ModelActivation.InitialForgetsPrevious | edge/agent/modelactivation/manager.go:241-280 | an initial model on a store with a previous one: the stored previous stays, and a rollback is refused |
| ModelActivation.TwoRollbacksRestore | edge/agent/modelactivation/manager.go:489-657 | two consecutive switching rollbacks restore detector, disk, active and previous model |
| ModelActivation.RollbackSwitchesIffAcceptable | edge/agent/modelactivation/manager.go:489-614 | with agreement, a rollback switches exactly when the stored previous model passes the checks |
| ModelActivation.DefaultManager.constructor | edge/agent/modelactivation/manager.go:200-238 | a manager without an initial model recovers what the store holds |
| ModelActivation.DefaultManager.NewManager | edge/agent/modelactivation/manager.go:171-280 | with an initial model it is refused or becomes active and is saved; without one the store is recovered |
| ModelActivation.DefaultManager.Activate | edge/agent/modelactivation/manager.go:294-473 | outcome, fields and slots after an activation, soundness kept |
| ModelActivation.DefaultManager.Rollback | edge/agent/modelactivation/manager.go:489-657 | outcome, fields and slots after a rollback, soundness kept |
| Approvals.ConsumedAtMostOnce | edge/agent/storage/sqlite.go:2559-2629 | consumption succeeds at most once, before expiry, after an approval in time by a named operator |
| Approvals.ConsumedIsFinal | edge/agent/storage/sqlite.go:2340-2672 | a CONSUMED record never changes again |
| Approvals.ClosedStaysClosed | edge/agent/storage/sqlite.go:2340-2672 | REJECTED, EXPIRED and CANCELLED records never become APPROVED or CONSUMED |
| Approvals.ApproveDecides | edge/agent/storage/sqlite.go:2340-2422 | exactly when an approval succeeds, what it writes, and that a late one expires the record |
| Approvals.RejectDecides | edge/agent/storage/sqlite.go:2425-2490 | exactly when a rejection succeeds and what it writes |
| Approvals.CancelDecides | edge/agent/storage/sqlite.go:2493-2555 | exactly when a cancellation succeeds and what it writes |
| Approvals.ConsumeDecides | edge/agent/storage/sqlite.go:2559-2629 | exactly when a consumption succeeds, what it writes, and what a late attempt does |
| Approvals.SweepDecides | edge/agent/storage/sqlite.go:2632-2672 | a sweep expires every open record whose time is up and leaves every other record exactly as it is |
| Approvals.ConformsIff | shared/types/types.go:282-303 | an operation follows the transition table exactly when it is neither a cancel of APPROVED nor a late consume of REJECTED or CANCELLED |
| Approvals.ApprovedCanBeCancelled | edge/agent/storage/sqlite.go:2493-2555 | a pending record is approved, then cancelled |
| Approvals.RejectedCanExpire | edge/agent/storage/sqlite.go:2559-2629 | a pending record is rejected, then turned EXPIRED by a late consume |
| Approvals.ApprovalStore.ApproveApproval | edge/agent/storage/sqlite.go:2340-2422 | reply and record after an approval attempt |
| Approvals.ApprovalStore.RejectApproval | edge/agent/storage/sqlite.go:2425-2490 | reply and record after a rejection attempt |
| Approvals.ApprovalStore.CancelApproval | edge/agent/storage/sqlite.go:2493-2555 | reply and record after a cancellation attempt |
| Approvals.ApprovalStore.ConsumeApproval | edge/agent/storage/sqlite.go:2559-2629 | succeeds exactly on an APPROVED unexpired record; otherwise the diagnosed error and its side effect |
| Approvals.ApprovalStore.ExpireStaleApprovals | edge/agent/storage/sqlite.go:2632-2672 | no stale record remains, all others are untouched |
| Recovery.RecoveryOnlyCloses | edge/agent/recovery/manager.go:142-259 | whatever fails, only EXECUTING to UNKNOWN and PENDING to SKIPPED |
| Recovery.BlocksIffAmbiguous | edge/agent/recovery/manager.go:142-216 | intervention is required exactly when something was EXECUTING or UNKNOWN before |
| Recovery.RecoveryDecides | edge/agent/recovery/manager.go:142-355 | the counts and the state a recovery returns, and every row after it |
| Recovery.ErrorsDecide | edge/agent/recovery/manager.go:107-371 | the error is that of the first call that fails |
| Recovery.CheckpointDecides | edge/agent/recovery/manager.go:184-216 | the checkpoint holds the state returned; a failed recovery writes none |
| Recovery.UpdateDecides | edge/agent/storage/store.go:285-301 | the changes of status that are accepted |
| Recovery.MovesAre | edge/agent/recovery/state.go:42-72 | the moves of the tracker |
| Recovery.AllPendingSkippedIff | edge/agent/recovery/manager.go:218-259 | no pending mitigation remains exactly when at most 100 were pending |
| Recovery.BacklogIsMissed | edge/agent/recovery/manager.go:218-259 | with any backlog beyond 100 recovery completes and the rest stays pending |
| Recovery.UnknownStays | edge/agent/storage/store.go:285-301 | UNKNOWN survives every update, record and restart |
| Recovery.BlockedStaysBlocked | edge/agent/recovery/manager.go:142-216 | once blocked, every later recovery that returns a decision blocks too |
| Recovery.TraceIsLegal | edge/agent/recovery/state.go:42-72 | the tracker makes legal transitions only |
| Recovery.TrackerEndsInReturnedStateIff | edge/agent/recovery/manager.go:184-298 | the state before the call, the table and the environment that make the tracker end in the returned state; a fresh tracker always does |
| Recovery.UsedTrackerDisagrees | edge/agent/recovery/manager.go:107-298 | a tracker blocked by an earlier recovery stays blocked while recovery returns that none was required |
| Recovery.FreshTrackerFailsIff | edge/agent/recovery/manager.go:313-371 | on an error a fresh tracker ends failed, except exactly when everything succeeds but the final save |
| Recovery.FailedSaveLooksComplete | edge/agent/recovery/manager.go:313-371 | an empty store whose final save fails: an error, and a tracker that reports none was required |
| Recovery.Tracker.Transition | edge/agent/recovery/state.go:105-114 | moves exactly on a valid transition |
| Recovery.Manager.RunRecovery | edge/agent/recovery/manager.go:107-355 | decision, table, tracker and checkpoint of a recovery, for every fault |
| Recovery.Manager.SkipPending | edge/agent/recovery/manager.go:231-258 | the loop over listed mitigations, up to the first failure |
| Recovery.Manager.ConcludeRecovery | edge/agent/recovery/manager.go:261-355 | the completion state, tracker and checkpoint |
| ResponsePolicy.BetterIsStrictTotalOrder | edge/agent/response/policy.go:238-254 | the comparator is a strict total order on distinct rule ids |
| ResponsePolicy.SelectedIsUniqueBest | edge/agent/response/policy.go:211-258 | with distinct ids the selected rule is the one applicable rule that beats all others, or the fallback |
| ResponsePolicy.SelectedGoesFirst | edge/agent/response/policy.go:211-258 | no applicable rule goes ahead of the selected one: a rule for the metric first, then the higher priority, then the higher minimum severity, then the smaller id; without one, the enabled fallback |
| ResponsePolicy.LessIff | edge/agent/response/policy.go:252 | rule ids compare as strings |
| ResponsePolicy.EvaluationDecides | edge/agent/response/policy.go:184-297 | which incidents get a decision, which error the others get, and the decision's fields |
| ResponsePolicy.OrderIndependentIff | edge/agent/response/policy.go:211-258 | the selection is the same for every insertion order exactly when no two different candidates are unbeaten; distinct ids suffice |
| ResponsePolicy.EqualIdsDependOnOrder | edge/agent/response/policy.go:238-254 | two rules with one id, selected by insertion order |
| ResponsePolicy.SortPutsBestFirst | edge/agent/response/policy.go:232-255 | the stable sort orders the candidates and puts the best first |
| ResponsePolicy.RuleBasedPolicy.Evaluate | edge/agent/response/policy.go:184-297 | the decision or the error, on every status |
| ResponsePolicy.RuleBasedPolicy.AddRule | edge/agent/response/policy.go:156-158 | a rule is appended |

## Left out

- JSON encoding, SHA-256, UUID generation, HTTP, NATS, files and SQL text: I/O. Ids and hashes are parameters or
  uninterpreted functions; model files and metadata are values in two slots.
- Instants are integers; the SQL comparisons of RFC 3339 strings with fractional seconds are not modelled, nor is time
  zone handling.
- Field-by-field `Validate` methods of signals, batches, incidents and manifests appear as one outcome each.
- Evidence maps, descriptions, reasons, audit events, metrics, health checks and event handlers: no effect on the
  protocols.
- Floating-point scoring: `ExpectedPathLength` is a parameter, sums are over the reals, and the final power function
  and the dominant diagnostic feature of a score are absent.
- RegisterIncident: with a durable store it always fails after creating the stream (it passes a nil observation).
- Observations restored after a restart are rebuilt, but nothing is claimed about them: a clear in memory is not stored.
- ResetHistory, GetExecution and History of the executor: a reset would allow a second simulation by design.
- The verification engine is an oracle returning a status.
- The statistical and threshold detectors, the telemetry generator and the coordinator: easy members only.
- LocalIncidentEngine.LocalEngine.Process: incidents are values, so the aliasing of the returned incident object with
  the engine's own is not captured; correlation keys are (node, metric) pairs, which matches the code when node ids
  contain no colon.
- IncidentEngine.RunKeepsSynced: assumes that generated incident ids are new, since the code relies on UUIDs.
- Executor.SimulatedAtMostOnceAcrossRestarts: the store is keyed by decision id; a record refused because another
  decision shares its action id (ids equal after their first four characters) is not modelled.
- Orchestrator.DefaultOrchestrator.ExecuteCycle: execution, verification and escalation outcomes of an attempt are
  inputs of its round; decision ids are "dec-" and a tail, so the slicing of ids shorter than four characters is not
  modelled; waiting followers are covered by the executor's model of the same gate.
- Orchestrator.DefaultOrchestrator.Attempt: the decision id, the verdicts of policy, approval checks and safety
  validation, and whether a retry is authorised, are inputs of the round, since those components decide them; the order
  in which they are met and what they stop is modelled. `ExecutionLimit` restricts the ids to those the rules give.
- Escalation.NoRepeatsIsBounded: SHA-256, cut to 32 hex digits, is taken as a function without collisions.
- SharedStore.CycleSimulatesIff: the executor's writes to the shared table are rows by decision id; action ids are the
  orchestrator's part only, and the executor's call is one without a further approval lookup.
- TelemetrySync.CycleTransmitsInOrder: a cycle runs without an operator's requeue or a new batch in between; the
  high-water mark is proved for arbitrary interleavings.
- TelemetrySync.Syncer.SyncPendingBatches: failures per node are kept by kind, not by message.
- ModelActivation.ReachableIsSound: a file operation succeeds, fails before writing, or (the swap) stops half way;
  metadata files that fail alone and the last-result snapshots are not modelled.
- Approvals.ApprovalStore.ConsumeApproval: the decision-binding checks made before consumption belong to the executor's
  oracle.
