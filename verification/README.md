# Verified model of the agent platform's deterministic core

The platform runs chat requests through a planner, tools, retrieval and a critic, hands long work to a task engine, and evaluates itself with dataset runs and reports. Language models, SQL, embeddings and the workflow server are foreign; what decides about their answers is deterministic Go code. This project models that code and proves what it guarantees, over every input, every schedule and every run. `dafny verify dfyconfig.toml` checks all of it.

## Components

- **Workflow tasks.** `WorkflowStore` is the locked in-memory store with its append-only audit log and FIFO claim, as a class and as a function on states. `WorkflowAudit` is the status automaton of the log. `WorkflowService` has promotion, approval, retry and the worker's settlement of a task. `WorkflowEngine` interleaves any number of workers and API calls, with the read and the write of an API call as separate steps. A *guarded* run is one in which an approval or retry is written while the row has the status it is legal from, a failed start while the row waits or is running and held by nobody, and the atomic report finalizer is not handed a task that the version lookup has failed. Guarded runs are exactly the runs in which logs always replay to the stored status and every running task has at most one owner; runs with atomic API calls are guarded. `WorkflowRaces` proves what remains true without the guard, and gives runs in which the rest is lost.
- **Eval runs.** `EvalStore`, `EvalReport`, `EvalRegression` and `EvalRunner` follow a run from dataset to snapshot, judged results, report and regression verdict. `EvalEngine` proves the store's invariant under every interleaving of its steps, including the calls that read first and write later, and traces every stored report to the state it was built from.
- **Pagination.** `Pagination` has the four scan loops that filter on a computed attribute, all proved equal to "filter everything, then slice", and the client's walk over the pages.
- **Chunker.** `Chunker` keeps the sentences in one array and the groups as ranges of it; merging writes into the shared array in place, and the array comes out unchanged because merged groups are adjacent.
- **Context budget.** `ContextBudget` proves the two eviction loops equal to one declarative choice and says exactly when the safety net departs from it.
- **Policy and planning.** `Policy` is the merge of the org, tenant and user layers, `PolicyCache` the cached loader with its interleavings, `Planner` the validators, the keyword planner and replanning, `ToolExecution` the tool loop with one replan, the approval gate, and the promotion that follows, down to the stored workflow task.
- **Retrieval.** `Fusion` is reciprocal rank fusion and the expansion of child chunks, `FanOut` the bounded goroutine fan-out, `Pipeline` rerank, compress, filter and reorder, `Indexer` the upsert-then-delete indexing with its chunk ids (`Decimal` has the number format).
- **Cases.** `Cases` is the custom case order, the lists and the one-pass summaries.
- `Common` holds results, sorting and string order.

## Conventions

Time is an integer and scores are exact reals. What a collaborator answers (executor, judge, model, embedder, database, workflow start, clock) is a parameter: a value, or a function of the call. A map that Go walks in arbitrary order is walked here in arbitrary order. Preconditions are what the callers guarantee: defaults filled in by constructors (positive chunk sizes, positive page limits), a clock that never shows the zero time, unique tool names in the registry, unique evidence ids within one ranked list.

## Where the code and its own words disagree

The model follows the code.

- `internal/contextengine/service.go:238-239` says the safety net keeps the highest-priority block; it keeps the first one, which is also reported as dropped (`ContextBudget.SafetyNetKeepsBestIff`, `ContextBudget.FirstCandidateIsBestIff`). Lines 171-172 say that the most relevant evidence gets the highest priority; beyond the twenty best snippets all priorities are equal and the better snippet is evicted first (`ContextBudget.EvidenceEvictionIff`).
- `internal/agent/planner/policy.go:36-38` says a partial policy cannot disable tools; if no layer sets the switch, it does (`Policy.ToolsOffIff`, `Policy.PartialPolicyDisablesTools`).
- `internal/agent/planner/prompt.go:341` speaks of earlier steps; dependencies are only checked to exist (`Planner.CyclicPlanAccepted`), and before the plan is cut to six steps (`Planner.PlansAreClosedIff`).
- Dataset edits are meant for drafts, but the status is checked before the lock (`EvalEngine.LateEditReachesPublishedIff`, `EvalEngine.PublishedDatasetGrows`).
- A task that requires approval can run without one after its workflow start failed (`WorkflowRaces.StartFailureBypassesApproval`); interleaved approvals can give a task two workers (`WorkflowRaces.StaleApprovalGivesTwoOwners`), and a late start failure can take the row from its worker (`WorkflowRaces.LateStartFailureTakesTheRow`); an atomic report finalizer can store a failed status with a success event (`WorkflowRaces.AtomicRecorderMismatch`).
- The invocation that is promoted for approval can be one that has already run (`ToolExecution.PromotesTheWrongCall`).
- Invalidating the policy cache does not reach a load that has already read older rows (`PolicyCache.InvalidationMissesLoad`, `PolicyCache.InvalidationForcesReloadIff`), and colons in ids mix scopes (`PolicyCache.ColonMixesTenants`, `PolicyCache.AnswersAreOwnIff`).
- Indexing an older version over a newer one mixes both (`Indexer.OlderVersionMixes`), and the case order can have cycles when an id has no number (`Cases.MixedIdsCycle`, `Cases.CycleIff`).

## Model

| member | source | states |
|---|---|---|
| WorkflowStore.MemoryStore.CreateTaskWithEvent | internal/workflow/memory_store.go:37-46 | the whole new state: the row, and one event appended under the next event id |
| WorkflowStore.MemoryStore.GetTask | internal/workflow/memory_store.go:49-59 | the stored row, or not found exactly when there is none |
| WorkflowStore.MemoryStore.UpdateTaskWithEvent | internal/workflow/memory_store.go:118-131 | a blind overwrite: refused with the state unchanged for an unknown id, otherwise the given row replaces whatever is stored and one event is appended |
| WorkflowStore.MemoryStore.ClaimQueuedTasks | internal/workflow/memory_store.go:62-102 | the returned batch is distinct, queued, oldest first, none left behind is older, it is short only when nothing queued is left; exactly these rows become running, each with one claim event; a limit of zero or less claims nothing |
| WorkflowStore.ClaimAllRows | internal/workflow/memory_store.go:70-99 | claiming any distinct batch changes exactly the claimed rows, each only in status and update time |
| WorkflowStore.CutIsFifo | internal/workflow/memory_store.go:70-90 | sorting the queued rows by age and cutting at the limit gives a FIFO batch: no older task is passed over |
| WorkflowAudit.GatedLogShape | internal/workflow/service.go:92-139 | every log that the status automaton accepts for a gated task starts created-approved or created-failed-retried, and is never approved later |
| WorkflowAudit.ClaimIsCleared | internal/workflow/service.go:162-217 | each claim of a gated task is preceded by an approval or a retry; by an approval if and only if the second event is the approval, that is, the start did not fail |
| WorkflowAudit.ClaimsConserved | internal/workflow/memory_store.go:70-99 | conservation along any accepted log: entries into the queue = claims + still queued; claims = ends + still running; failures = retries + still failed; at most one approval and one success |
| WorkflowAudit.ClaimsAtMostRetriesPlusOne | internal/workflow/service.go:191-217 | a task is claimed at most once more often than it is retried |
| WorkflowService.Settle | internal/workflow/runner.go:80-136 | the outcome of one task for every combination of executor, version lookup and recorder: terminal, success exactly when all needed parts succeed, only outcome columns change, and the recorded action agrees with the written status if and only if the atomic finalizer does not accept a task that the version lookup has failed |
| WorkflowService.BatchEndsTerminal | internal/workflow/runner.go:63-139 | settling any claimed batch leaves exactly its tasks changed, all of them terminal |
| WorkflowService.Service.Promote | internal/workflow/service.go:81-143 | nothing is stored when the version lookup fails; otherwise the created row and event, and after a failed start of an approval-gated tool task the failed row and its event |
| WorkflowService.Service.ResumeTask | internal/workflow/service.go:162-217 | ApproveTask and RetryTask: not found, invalid transition exactly when the status is not the required one, otherwise requeued with one approved or retried event |
| WorkflowService.Runner.ProcessTask | internal/workflow/runner.go:75-136 | the worker side of one task stores exactly the row and event that Settle gives, with the detail of the success or the class of the failure, else the status name |
| WorkflowService.Runner.ProcessNextBatch | internal/workflow/runner.go:63-139 | one batch without other writers: a claim followed by one settlement per claimed task, in order; every claimed task ends succeeded or failed, every other row is as before |
| WorkflowEngine.PutKeepsInv | internal/workflow/memory_store.go:118-131 | a write that follows the status automaton keeps the store invariant: each log ordered, its own, and replaying to the stored status |
| WorkflowEngine.RunKeepsInv | internal/workflow/memory_store.go:37-131 | in every state of every guarded run of any number of workers and API calls (reads and writes apart) each log replays to the stored status with increasing event ids, and a running task is held by at most one worker, whose copy is exact |
| WorkflowEngine.RunKeepsInvIff | internal/workflow/memory_store.go:37-131 | a run keeps all of that throughout if and only if it is guarded: the conditions of the next three rows are exact, step by step |
| WorkflowEngine.ResumeKeepsInvIff | internal/workflow/service.go:162-217 | an approve or retry write keeps logs and ownership right if and only if the stored row still has the status it is legal from, whatever row the call had read |
| WorkflowEngine.FailedStartKeepsInvIff | internal/workflow/service.go:119-139 | the write after a failed workflow start keeps logs and ownership right if and only if the row still waits for approval, or is running and held by no worker |
| WorkflowEngine.FinishKeepsInvIff | internal/workflow/runner.go:75-136 | the end of a task keeps logs and ownership right if and only if the atomic finalizer is not handed a task that the version lookup has failed |
| WorkflowEngine.AtomicRunsAreGuarded | internal/workflow/service.go:81-217 | every run in which no step comes between the read and the write of an approval or retry, nor between a create and the return of its start, is guarded, however the workers interleave, if the finalizer is not handed a failed task; strictly so if no start fails |
| WorkflowEngine.OverwriteLosesNothing | internal/workflow/runner.go:75-136 | in every guarded run the overwrite at the end of a task replaces exactly the copy its own worker claimed, no other worker holds it before or after, and no other row changes |
| WorkflowEngine.RunClaimsAreCleared | internal/workflow/service.go:106-139 | in every guarded run each claim of a gated task follows an approved or retried event, and strictly an approved one if no failed start meets a waiting row; claims are at most retries plus one |
| WorkflowEngine.DelayedWriteLegalIff | internal/workflow/service.go:162-217 | a delayed approve or retry write keeps the log of its task legal if and only if the stored status is still the one that the call checked |
| WorkflowRaces.LastEventNamesStatus | internal/workflow/memory_store.go:37-131 | in every run, atomic calls or not, event ids increase and the last event names the stored status, unless the atomic finalizer is handed a failed task |
| WorkflowRaces.StaleApprovalGivesTwoOwners | internal/workflow/service.go:162-188 | a run of two interleaved approvals after which two workers hold the task and its log no longer replays |
| WorkflowRaces.LateStartFailureTakesTheRow | internal/workflow/service.go:119-139 | a run in which the start fails after a worker claimed the approved task: the row is failed with a legal log and the worker still holds it |
| WorkflowRaces.StartFailureBypassesApproval | internal/workflow/service.go:120-138 | a run with atomic calls in which a gated task whose start failed is retried and claimed without any approval |
| WorkflowRaces.AtomicRecorderMismatch | internal/workflow/runner.go:85-106 | a failed version lookup and an accepting atomic recorder store a failed status with a success event |
| EvalStore.BuildItemResults | internal/eval/run_service.go:144-190 | one judged result per snapshotted item in item order, all with the given status; fails exactly when the judge fails on some item |
| EvalStore.ClaimAllRows | internal/eval/memory_store.go:339-381 | claiming changes exactly the claimed runs |
| EvalRunner.MemoryStore.CreateRun | internal/eval/memory_store.go:237-251 | the run, its item snapshot and one created event |
| EvalRunner.MemoryStore.RetryRun | internal/eval/memory_store.go:394-422 | not found, invalid state exactly when the run is not failed; otherwise queued again with results dropped, reason and clock fields cleared and one retried event |
| EvalRunner.MemoryStore.MarkRun | internal/eval/memory_store.go:424-480 | both finalizations: refused with the state unchanged unless the run is running; otherwise status, results and one event |
| EvalRunner.MemoryStore.ClaimQueuedRuns | internal/eval/memory_store.go:339-381 | the first queued runs by (creation time, id) become running, with their events |
| EvalStore.ClaimIsFifo | internal/eval/memory_store.go:339-381 | older runs first, among equally old ones the smaller id; a run is left behind only by a full batch of runs that go before it |
| EvalRunner.MemoryStore.AddDatasetItem | internal/eval/memory_store.go:195-214 | adds the case at the end unless it is already there; the draft status is not checked here |
| EvalRunner.SelectItems | internal/eval/dataset_service.go:49-101 | dataset creation succeeds if and only if the tenant is given, the list is not empty, every id exists for that tenant and no id repeats; the items are then the cases in order |
| EvalEngine.WriteKeepsInv | internal/eval/memory_store.go:394-487 | a write under the lock that follows the run automaton keeps the store invariant |
| EvalEngine.RunKeepsInv | internal/eval/memory_store.go:237-487 | under every interleaving of all eval store steps: queued and running runs hold no results, terminal runs exactly one result per snapshotted item in item order, logs replay to the status with increasing ids, and the clock fields are set as the status says |
| EvalEngine.SnapshotsNeverChange | internal/eval/run_service.go:66-110 | the items of a run never change after its creation, whatever happens to its dataset |
| EvalEngine.StoredReportsAreComplete | internal/eval/report_service.go:234-347 | over all runs every stored report, however late it was stored and whatever was retried since, is the report built from what the store held about its run at some earlier state of that run: complete for the run's items and for the results stored at that state |
| EvalEngine.LateFinishIsRejected | internal/eval/memory_store.go:424-480 | a finalization changes the store if and only if the run is still running |
| EvalEngine.LateEditReachesPublishedIff | internal/eval/dataset_service.go:118-156 | an edit checked while the dataset was a draft changes the published dataset exactly when it does not hold the case yet |
| EvalEngine.PublishedDatasetGrows | internal/eval/dataset_service.go:118-181 | a run in which an edit is checked, the dataset published, and the edit then lands in the published dataset |
| EvalRunner.Runner.FinishRun | internal/eval/run_service.go:144-190 | read, judge, mark: succeeds on a running run if and only if the judge answers for every item; the stored results are then the judge's decisions in item order; on failure nothing has changed |
| EvalRunner.Runner.MaterializeRunReport | internal/eval/runner.go:132-140 | a report is stored if and only if the run is terminal; it is the report of the stored run, and accounts for its items and stored results |
| EvalRunner.Runner.ProcessRun | internal/eval/runner.go:60-92 | one claimed run always ends terminal, and it is settled whose decisions it stores: the configured judge's with the execution error as the reason when the execution failed and the judge answers for every item, the configured judge's when it passes, and only otherwise the placeholder's, each a failing verdict of score zero; the stored report is the one built from those results |
| EvalRunner.Runner.ProcessNextBatch | internal/eval/runner.go:46-94 | a batch leaves every claimed run terminal, settled by the judge that the row above names, with the report of its own stored results, complete for its items, and every other run untouched |
| EvalReport.Summarize | internal/eval/memory_store.go:565-589 | the counts of a result list: none without results; succeeded + failed = recorded = number of results, recorded + missing = total when something is missing, which is exactly when the total exceeds the results |
| EvalReport.BuildEvalReport | internal/eval/report_service.go:248-347 | refuses runs that are not terminal or have no results; otherwise the report of the run |
| EvalReport.FinishedRunReports | internal/eval/report_service.go:248-347 | a finished run always yields a report of its own results: passed + failed = recorded = total = item count, none missing, the mean within the least and greatest score of the results, the bad cases exactly the items with a bad result, in item order and without repetition |
| EvalReport.BadCasesListed | internal/eval/report_service.go:262-299 | the bad cases are exactly the bad results, in order, each with its own item's lineage |
| EvalReport.MeanBetween | internal/eval/report_service.go:271-304 | the average score lies between the least and the greatest item score |
| EvalReport.ReportNeedsResults | internal/eval/report_service.go:248-260 | no report if and only if there are no results or the run is not terminal |
| EvalReport.ReportNamesOneJudge | internal/eval/report_service.go:353-365 | the report names a judge version if and only if it is the only non-empty one among the results |
| EvalRegression.DetectRegression | internal/eval/report_service.go:118-155 | deltas are candidate minus baseline; new and resolved bad cases are those that the other report does not list, in order; regression if and only if the average fell by the positive threshold or more, or too many cases are new; improvement if and only if it is no regression, the average rose by more than the threshold, and no case is new |
| EvalRegression.BetterCandidateIsNoWorse | internal/eval/report_service.go:118-197 | against one baseline a candidate with no smaller average and no more new bad cases gets no worse verdict |
| EvalRegression.OverlapIsCommonIds | internal/eval/report_service.go:398-412 | on lists without repeated ids the overlap is the number of common ids |
| EvalRegression.NewMinusResolved | internal/eval/report_service.go:158-171 | new + overlap = candidate bad cases, resolved + reverse overlap = baseline bad cases, and without repeated ids new - resolved is the growth of the list |
| EvalRegression.FinishedRunsBalance | internal/eval/report_service.go:118-171 | end to end for two finished runs: the balance holds and the new cases are exactly the candidate's bad cases with an id not bad in the baseline |
| EvalRegression.RepeatedIdBreaksBalance | internal/eval/report_service.go:158-171 | with a repeated id the balance fails |
| EvalRegression.VerdictMonotone | internal/eval/report_service.go:174-197 | the verdict never gets worse when the score delta grows and the new cases shrink |
| EvalRegression.ReverseComparison | internal/eval/report_service.go:118-197 | swapping the reports swaps new and resolved and negates the deltas; after an improvement the reverse is a regression if and only if the threshold is positive or the resolved cases exceed the allowance |
| Pagination.ApplyFollowUpSummaries | internal/eval/service.go:226-256 | every row gets its summary if its id was asked for (first row's tenant, non-empty id), zero otherwise; rows are returned as they came when nothing was asked for |
| Pagination.PageEnrichmentExactIff | internal/eval/service.go:231-255 | enriching a page is exact for every row if and only if rows of other tenants have no open follow-up |
| Pagination.MixedTenantsHideAMatch | internal/eval/service.go:231-238 | any second row of another tenant with an open follow-up is filtered out of the enriched page as having none |
| Pagination.ListEvalCases | internal/eval/service.go:169-224 | the batched scan terminates and returns exactly the slice of the filtered, enriched list, with HasMore and NextOffset exact, for one tenant and any batch size |
| Pagination.ListEvalReports | internal/app/httpapi/eval_reports.go:537-597 | the report scan returns exactly the requested slice of all matching reports, HasMore if and only if a further match exists |
| Pagination.ListEvalRuns | internal/app/httpapi/eval_runs.go:563-615 | the run scan, which collects one row too many, returns exactly the requested slice of all matching runs |
| Pagination.ListEvalDatasets | internal/app/httpapi/eval_datasets.go:996-1049 | the dataset scan, which collects all rows first, returns exactly the requested slice of all matching datasets |
| Pagination.ScanFull | internal/app/httpapi/eval_reports.go:579-590 | a match that finds the page full proves that the page is the slice and that there is more |
| Pagination.WalkShowsEveryMatchOnce | internal/app/httpapi/eval_reports.go:570-595 | following NextOffset from the start shows every match once, in order, for any page size |
| Chunker.Append | internal/ingestion/chunker.go:114-122 | append with spare capacity writes the second group behind the first in the shared array; the array is unchanged when the groups are adjacent |
| Chunker.AppendHarmlessIff | internal/ingestion/chunker.go:114-122 | such an append leaves the array unchanged if and only if the overwritten stretch already held the appended group |
| Chunker.SplitAtBoundaries | internal/ingestion/chunker.go:140-157 | the groups tile the sentences and begin exactly at 0 and at the boundaries |
| Chunker.MergeSmall | internal/ingestion/chunker.go:109-123 | merging in place leaves the array unchanged and gives the merged groups described by MergedOk: tiles, each at least the minimum unless alone, and a start absorbed only if cutting there would leave too little before or after it |
| Chunker.MergeIsDetermined | internal/ingestion/chunker.go:109-123 | that description has exactly one solution |
| Chunker.HalvingBounds | internal/ingestion/chunker.go:125-137 | all chunks within the maximum if and only if no merged group is more than twice the maximum; all at least the minimum if and only if halved groups had twice the minimum, in particular when max + 1 >= 2 * min |
| Chunker.EnforceConstraints | internal/ingestion/chunker.go:109-137 | array unchanged, result the halved merged groups, which tile the array |
| Chunker.EmbedAll | internal/ingestion/chunker.go:60-69 | embeddings are written up to the first failing call; texts never change |
| Chunker.FindBoundaries | internal/ingestion/chunker.go:71-83 | a boundary before a sentence exactly when its similarity to the one before is below the threshold |
| Chunker.ChunkSentences | internal/ingestion/chunker.go:47-107 | no sentence: no chunk; one: one chunk without embedding; else the first embedding error, or the chunks of the determined groups with their joined texts |
| Chunker.ChunksKeepText | internal/ingestion/chunker.go:89-104 | the chunk texts joined give the joined sentences; no chunk is empty |
| Chunker.ChunksKeepSizes | internal/ingestion/chunker.go:109-137 | the minimum and maximum of the delivered chunks, with the exact condition for the maximum |
| ContextBudget.LowestPriorityIndex | internal/contextengine/service.go:320-329 | the block that comes before all others in eviction order: lowest priority, earliest on ties |
| ContextBudget.ApplyBudget | internal/contextengine/service.go:221-244 | the two eviction loops give the largest affordable set of best blocks in original order and the rest from worst to best; only the safety net departs from this, with the first block |
| ContextBudget.LargestAffordableUnique | internal/contextengine/service.go:221-238 | the declarative choice is unique, so the loops refine exactly one answer |
| ContextBudget.KeptAndDroppedAreAll | internal/contextengine/service.go:221-238 | kept plus dropped is a permutation of the input; dropped priorities ascend and none exceeds a kept one |
| ContextBudget.SafetyNetFiresIff | internal/contextengine/service.go:238-242 | the safety net is used if and only if the best block alone is over budget (or no block is allowed); otherwise the best block is kept |
| ContextBudget.SafetyNetKeepsBestIff | internal/contextengine/service.go:238-242 | it returns the best block if and only if the first block strictly outranks all others, and that block is always also reported dropped |
| ContextBudget.CandidateBlocks | internal/contextengine/service.go:155-198 | the candidate list: the fixed kinds that are present, in order; the evidence by score descending, ties as given, the i-th best with its own tokens and priority max(60, 80 - i); then the tools |
| ContextBudget.EvidenceEvictionIff | internal/contextengine/service.go:171-188 | of two snippets the lower ranked is evicted first if and only if the other is among the twenty best; beyond that all priorities are equal and the better one goes first |
| ContextBudget.FirstCandidateIsBestIff | internal/contextengine/service.go:155-198 | without a scorer, exactly for which requests the first candidate is the best one |
| Policy.UnionStrings | internal/agent/planner/policy.go:65-79 | the sorted union, for every map order |
| Policy.UnionIsSortedSet | internal/agent/planner/policy.go:65-79 | the union holds exactly the members of both lists, strictly ascending |
| Policy.MergePolicies | internal/agent/planner/policy.go:22-63 | for each field the user layer decides if it is configured and gives it, else the tenant layer, else the org layer, else the default; bans and approvals of the three add up |
| Policy.MergeMeaning | internal/agent/planner/policy.go:33-60 | field by field over any layers: the last configured layer that sets the switch, lists tools or limits steps decides; configured and approval are raised by any layer |
| Policy.ForbiddenAddsUp | internal/agent/planner/policy.go:48-52 | a tool is forbidden after the merge if and only if some configured layer forbids it |
| Policy.ToolsOffIff | internal/agent/planner/policy.go:39-42 | tools are off if and only if some layer is configured and the last explicit switch, if any, is off |
| Policy.PartialPolicyDisablesTools | internal/agent/planner/policy.go:36-42 | a single row that only limits steps switches all tools off, against the comment beside the code |
| PolicyCache.KeyInjective | internal/storage/postgres/policy_store.go:142-142 | two scopes with colon-free org and tenant ids never share a key, whatever their user ids hold |
| PolicyCache.KeyIsOwnIff | internal/storage/postgres/policy_store.go:142-142 | a scope has its cache key for itself, against every other scope, if and only if none of its three ids holds a colon |
| PolicyCache.ColonMixesTenants | internal/storage/postgres/policy_store.go:142-142 | with a colon in an id two tenants share one entry |
| PolicyCache.MergedForMeans | internal/storage/postgres/policy_store.go:44-139 | what the rows stored at the levels user, tenant and org make of a scope's policy, field by field; without an org id the org row is the one under the tenant's id |
| PolicyCache.HierarchicalPolicyLoader.LoadPolicy | internal/storage/postgres/policy_store.go:141-197 | one call: fresh entry, else what the stored user, tenant and org rows decide in that order, cached with a new expiry, else on error the last cached merge of the scope whatever its age, else deny all |
| PolicyCache.HierarchicalPolicyLoader.InvalidateCache | internal/storage/postgres/policy_store.go:200-204 | empties the cache |
| PolicyCache.UninterruptedCall | internal/storage/postgres/policy_store.go:141-197 | the parts into which the interleaved model cuts a call do together, with nothing in between, what one call does, and give one answer |
| PolicyCache.StepKeepsInv | internal/storage/postgres/policy_store.go:141-204 | every interleaved part of a call, write, clock tick and invalidation keeps: each entry is the merge of a database state that was in force when it was read, and expires one TTL after it was stored |
| PolicyCache.AnswersAreBoundedStale | internal/storage/postgres/policy_store.go:141-204 | over all runs and all ids every answer is the merge of a state that misses no write older than one TTL plus the load that filled the cache (on error the last cached merge, or deny all), for the scope that filled the entry, which has the key of the asking scope and is the asking scope if that holds no colon |
| PolicyCache.AnswersAreOwnIff | internal/storage/postgres/policy_store.go:141-197 | over all runs a scope is answered only from entries of its own if and only if none of its ids holds a colon |
| PolicyCache.PlainRunsKeepScopesApart | internal/storage/postgres/policy_store.go:141-197 | in a run where no asking scope has a colon in its org or tenant id every cached answer is of the asking scope |
| PolicyCache.InvalidationForcesReloadIff | internal/storage/postgres/policy_store.go:141-204 | for every reachable state and every continuation: all entries cached after an invalidation come from the rows in force at it or later ones, if and only if the cache is off or no load under way has already read older rows |
| PolicyCache.InvalidationMissesLoad | internal/storage/postgres/policy_store.go:200-204 | a run in which a policy overwritten before an invalidation is cached and served after it |
| Planner.ValidateLlmPlan | internal/agent/planner/prompt.go:297-371 | accepts exactly the well-formed plans: known intent and kinds, unique names, existing dependencies, known tools, workflow plans of one step |
| Planner.ValidatePlanPolicy | internal/agent/planner/prompt.go:377-445 | accepts exactly the plans within the tenant policy and consistent with the registry |
| Planner.ToPlan | internal/agent/planner/prompt.go:255-293 | at most the first six steps, numbered from one |
| Planner.ConfiguredPlansAreClosed | internal/agent/planner/service.go:63-112 | under a configured policy every dependency of an accepted model plan names a step of the plan |
| Planner.PlansAreClosedIff | internal/agent/planner/prompt.go:255-293 | without a configured policy the dependencies of all accepted answers of m steps name steps of the resulting plan if and only if m is at most six; beyond that a kept step can wait for one that was cut |
| Planner.PlanWithLlm | internal/agent/planner/service.go:63-112 | a plan if and only if the answer is parsed, well formed and within policy; it then respects the policy, its intent and step kinds are known and its step names distinct |
| Planner.SelectTool | internal/agent/planner/service.go:237-258 | a tool if and only if tools are on, tickets are mentioned and an allowed ticket tool is available; the tool is permitted |
| Planner.SelectedTool | internal/agent/planner/service.go:237-258 | which tool: ticket_search for a search that may use it, else the first ticket tool on the list that the tenant may use |
| Planner.BuildSteps | internal/agent/planner/service.go:281-329 | every step with its kind, name, tool, flags and dependency: a promotion alone, or retrieve, the tool if there is one, synthesize and critic, each after the one before |
| Planner.PlanWithKeywords | internal/agent/planner/service.go:115-153 | all of the plan: intent, every flag exactly, and every step that the step limit leaves, among them the selected tool with its own read-only flag and the approval that it or the policy demands; it respects the policy and its dependencies point to earlier surviving steps |
| Planner.MakePlan | internal/agent/planner/service.go:44-60 | the model's plan exactly when it is usable, else the keyword plan of the row above; both respect the policy |
| Planner.Replan | internal/agent/planner/service.go:157-210 | a revised plan exactly when the model is configured and its answer is usable; it is that answer as a plan, and respects the policy |
| Planner.PlansRespectEveryLayer | internal/agent/planner/policy.go:33-60 | for every policy merged from layers: no tool step names a tool forbidden in any configured layer or outside the last allow list, writes carry the approval any layer demands, the steps fit the last limit |
| Planner.CyclicPlanAccepted | internal/agent/planner/prompt.go:341-347 | a model plan whose two steps depend on each other is accepted |
| ToolExecution.Tools.Execute | internal/agent/tool/service.go:23-67 | unknown tools fail; a call without a grant that its step, its definition or its write or admin class puts under approval comes back asking for it and runs nothing; others run the executor once |
| ToolExecution.UnapprovedCallsNeverRun | internal/agent/tool/service.go:40-45 | in no pass does an executor run for a call without a grant whose step, definition or class needs approval |
| ToolExecution.RunSteps | internal/app/chat/service.go:442-577 | one step loop makes exactly the pass that the steps, the registry and the executor's answers determine (next row), and executes its ungated calls and nothing else |
| ToolExecution.PassIff | internal/app/chat/service.go:442-577 | what that pass is, and that nothing else is one: the calls follow the tool steps in order, each with its own result and none of them failing, up to the first step without arguments, the first call that is unknown or whose executor fails at its place in the sequence of runs, or the end |
| ToolExecution.FinishedRunsSucceeded | internal/app/chat/service.go:442-577 | in a pass that reaches the end every executor run succeeded |
| ToolExecution.ExecuteToolSteps | internal/app/chat/service.go:430-591 | for every plan, revised plan and sequence of executor answers: success exactly when the first pass finishes, or stops at a failed call of a plan that is not from keywords, the model gives a usable revision and the second pass finishes; the exact outcome or error, and the executor runs of both passes |
| ToolExecution.DirectLockstep | internal/app/chat/service.go:442-591 | without a replan: calls and results in lockstep, approval required exactly for gated calls, no failed result |
| ToolExecution.ReplannedLockstep | internal/app/chat/service.go:487-577 | with a replan: the same lockstep, and exactly one failed result, that of the call which caused it |
| ToolExecution.KeywordWriteIsRefused | internal/app/chat/service.go:452-463 | a write step without arguments, as keyword plans have them, is never executed |
| ToolExecution.PolicyGatesWrites | internal/agent/tool/service.go:40-45 | from a policy row to the executor: when any layer demands approval for writes, no write tool of a plan runs |
| ToolExecution.FirstApprovalInvocation | internal/app/chat/service.go:625-635 | the first call that shares its tool name with a result asking for approval |
| ToolExecution.FoundIffApprovalNeeded | internal/app/chat/service.go:625-635 | it finds a call if and only if some result asks for approval |
| ToolExecution.FoundIsGatedIff | internal/app/chat/service.go:625-635 | what it finds is itself gated if and only if no call before the first gated one used a tool gated in this run |
| ToolExecution.PromotesTheWrongCall | internal/app/chat/service.go:625-635 | a plan within policy for which the promoted call is one that has already run, with its arguments |
| ToolExecution.Review | internal/agent/critic/service.go:31-45 | any result asking for approval forces promotion |
| ToolExecution.DecidePromotion | internal/app/chat/service.go:367-399 | what is promoted: nothing in eval mode, a report task for workflow plans, an approval-gated tool task for the found call when the verdict is promotion |
| ToolExecution.ReviewAndPromote | internal/app/chat/service.go:352-402 | a chat run whose tools ask for approval creates one waiting approval-gated task that carries the name of a registered tool gated in this run |
| Fusion.RankScores | internal/storage/postgres/retrieval_chunks.go:320-333 | walking the score map in any order and sorting gives a ranking of exactly its entries |
| Fusion.RankingUnique | internal/storage/postgres/retrieval_chunks.go:320-333 | there is one ranking of a score map |
| Fusion.ReciprocalRankFusion | internal/storage/postgres/retrieval_chunks.go:306-355 | the result is the cut and normalized ranking of the summed shares, each with the last block of the first list or the first of the second |
| Fusion.FusionDeterministic | internal/storage/postgres/retrieval_chunks.go:306-355 | the result is independent of every map order |
| Fusion.FusionIsTopK | internal/storage/postgres/retrieval_chunks.go:326-337 | the result is the top K of all listed ids under (score descending, id ascending), without repetition |
| Fusion.FusionKeepsDominance | internal/storage/postgres/retrieval_chunks.go:310-333 | a block ahead of another in every list that holds the other comes before it and is never cut off first |
| Fusion.FusionScores | internal/storage/postgres/retrieval_chunks.go:339-352 | normalized scores lie in (0,1], are 1 exactly for a block first in both lists, and the clamp never changes one |
| Fusion.FusedShares | internal/storage/postgres/retrieval_chunks.go:306-324 | before the normalization place p of one list is worth 1 / (61 + p), two lists add up, and what is shown is the block of the first list, else of the second |
| Fusion.ExpandToParents | internal/storage/postgres/retrieval_chunks.go:431-459 | one block per chunk id, an in-order selection of the shown blocks; exactly the first block of each family when no parent has a parent |
| Fusion.ShownRow | internal/storage/postgres/retrieval_chunks.go:431-459 | a block is shown as its parent's row with the block's own two scores, or as itself without one |
| Fusion.NothingMissingIff | internal/storage/postgres/retrieval_chunks.go:431-459 | no block goes missing in the expansion if and only if no two different chunks of one family lack their parent's row |
| Fusion.ExpandedFusionIsSorted | internal/storage/postgres/retrieval_chunks.go:306-459 | after expansion the list is still in descending score with scores in (0,1] and one block per chunk |
| FanOut.RunKeepsInv | internal/retrieval/reranker.go:65-116 | for every schedule: slots are filled exactly by goroutines past their call, the semaphore counts those inside |
| FanOut.AtMostFiveInFlight | internal/retrieval/crag.go:71-103 | never more than five calls at once |
| FanOut.NoDeadlock | internal/retrieval/compressor.go:76-92 | until all goroutines are done some step is possible |
| FanOut.EveryScheduleEnds | internal/retrieval/compressor.go:76-92 | every schedule ends after exactly four steps per goroutine |
| FanOut.SlotWrittenOnce | internal/retrieval/reranker.go:65-116 | each slot is written once, by its own goroutine, and keeps that value |
| FanOut.FanOutIsSequentialMap | internal/retrieval/reranker.go:65-116 | when Wait returns the slots equal the sequential map, for every schedule |
| Pipeline.AnyScheduleRates | internal/retrieval/reranker.go:65-116 | for every schedule of the scoring goroutines the slots that are sorted afterwards hold each candidate with its own parsed score |
| Pipeline.Rerank | internal/retrieval/reranker.go:49-133 | the first 15 hits, each with its clamped score over ten, sorted by score and id; unchanged without provider |
| Pipeline.RerankDelivers | internal/retrieval/reranker.go:118-132 | sorted, scores in [0,1], a permutation of the candidates in which each holds a tenth of its own parsed answer and nothing else is new, ties by id |
| Pipeline.Compress | internal/retrieval/compressor.go:61-135 | exactly the blocks judged irrelevant or empty go, the others keep order and provenance and get the new text; failed calls keep the block |
| Pipeline.AnyScheduleCompresses | internal/retrieval/compressor.go:76-135 | for every schedule of the compressing goroutines the result is the filled slots in order, and the other slots are empty |
| Pipeline.ParseVerdict | internal/retrieval/crag.go:152-173 | irrelevant if and only if the answer says so anywhere; relevant only if it does not |
| Pipeline.CragFilter | internal/retrieval/crag.go:55-128 | exactly the irrelevant blocks go, ambiguous ones lose half their score; the statistics are the numbers of blocks judged so, relevant + ambiguous + irrelevant = total and errors <= ambiguous |
| Pipeline.AnyScheduleClassifies | internal/retrieval/crag.go:71-128 | for every schedule of the classifying goroutines the kept blocks are those whose own slot does not say irrelevant, as the slot's verdict says |
| Pipeline.Reorder | internal/retrieval/reorder.go:10-29 | even ranks from the front, odd ranks from the back |
| Pipeline.ReorderMakesValley | internal/retrieval/reorder.go:10-29 | a sorted list becomes a valley with the best two at the ends |
| Pipeline.ReorderKeepsBlocks | internal/retrieval/reorder.go:10-29 | every block is kept, none repeated |
| Pipeline.Process | internal/app/chat/service.go:210-240 | the composed pipeline yields a duplicate-free subset of the first 15 hits whose rerank scores form a valley |
| Indexer.ParentIdDecodes | internal/ingestion/indexer.go:31-31 | parent ids name their document and index, across documents |
| Indexer.ChildIdDecodes | internal/ingestion/indexer.go:82-82 | child ids name their document, parent and child |
| Indexer.ParentIsNoChild | internal/ingestion/indexer.go:31-82 | no parent id is a child id |
| Indexer.RecordsCount | internal/ingestion/indexer.go:53-97 | rows written = parents + children |
| Indexer.RecordsDistinct | internal/ingestion/indexer.go:31-97 | no two rows of one indexing share a chunk id |
| Indexer.ChunkStore.DeleteStaleChunks | internal/storage/postgres/retrieval_chunks.go:121-133 | removes exactly the tenant's rows of the document that are older, or of this version and not listed |
| Indexer.Index | internal/ingestion/indexer.go:22-107 | on success all records upserted, then stale rows deleted (for a positive version), with exact counts; on failure exactly the records before the failing one are written and counted, and nothing is deleted |
| Indexer.IndexedRow | internal/ingestion/indexer.go:22-107 | row by row what is stored after an indexing |
| Indexer.IndexedContent | internal/ingestion/indexer.go:22-107 | under each parent id the text of its chunk, under each child id its sentence and its parent's id, with prefix, tenant, version and copied columns |
| Indexer.IndexIsExactIff | internal/ingestion/indexer.go:100-104 | the document's rows are exactly the new ones if and only if it has no row of another tenant or of a later version outside the new ids |
| Indexer.ParentsArePresent | internal/ingestion/indexer.go:83-97 | each child's parent row is stored at the same version |
| Indexer.IndexIsIdempotent | internal/ingestion/indexer.go:22-107 | indexing again changes nothing |
| Indexer.NothingDeletedEarly | internal/ingestion/indexer.go:22-104 | an indexing that stops early has removed no row |
| Indexer.OlderVersionMixes | internal/storage/postgres/retrieval_chunks.go:81-93 | indexing an older version over a newer one leaves a mixture of both |
| Cases.GeneratedIdsAreNumbered | internal/case/service.go:236-238 | generated ids always have a numeric suffix |
| Cases.SuffixMeans | internal/case/order.go:25-37 | an id has a suffix if and only if it ends in a dash and a decimal number of at most 64 bits, and the suffix is that number |
| Cases.OrderIsTotal | internal/case/order.go:8-23 | two different cases are ordered one way and one way only |
| Cases.OrderIsTransitive | internal/case/order.go:8-23 | the order is transitive between cases with numeric suffixes |
| Cases.MixedIdsCycle | internal/case/order.go:8-23 | three ids, one of them without a number, that the order puts in a cycle |
| Cases.CycleIff | internal/case/order.go:8-23 | three cases are in a cycle if and only if their times are equal, exactly one has no number, and as a string it stands between the other two, whose numbers go the other way |
| Cases.UnnumberedInCycleIff | internal/case/order.go:8-23 | a case without a number is in some cycle if and only if some id with a positive number precedes its own as a string |
| Cases.List | internal/case/memory_store.go:62-157 | any map order: the page is the slice of the strictly sorted list of exactly the matching cases |
| Cases.RowsComeNewestFirst | internal/case/order.go:8-23 | of two rows of a list the earlier is the more recently updated, on ties the more recently created, then the greater number, then the greater id |
| Cases.FindOpenByCompareOrigin | internal/case/memory_store.go:159-184 | the one-pass search returns the newest open case of that origin, or none exactly when there is none |
| Cases.Summarize | internal/case/memory_store.go:186-388 | all four summaries in one pass, any map order: for every requested source the true total, open count and newest case, zeros where there is none |
| Cases.SummaryMeaning | internal/case/memory_store.go:186-388 | the summary equals what the sorted list says: its length, its open cases and its first row |
| Cases.NewestIsFirstRow | internal/case/memory_store.go:135-137 | the newest case of a filter is the first row of its list |

## Left out

- WorkflowService.Runner.ProcessNextBatch: has no other writer between claim and settlement; interleavings are in WorkflowEngine.
- EvalRunner.Runner.ProcessNextBatch: takes execution results and clock readings as functions of the run id and does not model the cancelled context, so its finalizations always reach the store.
- Pagination.ListEvalCases: is stated for the cases of one tenant, which the HTTP handler requires, over a store that does not change during the scan; Pagination.PageEnrichmentExactIff says when more tenants are harmless.
- Chunker.ChunkSentences: takes the similarity of two embeddings as an arbitrary function; the cosine formula with its square roots is not modelled.
- Pipeline.Process: takes the model's answers by block index; that the fan-outs deliver them so under every schedule is Pipeline.AnyScheduleRates, Pipeline.AnyScheduleCompresses and Pipeline.AnyScheduleClassifies. It relies on the unique evidence ids that fusion delivers.
- Fusion.ExpandToParents: says exactly which blocks are kept when no parent has a parent, as indexing writes them; for deeper nestings only the in-order selection and the case of all parent rows present are promised.
- EvalRunner.Runner.ProcessRun: takes the text that names a failed judgement as a function of the execution error.
- Cases.List: takes its filter as an arbitrary predicate on cases; the comparison of each filter field is not modelled.
- Floating-point rounding and NaN: scores are exact reals.
- Token counts stand for the texts of context blocks; the scorer and the conversation summarizer are not modelled.
- Wording of failure texts, audit detail strings and report metadata JSON: the texts are parameters or absent.
- The draft task status, task listing, and the raw SaveTask, UpdateTask and UpdateRun writes, which bypass the state machines.
- Promotion of regression cases, case notes, assignment, closing and reopening, and the uniqueness of open cases per run, which the code does not maintain across reopening.
- HTTP parsing, JSON and SSE writing, admin pages, configuration, logging, tracing and metrics: plumbing.
- Language model prompts and answer parsing, except the validation of the parsed plan, score and verdict; lower-casing and trimming are applied before the model starts.
- SQL text and transactions: only the row-set meaning of upsert, stale delete and the policy query is modelled.
- Temporal: only success or failure of the workflow start and of the execution is kept.
- The report, version and session stores and the action and provenance builders: single-branch members.
