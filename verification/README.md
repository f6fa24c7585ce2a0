# Verified model of Sentrik's core

Sentrik runs authorized security assessments of web applications: it crawls a target, plans
checks, asks operators to approve risky steps, probes the target through a guarded client,
validates and scores what it finds and prints a report. This project models the parts of it that
have to be right whatever the network, the language model, the operators and the scheduler do,
and proves their properties for all inputs and all interleavings.

One module per component:

| Module | Component |
|---|---|
| `RateLimiting` | token bucket of the HTTP client, over real time |
| `NetGuard`, `Scope`, `GuardedHttp` | authorization decisions and the redirect loop that re-checks every hop |
| `Budgets` | check, await, add: request budget and language-model ledger under concurrent callers |
| `Crawler` | bounded breadth-first crawl |
| `EndpointMerge` | deduplication of endpoints, in place |
| `Checks`, `Planning`, `PlanningTerms`, `Sorting` | check registry, frozen skills, the plan and its reorderings |
| `Approvals`, `PolicyTerms`, `StepSafety`, `RunnableChecks`, `RequestedClasses`, `PolicyPhase` | plan steps under every interleaving of runs, operators, replanning and restarts |
| `Phases`, `PhaseEndings`, `Scheduling` | one supervised run; many of them under two levels of slots |
| `JsonText`, `JsonWriter`, `Compaction`, `CompactionBudget` | fitting an agent's context into a character budget |
| `Agreement` | detector, validator and regression test on the same target |
| `Scoring`, `Coverage` | risk scores, coverage rows and grades |
| `PdfText`, `LineBreaks`, `Decimal`, `PdfContainer`, `PdfReport` | the PDF writer, and a reader written from ISO 32000-1 (sections 7.3.4.2, 7.3.8, 7.5.4, 7.5.5) |

`dafny verify dfyconfig.toml` checks everything.

Modelling conventions. A database transaction is one atomic step. Whatever lies outside the
program is a parameter over which the results quantify: the resolver and the target (functions),
clock readings, the language model's choices (any choice, any order), failures of any operation
(any subset). Byte strings are strings of characters below 256. Real numbers stand for floats.

## Results that need a condition

The code does not meet these claims without a condition. Each is proved as an equivalence or as a
bound, most with a member that builds a case that fails.

- A request limit of zero means no limit: `Budgets.ZeroLimitIsUnbounded`, though the field reads as a maximum.
- k concurrent callers may overshoot a budget, by exactly k - 1 requests: `Budgets.OvershootReached`.
- The request budget is one guard's. A late execution builds a fresh guard from the stored count, which is stored only at multiples of ten (app/orchestration/engine.py:1985-1994). The guards of an assessment keep to one budget if every count is handed on (`Budgets.HandedCountsShareABudget`); n guards that start from a lost count send n times the limit (`Budgets.LostCountsSpendAgain`).
- The token ceiling bounds recorded tokens only: a reply that cannot be parsed is paid for and not recorded (app/agents/brain.py:162-176).
- A compacted context fits its limit, up to the 16 characters of the marker's key, if trimming lists is enough, and otherwise exactly when the marker that lists every key and every list does: `CompactionBudget.FitsExactlyWhenDropping`. The code's comment promises that the context fits. Sixteen over does happen at the limit of 4000 that all callers use (`CompactionBudget.OvershootReached`), and the overshoot has no bound, as the marker repeats dropped keys (`CompactionBudget.LongKeyNeverFits`). With room for the marker, compacting to 16 less than the budget meets the budget: `CompactionBudget.FitsWithReserve`.
- Steps find their checks by name, and names are not bound to a class, so a step of a requested and authorized class may run a check of a class that is neither: `RequestedClasses.ANameLeadsToAnotherClass`. Which checks runs can execute is told before them, from the configuration and the skills that may be registered: `RunnableChecks.ExactlyTheseRun`. Every executed check is of a requested class exactly when these are (`RequestedClasses.KeepsToRequestExactly`), and the record permits each under its own class exactly when no planned name leads to a class that is not authorized (`RequestedClasses.OwnClassesPermittedExactly`).
- Where every skill has the class of the first bearer of its name, runs keep to the requested classes exactly when one of them is authorized and replanning, if it is switched on, has no permitted built-in for an authorized class that was not requested: `RequestedClasses.OneClassKeepsToRequestExactly`. Replanning is on by default and does widen a request: `RequestedClasses.ReplanningWidensARequest`.
- An empty skill snapshot is loaded again by later phases, so a name outside it can change its meaning: `Checks.ResolutionIsStable`. Planned steps never hold such a name, which is why `StepSafety.GatedCheckRuns` holds without the condition. The code's comment promises a frozen registry.
- A run does not always record one terminal state. It records none to three, told by the operation at which it leaves the phases, by whether failures can be recorded and by whether the client closes: `PhaseEndings.TerminalStatesExactly`, and for exactly one `PhaseEndings.OneTerminalStateExactly`. None, two and three happen: `PhaseEndings.NeverEnded`, `PhaseEndings.CancelledThenFailed`, `PhaseEndings.FailedTwice`, `PhaseEndings.CancelledThenFailedTwice`.
- A crawl that ran dry has requested every page in reach exactly when none of them is linked only from URLs it did not request (`Crawler.EverythingIsSeenExactly`), and so on sites where URLs of one normal form lead to the same ones (`Crawler.EverythingInReachIsSeen`). A page that only a URL with another query links to is missed: `Crawler.QueryHidesAPage`.
- Deadlock freedom needs limits of at least one: `Scheduling.DeadlockFreeExactly`.
- When a step changes its status after the first pass, coverage rows stay right exactly when no endpoint was added and the change makes no difference to its pair: `Coverage.LateExecutionMakesStale`, with `Coverage.StaleByExecution`, `Coverage.StaleBySkipping` and `Coverage.StaleByTraffic` for the causes.
- Adding a score can lower the overall score exactly below five scores: `Scoring.AddingAScore`.
- The validator and the regression test part on error-based findings in exactly one family of targets: `Agreement.ErrorRegressionAgrees`.
- Carriage returns do not survive the PDF, and offsets must stay below 10^10: `PdfReport.ReportReadsBackExactly`, `PdfContainer.TableReadsExactly`.

## Model

| member | source | states |
|---|---|---|
| StepSafety.ApprovalSafety | app/orchestration/engine.py:783-849 | in every interleaving with step approval required, a step whose check changes state or is invasive runs only after an operator approved that very step |
| StepSafety.SkillsStayInside | app/orchestration/engine.py:2180-2210 | in every run an executed skill is inside the environments it names, changes state only if the record allows it, and is of a class and an intensity that the record grants, nothing invasive in production |
| StepSafety.GatedCheckRuns | app/orchestration/engine.py:336-358 | the check a step executes is the check that policy permitted under the class of that step, or a built-in that replanning chose for it, whatever skills were registered meanwhile; and in the fields of record and check it is within the record |
| StepSafety.DecisionsAreAskedFor | app/api/routers/assessments.py:513-559 | an operator's decision is preceded by policy having permitted that step and found that it needs approval |
| StepSafety.StatusChanges | app/orchestration/engine.py:786-847 | what can set each status of a step: policy, the operator's decision on a held step, a late block, and the outcome of its own execution; names and classes never change |
| Approvals.StepKeepsInv | app/orchestration/engine.py:1275-1279 | the invariant behind these: every approved step and every detached copy of one is vetted for the check it resolves to; kept by every action, restart and late execution included |
| Approvals.ReplannedIsCleared | app/orchestration/engine.py:1182-1241 | steps that replanning creates as approved resolve to built-ins under any registry, none of which needs approval |
| PolicyPhase.StepTable.EvaluatePolicy | app/orchestration/engine.py:786-847 | one transaction gates all steps or none; in the fields of record and check each listed step gets the status that fits and an event that says so, nothing else changes, and the returned ids are the approved and the held ones in order |
| PolicyPhase.SameVerdict | app/orchestration/engine.py:794-832 | gating a step gives the same verdict whatever was gated before it, and twice the same as once |
| PolicyTerms.GateExactly | app/orchestration/engine.py:804-810 | policy permits exactly what is within the record: class, intensity, production, state changes and the environments a skill names |
| PolicyTerms.RefusalCode | app/orchestration/engine.py:2194-2210 | which of these tests a refusal names: the first that fails |
| PolicyTerms.StatusIsJudged | app/orchestration/engine.py:794-834 | skipped, refused, held and approved, each if and only if the check that the step's name means exists, is within the record and needs approval or not |
| PolicyTerms.ResolveExactly | app/orchestration/engine.py:2274-2284 | a name means its first bearer, built-ins first; a name that is empty or that nobody bears means the first built-in of the class |
| PolicyPhase.AwaitDecisions | app/orchestration/engine.py:864-897 | returns exactly the held steps whose first decision seen is an approval; stops at the deadline or cancellation, and earlier only when nothing is pending |
| Checks.SnapshotRoundTrip | app/agents/registry.py:279-311 | freezing the loaded declarative checks and rebuilding them gives the same checks |
| Checks.LoadExactly | app/agents/registry.py:286-311 | loaded are exactly the rows that are enabled, declarative, runnable, and shared or of the organisation, in their order |
| Checks.BuiltInTable | app/agents/registry.py:314-320 | the names, classes and intensities of the built-in checks |
| Checks.ResolutionIsStable | app/orchestration/engine.py:2274-2284 | a name resolves to the same check in every later phase if and only if something was frozen or the name is a built-in, frozen or empty |
| Checks.LaterSkillIsPickedUp | app/orchestration/engine.py:345-354 | with nothing frozen, a skill registered later is picked up by the next phase |
| Checks.BuiltInsNeedNoApproval | app/orchestration/engine.py:2171-2177 | no built-in check changes state or is invasive |
| Checks.BuiltInResolves | app/orchestration/engine.py:2274-2284 | the name of a built-in means that built-in, whatever skills exist |
| Planning.BuildPlan | app/services/planning.py:53-97 | the nested loops and the sort give the sorted list of candidate steps |
| Planning.PlanIsExactlyWhatApplies | app/services/planning.py:70-97 | a step is planned for exactly the wanted pairs, by falling priority, ties in endpoint and check order |
| PlanningTerms.PlannedExactly | app/services/planning.py:53-97 | the planned steps are those of the pairs whose class, intensity and applicability fit, with the fields of both and the priority of both |
| PlanningTerms.AppliesExactly | app/services/planning.py:100-123 | to which endpoints each class of checks applies, for example injection checks to every endpoint with a parameter or an identifier in its path |
| PlanningTerms.PriorityExactly | app/services/planning.py:38-50 | what each feature of an endpoint adds to its priority |
| PlanningTerms.WeightsExactly | app/services/planning.py:126-134 | the bonus of each class, which is its weight in the risk-first order less one |
| PlanningTerms.StrategiesExactly | app/orchestration/engine.py:2287-2310 | risk-first orders by falling weight and then priority, coverage-first keeps endpoints together, each by falling priority, and every other name means priority alone |
| Planning.ChoicesOnlyReorder | app/orchestration/engine.py:2287-2310 | for every strategy string and every proposed order the plan reaching policy is a permutation of the deterministic plan |
| Planning.ReorderIsStableAndIdempotent | app/agents/deepagents_planner.py:217-226 | named steps come in first-mention order and unnamed ones last, equal names keep their order, and reordering twice is reordering once |
| Planning.ApplyReorder | app/agents/deepagents_planner.py:217-226 | sorting by rank and position is the stable sort by first mention |
| Planning.RerankPlan | app/agents/deepagents_planner.py:122-159 | the length guard never rejects a reordering |
| Planning.OutcomesAreOrderFree | app/orchestration/engine.py:794-832 | which steps are approved, held, denied or skipped does not depend on the planner's choices |
| RunnableChecks.ExactlyTheseRun | app/orchestration/engine.py:2274-2284 | for any set of states the skill registry may be in: a check is executed for a step of some class in some run if and only if a candidate of that class passes the planner's filter, its name means that check and the check is within the record, or something can run, replanning is on and it is the first built-in of a granted class |
| RequestedClasses.KeepsToRequestExactly | app/orchestration/engine.py:796-812 | in all runs every executed check's own class is requested if and only if every name the planner can use leads, where policy permits it, to a check of a requested class, and replanning finds no built-in outside the request |
| RequestedClasses.OneClassKeepsToRequestExactly | app/orchestration/engine.py:1176-1235 | with registries that give every name one class, the same holds if and only if some requested class is authorized and replanning is off or finds no permitted built-in of an authorized class outside the request |
| RequestedClasses.StepsKeepToRequestExactly | app/orchestration/engine.py:1176-1235 | that condition decides, with any skills, about the class written on every executed step |
| RequestedClasses.OwnClassesPermittedExactly | app/orchestration/engine.py:796-812 | in all runs the record permits every executed check under the check's own class if and only if no name the planner can use leads to a class that is not authorized |
| RequestedClasses.ANameLeadsToAnotherClass | app/agents/registry.py:186-232 | with only `cors` requested and authorized and one `cors` skill named `sqli.reflected`, some run executes the built-in injection check |
| RequestedClasses.ReplanningWidensARequest | app/orchestration/engine.py:1176-1235 | with `xss` requested, `bola` authorized as well and no skills at all, some run executes a check outside the request |
| Planning.PlansKeepToRequestExactly | app/orchestration/engine.py:686-688 | planned steps that pass policy keep to the requested classes if and only if some requested class is authorized |
| Planning.PlannedRowsAreDrafts | app/orchestration/engine.py:735-752 | every step the planner can store is one the step machine can plan: a draft of a built-in or frozen check of an effective class and a permitted intensity |
| Phases.Engine.Supervise | app/orchestration/engine.py:380-445 | the phase driver with its exception handlers performs one chain of the control flow to its end, and records states, note and reason accordingly |
| Phases.PhasesInOrder | app/orchestration/engine.py:402-439 | recorded states are a prefix of the phase order, then one terminal state and after it only failures |
| PhaseEndings.TerminalStatesExactly | app/orchestration/engine.py:380-445 | the number of terminal states of a finished run, by the operation at which it leaves the phases and by whether recording the failure inside and outside and closing the client work; at most three |
| PhaseEndings.OneTerminalStateExactly | app/orchestration/engine.py:163-205 | whatever fails, the recording of failures included: exactly one terminal state is recorded if and only if that number, told from the world, is one |
| PhaseEndings.NeverEnded | app/orchestration/engine.py:198-200 | a run whose guard cannot be built and whose failure cannot be recorded ends without a terminal state |
| PhaseEndings.CancelledThenFailed | app/orchestration/engine.py:1927-1938 | a run that records its cancellation and then, as the audit fails, a failure |
| PhaseEndings.FailedTwice | app/orchestration/engine.py:163-205 | a run that records a failure inside and, as the client does not close, a second one outside |
| PhaseEndings.CancelledThenFailedTwice | app/orchestration/engine.py:1927-1938 | a run that records its cancellation and then two failures |
| Phases.OneTerminalState | app/orchestration/engine.py:163-205 | if failures get recorded, exactly one terminal state is recorded if and only if no cleanup of the run fails |
| Phases.CancellationStopsTheRun | app/orchestration/engine.py:387-425 | a cancellation requested at one of the five boundaries keeps every later phase and completion from being recorded |
| Phases.NoCancellationAfterValidation | app/orchestration/engine.py:427-439 | once validation is recorded the run is never cancelled and ends completed or failed |
| Phases.ExecutedMeansJobsRan | app/orchestration/engine.py:1880-1892 | the completion reason is `executed` if and only if a job exists and execution was not cut short |
| Phases.CompletionReason | app/orchestration/engine.py:1880-1892 | the reason of a completed run in each of the four cases |
| Scheduling.LimitsHold | app/orchestration/engine.py:106-160 | engines of both kinds within the global limit, supervised engines of an organisation within its quota, at most one per assessment |
| Scheduling.DeadlockFreeExactly | app/orchestration/engine.py:163-205 | taking the organisation's slot before the global one never deadlocks if and only if the limits let anything through |
| Scheduling.EveryTaskFinishes | app/orchestration/engine.py:139-205 | without new launches every run of tasks is bounded, and one that cannot go on has finished all tasks |
| RateLimiting.RateLimiter.Acquire | app/security/http_client.py:43-56 | one call changes the bucket as one grant and sleeps as long as the missing token needs |
| RateLimiting.WindowBound | app/security/http_client.py:33-56 | any window of grants i..j holds at most burst plus rate times its length |
| RateLimiting.WholeBurstAtOnce | app/security/http_client.py:36-40 | the window bound is reached |
| RateLimiting.TokensInRange | app/security/http_client.py:43-56 | tokens stay within capacity and no caller sleeps longer than one token takes |
| RateLimiting.FirstSleepBoundedIffBurstNonNegative | app/security/http_client.py:36-40 | only a negative burst makes the first caller sleep longer |
| Scope.CheckRequestFactors | app/security/scope.py:152-219 | the request gate allows exactly when the method and the target are each permitted, in the fields of the record and the URL |
| Scope.RefusalOfRequest | app/security/scope.py:152-219 | a refused request names the first test that fails |
| Scope.ClassAllowedExactly | app/security/scope.py:123-147 | the tool gate: inside the classes, up to the intensity, and nothing invasive in production |
| GuardedHttp.GuardedHttpClient.Request | app/security/http_client.py:105-185 | every (method, URL, address) sent is permitted, each hop after the first goes to the location of a 301, 302, 303, 307 or 308, as a GET after the first three and with the same method after the others, at most max_redirects + 1 of them, each counted and within the limits; and how the call ends |
| GuardedHttp.GuardedHttpClient.PrecheckExactly | app/security/http_client.py:104-124 | what must hold before anything is sent, and that a refusal names the first test that fails |
| GuardedHttp.MethodsAreKept | app/security/http_client.py:176-178 | a later hop that is not a GET keeps the method of the call and was reached by 307 and 308 alone |
| GuardedHttp.GuardedHttpClient.RecheckedAsGet | app/security/http_client.py:167-180 | re-checking a redirect as GET settles a kept method as well |
| GuardedHttp.NotReboundExactly | app/security/http_client.py:237-260 | which second resolutions pass the rebinding test |
| GuardedHttp.StableResolutionIsNotRebound | app/security/http_client.py:237-260 | a name that resolves the same way twice is never reported |
| Budgets.OvershootBound | app/security/http_client.py:105-123 | k callers that check, wait and add stay within limit - 1 + k times the cost, in every interleaving |
| Budgets.RequestBudget | app/security/scope.py:104-118 | requests counted by one guard never exceed limit + k - 1, and never the limit for one caller |
| Budgets.AllGuardsBudget | app/orchestration/engine.py:1972-1976 | the requests of all guards of an assessment are at most the sum of what each has left of its own budget |
| Budgets.HandedCountsShareABudget | app/orchestration/engine.py:1996-2001 | guards that start from no less than the count before share one budget |
| Budgets.LostCountsSpendAgain | app/orchestration/engine.py:1986-1994 | n guards that start from a stored count of zero can send n times the limit |
| Budgets.OvershootReached | app/security/http_client.py:181-183 | the bound is reached by k callers that all check first |
| Budgets.ZeroLimitIsUnbounded | app/security/scope.py:105-108 | with a zero limit a single caller passes any number |
| Budgets.LedgerIsAMeter | app/agents/budget.py:40-57 | every run of calls on the ledger is a run of the meter of its token ceiling, whatever the cost ceiling |
| Budgets.TokenBudget | app/agents/brain.py:149-180 | recorded tokens never exceed max_tokens - 1 + k times the largest call, for k concurrent calls and any cost ceiling; replies that cannot be parsed spend tokens outside the ledger |
| Budgets.TokenBudgetReached | app/agents/brain.py:149-180 | without a cost ceiling k concurrent calls reach that bound |
| Budgets.CostBudget | app/agents/budget.py:40-47 | the recorded cost stays below max_cost_usd plus k of the dearest calls, whatever the token ceiling |
| Budgets.LlmBudget.Record | app/agents/budget.py:47-59 | recording adds what is positive, and an exceeded ledger stays exceeded |
| Crawler.Crawl | app/discovery/crawler.py:26-100 | the crawl requests at most max_pages distinct pages in order of depth, each discovered from an earlier one; endpoints and warnings are those of the pages requested; it terminates by (pages left, queue) |
| Crawler.PageExactly | app/discovery/crawler.py:46-88 | a page that answers is an endpoint, followed by its forms if it is HTML; one that does not leaves its warning |
| Crawler.FormsExactly | app/discovery/crawler.py:63-88 | forms whose action is on the host of the seed, in order, their inputs in the body unless the method is GET |
| Crawler.DepthIsDistance | app/discovery/crawler.py:40-98 | a page's depth is the length of the shortest chain of links from the seed through requested pages |
| Crawler.DepthIsDistanceOnTheSite | app/discovery/crawler.py:40-98 | on a site where URLs in reach that share a normal form lead to the same normal forms, the depth is the length of the shortest chain of links of the whole site, also when max_pages cut the crawl short |
| Crawler.EverythingIsSeenExactly | app/discovery/crawler.py:40-98 | when the queue ran dry, the end of every chain of at most max_depth links was requested, at no greater depth, if and only if each is linked from a page requested in time |
| Crawler.EverythingInReachIsSeen | app/discovery/crawler.py:40-98 | this holds on sites where URLs in reach that share a normal form lead to the same normal forms |
| Crawler.QueryHidesAPage | app/discovery/crawler.py:98-105 | a site and a finished crawl that missed a page two links away, behind a URL that differs from a requested one in its query |
| EndpointMerge.MergeEndpoints | app/discovery/normalize.py:119-143 | merging objects in place, the same object possibly listed twice, leaves the values of the specified merge |
| EndpointMerge.MergeIsIncremental | app/discovery/normalize.py:119-143 | merge(merge(xs) + ys) = merge(xs + ys), and merging is idempotent |
| EndpointMerge.MergeKeepsFirstOccurrences | app/discovery/normalize.py:122-143 | fingerprints are those of the input, each once, in order of first occurrence |
| EndpointMerge.MergedSummarises | app/discovery/normalize.py:129-142 | each result has the union of its group's parameter keys and roles, authentication if any needs it, the maximal confidence, and source and parameters of the first member that has it |
| EndpointMerge.MergedParameters | app/discovery/normalize.py:131-137 | a merged endpoint has a parameter of a name in a place if and only if a member of its group has one, no location meaning the query; two or more members leave one of each; the last of the winner's own is the one kept |
| Compaction.Compact | app/agents/brain.py:362-405 | either the context fits and is returned as it is, or the result is a greedy run: each removal was needed and took the largest there was |
| Compaction.BudgetWithMarker | app/agents/brain.py:392-404 | the size of the result is the weight at which the loops stopped plus the marker's key, and it is at most limit + 16 or only the marker is left |
| CompactionBudget.FloorIsLeast | app/agents/brain.py:397-404 | of all that dropping can leave, dropping everything weighs least |
| CompactionBudget.DropsLower | app/agents/brain.py:397-399 | every drop lowers the weight, although its key moves into the marker |
| CompactionBudget.FitsExactly | app/agents/brain.py:392-404 | the result is at most limit + 16 if and only if the marker with the run's tallies and every key is at most limit + 2 |
| CompactionBudget.FitsExactlyWhenDropping | app/agents/brain.py:392-404 | the result is at most limit + 16 if and only if nothing had to be dropped, or the marker that lists every key and tallies every list in full, told from the context alone, is at most limit + 2 |
| CompactionBudget.FitsExactlyWithoutLists | app/agents/brain.py:392-404 | for contexts without lists to trim the same, on the context and the limit alone |
| CompactionBudget.RoomForTheMarker | app/agents/brain.py:392-404 | for every context, if the full marker is at most limit + 2 then the result is at most limit + 16 |
| CompactionBudget.FitsWithReserve | app/agents/brain.py:392-404 | under that condition compacting to budget - 16 gives at most the budget |
| CompactionBudget.LongKeyNeverFits | app/agents/brain.py:397-404 | for every n from 5000 some context ends at n characters or more at limit 4000 |
| CompactionBudget.OvershootReached | app/agents/brain.py:392-404 | some context ends exactly 16 characters over limit 4000 |
| Compaction.KeysAreAccountedFor | app/agents/brain.py:399-404 | every original key is kept or listed exactly once as dropped |
| Compaction.KeptValues | app/agents/brain.py:390-398 | a kept list is a head of the shortened original, and its length plus its tally is the original length |
| JsonWriter.SizeIsLength | app/agents/brain.py:355-356 | the size that compaction reckons with is the length of the JSON text |
| JsonWriter.ShortenExactly | app/agents/brain.py:363-371 | at any depth a string is kept, or cut to its first max_str characters and one ellipsis, and the count is that of the long strings |
| Agreement.ErrorFindingIsConfirmed | app/services/validation.py:89-116 | an error-based finding is confirmed and still vulnerable |
| Agreement.BooleanFindingIsNeverRejected | app/checks/sqli.py:134-205 | a boolean finding is confirmed or suspected; suspected only with differing statuses or an empty baseline and a one-character reply |
| Agreement.BooleanRegressionAgrees | app/services/regression.py:92-103 | on any target: still vulnerable if and only if confirmed |
| Agreement.ErrorRegressionAgrees | app/services/regression.py:83-91 | still vulnerable implies confirmed, and exactly when only the validator's second payload draws an error the two part |
| Agreement.ErrorRegressionCanDisagree | app/services/validation.py:103-111 | they do part on some target |
| Agreement.XssFindingIsConfirmed | app/checks/xss.py:51-124 | a scripting finding is confirmed and still vulnerable |
| Agreement.XssRegressionAgrees | app/services/regression.py:106-131 | on any target: still vulnerable if and only if confirmed |
| Agreement.NumericFindingIsConfirmed | app/services/validation.py:259-303 | a numeric-bounds finding is confirmed if and only if its recipe names a URL and a parameter |
| Agreement.ProbeParam | app/checks/sqli.py:71-185 | told from the replies: found at the first payload that errs unless one before it is refused, halted at the first refusal unless one before it errs, and the boolean differential exactly when no payload does either |
| Agreement.ErrorsTellExactly | app/checks/sqli.py:81-88 | the same for any list of payloads |
| Agreement.BooleanDiffersExactly | app/checks/sqli.py:134-185 | the differential: another status, or lengths more than 30 percent apart with the true reply within 15 percent of the baseline |
| Agreement.ProbeOutOfRange | app/checks/business_logic.py:85-91 | found at the first out-of-range value that is accepted and echoed if every one before it draws an answer, halted at a refusal before that |
| Agreement.NumericFoundExactly | app/checks/business_logic.py:76-92 | when the whole check finds something: 1 accepted, text refused, and -1 or else 0 applied |
| Agreement.XssFoundExactly | app/checks/xss.py:51-124 | a scripting finding means exactly that the marker came back unescaped in an answer that is rendered |
| Scoring.OverallIsOrderFree | app/services/scoring.py:118-121 | the overall score does not depend on the order of findings |
| Scoring.OverallIsBetweenMeanAndMaximum | app/services/scoring.py:118-121 | it lies between the mean and the maximum |
| Scoring.RaisingAScore | app/services/scoring.py:118-121 | raising one score never lowers it |
| Scoring.AddingAScore | app/services/scoring.py:118-121 | adding a score lowers it if and only if there are fewer than five and the new one is below their mean |
| Coverage.WriteCoverage | app/orchestration/engine.py:1722-1750 | the first pass writes exactly one honest row per endpoint and class; a later pass writes none |
| Coverage.RowsGoStale | app/orchestration/engine.py:1727-1736 | rows of the first pass are right about later steps and endpoints if and only if no endpoint was added and no pair changed its reason |
| Coverage.LateExecutionMakesStale | app/orchestration/engine.py:1295-1303 | after one step changes its status in any way and traffic adds endpoints, the rows are right if and only if none was added and the old and the new status stand for the same, or other steps have brought the pair at least as far as both |
| Coverage.StaleByExecution | app/orchestration/engine.py:1727-1736 | a row still says planned only after the late step completed |
| Coverage.StaleBySkipping | app/orchestration/engine.py:1295-1303 | a row still says planned after the late step was skipped |
| Coverage.StaleByTraffic | app/api/routers/assessments.py:300-390 | an endpoint taken in after the first pass never gets a row |
| Coverage.GradesNeedCoverage | app/services/scoring.py:124-138 | a grade other than unknown or insufficient-coverage is given exactly when at least half of the endpoints have a completed step |
| Coverage.GradeBands | app/services/scoring.py:124-138 | each grade if and only if coverage and score are within its bounds |
| Coverage.HigherIsNotMilder | app/services/scoring.py:124-138 | a higher score never gets a milder grade |
| Coverage.ScoreExactly | app/services/scoring.py:109-124 | the counts, coverage and uncertainty of an assessment |
| Coverage.CoverageIsARatio | app/orchestration/engine.py:1752-1762 | tested endpoints are at most all, coverage and uncertainty lie in 0..1 |
| Coverage.RowsAgreeWithCount | app/orchestration/engine.py:1752-1762 | right after the first pass the rows and the count agree |
| PdfText.EscapeIsACharacterMap | app/services/pdf_report.py:18-19 | three successive global replaces are one character map |
| PdfText.EscapeRoundTrip | app/services/pdf_report.py:18-19 | a literal read by section 7.3.4.2 gives the line back if and only if it has no carriage return |
| PdfText.Wrap | app/services/pdf_report.py:22-34 | the loop computes the specified wrapping |
| LineBreaks.WrappedIsBroken | app/services/pdf_report.py:26-34 | output lines are pieces of the line in order with only white space between; each ends before the last space that leaves a line, or at the full width if there is none |
| LineBreaks.BreaksDetermine | app/services/pdf_report.py:26-34 | and nothing else is broken this way |
| LineBreaks.WordsStayWhole | app/services/pdf_report.py:28-30 | where spaces are the only white space, a word shorter than a line is never torn |
| LineBreaks.FullWordIsTorn | app/services/pdf_report.py:28-30 | a word as long as a line is torn after a leading space |
| LineBreaks.PagesExactly | app/services/pdf_report.py:37-45 | the pages laid end to end are the wrapped lines of the text, all but the last of 57 |
| LineBreaks.SplitExactly | app/services/pdf_report.py:37-40 | splitting at line feeds loses nothing else and leaves none |
| PdfText.Paginate | app/services/pdf_report.py:37-45 | the pages are the chunks of all wrapped lines, and the fallback page is never needed |
| PdfText.LayoutPreservesInk | app/services/pdf_report.py:22-45 | only white space is lost, and nothing is reordered |
| PdfText.LayoutFits | app/services/pdf_report.py:22-45 | at most 95 characters a line and 57 lines a page |
| PdfContainer.Serialize | app/services/pdf_report.py:95-113 | the growing buffer and the recorded offsets give the specified file |
| PdfContainer.TableReadsExactly | app/services/pdf_report.py:101-109 | every entry of the table reads as its offset if and only if the last offset is below 10^10 |
| PdfContainer.ObjectReads | app/services/pdf_report.py:96-112 | a reader that takes startxref and entry i lands on object i and its body |
| PdfContainer.RootReads | app/services/pdf_report.py:110-112 | the trailer leads to the catalog |
| PdfReport.TextToPdf | app/services/pdf_report.py:48-113 | the writer, its numbering included, produces the specified file |
| PdfReport.ObjectsInPlace | app/services/pdf_report.py:51-92 | the objects that the references name are the ones meant |
| PdfReport.StreamReads | app/services/pdf_report.py:84-87 | /Length is the byte count of its stream |
| PdfReport.KidsRead | app/services/pdf_report.py:79-80 | the page tree lists the page objects, and its count agrees |
| PdfReport.ReportReadsBack | app/services/pdf_report.py:48-113 | for files with ten-digit offsets, a reader that starts at the end of the file gets every line of every page |
| PdfReport.ReportReadsBackExactly | app/services/pdf_report.py:48-113 | the lines read are exactly the Latin-1 lines written if and only if none has a carriage return |
| PdfReport.TextSurvives | app/services/pdf_report.py:37-113 | a Latin-1 text without carriage returns is read back page by page, equal up to white space |

## Left out

- Sockets, TLS, DNS and pinning itself: the resolver and the target are functions, the pinned address is part of a hop.
- The per-run sandbox: one predicate, applied to the first hop only, as in the code; its parsing of allow lists is not modelled.
- `RateLimiter` is not composed into `Request`: time passes there, but no clock appears in the loop's contract.
- Host, environment and path normalisation of the record and URL splitting: records are taken as normalised, splitting is an oracle.
- Atomicity finer than a transaction: reading an empty snapshot and freezing the registry is one step, although two tasks could both read an empty one first.
- The guards on launching tasks in `Approvals`: any task may start or vanish at any time, which covers them; launching itself is in `Scheduling`.
- The graph library's checkpointer and interrupts: a resumed policy node may gate any steps still planned, and an execute node may take any approved ones.
- Liveness of late approvals: a step approved after its wait ended is not picked up by that run, so nothing is claimed about every approved step running.
- RunnableChecks.ExactlyTheseRun: the endpoints are arbitrary, so every plannable check applies to one of them; the runs on one particular site may execute fewer checks.
- Retry, deadline and health logic of execution, the agent pool's concurrency limit and its statistics, job rows: an execution is one action that may be repeated.
- The score of a single finding (a product of table entries).
- Audit entries, rationale texts, titles, evidence and redaction.
- Scheduling order inside a semaphore: any waiting task may get a free slot, of which the fair order is a special case.
- EndpointMerge.MergeEndpoints: roles are sets, so the order of the role list is not modelled; every parameter has a name, as all parsers provide one; fingerprints are any function of an endpoint's source.
- `templatize_path` and `endpoint_surface_signature`: easy members.
- Planning.BuildPlan: parameter names come in lower case already; the rationale text is left out.
- Scoring.AddingAScore: rounding to two places is left out; grades take a rounding function as a parameter.
- Compaction.Compact: numbers, booleans and null are kept as their text; values that JSON cannot express are strings already.
- Agreement: recipes always carry their fields; error signatures and word characters are arbitrary predicates; replies are stable; access-control, flow, redirect, header and declarative validators are left out because their recipes depend on the target's state or drop parameters.
- Agreement.ErrorFindingIsConfirmed, BooleanFindingIsNeverRejected and XssFindingIsConfirmed: methods are in upper case, as discovery stores them; a lower-case `get` would be probed in the body and replayed in the query. The marker token is not empty.
- The `run` loops over parameters around each probe, and the confidence and severity labels of findings.
- Phases.Engine.Supervise: the run starts with both slots held; persisting the language-model ledger at the end cannot fail and is left out; runs through the graph library are covered by `Approvals` only.
- Coverage.CoverageIsARatio: steps refer to endpoints of their assessment, as the foreign key demands.
- Crawler.Crawl: regular expressions and URL joining are oracles; the forms and links of a page are given.
- Chat, connectors, memory, SIEM, storage, protocol servers, metrics and report texts.
