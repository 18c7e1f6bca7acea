# FluxRoute, verified

A Dafny model of the core of FluxRoute: the planner that levels a dependency graph, the concurrent
engine that runs a plan with retries behind a shared circuit breaker, the trace recorder with replay
and comparison, the lease protocols, the usage ledger and the backoff arithmetic. `dafny verify
dfyconfig.toml` checks the project.

## How it is organised

| file | what it models |
|---|---|
| `Basics.dfy`, `Types.dfy`, `Int64.dfy` | Go's string order, `sort.Slice` as *some* ordered permutation, sub-sequences by key, sums; the value types; int64 wrap-around |
| `Graph.dfy`, `Planner.dfy` | dependency graphs, paths, cycles and depth; `buildGraph` |
| `Manifest.dfy`, `PlanBuilder.dfy` | `ValidateManifest`, `OrderedPipeline`, `buildExecutionPlan`, and why the two topological sorts agree |
| `Breaker.dfy` | the circuit breaker as a class, and whole histories of one circuit |
| `Engine.dfy` | `RunPlan`, `executeLevel` and `executeNode` as a step relation: a program counter per node, the dispatching goroutine, semaphore, wait group, channel, breaker, metrics and recorder. What agents return, the clock readings, the durations and cancellation come from an oracle indexed by node and attempt |
| `EngineFlow.dfy`, `EngineProgress.dfy` | the invariant that every step keeps; no deadlock, termination, the worker pool |
| `EngineTrace.dfy`, `EnginePropagation.dfy`, `EngineBreaker.dfy` | what the trace looks like, how failures travel, and that every run is a proper history of every circuit |
| `EngineStory.dfy`, `EngineMetrics.dfy` | what a node does, told on the fields of plan and configuration and on what the agents answer; that every counter of the metrics is what trace, results and breaker calls add up to |
| `EngineSchedule.dfy`, `EngineManifest.dfy`, `EngineReplay.dfy` | a sequential engine that every interleaving refines, the consequences for manifests, and replay of engine traces |
| `EngineReach.dfy`, `EngineRace.dfy`, `EngineDamage.dfy`, `EngineProbes.dfy` | runs that exist, and with them the exact limits of schedule independence, of bounded damage and of the single probe |
| `RetryChart.dfy` | the documented retry decision, and exactly when the code decides likewise |
| `Trace.dfy` | the recorder, `ReplayAndCompare` and `Compare` |
| `Lease.dfy` | the Redis and the in-memory lease |
| `Ledger.dfy`, `Metrics.dfy`, `Backoff.dfy` | the usage ledger, the metrics recorder, `BackoffDuration` |

## The main results

* **Schedule independence.** `EngineSchedule.RunsLikeSequential`: if no two nodes of a level share an
  agent, every complete run, with any interleaving and any number of workers, ends with the results,
  circuits and metrics of a sequential reference engine and with a permutation of its trace.
  `EngineReplay.TraceIndependence` adds that the finalized trace is then the same sequence although the
  sort is unstable, and `PlanBuilder.PlanManifest` with `EngineManifest.ManifestRunsAgree` that all
  this holds of every plan built from a manifest. The hypothesis is needed: `EngineRace.SharedAgentRaces`
  gives, for every plan in which two nodes of a level share an agent that lower levels do not use, two
  runs from the same engine between runs that disagree, and `EngineRace.DeterministicIffDistinctAgents`
  makes it an equivalence for plans that use each agent in one level, among them the plans without
  dependencies that `Engine.Run` (internal/router/router.go:110) builds.
* **The planner.** `Planner.BuildGraph` accepts exactly the well-formed acyclic plans and reports a cycle
  exactly when there is one; a node's level is its longest-path depth (`Graph.LevelIsDepth`).
  `PlanBuilder.SortsAgree`: up to 9999 steps the level sort and the breadth-first pipeline sort agree.
  `PlanBuilder.IdsSortedIff9999`: sorting by ID gives that order back exactly up to 9999 steps.
* **The breaker.** `BreakerHistory.RefinesDiagram`, `OpenWindow`, `ProbeExcludes` and
  `ProbesNeverOverlap`; inside the engine `EngineBreaker.ProbesNeverLeak` and
  `EngineBreaker.DamageBound` (at most threshold + workers - 1 calls of a failing agent in a whole run),
  with the exact condition in `BreakerHistory.ClosedForGoodIffShut`.
* **The run.** No deadlock, termination, the pool bound and exact failure propagation.
  `EngineStory.NodeStory` tells each node from outside: its breaker calls, steps and result are those of a
  skipped node or of one of five endings, on the plan's and the configuration's fields and the agent's
  answers; `EngineMetrics.MetricsMatchTrace` and `AgentMetricsMatchTrace` give every counter.
* **Around the run.** Replay succeeds on an engine trace in which every node ends in a call exactly when
  every agent's outcome is a success or a plain error with a text; comparison is an equivalence; leases
  exclude; the ledger conserves.

## Where the code and what is said about it differ

* The repository's README.md:108 says that half-open means a single probe. A call that was admitted before the circuit
  opened can fail late and end the half-open state of a running probe, after which a second probe is
  admitted beside the first: `BreakerHistory.ProbesCanOverlap`, and in a run of the engine
  `EngineProbes.ProbesOverlapInRun`. `BreakerHistory.ProbesAloneIffQuiet` gives
  the exact condition: no call is in flight when a probe is granted.
* The clock is read before the breaker's mutex is taken (internal/router/router.go:244 and 301), so a
  failure can be recorded after an opening although it was read before it. It then moves the deadline
  back, and the circuit admits calls earlier than the first opening plus the reset time; the bound on the
  calls of a failing agent fails: `BreakerHistory.EarlyReadingBreaksBound`, and in a run of the engine
  `EngineDamage.EarlyReadingInRun`. `BreakerHistory.ClosedForGoodIffShut` gives the exact condition: every
  request reads before the reading of the latest opening before it plus the reset time. It holds when the
  readings are recorded in order (`ClockedReadingsShut`) or lie close together (`CloseReadingsShut`).
* The retry chart from line 118 of the repository's README.md on stops at an error marked not retryable, and
  otherwise retries if there is no allow-list or the error matches it. The code departs from it in four ways:
  an error marked retryable is retried without looking at the list (`RetryChart.MarkSkipsList`); an
  unmarked cancellation is never retried (`CancellationStops`); and because `normalizeInvocationError` replaces a
  deadline error by a plain timeout error (internal/router/router.go:346), such an error loses its mark
  (`DeadlineLosesMark`) and its chain, so a list that names the deadline does not match it
  (`DeadlineLosesChain`). `RetryChart.AsChartedIff` gives the exact condition, for every error and policy,
  under which code and chart agree, and `RetryChart.RunsFollowChart` what it means for whole runs.
* The engine and replay word a panic differently (internal/router/router.go:335,
  internal/trace/replay.go:78), so a trace that ends in a panic never replays: `EngineReplay.CallReplays`.
* The in-memory lease deletes whatever is stored under its key: `MemoryLease.LateReleaseBreaksExclusion`
  shows two holders after a late release, `MemoryLease.ReleaseLetsTwoIn` that this happens whenever
  somebody else holds the key, and `MemoryLease.ReleaseSafeIff` that only then.

## Model

| member | source | states |
|---|---|---|
| Planner.BuildGraph | internal/router/router.go:398-462 | every error is the first fault of its kind in the plan; a cycle is reported exactly when the plan is otherwise well formed and has a dependency cycle (repeated dependencies allowed); otherwise every node is in exactly one level |
| Planner.IndexNodes | internal/router/router.go:403-415 | no fault exactly when IDs are non-empty and distinct; in-degrees count repeated dependencies |
| Planner.LinkChildren | internal/router/router.go:417-427 | no fault exactly when dependencies are known and none is the node itself; a child is listed as often as it names its dependency |
| Planner.Roots | internal/router/router.go:429-435 | the sorted first queue is exactly the nodes without dependencies |
| Planner.ReleaseChildren | internal/router/router.go:446-451 | after the decrements the in-degrees count the entries that are not finished, and exactly the nodes that got to zero were collected |
| Planner.NextLevel | internal/router/router.go:444-454 | the next queue is the sorted next layer |
| Planner.LevelLoop | internal/router/router.go:437-455 | the levels are the layers of the graph, none is left over, and `visited` counts the placed nodes |
| Planner.AllVisited | internal/router/router.go:457-459 | comparing `visited` with the number of nodes decides whether there is a cycle |
| Planner.NodeOrderIrrelevant | internal/router/router.go:429-461 | permuting the nodes of a plan changes neither acceptance nor the levels |
| Graph.LevelIsDepth | internal/router/router.go:439-455 | a node's level is the length of the longest dependency path that ends in it, and no other number is |
| Graph.LevelEquation | internal/router/router.go:439-455 | level 0 is the nodes without dependencies, and above it the level is one more than the highest level of a dependency |
| Graph.PlacedMeansAcyclic | internal/router/router.go:457-461 | if every node was placed there is no cycle |
| Graph.StuckMeansCycle | internal/router/router.go:457-459 | if no node is ready but some are not placed, there is a cycle |
| Graph.CompleteLevellingUnique | internal/router/router.go:437-461 | a graph is levelled in at most one way |
| Manifest.ValidateManifest | internal/config/manifest.go:88-169 | accepts exactly the manifests whose namespace, roles, agents, steps and dependencies are in order and acyclic; otherwise reports the first fault of the first check that fails |
| Manifest.CheckRoles | internal/config/manifest.go:101-112 | no fault exactly when every role of every list is known; otherwise the first unknown role |
| Manifest.CheckStructure | internal/config/manifest.go:114-168 | no fault exactly for valid agents, steps and dependencies without a cycle; otherwise the first fault among the agents, else the steps, else the dependencies, else the cycle |
| Manifest.CheckAgents | internal/config/manifest.go:114-137 | no fault exactly when agent IDs are non-empty and distinct and their breaker settings valid; otherwise the fault of the first invalid agent |
| Manifest.CheckSteps | internal/config/manifest.go:139-151 | no fault exactly when steps are non-empty, distinct and have an agent; otherwise the fault of the first bad step |
| Manifest.CheckDependencies | internal/config/manifest.go:153-163 | no fault exactly when dependencies name other steps of the pipeline; otherwise the first bad dependency |
| Manifest.OrderedPipeline | internal/config/manifest.go:172-220 | for a clean pipeline: the breadth-first order of all steps, or an error exactly when there is a cycle; it ends for every pipeline |
| Manifest.Search | internal/config/manifest.go:197-209 | the queue loop names the steps breadth first: the roots in manifest order, then the children of each named step in turn |
| Manifest.SearchDecides | internal/config/manifest.go:211-213 | the finished search named every step exactly when the pipeline has no cycle |
| Manifest.ParentEarlier | internal/config/manifest.go:197-209 | each named step has no dependency or its dependency was named before |
| Manifest.ParentsInOrder | internal/config/manifest.go:197-209 | steps named earlier have dependencies named earlier |
| PlanBuilder.BuildExecutionPlan | internal/app/run.go:296-349 | succeeds for every valid manifest; fails for want of an order exactly on a cycle, and for a policy with the first agent that has a malformed duration; a plan has one node per step in pipeline order, which `NodesCarry` and `PoliciesOfAgents` describe field by field |
| PlanBuilder.PoliciesOfAgents | internal/config/config.go:84-126 | every node of a valid manifest's plan runs under the settings of its own agent's binding: its attempts or 1, its backoff or linear, its threshold or the fallback's or 0, and each time from its own field or the fallback's, or else 60s and 5s |
| PlanBuilder.NodesCarry | internal/app/run.go:320-345 | every node carries its number in ID and request ID, its step as agent and in the metadata, the namespace, the clock reading and the payload |
| PlanBuilder.IdsIncrease | internal/app/run.go:316 | up to 9999 the padded IDs sort as their numbers do |
| PlanBuilder.IdsSortedIff9999 | internal/app/run.go:315-318 | the IDs are strictly sorted exactly when there are at most 9999 steps |
| PlanBuilder.SortsAgree | internal/app/run.go:313-346 | the levels of the planner, one after the other, are the IDs in pipeline order |
| PlanBuilder.IdsDistinct | internal/app/run.go:316 | IDs with different numbers differ, for any number of steps |
| PlanBuilder.PlanManifest | internal/app/run.go:296-349 | for every valid manifest the planner accepts the plan, each dependency is an earlier node, and no two nodes share an agent; for up to 9999 steps the levels run the steps in pipeline order, which is ID order |
| Engine.DependencyErrorMeans | internal/router/router.go:376-390 | with all dependencies filed there is no error exactly when all succeeded, and an error quotes the first in the order of the list that failed |
| Engine.PlannedIsAccepted | internal/router/router.go:120-142 | what the planner accepts is what the engine model runs on |
| EngineFlow.RunsFlow | internal/router/router.go:155-202 | in every state of every run: the semaphore counts the slot holders, the wait group the running nodes, lower levels are done, higher ones untouched, and exactly the finished levels are filed |
| EngineFlow.ChannelHasRoom | internal/router/router.go:162-187 | a result that was not sent yet has room in the channel, so no send blocks |
| EngineFlow.GatherAnyOrder | internal/router/router.go:137-142 | the filed results do not depend on the order in which the channel is drained or sorted |
| EngineProgress.NeverStuck | internal/router/router.go:162-197 | until the run is over some step is enabled, with any pool of at least one worker |
| EngineProgress.RunsEnd | internal/router/router.go:155-330 | a measure falls with every step, so every run is finite with a bound known at its start |
| EngineProgress.CanComplete | internal/router/router.go:155-330 | every run can be continued to a final state |
| EngineProgress.CallsWithinPool | internal/router/router.go:164-187 | at most `WorkerPoolSize` agent calls are in flight in any state |
| EngineTrace.RunsTraced | internal/router/router.go:204-330 | in every state each node's log has the shape that its program counter implies: retried attempts 1 to k - 1, and a last step that goes with its result |
| EngineTrace.EndedNumbers | internal/router/router.go:243-329 | the steps of a finished node that was not skipped are its attempts 1 to k with k at most `MaxAttempts`, and every attempt before the last failed with a retryable error |
| EngineTrace.StepKeysUnique | internal/router/router.go:204-330 | no two trace steps share invocation and attempt |
| EnginePropagation.NoMissingDependency | internal/router/router.go:376-390 | "dependency result missing" is never produced; an error quotes the first dependency that failed |
| EnginePropagation.FailurePropagation | internal/router/router.go:155-189 | a node is executed only if all transitive dependencies were executed successfully, and a finished node was skipped exactly when some ancestor was executed and failed |
| EnginePropagation.FinishedSteps | internal/router/router.go:168-179 | a skipped node has a single step of attempt 0 with its error; any other finished node has attempts 1 to k, the last of which gives its result unless the wait after it was cancelled |
| EnginePropagation.AllFiled | internal/router/router.go:136-142 | after a complete run every node has exactly one filed result, its own |
| EnginePropagation.ReportResults | internal/router/router.go:144-150 | one result per node, strictly sorted by ID |
| EngineStory.SettingsAre | internal/router/router.go:205-263 | attempts, list, backoff, breaker policy and time limits on the fields of node and configuration: the node's own if positive, else the engine's, with the defaults 1, linear, 60s and 5s; a probe has the smaller of time limit and probe time |
| EngineStory.OutcomesAre | internal/router/router.go:332-349 | a return has no error, an error is passed on or, with a deadline, replaced by a timeout, and a panic is an error that is not retryable |
| EngineStory.NodeStory | internal/router/router.go:168-330 | a finished node was skipped with the error that quotes its first failed dependency, or its breaker calls, steps and result are those of an unregistered agent, a refusal, a return, a last failure or a cancelled wait, after attempts that all failed retryably |
| EngineStory.SucceedsIffReturned | internal/router/router.go:275-298 | a node that was not skipped has no error exactly when its last call returned, and then hands on that output, with the time taken if it had none |
| EngineStory.PanicEnds | internal/router/router.go:332-339 | a panic is the node's last attempt, and is reported as not retryable with its reason |
| EngineStory.ErrorReported | internal/router/router.go:341-349 | the error of the last call is reported as it is, or as a timeout if it is a deadline |
| EngineStory.AttemptsExhausted | internal/router/router.go:205-319 | a node whose calls are all admitted and fail retryably, with no wait cancelled, makes its own number of attempts if positive, else the engine's, else one |
| EngineStory.EventsUnderPolicy | internal/router/router.go:214-301 | in every state every breaker call of the run is made for a node, on its agent, and under its own policy if its threshold is positive, else the engine's, with 60s and 5s by default |
| EngineMetrics.MetricsMatchTrace | internal/router/router.go:204-330 | over a complete run invocations grow by the attempts in the trace, errors by the attempts less the nodes that ended without an error, retries by the attempts after a node's first and one for every cancelled wait, and circuit opens by the requests that the breaker refused |
| EngineMetrics.AgentMetricsMatchTrace | internal/metrics/metrics.go:54-105 | the same agent by agent, with successes growing by its nodes that ended without an error and the duration by the sum over its attempts: the output's for a success, the step's for a failure, 0 for a refusal |
| RetryChart.AsChartedIff | internal/router/router.go:341-374 | the code retries an error that an agent returned exactly when the documented chart does, if and only if the stated condition on mark, chain and list holds |
| RetryChart.DeadlineRetriedIff | internal/router/router.go:345-347 | a deadline error is retried exactly when there is no list or the list names the timeout error |
| RetryChart.MarkSkipsList | internal/router/router.go:356-359 | an error marked retryable is retried although the list does not name it |
| RetryChart.CancellationStops | internal/router/router.go:361-363 | a cancellation is not retried although there is no list |
| RetryChart.DeadlineLosesMark | internal/router/router.go:345-347 | a deadline error marked not retryable is retried |
| RetryChart.DeadlineLosesChain | internal/router/router.go:345-347 | a deadline error is not retried although the list names it |
| RetryChart.RunsFollowChart | internal/router/router.go:318-320 | in a run, if an agent's errors meet the condition, every retried attempt is one that the chart retries, and a node gives up before its limit only where the chart stops |
| EngineBreaker.RunsRecorded | internal/router/router.go:243-301 | in every run each answer is the breaker's, each admitted call gets one outcome under its own policy, and the calls in flight are those of the nodes in a call |
| EngineBreaker.ProbesNeverLeak | internal/router/router.go:243-301 | whenever no call of an agent is in flight its circuit is not half-open, with panics, timeouts, mixed policies and late completions |
| EngineBreaker.QuietAgain | internal/router/router.go:120-153 | after a complete run no call is in flight, so that the next run starts as this one did |
| EngineBreaker.RunsKeepOpenWindow | internal/retry/circuit_breaker.go:36-92 | inside a run no call is admitted between an opening and its reset time unless a success was recorded in between |
| EngineBreaker.DamageBound | internal/router/router.go:162-327 | a failing agent is called at most threshold + workers - 1 times in a whole run, if none of its requests reads as late as the deadline that the latest opening set |
| EngineBreaker.RunsRefuseIffShut | internal/router/router.go:243-301 | in a run, no call of a failing agent is admitted after an opening exactly when every request reads before the latest opening's reading plus the reset time |
| EngineDamage.DamageBoundByReadings | internal/router/router.go:162-327 | the bound holds if requests are read less than a reset time after the earliest reading of a failure, in whatever order readings are recorded |
| EngineDamage.EarlyReadingInRun | internal/router/router.go:244-301 | a run of two workers in which every call fails and no reading reaches the first opening plus the reset time, but threshold + 2 calls are admitted |
| EngineSchedule.RunsLikeSequential | internal/router/router.go:120-330 | every complete run ends with the results, circuits and metrics of the sequential engine and a permutation of its trace |
| EngineSchedule.ScheduleIndependence | internal/router/router.go:120-330 | two complete runs from the same start, with different interleavings and pool sizes, agree on results, circuits, metrics and trace contents |
| EngineManifest.ManifestRunsAgree | internal/app/run.go:296-349 | for plans in which no two nodes share an agent, as those of manifests, any two complete runs agree, finalized trace included |
| EngineReach.ReachLevel | internal/router/router.go:120-202 | if all calls below a level succeed, some run reaches that level with nothing failed and the circuit of an agent not used below as it was |
| EngineRace.RaceStartQuiet | internal/retry/circuit_breaker.go:66-93 | the start of the race, threshold - 1 failures recorded, is the state of an engine between runs |
| EngineRace.SharedAgentRaces | internal/router/router.go:182-188 | if two nodes of a level share a registered agent behind an enabled breaker that no lower level uses, one of them is called in one run and refused in another, from the same engine between runs |
| EngineRace.DeterministicIffDistinctAgents | internal/router/router.go:110-153 | for a plan that uses each agent in one level: results are independent of the schedule, whatever agents, clock and engine between runs, exactly when no two nodes of a level share an agent |
| EngineReplay.TraceIndependence | internal/trace/recorder.go:30-52 | the finalized steps of two complete runs are the same sequence |
| EngineReplay.CallReplays | internal/trace/replay.go:47-69 | a recorded call of an agent that is a function of its input is reproduced exactly when its outcome is a success or a plain error with a text |
| EngineReplay.RunsReplay | internal/trace/replay.go:18-73 | the trace of a complete run whose nodes all end in a call replays exactly when every outcome is a success or a plain error with a text |
| Trace.Recorder.AddStep | internal/trace/recorder.go:21-28 | the step is appended and nothing else changes |
| Trace.Recorder.Finalize | internal/trace/recorder.go:30-52 | a permutation of the steps, by invocation, then attempt, then request ID; the recorder is unchanged |
| Trace.FinalizedUnique | internal/trace/recorder.go:42-50 | logs with the same steps under unique keys are finalized to the same sequence, although the sort is unstable |
| Trace.LatestByInvocation | internal/trace/debug.go:77-86 | the map that `LatestMeans` characterizes |
| Trace.LatestMeans | internal/trace/debug.go:77-86 | an invocation is in the map exactly when it has a step, and its entry is the last step with its highest attempt |
| Trace.LatestPermuted | internal/trace/debug.go:77-86 | under unique keys the order of the steps does not matter |
| Trace.ReplayStep | internal/trace/replay.go:41-69 | nil exactly when the second execution reproduces the error text, or the request ID and payload; otherwise the first difference |
| Trace.ReproducesMeans | internal/trace/replay.go:47-82 | a second return must match a recorded success in request ID and payload, a returned error a recorded one in its text, and a panic one that reads "agent panic: " and the reason |
| Trace.ReplayAndCompare | internal/trace/replay.go:18-73 | nil exactly when there are steps and the latest step of every invocation is reproduced; otherwise the difference of the smallest invocation that is not |
| Trace.Compare | internal/trace/debug.go:19-64 | a divergence is listed exactly when it is a missing invocation, with the agent on the side that has it, or a field of the latest attempts with its different expected and actual values; strictly in order of invocation and field; none exactly when both traces have the same invocations and agree on the replay-significant fields of the latest attempts |
| Trace.ComparisonReordered | internal/trace/debug.go:19-64 | reordering the steps of traces with unique keys changes nothing in the list of divergences |
| Trace.EquivalenceRelation | internal/trace/debug.go:19-64 | emptiness of the comparison is reflexive, symmetric and transitive, and does not depend on the order of the steps |
| Breaker.CircuitBreaker.Allow | internal/retry/circuit_breaker.go:28-53 | the answer and the new circuit of `Ask`; only a probe changes the circuit |
| Breaker.CircuitBreaker.RecordSuccess | internal/retry/circuit_breaker.go:55-64 | the agent's circuit is reset, the others are unchanged |
| Breaker.CircuitBreaker.RecordFailure | internal/retry/circuit_breaker.go:66-93 | the agent's circuit counts or opens as in `Fail`, the others are unchanged |
| BreakerHistory.CountsStayBelow | internal/retry/circuit_breaker.go:28-93 | under any interleaving a half-open circuit has no deadline and no failures, and the count stays below the threshold |
| BreakerHistory.OpenWindow | internal/retry/circuit_breaker.go:36-92 | after an opening at t no call is admitted before t + ResetTimeout unless a success came in between |
| BreakerHistory.ProbeExcludes | internal/retry/circuit_breaker.go:36-53 | after a probe was granted every request is refused until the next outcome |
| BreakerHistory.ProbesNeverOverlap | internal/retry/circuit_breaker.go:36-92 | if no earlier call is running when a probe is granted, a probe is the only call in flight |
| BreakerHistory.ProbesAloneIffQuiet | internal/retry/circuit_breaker.go:36-92 | over a whole history a probe is never beside another call exactly when no call is in flight at any grant |
| BreakerHistory.ProbesCanOverlap | internal/retry/circuit_breaker.go:66-93 | without that condition two probes can overlap |
| EngineProbes.ProbesOverlapInRun | internal/router/router.go:244-301 | a run of four workers on a fresh engine, with readings in order, in which two probes of one agent are in flight |
| BreakerHistory.HalfOpenHasProbe | internal/retry/circuit_breaker.go:28-93 | a half-open circuit has an admitted call in flight, with any policies |
| BreakerHistory.RefinesDiagram | README.md:101-116 | with one policy and calls one at a time the circuit follows the Closed / Open / Half-Open machine, the count being the failures since the last success |
| BreakerHistory.BoundedDamage | internal/retry/circuit_breaker.go:28-93 | without successes, and if no request reads as late as the deadline that the latest opening set, at most threshold + width - 1 calls are admitted when at most width are in flight |
| BreakerHistory.ClosedForGoodIffShut | internal/retry/circuit_breaker.go:36-92 | without successes nothing is admitted after an opening exactly when every request reads before the reading of the latest opening before it plus the reset time |
| BreakerHistory.CloseReadingsShut | internal/retry/circuit_breaker.go:36-92 | every request is in time for the latest opening if failures from the first opening on read at least lo and requests less than lo plus the reset time |
| BreakerHistory.ClockedReadingsShut | internal/retry/circuit_breaker.go:36-92 | every request is in time for the latest opening if readings never decrease and none reaches the first opening plus the reset time |
| BreakerHistory.EarlyReadingBreaksBound | internal/retry/circuit_breaker.go:86-92 | if readings can be recorded out of order, that none reaches the first opening plus the reset time is not enough: threshold + 2 calls are admitted with two in flight |
| Metrics.InMemoryRecorder.ObserveInvocation | internal/metrics/metrics.go:54-68 | the snapshot after one more invocation |
| Metrics.InMemoryRecorder.ObserveRetry | internal/metrics/metrics.go:70-78 | the snapshot after one more retry |
| Metrics.InMemoryRecorder.ObserveCircuitOpen | internal/metrics/metrics.go:80-88 | the snapshot after one more refusal |
| Metrics.TotalsCount | internal/metrics/metrics.go:54-88 | the totals count the observations of each kind |
| Metrics.TotalsAreAgentSums | internal/metrics/metrics.go:90-105 | the totals are the sums over agents |
| Metrics.SameSnapshot | internal/metrics/metrics.go:90-105 | observations that agree agent by agent give the same snapshot, however they are interleaved |
| RedisLease.AcquireLoop | internal/coordinator/redis.go:44-69 | the lease is granted at the first turn at which the key is free, unless the context was done before |
| RedisLease.Exclusion | internal/coordinator/redis.go:44-82 | in every run at most one unexpired lease per key |
| RedisLease.ReleaseTakesOnlyItsOwn | internal/coordinator/redis.go:71-82 | a release, however late or repeated, takes away no other lease; in time it frees the key |
| RedisLease.GrantedIffFree | internal/coordinator/redis.go:44-60 | in every run whoever asks gets the lease exactly when nobody validly holds the key, for the time asked for or two minutes |
| MemoryLease.MemoryCoordinator.TryAcquire | internal/coordinator/coordinator.go:38-47 | one turn under the mutex: the lock is taken exactly when it is absent or expired |
| MemoryLease.MemoryCoordinator.Release | internal/coordinator/coordinator.go:57-62 | the key is unlocked, whoever holds it |
| MemoryLease.AcquireLoop | internal/coordinator/coordinator.go:34-55 | the lock is taken at the first turn at which the key is free, unless the context was done before |
| MemoryLease.Exclusion | internal/coordinator/coordinator.go:34-62 | at most one valid lease per key when leases are released at most once and not after they expired |
| MemoryLease.GrantedIffFree | internal/coordinator/coordinator.go:34-47 | with polite clients whoever asks gets the key exactly when nobody validly holds it |
| MemoryLease.ReleaseLetsTwoIn | internal/coordinator/coordinator.go:57-62 | if somebody else validly holds the key, a release and any next acquire give two valid leases of it |
| MemoryLease.ReleaseSafeIff | internal/coordinator/coordinator.go:57-62 | after a release every next acquire of the key is exclusive exactly when nobody else validly holds it |
| MemoryLease.LateReleaseBreaksExclusion | internal/coordinator/coordinator.go:57-62 | a late release can let two clients in |
| Ledger.Service.AddTenant | internal/controlplane/service.go:55-66 | the error cases, or one more tenant; the ledger is kept |
| Ledger.Service.AddUsageAt | internal/controlplane/service.go:83-98 | the error cases, or one more event and a running total that still is the sum of the tenant's events |
| Ledger.Service.Usage | internal/controlplane/service.go:100-104 | the sum of the tenant's events, in int64 |
| Ledger.Service.UsageRows | internal/controlplane/service.go:106-118 | one row per tenant with usage that matches the query, strictly sorted, with the sum of its events |
| Ledger.Service.MonthlyUsageRows | internal/controlplane/service.go:137-160 | one row per tenant active in the month, strictly sorted, with the sum of its events in that month |
| Ledger.GrandTotal | internal/controlplane/service.go:376-379 | the sum of the rows, in int64 |
| Ledger.GrandTotalIsMonth | internal/controlplane/service.go:376-379 | the grand total is the sum of all events of the month |
| Ledger.Conservation | internal/controlplane/service.go:131-160 | over months that cover the log the monthly sums add up to what the tenants are invoiced for |
| Ledger.DisplayedConservation | internal/controlplane/service.go:131-160 | the same of the displayed int64 totals, with wrap-around |
| Int64.WrapAdd | internal/controlplane/service.go:95 | adding to a wrapped running total is adding and then wrapping |
| Backoff.WaitWraps | internal/retry/retry.go:37-50 | for every strategy and attempt the wait is the exact number of nanoseconds modulo 2^64, also when the shift loses every bit |
| Backoff.FitsIff | internal/retry/retry.go:37-50 | the doubling waits are exact up to attempt 37 and no further, the linear ones up to attempt 92233720368 |
| Backoff.StrictlyIncreasing | internal/retry/retry.go:37-50 | as long as it is exact each strategy waits longer at each attempt, jitter included |
| Backoff.JitterSteps | internal/retry/retry.go:45 | the jitter is 37ms, 74ms, 11ms, and so on by 37ms modulo 100ms |
| Backoff.LinearTotal | internal/router/router.go:318-326 | the waits of n attempts total 100ms * n(n-1)/2 |
| Backoff.ExponentialTotal | internal/router/router.go:318-326 | the waits of n attempts total 100ms * (2^(n-1) - 1) |
| Backoff.JitteredTotal | internal/router/router.go:318-326 | jitter adds between 0 and 99ms per wait |
| Basics.SortSlice | internal/trace/recorder.go:42 | `sort.Slice`: an ordered permutation, with nothing said about equal elements |

## Left out

- Cloning and aliasing of payload slices and metadata maps (internal/trace/recorder.go:54-80): the model works on values, so that a clone is the value itself.
- Execution in real time: how long a backoff wait takes, and preemption inside one atomic step. Each breaker, metrics and recorder call is one step, because each holds its mutex throughout.
- The step and the single result that `RunPlan` returns for a plan that the planner refuses (internal/router/router.go:125-134).
- `NewEngine`'s defaults (internal/router/router.go:59-91): the pool size is a parameter of every theorem, and a configuration without defaults is only more general.
- The OpenTelemetry spans in `executeNode`, HTTP handlers, TLS, the CLI, audit logging, exporters, SDKs and LLM adapters.
- `time.Time`'s zero value as a real deadline: `openUntil` is an option, which is how the code uses it.
- The namespace pattern and the role names (internal/tenant/namespace.go:19, internal/security/rbac.go:64), which are predicates given to `Manifest.ValidateManifest`, and YAML, JSON and duration parsing: a duration of the manifest is absent, malformed or a number.
- The lower-casing in the query of `UsageRows`: the query is an arbitrary predicate on tenants.
- The calendar behind `parseMonthStart` and `AddDate`: months are given by any increasing sequence of bounds.
- Invoice amounts in floating point and CSV output: invocation counts only.
- SHA-256: `Trace.Compare` takes the payload hash as a parameter, and its equivalence asks for an injective one.
- Failures of the Redis client and of the random token: tokens are distinct.
- The file coordinator (internal/coordinator/coordinator.go:64-131), whose file-system steps are not atomic.
- `retry.Execute` (internal/retry/retry.go:11), which the engine does not call, and `deterministicAgent` (internal/app/run.go:255), a test stub.
- Backoff.JitterSteps: `attempt*37` does not overflow in the model; in Go it does beyond attempt 2^63 / 37.
- EngineSchedule.RunsLikeSequential: asks for distinct agents within each level; with a shared agent the claim is false, see `EngineRace.SharedAgentRaces`.
- EngineRace.DeterministicIffDistinctAgents: is about plans that use each agent in one level only; a success of the same agent in a lower level resets the circuit, and whether it can then open depends on thresholds and retry limits.
- EngineBreaker.DamageBound: the claim without a condition on the readings is false, see `EngineDamage.EarlyReadingInRun`.
- PlanBuilder.PlanManifest: states the order of the levels for up to 9999 steps; beyond that the IDs are not sorted any more, see `PlanBuilder.IdsSortedIff9999`.
