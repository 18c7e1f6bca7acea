/** The engine as a state machine: one program counter per node, plus the dispatching goroutine, the
    semaphore, the wait group, the result channel, the breaker, the metrics and the trace recorder. */
module Engine {
  import opened Basics
  import opened Types
  import opened Graph
  import opened Breaker
  import opened BreakerHistory
  import opened Metrics
  import Planner

  // ---------------------------------------------------------------------
  // Errors and retries
  // ---------------------------------------------------------------------

  function Plain(text: string): Error { Error(text, None, {}) }

  /** `retry.NonRetryable` */
  function NonRetryable(e: Error): Error {
    Error("agent error: " + e.text, Some(false), e.chain)
  }

  /** `normalizeInvocationError`: a deadline error is replaced, and its chain is lost. */
  function Normalize(e: Error): Error {
    if DeadlineExceeded in e.chain then Error("agent timeout: " + e.text, None, {AgentTimeout}) else e
  }

  /** What `safeCall` and `normalizeInvocationError` make of a call: the output and the error. */
  function Normalized(o: CallOutcome): (AgentOutput, Option<Error>) {
    match o
    case Returned(out) => (out, None)
    case Errored(out, e) => (out, Some(Normalize(e)))
    case Panicked(reason) =>
      (ZERO_OUTPUT, Some(Normalize(NonRetryable(Error("agent panicked: " + reason, None, {AgentPanic})))))
  }

  /** `shouldRetry` */
  function ShouldRetry(e: Error, policy: RetryPolicy): bool {
    if e.agentError.Some? then e.agentError.value
    else if Canceled in e.chain then false
    else policy.retryableErrs == [] || exists t :: t in policy.retryableErrs && t in e.chain
  }

  /** `dependencyError`: the first dependency without a successful result decides. */
  function DependencyError(deps: seq<string>, nodes: map<string, PlanNode>, results: map<string, AgentResult>)
    : Option<Error>
  {
    if deps == [] then None
    else
      var d := deps[0];
      if d !in results then Some(Plain("dependency result missing: " + d))
      else if results[d].err.Some? then Some(Plain("dependency failed: " + d + ": " + results[d].err.value.text))
      else if d !in nodes then Some(Plain("dependency missing in graph: " + d))
      else DependencyError(deps[1..], nodes, results)
  }

  ghost predicate DepsSucceeded(deps: seq<string>, results: map<string, AgentResult>) {
    forall d :: d in deps ==> d in results && results[d].err.None?
  }

  /** Dependency `j` is the first that failed. */
  ghost predicate FirstFailed(deps: seq<string>, results: map<string, AgentResult>, j: int) {
    && 0 <= j < |deps| && deps[j] in results && results[deps[j]].err.Some?
    && forall i :: 0 <= i < j ==> deps[i] in results && results[deps[i]].err.None?
  }

  ghost function Quoting(dep: string, r: AgentResult): Error
    requires r.err.Some?
  {
    Error("dependency failed: " + dep + ": " + r.err.value.text, None, {})
  }

  /** The error quotes the first dependency that failed. */
  ghost predicate QuotesFirst(deps: seq<string>, results: map<string, AgentResult>, e: Error) {
    exists j :: FirstFailed(deps, results, j) && e == Quoting(deps[j], results[deps[j]])
  }

  lemma {:induction false} DependencyErrorMeans(
    deps: seq<string>, nodes: map<string, PlanNode>, results: map<string, AgentResult>)
    requires forall d :: d in deps ==> d in results && d in nodes
    ensures DependencyError(deps, nodes, results).None? <==> DepsSucceeded(deps, results)
    ensures DependencyError(deps, nodes, results).Some? ==>
              QuotesFirst(deps, results, DependencyError(deps, nodes, results).value)
  {
    if deps != [] {
      assert deps[0] in deps;
      assert forall d :: d in deps[1..] ==> d in deps;
      assert forall d :: d in deps ==> d == deps[0] || d in deps[1..];
      DependencyErrorMeans(deps[1..], nodes, results);
      if results[deps[0]].err.Some? {
        assert FirstFailed(deps, results, 0);
      } else if DependencyError(deps, nodes, results).Some? {
        LaterFailure(deps, results, DependencyError(deps, nodes, results).value);
      }
    }
  }

  lemma LaterFailure(deps: seq<string>, results: map<string, AgentResult>, e: Error)
    requires deps != [] && deps[0] in results && results[deps[0]].err.None? && QuotesFirst(deps[1..], results, e)
    ensures QuotesFirst(deps, results, e)
  {
    var j :| FirstFailed(deps[1..], results, j) && e == Quoting(deps[1..][j], results[deps[1..][j]]);
    assert forall i :: 0 < i <= j ==> deps[i] == deps[1..][i - 1];
    assert deps[j + 1] == deps[1..][j] && FirstFailed(deps, results, j + 1);
  }

  // ---------------------------------------------------------------------
  // The surroundings of a run
  // ---------------------------------------------------------------------

  /** What the outside world answers, per invocation and attempt: how a call with a given time limit
      ends, the clock readings, how long the call took, and whether the wait for a retry is cancelled. */
  datatype Oracle = Oracle(
    call: (string, nat, int) -> CallOutcome,
    askedAt: (string, nat) -> int,
    failedAt: (string, nat) -> int,
    elapsed: (string, nat) -> int,
    cancelled: (string, nat) -> Option<Error>)

  datatype Env = Env(
    nodes: map<string, PlanNode>, levels: seq<seq<string>>, registry: set<string>, cfg: RouterConfig, oracle: Oracle)

  /** The plan was accepted by the planner. */
  ghost predicate Accepted(env: Env) {
    && (forall id :: id in env.nodes ==> env.nodes[id].invocation.id == id)
    && DepsClosed(Planner.DepsOf(env.nodes))
    && Levelled(Planner.DepsOf(env.nodes), env.levels)
    && Members(env.levels) == env.nodes.Keys
  }

  lemma PlannedIsAccepted(g: Planner.PlanGraph, env: Env)
    requires Planner.WellFormed(g.nodes) && g.nodesById == Planner.NodesById(g.nodes)
    requires Planner.CompleteLevels(g.nodes, g.levels)
    requires env.nodes == g.nodesById && env.levels == g.levels
    ensures Accepted(env)
  {
    Planner.WellFormedClosed(g.nodes);
    Planner.NodesByIdOf(g.nodes);
  }

  function AgentAt(env: Env, id: string): string
    requires id in env.nodes
  {
    env.nodes[id].invocation.agentId
  }

  function RetryAt(env: Env, id: string): RetryPolicy
    requires id in env.nodes
  {
    var p := env.nodes[id].retry;
    var q := if p.maxAttempts <= 0 then env.cfg.retry else p;
    q.(maxAttempts := if q.maxAttempts <= 0 then 1 else q.maxAttempts,
       backoff := if q.backoff.Unset? then Linear else q.backoff)
  }

  function MaxAttempts(env: Env, id: string): (n: nat)
    requires id in env.nodes
    ensures n >= 1
  {
    RetryAt(env, id).maxAttempts
  }

  function PolicyAt(env: Env, id: string): BreakerPolicy
    requires id in env.nodes
  {
    var p := env.nodes[id].breaker;
    var q := if p.threshold <= 0 then env.cfg.breaker else p;
    q.(resetTimeout := if q.resetTimeout <= 0 then 60 * SECOND else q.resetTimeout,
       probeTimeout := if q.probeTimeout <= 0 then 5 * SECOND else q.probeTimeout)
  }

  function TimeoutAt(env: Env, id: string, probe: bool): int
    requires id in env.nodes
  {
    var p := PolicyAt(env, id);
    if probe && p.probeTimeout > 0 && p.probeTimeout < env.cfg.defaultTimeout then p.probeTimeout
    else env.cfg.defaultTimeout
  }

  function ResultAt(env: Env, id: string, out: AgentOutput, err: Option<Error>): AgentResult
    requires id in env.nodes
  {
    AgentResult(env.nodes[id].invocation, out, err)
  }

  function StepAt(env: Env, id: string, out: AgentOutput, error: string, duration: int, attempt: int): Step
    requires id in env.nodes
  {
    var inv := env.nodes[id].invocation;
    Step(inv.id, inv.agentId, inv.input.requestId, inv.input, out, error, duration, attempt)
  }

  // ---------------------------------------------------------------------
  // One node
  // ---------------------------------------------------------------------

  datatype Todo = Count(o: Observation) | Log(s: Step)

  datatype Next = Again(attempt: nat) | Finish(r: AgentResult)

  /** Where the goroutine of a node is. */
  datatype Pc =
    | Idle                                               // not dispatched
    | Skipping(r: AgentResult)                           // a dependency failed; logged, result not sent
    | Spawned                                            // waits for a slot of the semaphore
    | Looking                                            // looks the agent up
    | Asking(attempt: nat)                               // asks the breaker
    | Calling(attempt: nat, probe: bool)                 // the agent runs
    | Settling(attempt: nat, probe: bool, o: CallOutcome) // records the outcome in the breaker
    | Emitting(todo: seq<Todo>, next: Next)              // metrics and trace
    | Waiting(attempt: nat)                              // backs off before the next attempt
    | Sending(r: AgentResult)                            // sends the result
    | Sent(r: AgentResult)                               // gives the slot back
    | Freed(r: AgentResult)                              // leaves the wait group
    | Done(r: AgentResult)

  /** Between getting a slot and sending the result. */
  predicate Busy(pc: Pc) {
    pc.Looking? || pc.Asking? || pc.Calling? || pc.Settling? || pc.Emitting? || pc.Waiting?
  }

  predicate Holding(pc: Pc) { Busy(pc) || pc.Sending? || pc.Sent? }
  predicate Running(pc: Pc) { pc.Spawned? || Holding(pc) || pc.Freed? }
  predicate Delivered(pc: Pc) { pc.Sent? || pc.Freed? || pc.Done? }
  predicate HasResult(pc: Pc) { pc.Skipping? || pc.Sending? || Delivered(pc) }

  datatype Effect = Effect(
    pc: Pc, entry: Option<Circuit>, events: seq<Event>, obs: seq<Observation>, steps: seq<Step>)

  function Silent(pc: Pc, entry: Option<Circuit>): Effect { Effect(pc, entry, [], [], []) }

  function Unregistered(env: Env, id: string): Pc
    requires id in env.nodes
  {
    var agent := AgentAt(env, id);
    var err := Plain("agent not registered: " + agent);
    Emitting(
      [Count(Metrics.Invocation(agent, Failure, 0)), Log(StepAt(env, id, ZERO_OUTPUT, err.text, 0, 1))],
      Finish(ResultAt(env, id, ZERO_OUTPUT, Some(err))))
  }

  function OpenError(env: Env, id: string): Error
    requires id in env.nodes
  {
    NonRetryable(Error("circuit breaker open: " + AgentAt(env, id), None, {Sentinel.CircuitOpen}))
  }

  function Refused(env: Env, id: string, attempt: nat): Pc
    requires id in env.nodes
  {
    var agent, err := AgentAt(env, id), OpenError(env, id);
    Emitting(
      [Count(Metrics.Invocation(agent, Status.CircuitOpen, 0)), Count(Opened(agent)),
       Log(StepAt(env, id, ZERO_OUTPUT, err.text, 0, attempt))],
      Finish(ResultAt(env, id, ZERO_OUTPUT, Some(err))))
  }

  function Completed(env: Env, id: string, attempt: nat, out: AgentOutput): Pc
    requires id in env.nodes
  {
    var took := env.oracle.elapsed(id, attempt);
    var timed := if out.duration == 0 then out.(duration := took) else out;
    Emitting(
      [Count(Metrics.Invocation(AgentAt(env, id), Success, timed.duration)),
          Log(StepAt(env, id, timed, "", took, attempt))],
      Finish(ResultAt(env, id, timed, None)))
  }

  /** A failed attempt is followed by another one. */
  predicate TriesAgain(env: Env, id: string, attempt: nat, err: Error)
    requires id in env.nodes
  {
    attempt != MaxAttempts(env, id) && ShouldRetry(err, RetryAt(env, id))
  }

  function FailedAttempt(env: Env, id: string, attempt: nat, out: AgentOutput, err: Error): Pc
    requires id in env.nodes
  {
    var agent, took := AgentAt(env, id), env.oracle.elapsed(id, attempt);
    var todo := [Count(Metrics.Invocation(agent, Failure, took)), Log(StepAt(env, id, out, err.text, took, attempt))];
    if TriesAgain(env, id, attempt, err) then Emitting(todo + [Count(Retry(agent))], Again(attempt))
    else Emitting(todo, Finish(ResultAt(env, id, ZERO_OUTPUT, Some(err))))
  }

  function Continue(next: Next): Pc {
    match next
    case Again(attempt) => Waiting(attempt)
    case Finish(r) => Sending(r)
  }

  /** The next atomic step of `executeNode`, given the breaker entry of the node's agent. */
  function Local(env: Env, id: string, pc: Pc, entry: Option<Circuit>): Effect
    requires id in env.nodes && Busy(pc)
  {
    var agent, policy := AgentAt(env, id), PolicyAt(env, id);
    match pc
    case Looking =>
      Silent(if agent in env.registry then Asking(1) else Unregistered(env, id), entry)
    case Asking(a) =>
      var now := env.oracle.askedAt(id, a);
      var v := Ask(entry, policy, now);
      Effect(
        if v.admitted then Calling(a, v.probe) else Refused(env, id, a),
        v.entry, [Asked(id, agent, policy, now, v.admitted, v.probe)], [], [])
    case Calling(a, probe) =>
      Silent(Settling(a, probe, env.oracle.call(id, a, TimeoutAt(env, id, probe))), entry)
    case Settling(a, probe, o) =>
      var (out, err) := Normalized(o);
      if err.None? then
        Effect(Completed(env, id, a, out), Succeed(entry), [Succeeded(id, agent)], [], [])
      else
        var now := env.oracle.failedAt(id, a);
        Effect(FailedAttempt(env, id, a, out, err.value), Fail(entry, policy, now), [Failed(id, agent, policy, now)],
            [], [])
    case Emitting(todo, next) =>
      if todo == [] then Silent(Continue(next), entry)
      else if todo[0].Count? then Effect(Emitting(todo[1..], next), entry, [], [todo[0].o], [])
      else Effect(Emitting(todo[1..], next), entry, [], [], [todo[0].s])
    case Waiting(a) =>
      var stop := env.oracle.cancelled(id, a);
      Silent(if stop.Some? then Sending(ResultAt(env, id, ZERO_OUTPUT, stop)) else Asking(a + 1), entry)
  }

  // ---------------------------------------------------------------------
  // The whole engine
  // ---------------------------------------------------------------------

  datatype State = State(
    level: nat, next: nat,                 // the dispatcher is at node `next` of level `level`
    pcs: map<string, Pc>,
    slots: int,                            // slots of the semaphore in use
    waiting: int,                          // the wait group
    channel: seq<AgentResult>,
    results: map<string, AgentResult>,     // resultsByID
    breaker: map<string, Circuit>,
    events: seq<Event>,                    // history: the calls of the breaker
    obs: seq<Observation>,                 // history: the calls of the metrics recorder
    log: seq<Step>)                        // the steps added to the trace recorder

  ghost predicate Typed(env: Env, s: State) {
    && s.pcs.Keys == env.nodes.Keys
    && s.level <= |env.levels|
    && (s.level < |env.levels| ==> s.next <= |env.levels[s.level]|)
    && (forall k, i :: 0 <= k < |env.levels| && 0 <= i < |env.levels[k]| ==> env.levels[k][i] in env.nodes)
  }

  function SkipStep(env: Env, id: string, err: Error): Step
    requires id in env.nodes
  {
    StepAt(env, id, ZERO_OUTPUT, err.text, 0, 0)
  }

  /** Files the results of a level under their IDs. */
  function Gather(results: map<string, AgentResult>, channel: seq<AgentResult>): map<string, AgentResult> {
    if channel == [] then results
    else
      var last := channel[|channel| - 1];
      Gather(results, channel[..|channel| - 1])[last.invocation.id := last]
  }

  /** What the dispatcher can do. */
  ghost function NextMain(env: Env, s: State): Option<State>
    requires Typed(env, s)
  {
    if s.level == |env.levels| then None
    else
      var level := env.levels[s.level];
      if s.next == |level| then
        if s.waiting == 0 then
          Some(s.(results := Gather(s.results, s.channel), channel := [], level := s.level + 1, next := 0))
        else None
      else
        var id := level[s.next];
        match s.pcs[id]
        case Idle =>
          (match DependencyError(env.nodes[id].dependsOn, env.nodes, s.results)
           case Some(e) =>
             Some(s.(pcs := s.pcs[id := Skipping(ResultAt(env, id, ZERO_OUTPUT, Some(e)))],
                     log := s.log + [SkipStep(env, id, e)]))
           case None =>
             Some(s.(pcs := s.pcs[id := Spawned], waiting := s.waiting + 1, next := s.next + 1)))
        case Skipping(r) =>
          if |s.channel| < |level| then
            Some(s.(pcs := s.pcs[id := Done(r)], channel := s.channel + [r], next := s.next + 1))
          else None
        case _ => None
  }

  ghost function ApplyEffect(env: Env, s: State, id: string, e: Effect): State
    requires id in env.nodes
  {
    s.(pcs := s.pcs[id := e.pc], breaker := Put(s.breaker, AgentAt(env, id), e.entry),
       events := s.events + e.events, obs := s.obs + e.obs, log := s.log + e.steps)
  }

  /** What the goroutine of node `id` can do with `pool` worker slots. */
  ghost function NextNode(env: Env, pool: int, id: string, s: State): Option<State>
    requires Typed(env, s) && id in env.nodes
  {
    var pc := s.pcs[id];
    match pc
    case Idle => None
    case Skipping(_) => None
    case Done(_) => None
    case Spawned =>
      if s.slots < pool then Some(s.(pcs := s.pcs[id := Looking], slots := s.slots + 1)) else None
    case Sending(r) =>
      if s.level < |env.levels| && |s.channel| < |env.levels[s.level]| then
        Some(s.(pcs := s.pcs[id := Sent(r)], channel := s.channel + [r]))
      else None
    case Sent(r) => Some(s.(pcs := s.pcs[id := Freed(r)], slots := s.slots - 1))
    case Freed(r) => Some(s.(pcs := s.pcs[id := Done(r)], waiting := s.waiting - 1))
    case _ => Some(ApplyEffect(env, s, id, Local(env, id, pc, Entry(s.breaker, AgentAt(env, id)))))
  }

  ghost predicate Moves(env: Env, pool: int, s: State, s': State) {
    && Typed(env, s)
    && (NextMain(env, s) == Some(s') || exists id :: id in env.nodes && NextNode(env, pool, id, s) == Some(s'))
  }

  /** The start of `RunPlan` on an engine whose breaker and metrics may have been used before. */
  ghost predicate Initial(env: Env, s: State) {
    && Typed(env, s)
    && s.level == 0 && s.next == 0
    && (forall id :: id in s.pcs ==> s.pcs[id] == Idle)
    && s.slots == 0 && s.waiting == 0 && s.channel == [] && s.results == map[]
    && s.log == []
  }

  ghost predicate Final(env: Env, s: State) {
    s.level == |env.levels|
  }

  ghost predicate MovesAt(env: Env, pool: int, run: seq<State>, i: int)
    requires 0 < i < |run|
  {
    Moves(env, pool, run[i - 1], run[i])
  }

  /** A run: any interleaving, stopped anywhere. */
  ghost predicate Run(env: Env, pool: int, run: seq<State>) {
    && run != [] && Initial(env, run[0])
    && forall i {:trigger MovesAt(env, pool, run, i)} :: 0 < i < |run| ==> MovesAt(env, pool, run, i)
  }
}
