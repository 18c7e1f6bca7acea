/** The values that plans, agents and traces are made of. */
module Types {
  import opened Basics

  type Bytes = seq<bv8>

  datatype AgentInput = AgentInput(
    taskId: string, requestId: string, payload: Bytes, metadata: map<string, string>, timestamp: int)

  datatype AgentOutput = AgentOutput(
    requestId: string, payload: Bytes, metadata: map<string, string>, duration: int)

  const ZERO_OUTPUT := AgentOutput("", [], map[], 0)

  datatype BackoffStrategy = Unset | Linear | Exponential | ExponentialJitter

  /** What `errors.Is` can be asked about. */
  datatype Sentinel = DeadlineExceeded | Canceled | AgentTimeout | CircuitOpen | AgentPanic | Other(name: string)

  /** An error value: its text, the flag of the `AgentError` in its chain if there is one,
      and the sentinels in its chain. */
  datatype Error = Error(text: string, agentError: Option<bool>, chain: set<Sentinel>)

  datatype RetryPolicy = RetryPolicy(maxAttempts: int, backoff: BackoffStrategy, retryableErrs: seq<Sentinel>)

  datatype BreakerPolicy = BreakerPolicy(threshold: int, resetTimeout: int, probeTimeout: int)

  /** The engine configuration, except for the size of the worker pool. */
  datatype RouterConfig = RouterConfig(defaultTimeout: int, retry: RetryPolicy, breaker: BreakerPolicy)

  datatype Invocation = Invocation(id: string, agentId: string, input: AgentInput)

  datatype PlanNode = PlanNode(
    invocation: Invocation, dependsOn: seq<string>, retry: RetryPolicy, breaker: BreakerPolicy)

  datatype ExecutionPlan = ExecutionPlan(taskId: string, nodes: seq<PlanNode>)

  datatype AgentResult = AgentResult(invocation: Invocation, output: AgentOutput, err: Option<Error>)

  datatype Step = Step(
    invocationId: string, agentId: string, requestId: string, input: AgentInput,
    output: AgentOutput, error: string, duration: int, attempt: int)

  /** How one call of an agent function ends. */
  datatype CallOutcome =
    | Returned(out: AgentOutput)
    | Errored(partial: AgentOutput, err: Error)
    | Panicked(reason: string)

  const SECOND := 1_000_000_000
}
