/** The retry decision as the documentation charts it, and exactly when the code decides likewise. */
module RetryChart {
  import opened Basics
  import opened Types
  import opened Engine
  import opened EngineTrace
  import opened EnginePropagation

  ghost predicate Listed(chain: set<Sentinel>, policy: RetryPolicy) {
    exists t :: t in policy.retryableErrs && t in chain
  }

  /** The chart, on the error that the agent returned: stop if it is marked not retryable; else retry if
      there is no list or the error matches it. */
  ghost predicate ChartRetries(e: Error, policy: RetryPolicy) {
    e.agentError != Some(false) && (policy.retryableErrs == [] || Listed(e.chain, policy))
  }

  /** What the engine decides about it. */
  ghost predicate CodeRetries(e: Error, policy: RetryPolicy) {
    ShouldRetry(Normalize(e), policy)
  }

  /** An error that is marked retryable is retried although the list does not name it. */
  lemma MarkSkipsList(text: string, t: Sentinel)
    ensures var e, p := Error(text, Some(true), {}), RetryPolicy(3, Linear, [t]);
            CodeRetries(e, p) && !ChartRetries(e, p)
  {}

  /** A cancellation is not retried although there is no list. */
  lemma CancellationStops(text: string)
    ensures var e, p := Error(text, None, {Canceled}), RetryPolicy(3, Linear, []);
            !CodeRetries(e, p) && ChartRetries(e, p)
  {}

  /** A deadline error is retried although it is marked not retryable: the mark is lost. */
  lemma DeadlineLosesMark(text: string)
    ensures var e, p := Error(text, Some(false), {DeadlineExceeded}), RetryPolicy(3, Linear, []);
            CodeRetries(e, p) && !ChartRetries(e, p)
  {}

  /** A deadline error is not retried although the list names it: its chain is lost. */
  lemma DeadlineLosesChain(text: string)
    ensures var e, p := Error(text, None, {DeadlineExceeded}), RetryPolicy(3, Linear, [DeadlineExceeded]);
            !CodeRetries(e, p) && ChartRetries(e, p)
  {
    assert DeadlineExceeded in [DeadlineExceeded];
  }

  /** Where the code follows the chart.
      A deadline error is retried exactly when there is no list or the list names the timeout error: right
      for an error marked not retryable only if there is a list without the timeout error, and for any
      other if there is no list, or the list names the timeout error exactly when it matches the error.
      Without a deadline, an error marked retryable needs no list or a match, and an unmarked one must not
      be a cancellation that the chart would retry. */
  ghost predicate FollowsChart(e: Error, policy: RetryPolicy) {
    var list := policy.retryableErrs;
    if DeadlineExceeded in e.chain then
      if e.agentError == Some(false) then list != [] && AgentTimeout !in list
      else list == [] || (AgentTimeout in list <==> Listed(e.chain, policy))
    else
      match e.agentError
      case Some(true) => list == [] || Listed(e.chain, policy)
      case Some(false) => true
      case None => Canceled !in e.chain || (list != [] && !Listed(e.chain, policy))
  }

  /** A deadline error is retried exactly when there is no list or the list names the timeout error. */
  lemma DeadlineRetriedIff(e: Error, policy: RetryPolicy)
    requires DeadlineExceeded in e.chain
    ensures CodeRetries(e, policy) <==> policy.retryableErrs == [] || AgentTimeout in policy.retryableErrs
  {
    assert Normalize(e).chain == {AgentTimeout};
  }

  /** The code decides as the chart does exactly there. */
  lemma AsChartedIff(e: Error, policy: RetryPolicy)
    ensures (CodeRetries(e, policy) <==> ChartRetries(e, policy)) <==> FollowsChart(e, policy)
  {
    if DeadlineExceeded in e.chain { DeadlineRetriedIff(e, policy); }
  }

  // ---------------------------------------------------------------------
  // Whole runs
  // ---------------------------------------------------------------------

  /** The error with which a call ended, before it is normalized. */
  function ReturnedError(o: CallOutcome): Option<Error> {
    match o
    case Returned(_) => None
    case Errored(_, e) => Some(e)
    case Panicked(reason) => Some(NonRetryable(Error("agent panicked: " + reason, None, {AgentPanic})))
  }

  function ErrorAt(env: Env, id: string, a: nat, probe: bool): Option<Error>
    requires id in env.nodes
  {
    ReturnedError(env.oracle.call(id, a, TimeoutAt(env, id, probe)))
  }

  /** Whatever error the agent of the node returns, the code follows the chart. */
  ghost predicate AlwaysFollows(env: Env, id: string)
    requires id in env.nodes
  {
    forall a, probe :: ErrorAt(env, id, a, probe).Some? ==>
      FollowsChart(ErrorAt(env, id, a, probe).value, RetryAt(env, id))
  }

  /** Attempt `a` failed with an error that the chart retries. */
  ghost predicate ChartedRetry(env: Env, id: string, a: nat, probe: bool)
    requires id in env.nodes
  {
    var e := ErrorAt(env, id, a, probe);
    e.Some? && ChartRetries(e.value, RetryAt(env, id))
  }

  ghost predicate ChartedAttempt(env: Env, id: string, a: nat)
    requires id in env.nodes
  {
    exists probe :: ChartedRetry(env, id, a, probe)
  }

  /** A failed attempt is followed by another exactly when the limit is not reached and the chart says so. */
  lemma TriesAgainAsCharted(env: Env, id: string, a: nat, probe: bool)
    requires id in env.nodes && AlwaysFollows(env, id) && CallAt(env, id, a, probe).1.Some?
    ensures TriesAgain(env, id, a, CallAt(env, id, a, probe).1.value) <==>
              a != MaxAttempts(env, id) && ChartedRetry(env, id, a, probe)
  {
    var e := ErrorAt(env, id, a, probe);
    assert CallAt(env, id, a, probe).1.value == Normalize(e.value);
    AsChartedIff(e.value, RetryAt(env, id));
  }

  /** In every run, for a node whose errors all follow the chart: every attempt before the last one failed
      with an error that the chart retries, and if the node gave up before its limit, the chart stops. */
  lemma RunsFollowChart(env: Env, pool: int, run: seq<State>, i: int, id: string)
    requires Accepted(env) && Run(env, pool, run) && 0 <= i < |run| && id in env.nodes && AlwaysFollows(env, id)
    requires id in run[i].pcs && run[i].pcs[id].Done? && !WasSkipped(run[i], id)
    ensures var steps, r := LogOf(run[i], id), run[i].pcs[id].r;
            && steps != []
            && (forall a :: 1 <= a < |steps| ==> ChartedAttempt(env, id, a))
            && (forall probe ::
                  |steps| < MaxAttempts(env, id) && EndsBy(env, id, |steps|, steps[|steps| - 1], r, GivesUp(probe)) ==>
                    !ChartedRetry(env, id, |steps|, probe))
  {
    FinishedSteps(env, pool, run, i, id);
    var steps, r := LogOf(run[i], id), run[i].pcs[id].r;
    forall a | 1 <= a < |steps| ensures ChartedAttempt(env, id, a) {
      RetriedAsCharted(env, id, a, steps[a - 1], steps);
    }
    forall probe |
        |steps| < MaxAttempts(env, id) && EndsBy(env, id, |steps|, steps[|steps| - 1], r, GivesUp(probe))
      ensures !ChartedRetry(env, id, |steps|, probe)
    {
      TriesAgainAsCharted(env, id, |steps|, probe);
    }
  }

  lemma RetriedAsCharted(env: Env, id: string, a: nat, step: Step, steps: seq<Step>)
    requires id in env.nodes && AlwaysFollows(env, id) && 1 <= a < |steps| && step == steps[a - 1]
    requires forall b :: 0 <= b < |steps| - 1 ==> Retried(env, id, b + 1, steps[b])
    ensures ChartedAttempt(env, id, a)
  {
    assert Retried(env, id, (a - 1) + 1, steps[a - 1]);
    var probe: bool :|
      FailedCall(env, id, a, probe, step) && TriesAgain(env, id, a, CallAt(env, id, a, probe).1.value);
    TriesAgainAsCharted(env, id, a, probe);
  }
}
