/** Two probes of one agent in flight at once, in a run of the engine. */
module EngineProbes {
  import opened Basics
  import opened Types
  import opened Breaker
  import opened BreakerHistory
  import opened Engine
  import opened EngineBreaker
  import opened EngineReach

  /** Every call fails. `a` fails at 1 and the others at 12; `c` asks at 11, `d` at 22 and the others at 0. */
  function QuartetOracle(a: string, c: string, d: string): Oracle {
    Oracle(
      (id: string, n: nat, t: int) => Errored(ZERO_OUTPUT, Plain("failed")),
      (id: string, n: nat) => if id == c then 11 else if id == d then 22 else 0,
      (id: string, n: nat) => if id == a then 1 else 12,
      (id: string, n: nat) => 0,
      (id: string, n: nat) => None)
  }

  ghost predicate Member(env: Env, id: string, agent: string, p: BreakerPolicy) {
    env.levels != [] && id in env.levels[0] && id in env.nodes && AgentAt(env, id) == agent && PolicyAt(env, id) == p
  }

  /** Four nodes of the first level share a registered agent with threshold 1 and reset time 10. */
  ghost predicate Quartet(env: Env, a: string, b: string, c: string, d: string, agent: string, p: BreakerPolicy) {
    && Member(env, a, agent, p) && Member(env, b, agent, p) && Member(env, c, agent, p) && Member(env, d, agent, p)
    && a != b && a != c && a != d && b != c && b != d && c != d && agent in env.registry
    && p.threshold == 1 && p.resetTimeout == 10 && env.oracle == QuartetOracle(a, c, d)
  }

  /** `a` and `b` were called, and `a` has failed. */
  lemma FirstFails(env: Env, a: string, b: string, c: string, d: string, agent: string, p: BreakerPolicy,
    o: CallOutcome)
    returns (run: seq<State>)
    requires Accepted(env) && Quartet(env, a, b, c, d, agent, p) && o == Errored(ZERO_OUTPUT, Plain("failed"))
    ensures Run(env, 4, run) && run[0] == FreshStart(env)
    ensures Scene(env, run[|run| - 1], agent, Some(Circuit(0, Some(11), false)),
              LateFailure(p, agent, a, b, c, d)[..3], 2)
    ensures var s := run[|run| - 1]; s.pcs[b] == Settling(1, false, o) && s.pcs[c].Spawned? && s.pcs[d].Spawned?
  {
    assert Pair(env, a, b, agent, p, o);
    run := PairCalled(env, 4, a, b, agent, p, o);
    var e := FailureMovesDeadline(env, a, None, o);
    run := LocalStep(env, 4, run, a, e);
  }

  /** `c` is admitted as a probe. */
  lemma FirstProbe(env: Env, a: string, b: string, c: string, d: string, agent: string, p: BreakerPolicy,
    o: CallOutcome)
    returns (run: seq<State>)
    requires Accepted(env) && Quartet(env, a, b, c, d, agent, p) && o == Errored(ZERO_OUTPUT, Plain("failed"))
    ensures Run(env, 4, run) && run[0] == FreshStart(env)
    ensures Scene(env, run[|run| - 1], agent, Some(Circuit(0, None, true)), LateFailure(p, agent, a, b, c, d)[..4], 3)
    ensures var s := run[|run| - 1];
            s.pcs[b] == Settling(1, false, o) && s.pcs[c] == Calling(1, true) && s.pcs[d].Spawned?
  {
    run := FirstFails(env, a, b, c, d, agent, p, o);
    run := ReachAsking(env, 4, run, c, Some(Circuit(0, Some(11), false)));
    var e := ProbeGranted(env, c, 11);
    run := LocalStep(env, 4, run, c, e);
  }

  /** The failure of `b` ends the half-open state while the probe is still running. */
  lemma LateFailureRecorded(env: Env, a: string, b: string, c: string, d: string, agent: string, p: BreakerPolicy)
    returns (run: seq<State>)
    requires Accepted(env) && Quartet(env, a, b, c, d, agent, p)
    ensures Run(env, 4, run) && run[0] == FreshStart(env)
    ensures Scene(env, run[|run| - 1], agent, Some(Circuit(0, Some(22), false)),
              LateFailure(p, agent, a, b, c, d)[..5], 3)
    ensures var s := run[|run| - 1]; s.pcs[c] == Calling(1, true) && s.pcs[d].Spawned?
  {
    var o := Errored(ZERO_OUTPUT, Plain("failed"));
    run := FirstProbe(env, a, b, c, d, agent, p, o);
    var e := FailureMovesDeadline(env, b, Some(Circuit(0, None, true)), o);
    run := LocalStep(env, 4, run, b, e);
  }

  /** A run of four workers on a fresh engine, with readings in order, in which the probe `d` is admitted
      while the probe `c` is in flight: the failure of `b`, admitted before the opening, came in between. */
  lemma ProbesOverlapInRun(env: Env, a: string, b: string, c: string, d: string, agent: string, p: BreakerPolicy)
    returns (run: seq<State>)
    requires Accepted(env) && Quartet(env, a, b, c, d, agent, p)
    ensures Run(env, 4, run) && FreshBreaker(run[0])
    ensures var s := run[|run| - 1];
            && c in s.pcs && d in s.pcs && s.pcs[c] == Calling(1, true) && s.pcs[d] == Calling(1, true)
            && s.events == LateFailure(p, agent, a, b, c, d)
  {
    run := LateFailureRecorded(env, a, b, c, d, agent, p);
    run := ReachAsking(env, 4, run, d, Some(Circuit(0, Some(22), false)));
    var e := ProbeGranted(env, d, 22);
    run := LocalStep(env, 4, run, d, e);
  }
}
