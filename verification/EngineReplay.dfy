/** The finalized trace of a run: it does not depend on the schedule, and it can be replayed. */
module EngineReplay {
  import opened Basics
  import opened Types
  import opened Engine
  import opened EngineFlow
  import opened EngineTrace
  import opened EngineSchedule
  import opened Trace

  /** The steps are a finalized form of the log. */
  ghost predicate FinalizedFrom(steps: seq<Step>, log: seq<Step>) {
    Ordered(steps, StepLess) && multiset(steps) == multiset(log)
  }

  /** Whatever the interleaving, the number of workers and the unstable sort, the finalized steps are the same. */
  lemma TraceIndependence(
    env: Env, pool: int, pool': int, run: seq<State>, run': seq<State>, steps: seq<Step>, steps': seq<Step>)
    requires Accepted(env) && DistinctAgentsPerLevel(env)
    requires Run(env, pool, run) && Final(env, run[|run| - 1]) && FinalizedFrom(steps, run[|run| - 1].log)
    requires Run(env, pool', run') && Final(env, run'[|run'| - 1]) && FinalizedFrom(steps', run'[|run'| - 1].log)
    requires run[0].breaker == run'[0].breaker && run[0].obs == run'[0].obs
    ensures steps == steps'
  {
    ScheduleIndependence(env, pool, pool', run, run');
    StepKeysUnique(env, pool, run, |run| - 1);
    FinalizedUnique(run[|run| - 1].log, run'[|run'| - 1].log, steps, steps');
  }

  // ---------------------------------------------------------------------
  // Replay
  // ---------------------------------------------------------------------

  /** Agents are functions of their input: time limits and attempts make no difference. */
  ghost predicate PureAgents(env: Env, agents: map<string, Behaviour>) {
    forall id :: id in env.nodes ==>
      && AgentAt(env, id) in agents
      && forall a, t, t' :: env.oracle.call(id, a, t) == agents[AgentAt(env, id)](env.nodes[id].invocation.input, t')
  }

  /** Success, or an error that was returned as it was and has a text: no panic and no deadline. */
  ghost predicate Replayable(o: CallOutcome) {
    o.Returned? || (o.Errored? && DeadlineExceeded !in o.err.chain && o.err.text != "")
  }

  /** The step records how attempt `k` of the node ended. */
  ghost predicate RecordsCall(env: Env, id: string, k: nat, probe: bool, step: Step)
    requires id in env.nodes
  {
    var (out, err) := CallAt(env, id, k, probe);
    if err.None? then step == StepAt(env, id, Timed(env, id, k, out), "", env.oracle.elapsed(id, k), k)
    else FailedCall(env, id, k, probe, step)
  }

  /** The last step of the node records a call of its agent: the node was not skipped, refused by the
      breaker or without a registered agent. */
  ghost predicate EndsInCall(env: Env, steps: seq<Step>, id: string)
    requires id in env.nodes
  {
    steps != [] && exists probe: bool :: LastRecords(env, id, steps, probe)
  }

  ghost predicate LastRecords(env: Env, id: string, steps: seq<Step>, probe: bool)
    requires id in env.nodes && steps != []
  {
    RecordsCall(env, id, |steps|, probe, steps[|steps| - 1])
  }

  /** However the agent of the node is called, the outcome can be replayed. */
  ghost predicate AlwaysReplayable(env: Env, id: string)
    requires id in env.nodes
  {
    forall a, t :: Replayable(env.oracle.call(id, a, t))
  }

  ghost predicate AllReplayable(env: Env) {
    forall id :: id in env.nodes ==> AlwaysReplayable(env, id)
  }

  /** The last step of every node records a call. */
  ghost predicate AllEndInCall(env: Env, s: State) {
    forall id :: id in env.nodes ==> EndsInCall(env, LogOf(s, id), id)
  }

  /** The texts that the engine and replay give to a panic differ, and so do those given to a deadline. */
  lemma TextsDiffer(reason: string)
    ensures "agent error: " + ("agent panicked: " + reason) != "agent panic: " + reason
    ensures "agent timeout: " + reason != reason
  {
    assert ("agent error: " + ("agent panicked: " + reason))[6] == 'e';
    assert ("agent panic: " + reason)[6] == 'p';
    assert |"agent timeout: " + reason| > |reason|;
  }

  /** A recorded call is reproduced exactly when its outcome is a success or a plain error with a text. */
  lemma CallReplays(env: Env, id: string, k: nat, probe: bool, step: Step, agents: map<string, Behaviour>, timeout: int)
    requires id in env.nodes && PureAgents(env, agents) && RecordsCall(env, id, k, probe, step)
    ensures Reproduces(step, agents, timeout) <==> AlwaysReplayable(env, id)
  {
    var o := env.oracle.call(id, k, TimeoutAt(env, id, probe));
    assert o == agents[AgentAt(env, id)](env.nodes[id].invocation.input, timeout);
    assert forall a, t :: env.oracle.call(id, a, t) == o;
    if o.Panicked? { TextsDiffer(o.reason); }
    if o.Errored? { TextsDiffer(o.err.text); }
  }

  /** The latest step of an invocation is the last one in its log. */
  lemma LatestIsLast(log: seq<Step>, id: string)
    requires Numbered(Pick(log, LogKey, id)) && Pick(log, LogKey, id) != []
    ensures var steps := Pick(log, LogKey, id);
            id in Latest(log) && Latest(log)[id] == steps[|steps| - 1]
  {
    var steps := Pick(log, LogKey, id);
    var last := steps[|steps| - 1];
    LatestMeans(log, id);
    PickMember(log, LogKey, id, last);
    var j :| 0 <= j < |log| && log[j] == last;
    assert HasInvocation(log, id);
    var i :| LatestAt(log, id, i) && log[i] == Latest(log)[id];
    PickMember(log, LogKey, id, log[i]);
    assert last.attempt <= log[i].attempt;
    HighestIsLast(steps, log[i]);
  }

  lemma HighestIsLast(steps: seq<Step>, x: Step)
    requires Numbered(steps) && x in steps && steps[|steps| - 1].attempt <= x.attempt
    ensures x == steps[|steps| - 1]
  {
    var k :| 0 <= k < |steps| && steps[k] == x;
  }

  lemma InvocationsInTrace(env: Env, s: State, id: string)
    requires Typed(env, s) && Traced(env, s) && (forall x :: x in env.nodes ==> LogOf(s, x) != [])
    ensures id in Latest(s.log) <==> id in env.nodes
  {
    LatestMeans(s.log, id);
    if id in env.nodes {
      PickMember(s.log, LogKey, id, LogOf(s, id)[0]);
    }
    if i :| 0 <= i < |s.log| && s.log[i].invocationId == id { assert s.log[i] in s.log; }
  }

  /** Replaying the trace of a complete run whose nodes all end in a call, with agents that are functions
      of their input: every invocation is reproduced, and so replay succeeds, exactly when every agent's
      outcome is a success or a plain error with a text. */
  lemma RunsReplay(env: Env, pool: int, run: seq<State>, steps: seq<Step>, agents: map<string, Behaviour>, timeout: int)
    requires Accepted(env) && Run(env, pool, run) && Final(env, run[|run| - 1])
    requires multiset(steps) == multiset(run[|run| - 1].log) && PureAgents(env, agents)
    requires AllEndInCall(env, run[|run| - 1])
    ensures AllReproduced(steps, agents, timeout) <==> AllReplayable(env)
    ensures env.nodes != map[] ==> steps != []
  {
    EndTraced(env, pool, run, run[|run| - 1]);
    StateReplays(env, run[|run| - 1], steps, agents, timeout);
  }

  lemma EndTraced(env: Env, pool: int, run: seq<State>, s: State)
    requires Accepted(env) && Run(env, pool, run) && s == run[|run| - 1]
    ensures Typed(env, s) && AllSane(env, s) && Traced(env, s) && UniqueKeys(s.log)
  {
    RunsTraced(env, pool, run, |run| - 1);
    StepKeysUnique(env, pool, run, |run| - 1);
  }

  lemma StateReplays(env: Env, s: State, steps: seq<Step>, agents: map<string, Behaviour>, timeout: int)
    requires Typed(env, s) && AllSane(env, s) && Traced(env, s) && UniqueKeys(s.log)
    requires multiset(steps) == multiset(s.log)
    requires PureAgents(env, agents) && AllEndInCall(env, s)
    ensures AllReproduced(steps, agents, timeout) <==> AllReplayable(env)
    ensures env.nodes != map[] ==> steps != []
  {
    LatestPermuted(s.log, steps);
    forall id
      ensures id in Latest(steps) <==> id in env.nodes
      ensures id in env.nodes ==> (Reproduces(Latest(steps)[id], agents, timeout) <==> AlwaysReplayable(env, id))
    {
      InvocationsInTrace(env, s, id);
      if id in env.nodes { NodeReplays(env, s, id, agents, timeout); }
    }
    if env.nodes != map[] {
      var id :| id in env.nodes;
      LatestMeans(steps, id);
    }
  }

  lemma NodeReplays(env: Env, s: State, id: string, agents: map<string, Behaviour>, timeout: int)
    requires Typed(env, s) && AllSane(env, s) && Traced(env, s) && id in env.nodes && EndsInCall(env, LogOf(s, id), id)
    requires PureAgents(env, agents)
    ensures id in Latest(s.log) && (Reproduces(Latest(s.log)[id], agents, timeout) <==> AlwaysReplayable(env, id))
  {
    var log := LogOf(s, id);
    LogNumbered(env, s, id);
    LatestIsLast(s.log, id);
    var probe: bool :| LastRecords(env, id, log, probe);
    CallReplays(env, id, |log|, probe, log[|log| - 1], agents, timeout);
  }
}
