/** Plans built from manifests: the engine runs them deterministically. */
module EngineManifest {
  import opened Basics
  import opened Types
  import opened Graph
  import opened Engine
  import opened EngineSchedule
  import EngineReplay
  import Metrics
  import Planner

  lemma OwnAgentsPerLevel(graph: Planner.PlanGraph, env: Env)
    requires Planner.OwnAgents(graph) && env.nodes == graph.nodesById && env.levels == graph.levels
    ensures Accepted(env) && DistinctAgentsPerLevel(env)
  {
    PlannedIsAccepted(graph, env);
    forall k | 0 <= k < |env.levels|
      ensures (forall x :: x in env.levels[k] ==> x in env.nodes) && DistinctAgents(env, env.levels[k])
    {
      forall x | x in env.levels[k] ensures x in env.nodes { MembersOf(env.levels, x); }
      assert LevelAt(Planner.DepsOf(env.nodes), env.levels, k);
      StrictlyOrderedDistinct(env.levels[k]);
      forall i, j | 0 <= i < j < |env.levels[k]|
        ensures AgentAt(env, env.levels[k][i]) != AgentAt(env, env.levels[k][j])
      {
        assert env.levels[k][i] in env.levels[k] && env.levels[k][j] in env.levels[k];
        AgentsDiffer(graph, env.levels[k][i], env.levels[k][j]);
      }
    }
  }

  lemma AgentsDiffer(graph: Planner.PlanGraph, x: string, y: string)
    requires Planner.OwnAgents(graph) && x in graph.nodesById && y in graph.nodesById && x != y
    ensures graph.nodesById[x].invocation.agentId != graph.nodesById[y].invocation.agentId
  {
    Planner.NodesByIdOf(graph.nodes);
    var i :| 0 <= i < |graph.nodes| && Planner.Id(graph.nodes[i]) == x;
    var j :| 0 <= j < |graph.nodes| && Planner.Id(graph.nodes[j]) == y;
    assert if i < j then graph.nodes[i].invocation.agentId != graph.nodes[j].invocation.agentId
           else graph.nodes[j].invocation.agentId != graph.nodes[i].invocation.agentId;
  }

  /** For such a plan any two complete runs from the same start agree on results, circuits, metrics and
      finalized trace steps, whatever the interleavings and the numbers of workers. */
  lemma ManifestRunsAgree(
    graph: Planner.PlanGraph, env: Env, pool: int, pool': int, run: seq<State>, run': seq<State>,
    steps: seq<Step>, steps': seq<Step>)
    requires Planner.OwnAgents(graph) && env.nodes == graph.nodesById && env.levels == graph.levels
    requires Run(env, pool, run) && Final(env, run[|run| - 1]) && EngineReplay.FinalizedFrom(steps, run[|run| - 1].log)
    requires Run(env, pool', run') && Final(env, run'[|run'| - 1]) &&
               EngineReplay.FinalizedFrom(steps', run'[|run'| - 1].log)
    requires run[0].breaker == run'[0].breaker && run[0].obs == run'[0].obs
    ensures var s, s' := run[|run| - 1], run'[|run'| - 1];
            && s.results == s'.results && s.breaker == s'.breaker && Metrics.Tally(s.obs) == Metrics.Tally(s'.obs)
            && steps == steps'
  {
    OwnAgentsPerLevel(graph, env);
    ScheduleIndependence(env, pool, pool', run, run');
    EngineReplay.TraceIndependence(env, pool, pool', run, run', steps, steps');
  }
}
