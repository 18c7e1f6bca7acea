/** The in-memory metrics recorder: counters that must agree with the observations made. */
module Metrics {
  import opened Basics

  datatype Status = Success | Failure | CircuitOpen

  /** One call of the recorder interface. */
  datatype Observation =
    | Invocation(agent: string, status: Status, duration: int)
    | Retry(agent: string)
    | Opened(agent: string)

  datatype AgentStats = AgentStats(successes: int, errors: int, retries: int, circuitOpens: int, totalDuration: int)

  const NO_STATS := AgentStats(0, 0, 0, 0, 0)

  datatype Snapshot = Snapshot(
    totalInvocations: int, errorInvocations: int, retryAttempts: int, circuitOpens: int,
    byAgent: map<string, AgentStats>)

  const EMPTY := Snapshot(0, 0, 0, 0, map[])

  function Stats(byAgent: map<string, AgentStats>, agent: string): AgentStats {
    if agent in byAgent then byAgent[agent] else NO_STATS
  }

  function AgentOf(o: Observation): string { o.agent }

  function ObserveAgent(s: AgentStats, o: Observation): AgentStats {
    match o
    case Invocation(_, Success, d) => s.(successes := s.successes + 1, totalDuration := s.totalDuration + d)
    case Invocation(_, _, d) => s.(errors := s.errors + 1, totalDuration := s.totalDuration + d)
    case Retry(_) => s.(retries := s.retries + 1)
    case Opened(_) => s.(circuitOpens := s.circuitOpens + 1)
  }

  function IsInvocation(o: Observation): int { if o.Invocation? then 1 else 0 }
  function IsError(o: Observation): int { if o.Invocation? && o.status != Success then 1 else 0 }
  function IsRetry(o: Observation): int { if o.Retry? then 1 else 0 }
  function IsOpened(o: Observation): int { if o.Opened? then 1 else 0 }

  /** The snapshot after one more observation. */
  function Observe(s: Snapshot, o: Observation): Snapshot {
    Snapshot(
      s.totalInvocations + IsInvocation(o), s.errorInvocations + IsError(o),
      s.retryAttempts + IsRetry(o), s.circuitOpens + IsOpened(o),
      s.byAgent[o.agent := ObserveAgent(Stats(s.byAgent, o.agent), o)])
  }

  ghost function Tally(h: seq<Observation>): Snapshot {
    if h == [] then EMPTY else Observe(Tally(h[..|h| - 1]), h[|h| - 1])
  }

  class InMemoryRecorder {
    var byAgent: map<string, AgentStats>
    var total: int
    var errors: int
    var retries: int
    var opens: int

    function View(): Snapshot
      reads this
    {
      Snapshot(total, errors, retries, opens, byAgent)
    }

    constructor ()
      ensures View() == Tally([])
    {
      byAgent, total, errors, retries, opens := map[], 0, 0, 0, 0;
    }

    method ObserveInvocation(agent: string, status: Status, duration: int)
      modifies this
      ensures View() == Observe(old(View()), Invocation(agent, status, duration))
    {
      var s := Stats(byAgent, agent);
      if status == Success {
        s := s.(successes := s.successes + 1);
      } else {
        s := s.(errors := s.errors + 1);
        errors := errors + 1;
      }
      s := s.(totalDuration := s.totalDuration + duration);
      byAgent := byAgent[agent := s];
      total := total + 1;
    }

    method ObserveRetry(agent: string)
      modifies this
      ensures View() == Observe(old(View()), Retry(agent))
    {
      var s := Stats(byAgent, agent);
      s := s.(retries := s.retries + 1);
      byAgent := byAgent[agent := s];
      retries := retries + 1;
    }

    method ObserveCircuitOpen(agent: string)
      modifies this
      ensures View() == Observe(old(View()), Opened(agent))
    {
      var s := Stats(byAgent, agent);
      s := s.(circuitOpens := s.circuitOpens + 1);
      byAgent := byAgent[agent := s];
      opens := opens + 1;
    }
  }

  /** The totals count the observations of each kind. */
  lemma {:induction false} TotalsCount(h: seq<Observation>)
    ensures Tally(h).totalInvocations == Sum(h, IsInvocation)
    ensures Tally(h).errorInvocations == Sum(h, IsError)
    ensures Tally(h).retryAttempts == Sum(h, IsRetry)
    ensures Tally(h).circuitOpens == Sum(h, IsOpened)
  {
    if h != [] { TotalsCount(h[..|h| - 1]); }
  }

  ghost function AgentTally(h: seq<Observation>): AgentStats {
    if h == [] then NO_STATS else ObserveAgent(AgentTally(h[..|h| - 1]), h[|h| - 1])
  }

  /** An agent's statistics depend on the observations about that agent only. */
  lemma {:induction false} AgentStatsAre(h: seq<Observation>, agent: string)
    ensures agent in Tally(h).byAgent <==> Pick(h, AgentOf, agent) != []
    ensures Stats(Tally(h).byAgent, agent) == AgentTally(Pick(h, AgentOf, agent))
  {
    if h != [] {
      var f, o := h[..|h| - 1], h[|h| - 1];
      AgentStatsAre(f, agent);
      var p := Pick(f, AgentOf, agent);
      if o.agent == agent { assert (p + [o])[..|p|] == p; }
    }
  }

  /** Runs that make the same observations agent by agent end in the same snapshot. */
  lemma SameSnapshot(a: seq<Observation>, b: seq<Observation>)
    requires forall k :: Pick(a, AgentOf, k) == Pick(b, AgentOf, k)
    ensures Tally(a) == Tally(b)
  {
    PicksDetermineContents(a, b, AgentOf);
    TotalsCount(a);
    TotalsCount(b);
    SumPermutation(a, b, IsInvocation);
    SumPermutation(a, b, IsError);
    SumPermutation(a, b, IsRetry);
    SumPermutation(a, b, IsOpened);
    forall k
      ensures k in Tally(a).byAgent <==> k in Tally(b).byAgent
      ensures Stats(Tally(a).byAgent, k) == Stats(Tally(b).byAgent, k)
    {
      AgentStatsAre(a, k);
      AgentStatsAre(b, k);
      assert Pick(a, AgentOf, k) == Pick(b, AgentOf, k);
    }
    var x, y := Tally(a).byAgent, Tally(b).byAgent;
    assert forall k :: k in x ==> Stats(x, k) == x[k];
    assert forall k :: k in y ==> Stats(y, k) == y[k];
    assert x == y;
  }

  /** The values of one field, agent by agent. */
  function FieldBy(byAgent: map<string, AgentStats>, field: AgentStats -> int): string -> int {
    (k: string) => field(Stats(byAgent, k))
  }

  /** The field counts the observations of weight one. */
  ghost predicate Counter(field: AgentStats -> int, weight: Observation -> int) {
    && field(NO_STATS) == 0
    && forall s, o {:trigger field(ObserveAgent(s, o))} :: field(ObserveAgent(s, o)) == field(s) + weight(o)
  }

  /** A field that grows with every observation of its kind sums up to the number of those observations. */
  lemma {:induction false} FieldSums(h: seq<Observation>, agents: seq<string>, field: AgentStats -> int,
    weight: Observation -> int)
    requires Counter(field, weight)
    requires Distinct(agents) && forall k :: k in Tally(h).byAgent ==> k in agents
    ensures Sum(agents, FieldBy(Tally(h).byAgent, field)) == Sum(h, weight)
  {
    if h == [] {
      forall k ensures FieldBy(Tally(h).byAgent, field)(k) == 0 {
        assert Stats(Tally(h).byAgent, k) == NO_STATS;
      }
      SumZero(agents, FieldBy(Tally(h).byAgent, field));
    } else {
      var f, o := h[..|h| - 1], h[|h| - 1];
      var before, after := Tally(f).byAgent, Tally(h).byAgent;
      assert o.agent in after;
      FieldSums(f, agents, field, weight);
      forall k ensures FieldBy(after, field)(k) == FieldBy(before, field)(k) + if k == o.agent then weight(o) else 0 {
        assert Stats(after, k) == if k == o.agent then ObserveAgent(Stats(before, k), o) else Stats(before, k);
      }
      SumChange(agents, o.agent, FieldBy(before, field), FieldBy(after, field));
    }
  }

  function Calls(s: AgentStats): int { Plus(s.successes, s.errors) }
  function Plus(a: int, b: int): int { a + b }
  function Errors(s: AgentStats): int { s.errors }
  function Retries(s: AgentStats): int { s.retries }
  function Opens(s: AgentStats): int { s.circuitOpens }

  lemma CallsAddUp(h: seq<Observation>, agents: seq<string>)
    requires Distinct(agents) && forall k :: k in Tally(h).byAgent ==> k in agents
    ensures Sum(agents, FieldBy(Tally(h).byAgent, Calls)) == Sum(h, IsInvocation)
  {
    CallsCount();
    FieldSums(h, agents, Calls, IsInvocation);
  }

  lemma CallCounted(s: AgentStats, o: Observation)
    ensures Calls(ObserveAgent(s, o)) == Calls(s) + IsInvocation(o)
  {}

  lemma CallsCount()
    ensures Counter(Calls, IsInvocation)
  {
    forall s, o ensures Calls(ObserveAgent(s, o)) == Calls(s) + IsInvocation(o) {
      CallCounted(s, o);
    }
  }

  lemma ErrorsAddUp(h: seq<Observation>, agents: seq<string>)
    requires Distinct(agents) && forall k :: k in Tally(h).byAgent ==> k in agents
    ensures Sum(agents, FieldBy(Tally(h).byAgent, Errors)) == Sum(h, IsError)
  {
    FieldSums(h, agents, Errors, IsError);
  }

  lemma RetriesAddUp(h: seq<Observation>, agents: seq<string>)
    requires Distinct(agents) && forall k :: k in Tally(h).byAgent ==> k in agents
    ensures Sum(agents, FieldBy(Tally(h).byAgent, Retries)) == Sum(h, IsRetry)
  {
    FieldSums(h, agents, Retries, IsRetry);
  }

  lemma OpensAddUp(h: seq<Observation>, agents: seq<string>)
    requires Distinct(agents) && forall k :: k in Tally(h).byAgent ==> k in agents
    ensures Sum(agents, FieldBy(Tally(h).byAgent, Opens)) == Sum(h, IsOpened)
  {
    FieldSums(h, agents, Opens, IsOpened);
  }

  /** The totals are the sums over agents, for every listing of the agents that were observed. */
  lemma TotalsAreAgentSums(h: seq<Observation>, agents: seq<string>)
    requires Distinct(agents) && forall k :: k in Tally(h).byAgent ==> k in agents
    ensures var t := Tally(h);
            && Sum(agents, FieldBy(t.byAgent, Calls)) == t.totalInvocations
            && Sum(agents, FieldBy(t.byAgent, Errors)) == t.errorInvocations
            && Sum(agents, FieldBy(t.byAgent, Retries)) == t.retryAttempts
            && Sum(agents, FieldBy(t.byAgent, Opens)) == t.circuitOpens
  {
    TotalsCount(h);
    CallsAddUp(h, agents);
    ErrorsAddUp(h, agents);
    RetriesAddUp(h, agents);
    OpensAddUp(h, agents);
  }
}
