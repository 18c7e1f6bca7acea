/** Where schedule independence ends: two nodes of one level that share an agent race for its circuit. */
module EngineRace {
  import opened Basics
  import opened Types
  import opened Breaker
  import opened BreakerHistory
  import opened Engine
  import opened EngineFlow
  import opened EngineProgress
  import opened EngineReach
  import opened EngineSchedule
  import EngineBreaker
  import EnginePropagation

  // ---------------------------------------------------------------------
  // Once decided, a result stays
  // ---------------------------------------------------------------------

  /** The node will report `r`, or has reported it. */
  ghost predicate Decided(s: State, id: string, r: AgentResult) {
    id in s.pcs &&
    match s.pcs[id]
    case Emitting(_, Finish(x)) => x == r
    case Sending(x) => x == r
    case Sent(x) => x == r
    case Freed(x) => x == r
    case Done(x) => x == r
    case _ => false
  }

  lemma DecidedLocal(env: Env, id: string, pc: Pc, entry: Option<Circuit>, r: AgentResult)
    requires id in env.nodes && pc.Emitting? && pc.next == Finish(r)
    ensures var e := Local(env, id, pc, entry); (e.pc.Emitting? && e.pc.next == Finish(r)) || e.pc == Sending(r)
  {}

  lemma NodeKeepsDecision(env: Env, pool: int, s: State, s': State, id: string, mover: string, r: AgentResult)
    requires Typed(env, s) && Decided(s, id, r) && mover in env.nodes && NextNode(env, pool, mover, s) == Some(s')
    ensures Decided(s', id, r)
  {
    if Busy(s.pcs[mover]) {
      var e := BusyMove(env, pool, mover, s, s');
      if mover == id { DecidedLocal(env, id, s.pcs[id], Entry(s.breaker, AgentAt(env, id)), r); }
    } else {
      SharedMove(env, pool, mover, s, s');
    }
  }

  lemma MainKeepsDecision(env: Env, s: State, s': State, id: string, r: AgentResult)
    requires Typed(env, s) && Decided(s, id, r) && NextMain(env, s) == Some(s')
    ensures Decided(s', id, r)
  {
    if s.next < |env.levels[s.level]| {
      var x, pc, added := DispatchMove(env, s, s');
    } else {
      CollectMove(env, s, s');
    }
  }

  lemma {:induction false} DecisionStays(env: Env, pool: int, run: seq<State>, i: int, j: int, id: string,
    r: AgentResult)
    requires Accepted(env) && Run(env, pool, run) && 0 <= i <= j < |run| && Decided(run[i], id, r)
    ensures Decided(run[j], id, r)
    decreases j
  {
    if i < j {
      DecisionStays(env, pool, run, i, j - 1, id, r);
      var s, s' := run[j - 1], run[j];
      assert MovesAt(env, pool, run, j);
      if NextMain(env, s) == Some(s') {
        MainKeepsDecision(env, s, s', id, r);
      } else {
        var mover :| mover in env.nodes && NextNode(env, pool, mover, s) == Some(s');
        NodeKeepsDecision(env, pool, s, s', id, mover, r);
      }
    }
  }

  /** A run in which a result is decided can be completed, and then that result is the one filed. */
  lemma CompleteDecided(env: Env, pool: int, run: seq<State>, id: string, r: AgentResult) returns (full: seq<State>)
    requires Accepted(env) && pool >= 1 && Run(env, pool, run) && id in env.nodes && Decided(run[|run| - 1], id, r)
    ensures Run(env, pool, full) && full[0] == run[0] && Final(env, full[|full| - 1])
    ensures id in full[|full| - 1].results && full[|full| - 1].results[id] == r
  {
    full := CanComplete(env, pool, run);
    assert full[0] == run[0] && full[|run| - 1] == run[|run| - 1];
    DecisionStays(env, pool, full, |run| - 1, |full| - 1, id, r);
    EnginePropagation.AllFiled(env, pool, full);
  }

  // ---------------------------------------------------------------------
  // An engine one failure short of opening
  // ---------------------------------------------------------------------

  /** `n` calls that were admitted and failed, one after the other. */
  ghost function Strikes(who: string, agent: string, policy: BreakerPolicy, n: nat): History {
    if n == 0 then []
    else
      Strikes(who, agent, policy, n - 1) + [Asked(who, agent, policy, 0, true, false)]
      + [Failed(who, agent, policy, 0)]
  }

  ghost function EntryAfter(n: int): Option<Circuit> {
    if n == 0 then None else Some(Circuit(n, None, false))
  }

  lemma StrikeCounts(policy: BreakerPolicy, who: string, agent: string, n: int)
    requires 0 < n < policy.threshold
    ensures var asked, failed := Asked(who, agent, policy, 0, true, false), Failed(who, agent, policy, 0);
            && Ask(EntryAfter(n - 1), policy, 0) == Verdict(EntryAfter(n - 1), true, false)
            && Apply(EntryAfter(n - 1), asked) == EntryAfter(n - 1) && Apply(EntryAfter(n - 1), failed) == EntryAfter(n)
            && Track(map[], asked) == map[who := Call(policy, false)]
            && Track(map[who := Call(policy, false)], failed) == map[]
  {}

  lemma OneMoreStrike(h: History, who: string, agent: string, policy: BreakerPolicy, n: int)
    requires 0 < n < policy.threshold && Leaves(h, EntryAfter(n - 1), map[])
    ensures Leaves(h + [Asked(who, agent, policy, 0, true, false)] + [Failed(who, agent, policy, 0)], EntryAfter(n),
              map[])
  {
    StrikeCounts(policy, who, agent, n);
    LeavesSnoc(h, EntryAfter(n - 1), map[], Asked(who, agent, policy, 0, true, false));
    LeavesSnoc(
      h + [Asked(who, agent, policy, 0, true, false)], EntryAfter(n - 1), map[who := Call(policy, false)],
      Failed(who, agent, policy, 0));
  }

  /** Up to the threshold the circuit counts them and stays closed, and none is in flight. */
  lemma {:induction false} StrikesCount(who: string, agent: string, policy: BreakerPolicy, n: nat)
    requires n < policy.threshold
    ensures Leaves(Strikes(who, agent, policy, n), EntryAfter(n), map[])
  {
    if n > 0 {
      StrikesCount(who, agent, policy, n - 1);
      OneMoreStrike(Strikes(who, agent, policy, n - 1), who, agent, policy, n);
    }
  }

  lemma {:induction false} StrikesOf(who: string, agent: string, policy: BreakerPolicy, n: nat)
    ensures forall e :: e in Strikes(who, agent, policy, n) ==> e.agent == agent
  {
    if n > 0 { StrikesOf(who, agent, policy, n - 1); }
  }

  /** An engine that was used before: the circuit of the agent of `a` is closed, one failure short of opening. */
  ghost function RaceStart(env: Env, a: string): State
    requires a in env.nodes && PolicyAt(env, a).threshold > 0
  {
    var agent, policy := AgentAt(env, a), PolicyAt(env, a);
    State(0, 0, map id | id in env.nodes :: Idle, 0, 0, [], map[],
          Put(map[], agent, EntryAfter(policy.threshold - 1)),
          Strikes(a, agent, policy, policy.threshold - 1), [], [])
  }

  /** It is the state of an engine between runs. */
  lemma RaceStartQuiet(env: Env, a: string)
    requires a in env.nodes && PolicyAt(env, a).threshold > 0
    ensures EngineBreaker.QuietBreaker(RaceStart(env, a))
  {
    var s := RaceStart(env, a);
    forall x
      ensures var h := EngineBreaker.HistoryOf(s, x);
              Entry(s.breaker, x) == After(h) && Answered(h) && Disciplined(h) && InFlight(h) == map[]
    {
      if x == AgentAt(env, a) {
        RaceHistoryOwn(env, a);
      } else {
        RaceHistoryOther(env, a, x);
      }
    }
  }

  lemma RaceHistoryOwn(env: Env, a: string)
    requires a in env.nodes && PolicyAt(env, a).threshold > 0
    ensures var s, agent := RaceStart(env, a), AgentAt(env, a);
            Leaves(EngineBreaker.HistoryOf(s, agent), Entry(s.breaker, agent), map[])
  {
    RaceHistory(env, a);
    StrikesCount(a, AgentAt(env, a), PolicyAt(env, a), PolicyAt(env, a).threshold - 1);
  }

  lemma RaceHistory(env: Env, a: string)
    requires a in env.nodes && PolicyAt(env, a).threshold > 0
    ensures var s, agent, policy := RaceStart(env, a), AgentAt(env, a), PolicyAt(env, a);
            && EngineBreaker.HistoryOf(s, agent) == Strikes(a, agent, policy, policy.threshold - 1)
            && Entry(s.breaker, agent) == EntryAfter(policy.threshold - 1)
  {
    var s, agent, policy := RaceStart(env, a), AgentAt(env, a), PolicyAt(env, a);
    StrikesOf(a, agent, policy, policy.threshold - 1);
    PickAll(s.events, BreakerHistory.AgentOf, agent, agent);
  }

  lemma RaceHistoryOther(env: Env, a: string, x: string)
    requires a in env.nodes && PolicyAt(env, a).threshold > 0 && x != AgentAt(env, a)
    ensures var s := RaceStart(env, a);
            Leaves(EngineBreaker.HistoryOf(s, x), Entry(s.breaker, x), map[])
  {
    var s, agent, policy := RaceStart(env, a), AgentAt(env, a), PolicyAt(env, a);
    StrikesOf(a, agent, policy, policy.threshold - 1);
    PickAll(s.events, BreakerHistory.AgentOf, agent, x);
    assert EngineBreaker.HistoryOf(s, x) == [];
  }

  // ---------------------------------------------------------------------
  // The race
  // ---------------------------------------------------------------------

  /** Calls of `a` fail and all others succeed; the clock stands still. */
  function RaceOracle(a: string): Oracle {
    Oracle(
      (id: string, n: nat, t: int) =>
        if id == a then Errored(ZERO_OUTPUT, Plain("failed")) else Returned(ZERO_OUTPUT),
      (id: string, n: nat) => 0,
      (id: string, n: nat) => 0,
      (id: string, n: nat) => 0,
      (id: string, n: nat) => None)
  }

  /** Nodes `a` and `b` of level `k` share a registered agent, and their breakers are enabled; the nodes
      of lower levels have other registered agents. */
  ghost predicate SharedAgent(env: Env, k: int, a: string, b: string) {
    && 0 <= k < |env.levels| && a in env.levels[k] && b in env.levels[k] && a != b && a in env.nodes && b in env.nodes
    && AgentAt(env, a) == AgentAt(env, b) && AgentAt(env, a) in env.registry
    && PolicyAt(env, a).threshold > 0 && PolicyAt(env, b).threshold > 0
    && forall j, x :: 0 <= j < k && x in env.levels[j] && x in env.nodes ==>
         AgentAt(env, x) in env.registry && AgentAt(env, x) != AgentAt(env, a)
  }

  ghost function StartEntry(env: Env, a: string): Option<Circuit>
    requires a in env.nodes
  {
    EntryAfter(PolicyAt(env, a).threshold - 1)
  }

  /** From any start at which the other circuits are closed: both nodes are spawned, nobody holds a slot,
      and the circuit of the agent is as at the start. */
  lemma LevelSpawned(env: Env, start: State, k: int, agent: string, entry: Option<Circuit>) returns (run: seq<State>)
    requires Accepted(env) && Initial(env, start) && 0 <= k < |env.levels| && FairBelow(env, k, agent)
    requires AllWell(agent, entry, start)
    ensures Run(env, 2, run) && run[0] == start
    ensures var s := run[|run| - 1];
            && Typed(env, s) && s.level == k && s.slots == 0 && Entry(s.breaker, agent) == entry
            && forall i :: 0 <= i < |env.levels[k]| ==> s.pcs[env.levels[k][i]].Spawned?
  {
    run := ReachLevel(env, 2, [start], k, agent, entry);
    RunsFlow(env, 2, run, |run| - 1);
    ReadyAtStart(env, agent, entry, run[|run| - 1]);
    run := SpawnLevel(env, 2, run, |env.levels[k]|);
  }

  lemma BothSpawned(env: Env, k: int, a: string, b: string) returns (run: seq<State>)
    requires Accepted(env) && SharedAgent(env, k, a, b) && env.oracle == RaceOracle(a)
    ensures Run(env, 2, run) && run[0] == RaceStart(env, a)
    ensures var s := run[|run| - 1];
            && Typed(env, s) && s.pcs[a].Spawned? && s.pcs[b].Spawned? && s.slots == 0
            && Entry(s.breaker, AgentAt(env, a)) == StartEntry(env, a)
  {
    LevelsTyped(env);
    run := LevelSpawned(env, RaceStart(env, a), k, AgentAt(env, a), StartEntry(env, a));
    var i :| 0 <= i < |env.levels[k]| && env.levels[k][i] == a;
    var j :| 0 <= j < |env.levels[k]| && env.levels[k][j] == b;
  }

  /** A failing call opens a circuit that is one failure short of it. */
  lemma FailureOpens(env: Env, a: string, o: CallOutcome) returns (e: Effect)
    requires a in env.nodes && PolicyAt(env, a).threshold > 0 && o == Errored(ZERO_OUTPUT, Plain("failed"))
    ensures e == Local(env, a, Settling(1, false, o), StartEntry(env, a))
    ensures e.entry == Some(Circuit(0, Some(env.oracle.failedAt(a, 1) + ResetAfter(PolicyAt(env, a))), false))
  {
    e := Local(env, a, Settling(1, false, o), StartEntry(env, a));
  }

  lemma CalledFirst(env: Env, k: int, a: string, b: string, o: CallOutcome) returns (run: seq<State>)
    requires Accepted(env) && SharedAgent(env, k, a, b) && env.oracle == RaceOracle(a)
    requires o == Errored(ZERO_OUTPUT, Plain("failed"))
    ensures Run(env, 2, run) && run[0] == RaceStart(env, a)
    ensures var s := run[|run| - 1];
            && Typed(env, s) && s.pcs[b].Spawned? && s.slots == 1 && s.pcs[a] == Settling(1, false, o)
            && Entry(s.breaker, AgentAt(env, a)) == StartEntry(env, a)
  {
    run := BothSpawned(env, k, a, b);
    run := ReachAsking(env, 2, run, a, StartEntry(env, a));
    run := CallClosed(env, 2, run, a, StartEntry(env, a), o);
  }

  /** `a` is called, fails, and opens the circuit. */
  lemma OpenCircuit(env: Env, k: int, a: string, b: string) returns (run: seq<State>)
    requires Accepted(env) && SharedAgent(env, k, a, b) && env.oracle == RaceOracle(a)
    ensures Run(env, 2, run) && run[0] == RaceStart(env, a)
    ensures var s := run[|run| - 1];
            && Typed(env, s) && s.pcs[b].Spawned? && s.slots == 1
            && Entry(s.breaker, AgentAt(env, a)) == Some(Circuit(0, Some(ResetAfter(PolicyAt(env, a))), false))
  {
    var o := Errored(ZERO_OUTPUT, Plain("failed"));
    run := CalledFirst(env, k, a, b, o);
    var e := FailureOpens(env, a, o);
    run := LocalStep(env, 2, run, a, e);
  }

  lemma RefusedWhileOpen(env: Env, id: string, until: int) returns (e: Effect)
    requires id in env.nodes && PolicyAt(env, id).threshold > 0 && env.oracle.askedAt(id, 1) < until
    ensures e == Local(env, id, Asking(1), Some(Circuit(0, Some(until), false)))
    ensures e.pc == Refused(env, id, 1) && e.entry.Some?
  {
    e := Local(env, id, Asking(1), Some(Circuit(0, Some(until), false)));
  }

  /** One order: `a` fails first and opens the circuit, so that `b` is refused. */
  lemma FailureFirst(env: Env, k: int, a: string, b: string) returns (run: seq<State>, r: AgentResult)
    requires Accepted(env) && SharedAgent(env, k, a, b) && env.oracle == RaceOracle(a)
    ensures Run(env, 2, run) && run[0] == RaceStart(env, a) && Decided(run[|run| - 1], b, r) && r.err.Some?
  {
    var until := ResetAfter(PolicyAt(env, a));
    run := OpenCircuit(env, k, a, b);
    run := ReachAsking(env, 2, run, b, Some(Circuit(0, Some(until), false)));
    var e := RefusedWhileOpen(env, b, until);
    run := LocalStep(env, 2, run, b, e);
    r := ResultAt(env, b, ZERO_OUTPUT, Some(OpenError(env, b)));
  }

  lemma SuccessReported(env: Env, id: string, entry: Option<Circuit>) returns (e: Effect)
    requires id in env.nodes
    ensures e == Local(env, id, Settling(1, false, Returned(ZERO_OUTPUT)), entry)
    ensures e.pc == Completed(env, id, 1, ZERO_OUTPUT) && e.entry.Some?
  {
    e := Local(env, id, Settling(1, false, Returned(ZERO_OUTPUT)), entry);
  }

  /** The other order: `b` is called while the circuit is still closed, and succeeds. */
  lemma SuccessFirst(env: Env, k: int, a: string, b: string) returns (run: seq<State>, r: AgentResult)
    requires Accepted(env) && SharedAgent(env, k, a, b) && env.oracle == RaceOracle(a)
    ensures Run(env, 2, run) && run[0] == RaceStart(env, a) && Decided(run[|run| - 1], b, r) && r.err.None?
  {
    var c := StartEntry(env, a);
    run := BothSpawned(env, k, a, b);
    run := ReachAsking(env, 2, run, b, c);
    run := CallClosed(env, 2, run, b, c, Returned(ZERO_OUTPUT));
    var e := SuccessReported(env, b, c);
    run := LocalStep(env, 2, run, b, e);
    r := Completed(env, b, 1, ZERO_OUTPUT).next.r;
  }

  /** Two complete runs of a plan, from engines between runs with the same circuits and metrics. */
  ghost predicate Comparable(env: Env, pool: int, pool': int, run: seq<State>, run': seq<State>) {
    && Run(env, pool, run) && Run(env, pool', run') && Final(env, run[|run| - 1]) && Final(env, run'[|run'| - 1])
    && EngineBreaker.QuietBreaker(run[0]) && EngineBreaker.QuietBreaker(run'[0])
    && run[0].breaker == run'[0].breaker && run[0].obs == run'[0].obs
  }

  ghost predicate SameEnd(env: Env, pool: int, pool': int, run: seq<State>, run': seq<State>) {
    Comparable(env, pool, pool', run, run') ==> run[|run| - 1].results == run'[|run'| - 1].results
  }

  /** The results of the plan depend only on what the agents and the clock answer. */
  ghost predicate Deterministic(env: Env) {
    forall oracle, pool, pool', run, run' :: SameEnd(env.(oracle := oracle), pool, pool', run, run')
  }

  /** If two nodes of a level share a registered agent that no lower level uses, and their breakers are
      enabled, the result of one of them depends on the schedule: from the same engine between runs it is
      called in one run and refused in another. */
  lemma SharedAgentRaces(env: Env, k: int, a: string, b: string) returns (refused: seq<State>, called: seq<State>)
    requires Accepted(env) && SharedAgent(env, k, a, b)
    ensures Comparable(env.(oracle := RaceOracle(a)), 2, 2, refused, called) && refused[0] == called[0]
    ensures b in refused[|refused| - 1].results && refused[|refused| - 1].results[b].err.Some?
    ensures b in called[|called| - 1].results && called[|called| - 1].results[b].err.None?
  {
    var e := env.(oracle := RaceOracle(a));
    assert SharedAgent(e, k, a, b);
    RaceStartQuiet(e, a);
    var run, r := FailureFirst(e, k, a, b);
    refused := CompleteDecided(e, 2, run, b, r);
    run, r := SuccessFirst(e, k, a, b);
    called := CompleteDecided(e, 2, run, b, r);
  }

  /** No agent is used in two levels. */
  ghost predicate OneLevelPerAgent(env: Env) {
    forall j, k, x, y ::
      0 <= j < k < |env.levels| && x in env.levels[j] && y in env.levels[k] && x in env.nodes && y in env.nodes ==>
        AgentAt(env, x) != AgentAt(env, y)
  }

  /** For a plan whose agents are registered, have enabled breakers and are used in one level each (in
      particular for a plan without dependencies): the results are independent of the schedule, for all
      agents, clocks and engines between runs, exactly when no two nodes of a level share an agent. */
  lemma DeterministicIffDistinctAgents(env: Env)
    requires Accepted(env) && OneLevelPerAgent(env)
    requires forall id :: id in env.nodes ==> AgentAt(env, id) in env.registry && PolicyAt(env, id).threshold > 0
    ensures Deterministic(env) <==> DistinctAgentsPerLevel(env)
  {
    LevelsTyped(env);
    if DistinctAgentsPerLevel(env) {
      forall oracle, pool, pool', run, run' ensures SameEnd(env.(oracle := oracle), pool, pool', run, run') {
        SameEndWithDistinctAgents(env.(oracle := oracle), env, pool, pool', run, run');
      }
    } else {
      var k, a, b := FindShared(env);
      var refused, called := SharedAgentRaces(env, k, a, b);
      assert !SameEnd(env.(oracle := RaceOracle(a)), 2, 2, refused, called);
    }
  }

  lemma FindShared(env: Env) returns (k: int, a: string, b: string)
    requires Accepted(env) && OneLevelPerAgent(env) && !DistinctAgentsPerLevel(env)
    requires forall id :: id in env.nodes ==> AgentAt(env, id) in env.registry && PolicyAt(env, id).threshold > 0
    ensures SharedAgent(env, k, a, b)
  {
    k, a, b := FindPair(env);
    forall j, x | 0 <= j < k && x in env.levels[j] && x in env.nodes
      ensures AgentAt(env, x) in env.registry && AgentAt(env, x) != AgentAt(env, a)
    {
    }
  }

  lemma FindPair(env: Env) returns (k: int, a: string, b: string)
    requires Accepted(env) && !DistinctAgentsPerLevel(env)
    ensures 0 <= k < |env.levels| && a in env.levels[k] && b in env.levels[k] && a != b && a in env.nodes &&
              b in env.nodes
    ensures AgentAt(env, a) == AgentAt(env, b)
  {
    LevelsTyped(env);
    k :| 0 <= k < |env.levels| && !((forall x :: x in env.levels[k] ==> x in env.nodes) &&
        DistinctAgents(env, env.levels[k]));
    var level := env.levels[k];
    assert forall x :: x in level ==> x in env.nodes;
    var i, j :| 0 <= i < j < |level| && AgentAt(env, level[i]) == AgentAt(env, level[j]);
    OnePositionOnly(env, k, j);
    a, b := level[i], level[j];
  }

  lemma SameEndWithDistinctAgents(e: Env, env: Env, pool: int, pool': int, run: seq<State>, run': seq<State>)
    requires Accepted(env) && DistinctAgentsPerLevel(env) && e == env.(oracle := e.oracle)
    ensures SameEnd(e, pool, pool', run, run')
  {
    assert Accepted(e) && DistinctAgentsPerLevel(e);
    if Comparable(e, pool, pool', run, run') {
      ScheduleIndependence(e, pool, pool', run, run');
    }
  }
}
