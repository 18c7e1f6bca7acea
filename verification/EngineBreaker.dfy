/** The breaker inside the engine: every run of the engine is a disciplined history of every circuit. */
module EngineBreaker {
  import opened Basics
  import opened Types
  import opened Breaker
  import opened BreakerHistory
  import opened Engine
  import opened EngineFlow
  import opened EngineProgress
  import EngineTrace

  ghost function HistoryOf(s: State, agent: string): History {
    Pick(s.events, BreakerHistory.AgentOf, agent)
  }

  /** The node has an admitted call of `agent` whose outcome is not recorded. */
  ghost predicate CallsAgent(env: Env, s: State, agent: string, id: string) {
    id in env.nodes && id in s.pcs && InCall(s.pcs[id]) && AgentAt(env, id) == agent
  }

  /** The calls in flight are those of the nodes that are in a call, under their own policies. */
  ghost predicate InFlightMatches(env: Env, s: State, agent: string, calls: map<string, Call>) {
    && (forall id :: id in calls <==> CallsAgent(env, s, agent, id))
    && (forall id :: id in calls && id in env.nodes && id in s.pcs && InCall(s.pcs[id]) ==>
          calls[id] == Call(PolicyAt(env, id), s.pcs[id].probe))
  }

  /** The circuit is what its history makes it, and the history is a proper one. */
  ghost predicate RecordedAt(env: Env, s: State, agent: string) {
    var h := HistoryOf(s, agent);
    && Entry(s.breaker, agent) == After(h)
    && Answered(h) && Disciplined(h)
    && InFlightMatches(env, s, agent, InFlight(h))
  }

  ghost predicate Recorded(env: Env, s: State) {
    forall agent :: RecordedAt(env, s, agent)
  }

  /** An engine that was not used yet. */
  ghost predicate FreshBreaker(s: State) {
    s.breaker == map[] && s.events == []
  }

  /** An engine between runs: circuits as their histories made them, and no call in flight. */
  ghost predicate QuietBreaker(s: State) {
    forall agent ::
      var h := HistoryOf(s, agent);
      Entry(s.breaker, agent) == After(h) && Answered(h) && Disciplined(h) && InFlight(h) == map[]
  }

  lemma FreshIsQuiet(s: State)
    requires FreshBreaker(s)
    ensures QuietBreaker(s)
  {}

  lemma InitialRecorded(env: Env, s: State)
    requires Initial(env, s) && QuietBreaker(s)
    ensures Recorded(env, s)
  {
    forall agent ensures RecordedAt(env, s, agent) {
      assert InFlight(HistoryOf(s, agent)) == map[];
    }
  }

  // ---------------------------------------------------------------------
  // One more event
  // ---------------------------------------------------------------------

  /** What a local step tells the breaker. */
  ghost predicate BreakerEffect(env: Env, id: string, pc: Pc, entry: Option<Circuit>, e: Effect)
    requires id in env.nodes
  {
    var agent, policy := AgentAt(env, id), PolicyAt(env, id);
    if pc.Asking? then
      && |e.events| == 1 && e.events[0].Asked?
      && var v := e.events[0];
         && v.who == id && v.agent == agent && v.policy == policy
         && v.admitted == Ask(entry, policy, v.now).admitted && v.probe == Ask(entry, policy, v.now).probe
         && e.entry == Apply(entry, v)
         && if v.admitted then e.pc == Calling(pc.attempt, v.probe) else e.pc.Emitting?
    else if pc.Settling? then
      && |e.events| == 1 && !e.events[0].Asked?
      && var v := e.events[0];
         && v.who == id && v.agent == agent && (v.Failed? ==> v.policy == policy)
         && (v.Succeeded? <==> Normalized(pc.o).1.None?)
         && e.entry == Apply(entry, v) && e.pc.Emitting?
    else
      && e.events == [] && e.entry == entry
      && (pc.Calling? ==> e.pc.Settling? && e.pc.probe == pc.probe)
      && (!pc.Calling? ==> !InCall(e.pc))
  }

  lemma LocalBreakerEffect(env: Env, id: string, pc: Pc, entry: Option<Circuit>)
    requires id in env.nodes && Busy(pc)
    ensures BreakerEffect(env, id, pc, entry, Local(env, id, pc, entry))
  {}

  lemma OtherAgents(env: Env, s: State, id: string, e: Effect, other: string)
    requires Typed(env, s) && id in env.nodes && RecordedAt(env, s, other) && other != AgentAt(env, id)
    requires forall v :: v in e.events ==> v.agent == AgentAt(env, id)
    ensures RecordedAt(env, ApplyEffect(env, s, id, e), other)
  {
    var s' := ApplyEffect(env, s, id, e);
    PickAppend(s.events, e.events, BreakerHistory.AgentOf, other);
    PickAll(e.events, BreakerHistory.AgentOf, AgentAt(env, id), other);
    assert HistoryOf(s', other) == HistoryOf(s, other);
  }

  lemma OwnHistory(env: Env, s: State, id: string, e: Effect)
    requires id in env.nodes && forall v :: v in e.events ==> v.agent == AgentAt(env, id)
    ensures HistoryOf(ApplyEffect(env, s, id, e), AgentAt(env, id)) == HistoryOf(s, AgentAt(env, id)) + e.events
  {
    PickAppend(s.events, e.events, BreakerHistory.AgentOf, AgentAt(env, id));
    PickAll(e.events, BreakerHistory.AgentOf, AgentAt(env, id), AgentAt(env, id));
  }

  /** The event of a local step follows the discipline of its history. */
  lemma EventDisciplined(env: Env, s: State, id: string, e: Effect)
    requires Typed(env, s) && id in env.nodes && RecordedAt(env, s, AgentAt(env, id))
    requires s.pcs[id].Asking? || s.pcs[id].Settling?
    requires BreakerEffect(env, id, s.pcs[id], Entry(s.breaker, AgentAt(env, id)), e)
    ensures CallerDiscipline(InFlight(HistoryOf(s, AgentAt(env, id))), e.events[0])
  {
    assert CallsAgent(env, s, AgentAt(env, id), id) <==> s.pcs[id].Settling?;
  }

  lemma OwnEvent(env: Env, s: State, id: string, e: Effect)
    requires Typed(env, s) && id in env.nodes && RecordedAt(env, s, AgentAt(env, id))
    requires s.pcs[id].Asking? || s.pcs[id].Settling?
    requires BreakerEffect(env, id, s.pcs[id], Entry(s.breaker, AgentAt(env, id)), e)
    ensures RecordedAt(env, ApplyEffect(env, s, id, e), AgentAt(env, id))
  {
    var agent, s', v := AgentAt(env, id), ApplyEffect(env, s, id, e), e.events[0];
    var h := HistoryOf(s, agent);
    assert e.events == [v];
    OwnHistory(env, s, id, e);
    EventDisciplined(env, s, id, e);
    EntryAfterPut(s.breaker, agent, e.entry);
    TrackMatches(env, s, s', agent, id, InFlight(h), v, e.pc);
    RecordedMore(env, s', agent, h, v);
  }

  lemma RecordedMore(env: Env, s: State, agent: string, h: History, v: Event)
    requires Answered(h) && Disciplined(h) && CallerDiscipline(InFlight(h), v)
    requires v.Asked? ==>
               && v.admitted == Ask(After(h), v.policy, v.now).admitted
               && v.probe == Ask(After(h), v.policy, v.now).probe
    requires HistoryOf(s, agent) == h + [v] && Entry(s.breaker, agent) == Apply(After(h), v)
    requires InFlightMatches(env, s, agent, Track(InFlight(h), v))
    ensures RecordedAt(env, s, agent)
  {
    ExtendHistory(h, v);
  }

  lemma EntryAfterPut(m: map<string, Circuit>, agent: string, entry: Option<Circuit>)
    ensures entry.Some? || Entry(m, agent) == entry ==> Entry(Put(m, agent, entry), agent) == entry
  {}

  lemma OwnAgent(env: Env, s: State, id: string, e: Effect)
    requires Typed(env, s) && id in env.nodes && Busy(s.pcs[id]) && RecordedAt(env, s, AgentAt(env, id))
    requires BreakerEffect(env, id, s.pcs[id], Entry(s.breaker, AgentAt(env, id)), e)
    ensures RecordedAt(env, ApplyEffect(env, s, id, e), AgentAt(env, id))
  {
    if s.pcs[id].Asking? || s.pcs[id].Settling? {
      OwnEvent(env, s, id, e);
    } else {
      var agent, s' := AgentAt(env, id), ApplyEffect(env, s, id, e);
      var h := HistoryOf(s, agent);
      OwnHistory(env, s, id, e);
      assert h + e.events == h;
      forall x ensures x in InFlight(h) <==> CallsAgent(env, s', agent, x) {
        assert x in InFlight(h) <==> CallsAgent(env, s, agent, x);
      }
    }
  }

  lemma TrackMatches(
    env: Env, s: State, s': State, agent: string, id: string, calls: map<string, Call>, v: Event, pc: Pc)
    requires id in env.nodes && id in s.pcs && agent == AgentAt(env, id) && s'.pcs == s.pcs[id := pc] && v.who == id
    requires InFlightMatches(env, s, agent, calls)
    requires if v.Asked? && v.admitted
             then v.policy == PolicyAt(env, id) && pc.Calling? && pc.probe == v.probe
             else !InCall(pc) && (v.Asked? ==> !InCall(s.pcs[id]))
    ensures InFlightMatches(env, s', agent, Track(calls, v))
  {
    forall x ensures x in Track(calls, v) <==> CallsAgent(env, s', agent, x) {
      assert x in calls <==> CallsAgent(env, s, agent, x);
    }
  }

  // ---------------------------------------------------------------------
  // Every step
  // ---------------------------------------------------------------------

  lemma BusyRecorded(env: Env, s: State, id: string, e: Effect)
    requires Typed(env, s) && id in env.nodes && Busy(s.pcs[id]) && Recorded(env, s)
    requires BreakerEffect(env, id, s.pcs[id], Entry(s.breaker, AgentAt(env, id)), e)
    ensures Recorded(env, ApplyEffect(env, s, id, e))
  {
    forall agent ensures RecordedAt(env, ApplyEffect(env, s, id, e), agent) {
      assert RecordedAt(env, s, agent);
      if agent == AgentAt(env, id) {
        OwnAgent(env, s, id, e);
      } else {
        OtherAgents(env, s, id, e, agent);
      }
    }
  }

  /** Steps that leave the breaker alone and move a node that is not in a call. */
  lemma QuietMove(env: Env, s: State, s': State, id: string, pc: Pc)
    requires Recorded(env, s) && s'.events == s.events && s'.breaker == s.breaker
    requires id in s.pcs && s'.pcs == s.pcs[id := pc] && !InCall(s.pcs[id]) && !InCall(pc)
    ensures Recorded(env, s')
  {
    forall agent ensures RecordedAt(env, s', agent) {
      assert RecordedAt(env, s, agent);
      var calls := InFlight(HistoryOf(s, agent));
      forall x ensures x in calls <==> CallsAgent(env, s', agent, x) {
        assert x in calls <==> CallsAgent(env, s, agent, x);
      }
    }
  }

  lemma NodeRecorded(env: Env, pool: int, id: string, s: State, s': State)
    requires Typed(env, s) && id in env.nodes && Recorded(env, s) && NextNode(env, pool, id, s) == Some(s')
    ensures Recorded(env, s')
  {
    if Busy(s.pcs[id]) {
      LocalBreakerEffect(env, id, s.pcs[id], Entry(s.breaker, AgentAt(env, id)));
      BusyRecorded(env, s, id, Local(env, id, s.pcs[id], Entry(s.breaker, AgentAt(env, id))));
    } else {
      SharedMove(env, pool, id, s, s');
      QuietMove(env, s, s', id, AfterShared(s.pcs[id]));
    }
  }

  lemma MainRecorded(env: Env, s: State, s': State)
    requires Typed(env, s) && Recorded(env, s) && NextMain(env, s) == Some(s')
    ensures Recorded(env, s')
  {
    if s.next < |env.levels[s.level]| {
      var id, pc, added := DispatchMove(env, s, s');
      QuietMove(env, s, s', id, pc);
    } else {
      CollectMove(env, s, s');
      forall agent ensures RecordedAt(env, s', agent) { assert RecordedAt(env, s, agent); }
    }
  }

  /** Every run of the engine, whatever the plan, the policies and the interleaving, is a history in
      which each answer is the breaker's, each admitted call gets exactly one outcome under its own
      policy, and the calls in flight are those of the nodes that are in a call. */
  lemma {:induction false} RunsRecorded(env: Env, pool: int, run: seq<State>, i: int)
    requires Accepted(env) && Run(env, pool, run) && QuietBreaker(run[0]) && 0 <= i < |run|
    ensures Recorded(env, run[i])
  {
    if i == 0 {
      InitialRecorded(env, run[0]);
    } else {
      RunsRecorded(env, pool, run, i - 1);
      assert MovesAt(env, pool, run, i);
      MovesRecorded(env, pool, run[i - 1], run[i]);
    }
  }

  lemma MovesRecorded(env: Env, pool: int, s: State, s': State)
    requires Recorded(env, s) && Moves(env, pool, s, s')
    ensures Recorded(env, s')
  {
    if NextMain(env, s) == Some(s') {
      MainRecorded(env, s, s');
    } else {
      var id :| id in env.nodes && NextNode(env, pool, id, s) == Some(s');
      NodeRecorded(env, pool, id, s, s');
    }
  }

  /** Probes never leak: whenever no call of an agent is in flight its circuit is not half-open. */
  lemma ProbesNeverLeak(env: Env, pool: int, run: seq<State>, i: int, agent: string)
    requires Accepted(env) && Run(env, pool, run) && QuietBreaker(run[0]) && 0 <= i < |run|
    requires forall id :: !CallsAgent(env, run[i], agent, id)
    ensures InFlight(HistoryOf(run[i], agent)) == map[]
    ensures !Of(Entry(run[i].breaker, agent)).probing
  {
    RunsRecorded(env, pool, run, i);
    assert RecordedAt(env, run[i], agent);
    var h := HistoryOf(run[i], agent);
    assert forall id :: id !in InFlight(h);
    assert InFlight(h) == map[];
    HalfOpenHasProbe(h);
  }

  /** After a complete run the breaker is quiet again, so the next run starts as this one did. */
  lemma QuietAgain(env: Env, pool: int, run: seq<State>)
    requires Accepted(env) && Run(env, pool, run) && QuietBreaker(run[0]) && Final(env, run[|run| - 1])
    ensures QuietBreaker(run[|run| - 1])
  {
    var n := |run| - 1;
    RunsFlow(env, pool, run, n);
    RunsRecorded(env, pool, run, n);
    forall agent
      ensures var h := HistoryOf(run[n], agent);
              Entry(run[n].breaker, agent) == After(h) && Answered(h) && Disciplined(h) && InFlight(h) == map[]
    {
      forall id ensures !CallsAgent(env, run[n], agent, id) {
        if id in env.nodes {
          var k, x := PositionOf(env, id);
          assert PlacedAt(env, run[n], k, x);
        }
      }
      ProbesNeverLeak(env, pool, run, n, agent);
      assert RecordedAt(env, run[n], agent);
    }
  }

  /** In every run: after an opening at time t, no call of the agent is admitted before t + ResetTimeout
      unless a success was recorded in between (one policy, clock readings that never decrease). */
  lemma RunsKeepOpenWindow(env: Env, pool: int, run: seq<State>, i: int, agent: string, policy: BreakerPolicy, x: int,
    y: int)
    requires Accepted(env) && Run(env, pool, run) && QuietBreaker(run[0]) && 0 <= i < |run|
    requires var h := HistoryOf(run[i], agent);
             && OnePolicy(h, policy) && policy.threshold > 0 && Clocked(h)
             && Opens(h, x) && x < y < |h| && h[y].Asked? && h[y].admitted
             && forall m :: x < m < y ==> !h[m].Succeeded?
    ensures var h := HistoryOf(run[i], agent); h[y].now >= h[x].now + ResetAfter(policy)
  {
    RunsRecorded(env, pool, run, i);
    assert RecordedAt(env, run[i], agent);
    OpenWindow(HistoryOf(run[i], agent), policy, x, y);
  }

  // ---------------------------------------------------------------------
  // Bounded damage
  // ---------------------------------------------------------------------

  /** Every node of the agent uses this policy, and every call of the agent fails. */
  ghost predicate AlwaysFails(env: Env, agent: string, policy: BreakerPolicy) {
    forall id :: id in env.nodes && AgentAt(env, id) == agent ==>
      && PolicyAt(env, id) == policy
      && forall a, t :: !env.oracle.call(id, a, t).Returned?
  }

  lemma FewInFlight(env: Env, s: State, agent: string, pool: int)
    requires Flow(env, s) && s.slots <= pool && RecordedAt(env, s, agent)
    ensures |InFlight(HistoryOf(s, agent))| <= pool
  {
    var calls := InFlight(HistoryOf(s, agent));
    forall id | id in calls.Keys ensures id in Those(s.pcs, Holding) {
      assert CallsAgent(env, s, agent, id);
    }
    SubsetSize(calls.Keys, Those(s.pcs, Holding));
  }

  /** What the oracle returned is what is being recorded. */
  ghost predicate FromOracle(env: Env, s: State) {
    forall id :: id in env.nodes && id in s.pcs && s.pcs[id].Settling? ==>
      s.pcs[id].o == env.oracle.call(id, s.pcs[id].attempt, TimeoutAt(env, id, s.pcs[id].probe))
  }

  lemma TracedFromOracle(env: Env, s: State)
    requires Typed(env, s) && EngineTrace.Traced(env, s)
    ensures FromOracle(env, s)
  {
    forall id | id in env.nodes && s.pcs[id].Settling?
      ensures s.pcs[id].o == env.oracle.call(id, s.pcs[id].attempt, TimeoutAt(env, id, s.pcs[id].probe))
    {
      assert EngineTrace.TracedAt(env, s, id);
    }
  }

  /** What a failing agent's node tells the breaker. */
  lemma FailingEvents(env: Env, s: State, id: string, e: Effect, agent: string, policy: BreakerPolicy)
    requires Typed(env, s) && id in env.nodes && AlwaysFails(env, agent, policy) && FromOracle(env, s)
    requires BreakerEffect(env, id, s.pcs[id], Entry(s.breaker, AgentAt(env, id)), e)
    ensures forall v :: v in e.events ==> v.agent == AgentAt(env, id)
    ensures agent == AgentAt(env, id) && e.events != [] ==>
              |e.events| == 1 && !e.events[0].Succeeded? && e.events[0].policy == policy
  {}

  lemma BusyFailing(env: Env, s: State, id: string, e: Effect, agent: string, policy: BreakerPolicy, pool: int)
    requires Typed(env, s) && id in env.nodes && Busy(s.pcs[id]) && AlwaysFails(env, agent, policy) &&
               FromOracle(env, s)
    requires BreakerEffect(env, id, s.pcs[id], Entry(s.breaker, AgentAt(env, id)), e)
    requires Failing(HistoryOf(s, agent), policy, pool)
    requires |InFlight(HistoryOf(ApplyEffect(env, s, id, e), agent))| <= pool
    ensures Failing(HistoryOf(ApplyEffect(env, s, id, e), agent), policy, pool)
  {
    FailingEvents(env, s, id, e, agent, policy);
    PickAppend(s.events, e.events, BreakerHistory.AgentOf, agent);
    PickAll(e.events, BreakerHistory.AgentOf, AgentAt(env, id), agent);
    FailingMore(HistoryOf(s, agent), if agent == AgentAt(env, id) then e.events else [], policy, pool);
  }

  lemma FailingMore(h: History, events: seq<Event>, policy: BreakerPolicy, pool: int)
    requires Failing(h, policy, pool) && |InFlight(h + events)| <= pool
    requires events != [] ==> |events| == 1 && !events[0].Succeeded? && events[0].policy == policy
    ensures Failing(h + events, policy, pool)
  {
    if events == [] {
      assert h + events == h;
    } else {
      assert events == [events[0]];
      FailingSnoc(h, events[0], policy, pool);
    }
  }

  lemma NodeFailing(env: Env, pool: int, s: State, s': State, id: string, agent: string, policy: BreakerPolicy)
    requires Typed(env, s) && id in env.nodes && NextNode(env, pool, id, s) == Some(s')
    requires AlwaysFails(env, agent, policy) && FromOracle(env, s)
    requires Failing(HistoryOf(s, agent), policy, pool) && |InFlight(HistoryOf(s', agent))| <= pool
    ensures Failing(HistoryOf(s', agent), policy, pool)
  {
    if Busy(s.pcs[id]) {
      LocalBreakerEffect(env, id, s.pcs[id], Entry(s.breaker, AgentAt(env, id)));
      BusyFailing(env, s, id, Local(env, id, s.pcs[id], Entry(s.breaker, AgentAt(env, id))), agent, policy, pool);
    } else {
      SharedMove(env, pool, id, s, s');
    }
  }

  lemma MainQuiet(env: Env, s: State, s': State, agent: string)
    requires Typed(env, s) && NextMain(env, s) == Some(s')
    ensures HistoryOf(s', agent) == HistoryOf(s, agent)
  {
    if s.next < |env.levels[s.level]| {
      var id, pc, added := DispatchMove(env, s, s');
    } else {
      CollectMove(env, s, s');
    }
  }

  lemma {:induction false} RunsFailing(env: Env, pool: int, run: seq<State>, i: int, agent: string,
    policy: BreakerPolicy)
    requires Accepted(env) && pool >= 1 && Run(env, pool, run) && FreshBreaker(run[0]) && 0 <= i < |run|
    requires AlwaysFails(env, agent, policy)
    ensures Failing(HistoryOf(run[i], agent), policy, pool)
  {
    if i > 0 {
      RunsFailing(env, pool, run, i - 1, agent, policy);
      StepFailing(env, pool, run, i, agent, policy);
    }
  }

  lemma StepFailing(env: Env, pool: int, run: seq<State>, i: int, agent: string, policy: BreakerPolicy)
    requires Accepted(env) && pool >= 1 && Run(env, pool, run) && FreshBreaker(run[0]) && 0 < i < |run|
    requires AlwaysFails(env, agent, policy) && Failing(HistoryOf(run[i - 1], agent), policy, pool)
    ensures Failing(HistoryOf(run[i], agent), policy, pool)
  {
    OracleAt(env, pool, run, i - 1);
    MoveAtFailing(env, pool, run, i, agent, policy);
  }

  lemma MoveAtFailing(env: Env, pool: int, run: seq<State>, i: int, agent: string, policy: BreakerPolicy)
    requires Accepted(env) && pool >= 1 && Run(env, pool, run) && FreshBreaker(run[0]) && 0 < i < |run|
    requires AlwaysFails(env, agent, policy) && Failing(HistoryOf(run[i - 1], agent), policy, pool)
    requires FromOracle(env, run[i - 1])
    ensures Failing(HistoryOf(run[i], agent), policy, pool)
  {
    RunsWithinPool(env, pool, run, i, agent);
    assert MovesAt(env, pool, run, i);
    MovesFailing(env, pool, run[i - 1], run[i], agent, policy);
  }

  lemma OracleAt(env: Env, pool: int, run: seq<State>, i: int)
    requires Accepted(env) && Run(env, pool, run) && 0 <= i < |run|
    ensures FromOracle(env, run[i])
  {
    EngineTrace.RunsTraced(env, pool, run, i);
    TracedFromOracle(env, run[i]);
  }

  /** The calls of one agent in flight are never more than the workers. */
  lemma RunsWithinPool(env: Env, pool: int, run: seq<State>, i: int, agent: string)
    requires Accepted(env) && pool >= 1 && Run(env, pool, run) && FreshBreaker(run[0]) && 0 <= i < |run|
    ensures |InFlight(HistoryOf(run[i], agent))| <= pool
  {
    RunsFlow(env, pool, run, i);
    RunsKeepSlots(env, pool, run, i);
    FreshIsQuiet(run[0]);
    RunsRecorded(env, pool, run, i);
    assert RecordedAt(env, run[i], agent);
    FewInFlight(env, run[i], agent, pool);
  }

  lemma MovesFailing(env: Env, pool: int, s: State, s': State, agent: string, policy: BreakerPolicy)
    requires Moves(env, pool, s, s') && AlwaysFails(env, agent, policy) && FromOracle(env, s)
    requires Failing(HistoryOf(s, agent), policy, pool) && |InFlight(HistoryOf(s', agent))| <= pool
    ensures Failing(HistoryOf(s', agent), policy, pool)
  {
    if NextMain(env, s) == Some(s') {
      MainQuiet(env, s, s', agent);
    } else {
      var id :| id in env.nodes && NextNode(env, pool, id, s) == Some(s');
      NodeFailing(env, pool, s, s', id, agent, policy);
    }
  }

  /** Bounded damage: if every call of an agent fails and none of its requests reads as late as the
      deadline that the latest opening set, a whole run admits at most threshold + pool - 1 calls of it,
      whatever the number of nodes, their retry limits and the interleaving. */
  lemma DamageBound(env: Env, pool: int, run: seq<State>, i: int, agent: string, policy: BreakerPolicy)
    requires Accepted(env) && pool >= 1 && Run(env, pool, run) && FreshBreaker(run[0]) && 0 <= i < |run|
    requires AlwaysFails(env, agent, policy) && policy.threshold > 0
    requires Shut(HistoryOf(run[i], agent))
    ensures Admissions(HistoryOf(run[i], agent)) <= policy.threshold + pool - 1
  {
    FreshIsQuiet(run[0]);
    RunsRecorded(env, pool, run, i);
    assert RecordedAt(env, run[i], agent);
    RunsFailing(env, pool, run, i, agent, policy);
    BoundedDamage(HistoryOf(run[i], agent), policy, pool);
  }

  /** Exactly: while an agent only fails, no call of it is admitted after an opening if and only if every
      request reads before the reading of the latest opening before it plus the reset time. */
  lemma RunsRefuseIffShut(env: Env, pool: int, run: seq<State>, i: int, agent: string, policy: BreakerPolicy)
    requires Accepted(env) && pool >= 1 && Run(env, pool, run) && FreshBreaker(run[0]) && 0 <= i < |run|
    requires AlwaysFails(env, agent, policy) && policy.threshold > 0
    ensures ClosedForGood(HistoryOf(run[i], agent)) <==> Shut(HistoryOf(run[i], agent))
  {
    FreshIsQuiet(run[0]);
    RunsRecorded(env, pool, run, i);
    assert RecordedAt(env, run[i], agent);
    RunsFailing(env, pool, run, i, agent, policy);
    ClosedForGoodIffShut(HistoryOf(run[i], agent), policy);
  }
}
