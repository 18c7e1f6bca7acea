/** Runs that exist: how to drive the engine to a level, a node to its breaker, and a call to its outcome. */
module EngineReach {
  import opened Basics
  import opened Types
  import opened Graph
  import opened Breaker
  import opened BreakerHistory
  import opened Engine
  import opened EngineFlow
  import opened EngineProgress
  import EnginePropagation

  lemma LevelsTyped(env: Env)
    requires Accepted(env)
    ensures forall k, i :: 0 <= k < |env.levels| && 0 <= i < |env.levels[k]| ==> env.levels[k][i] in env.nodes
  {
    forall k, i | 0 <= k < |env.levels| && 0 <= i < |env.levels[k]| ensures env.levels[k][i] in env.nodes {
      MembersOf(env.levels, env.levels[k][i]);
    }
  }

  // ---------------------------------------------------------------------
  // Levels in which everything goes well
  // ---------------------------------------------------------------------

  ghost predicate Closed(entry: Option<Circuit>) {
    !Of(entry).probing && Of(entry).openUntil.None?
  }

  /** Nothing has gone wrong with the node. */
  ghost predicate GoodPc(pc: Pc) {
    match pc
    case Skipping(_) => false
    case Waiting(_) => false
    case Settling(_, _, o) => o.Returned?
    case Emitting(_, next) => next.Finish? && next.r.err.None?
    case Sending(r) => r.err.None?
    case Sent(r) => r.err.None?
    case Freed(r) => r.err.None?
    case Done(r) => r.err.None?
    case _ => true
  }

  /** Below level `k` agents are registered, calls succeed, and `agent` is not used. */
  ghost predicate FairBelow(env: Env, k: int, agent: string) {
    forall j, x :: 0 <= j < k && j < |env.levels| && x in env.levels[j] && x in env.nodes ==>
      && AgentAt(env, x) in env.registry && AgentAt(env, x) != agent
      && forall a, t :: env.oracle.call(x, a, t).Returned?
  }

  /** Nothing has gone wrong with any node, the circuit of `agent` is `entry`, and all others are closed. */
  ghost predicate AllWell(agent: string, entry: Option<Circuit>, s: State) {
    && (forall id {:trigger s.pcs[id]} :: id in s.pcs ==> GoodPc(s.pcs[id]))
    && (forall x :: x != agent ==> Closed(Entry(s.breaker, x)))
    && Entry(s.breaker, agent) == entry
  }

  lemma LocalGood(env: Env, id: string, pc: Pc, entry: Option<Circuit>)
    requires id in env.nodes && Busy(pc) && GoodPc(pc) && Closed(entry) && AgentAt(env, id) in env.registry
    requires forall a, t :: env.oracle.call(id, a, t).Returned?
    ensures var e := Local(env, id, pc, entry); GoodPc(e.pc) && Closed(e.entry)
  {}

  lemma BusyWell(env: Env, agent: string, entry: Option<Circuit>, s: State, id: string, e: Effect)
    requires Typed(env, s) && AllWell(agent, entry, s) && id in env.nodes && AgentAt(env, id) != agent
    requires GoodPc(e.pc) && Closed(e.entry)
    ensures AllWell(agent, entry, ApplyEffect(env, s, id, e))
  {
    var s' := ApplyEffect(env, s, id, e);
    forall x | x != agent ensures Closed(Entry(s'.breaker, x)) {
      assert Closed(Entry(s.breaker, x));
    }
  }

  lemma NodeWell(env: Env, pool: int, k: int, agent: string, entry: Option<Circuit>, s: State, s': State, id: string)
    requires Accepted(env) && Flow(env, s) && AllWell(agent, entry, s) && FairBelow(env, k, agent) && s.level < k
    requires id in env.nodes && NextNode(env, pool, id, s) == Some(s')
    ensures AllWell(agent, entry, s') && s'.level == s.level
  {
    if Busy(s.pcs[id]) {
      var i := RunningPlace(env, s, id);
      assert id in env.levels[s.level];
      var e := BusyMove(env, pool, id, s, s');
      LocalGood(env, id, s.pcs[id], Entry(s.breaker, AgentAt(env, id)));
      BusyWell(env, agent, entry, s, id, e);
    } else {
      SharedMove(env, pool, id, s, s');
      PcWell(agent, entry, s, s', id, AfterShared(s.pcs[id]));
    }
  }

  lemma PcWell(agent: string, entry: Option<Circuit>, s: State, s': State, id: string, pc: Pc)
    requires AllWell(agent, entry, s) && s'.pcs == s.pcs[id := pc] && GoodPc(pc) && s'.breaker == s.breaker
    ensures AllWell(agent, entry, s')
  {}

  /** When all went well no dependency of a node of the current level failed. */
  lemma DependenciesWell(env: Env, agent: string, entry: Option<Circuit>, s: State, id: string)
    requires Accepted(env) && Typed(env, s) && Filed(env, s) && AllWell(agent, entry, s)
    requires s.level < |env.levels| && id in env.levels[s.level] && id in env.nodes
    ensures DependencyError(env.nodes[id].dependsOn, env.nodes, s.results).None?
  {
    EnginePropagation.DependenciesFiled(env, s, id);
    DependencyErrorMeans(env.nodes[id].dependsOn, env.nodes, s.results);
    forall d | d in env.nodes[id].dependsOn ensures d in s.results && s.results[d].err.None? {
      ResultWell(env, agent, entry, s, d);
    }
  }

  lemma ResultWell(env: Env, agent: string, entry: Option<Circuit>, s: State, d: string)
    requires Typed(env, s) && Filed(env, s) && AllWell(agent, entry, s) && d in s.results && d in env.nodes
    ensures s.results[d].err.None?
  {
    assert s.pcs[d] == Done(s.results[d]);
  }

  lemma MainWell(env: Env, agent: string, entry: Option<Circuit>, s: State, s': State)
    requires Accepted(env) && Flow(env, s) && AllWell(agent, entry, s) && NextMain(env, s) == Some(s')
    ensures AllWell(agent, entry, s') && s'.level <= s.level + 1 && (s'.level == s.level + 1 ==> s'.next == 0)
  {
    if s.next < |env.levels[s.level]| {
      var id, pc, added := DispatchMove(env, s, s');
      DependenciesWell(env, agent, entry, s, id);
      PcWell(agent, entry, s, s', id, pc);
    } else {
      CollectMove(env, s, s');
    }
  }

  lemma MoveWell(env: Env, pool: int, k: int, agent: string, entry: Option<Circuit>, s: State, s': State)
    requires Accepted(env) && Flow(env, s) && AllWell(agent, entry, s) && FairBelow(env, k, agent) && s.level < k
    requires Moves(env, pool, s, s')
    ensures AllWell(agent, entry, s') && s'.level <= s.level + 1 && (s'.level == k ==> s'.next == 0)
  {
    if NextMain(env, s) == Some(s') {
      MainWell(env, agent, entry, s, s');
    } else {
      var id :| id in env.nodes && NextNode(env, pool, id, s) == Some(s');
      NodeWell(env, pool, k, agent, entry, s, s', id);
    }
  }

  /** If everything goes well below level `k`, some run gets there and leaves the circuit of `agent` alone. */
  lemma {:induction false} ReachLevel(env: Env, pool: int, run: seq<State>, k: int, agent: string,
    entry: Option<Circuit>)
    returns (longer: seq<State>)
    requires Accepted(env) && pool >= 1 && Run(env, pool, run) && FairBelow(env, k, agent) && k <= |env.levels|
    requires var s := run[|run| - 1]; AllWell(agent, entry, s) && s.level <= k && (s.level == k ==> s.next == 0)
    ensures Run(env, pool, longer) && longer[0] == run[0]
    ensures var s := longer[|longer| - 1]; AllWell(agent, entry, s) && s.level == k && s.next == 0
    decreases Remaining(env, run[|run| - 1])
  {
    var s := run[|run| - 1];
    RunsFlow(env, pool, run, |run| - 1);
    if s.level == k {
      longer := run;
    } else {
      NeverStuck(env, pool, s);
      var s' :| Moves(env, pool, s, s');
      MoveWell(env, pool, k, agent, entry, s, s');
      MovesFinish(env, pool, s, s');
      MovesKeepFlow(env, pool, s, s');
      RemainingNonNegative(env, s);
      RemainingNonNegative(env, s');
      var further := Extend(env, pool, run, s');
      longer := ReachLevel(env, pool, further, k, agent, entry);
    }
  }

  // ---------------------------------------------------------------------
  // Spawning a level
  // ---------------------------------------------------------------------

  /** Nobody holds a slot, and no node of the current level was dispatched or has a failed dependency. */
  ghost predicate Ready(env: Env, s: State)
    requires Typed(env, s)
  {
    && s.level < |env.levels| && s.next == 0 && s.slots == 0
    && forall i :: 0 <= i < |env.levels[s.level]| ==>
         var id := env.levels[s.level][i];
         s.pcs[id].Idle? && DependencyError(env.nodes[id].dependsOn, env.nodes, s.results).None?
  }

  /** At the start of a level nobody runs. */
  lemma NobodyRuns(env: Env, s: State, id: string)
    requires Accepted(env) && Typed(env, s) && Placed(env, s) && s.next == 0 && id in s.pcs && GoodPc(s.pcs[id])
    ensures s.pcs[id].Done? || s.pcs[id].Idle?
    ensures s.level < |env.levels| && id in env.levels[s.level] ==> s.pcs[id].Idle?
  {
    var k, i := PositionOf(env, id);
    assert PlacedAt(env, s, k, i);
    if s.level < |env.levels| && id in env.levels[s.level] {
      var j :| 0 <= j < |env.levels[s.level]| && env.levels[s.level][j] == id;
      assert PlacedAt(env, s, s.level, j);
    }
  }

  lemma NobodyHolds(env: Env, agent: string, entry: Option<Circuit>, s: State)
    requires Accepted(env) && Typed(env, s) && Placed(env, s) && Counted(s) && AllWell(agent, entry, s) && s.next == 0
    ensures s.slots == 0
  {
    forall id | id in s.pcs ensures !Holding(s.pcs[id]) { NobodyRuns(env, s, id); }
    assert Those(s.pcs, Holding) == {};
  }

  lemma ReadyAtStart(env: Env, agent: string, entry: Option<Circuit>, s: State)
    requires Accepted(env) && Flow(env, s) && AllWell(agent, entry, s) && s.level < |env.levels| && s.next == 0
    ensures Ready(env, s)
  {
    NobodyHolds(env, agent, entry, s);
    forall i | 0 <= i < |env.levels[s.level]|
      ensures var id := env.levels[s.level][i];
              s.pcs[id].Idle? && DependencyError(env.nodes[id].dependsOn, env.nodes, s.results).None?
    {
      NobodyRuns(env, s, env.levels[s.level][i]);
      DependenciesWell(env, agent, entry, s, env.levels[s.level][i]);
    }
  }

  /** From `base`, the dispatcher has spawned the first `n` nodes of the level. */
  ghost predicate SpawnedUpTo(env: Env, base: State, s: State, n: nat)
    requires Typed(env, base) && base.level < |env.levels| && n <= |env.levels[base.level]|
  {
    var level := env.levels[base.level];
    && Typed(env, s) && s.level == base.level && s.next == n && s.slots == base.slots && s.results == base.results
    && s.breaker == base.breaker && s.events == base.events && s.channel == base.channel
    && (forall i :: 0 <= i < n ==> s.pcs[level[i]].Spawned?)
    && (forall i :: n <= i < |level| ==> s.pcs[level[i]].Idle?)
  }

  lemma OnePositionOnly(env: Env, k: int, n: int)
    requires Accepted(env) && 0 <= k < |env.levels| && 0 <= n < |env.levels[k]|
    ensures forall i :: 0 <= i < |env.levels[k]| && i != n ==> env.levels[k][i] != env.levels[k][n]
  {
    forall i | 0 <= i < |env.levels[k]| && i != n ensures env.levels[k][i] != env.levels[k][n] {
      if env.levels[k][i] == env.levels[k][n] { OnePosition(env, k, i, k, n); }
    }
  }

  lemma SpawnOne(env: Env, base: State, s: State, n: nat) returns (s': State)
    requires Accepted(env) && Typed(env, base) && Ready(env, base) && n < |env.levels[base.level]| &&
               SpawnedUpTo(env, base, s, n)
    ensures NextMain(env, s) == Some(s') && SpawnedUpTo(env, base, s', n + 1)
  {
    var id := env.levels[base.level][n];
    OnePositionOnly(env, base.level, n);
    s' := s.(pcs := s.pcs[id := Spawned], waiting := s.waiting + 1, next := s.next + 1);
  }

  lemma {:induction false} SpawnLevel(env: Env, pool: int, run: seq<State>, n: nat) returns (longer: seq<State>)
    requires Accepted(env) && Run(env, pool, run)
    requires var s := run[|run| - 1]; Typed(env, s) && Ready(env, s) && n <= |env.levels[s.level]|
    ensures Run(env, pool, longer) && longer[0] == run[0]
    ensures SpawnedUpTo(env, run[|run| - 1], longer[|longer| - 1], n)
  {
    if n == 0 {
      longer := run;
    } else {
      var front := SpawnLevel(env, pool, run, n - 1);
      var s' := SpawnOne(env, run[|run| - 1], front[|front| - 1], n - 1);
      longer := Extend(env, pool, front, s');
    }
  }

  // ---------------------------------------------------------------------
  // Steps of one node
  // ---------------------------------------------------------------------

  /** What a step of a node leaves. */
  ghost predicate Stepped(env: Env, s: State, s': State, id: string, pc: Pc, entry: Option<Circuit>, events: History)
    requires id in env.nodes
  {
    && Typed(env, s') && s'.pcs == s.pcs[id := pc] && s'.level == s.level && s'.channel == s.channel
    && s'.events == s.events + events && Entry(s'.breaker, AgentAt(env, id)) == entry
  }

  /** One local step. */
  lemma LocalStep(env: Env, pool: int, run: seq<State>, id: string, e: Effect) returns (longer: seq<State>)
    requires Run(env, pool, run) && id in env.nodes
    requires var s := run[|run| - 1];
             && Typed(env, s) && Busy(s.pcs[id]) && e == Local(env, id, s.pcs[id], Entry(s.breaker, AgentAt(env, id)))
             && (Entry(s.breaker, AgentAt(env, id)).Some? ==> e.entry.Some?)
    ensures Run(env, pool, longer) && longer[0] == run[0] && longer[|longer| - 1].slots == run[|run| - 1].slots
    ensures Stepped(env, run[|run| - 1], longer[|longer| - 1], id, e.pc, e.entry, e.events)
  {
    var s := run[|run| - 1];
    var s' := ApplyEffect(env, s, id, e);
    assert NextNode(env, pool, id, s) == Some(s');
    longer := Extend(env, pool, run, s');
  }

  /** A spawned node gets a slot. */
  lemma TakeSlot(env: Env, pool: int, run: seq<State>, id: string) returns (longer: seq<State>)
    requires Run(env, pool, run) && id in env.nodes
    requires var s := run[|run| - 1]; Typed(env, s) && s.pcs[id].Spawned? && s.slots < pool
    ensures Run(env, pool, longer) && longer[0] == run[0] && longer[|longer| - 1].slots == run[|run| - 1].slots + 1
    ensures var s := run[|run| - 1];
            Stepped(env, s, longer[|longer| - 1], id, Looking, Entry(s.breaker, AgentAt(env, id)), [])
  {
    var s := run[|run| - 1];
    var s' := s.(pcs := s.pcs[id := Looking], slots := s.slots + 1);
    assert NextNode(env, pool, id, s) == Some(s');
    longer := Extend(env, pool, run, s');
  }

  lemma LookUp(env: Env, id: string, entry: Option<Circuit>)
    requires id in env.nodes && AgentAt(env, id) in env.registry
    ensures Local(env, id, Looking, entry) == Silent(Asking(1), entry)
  {}

  /** A spawned node of a registered agent gets a slot and is about to ask the breaker. */
  lemma ReachAsking(env: Env, pool: int, run: seq<State>, id: string, entry: Option<Circuit>)
    returns (longer: seq<State>)
    requires Run(env, pool, run) && id in env.nodes && AgentAt(env, id) in env.registry
    requires var s := run[|run| - 1];
             Typed(env, s) && s.pcs[id].Spawned? && s.slots < pool && Entry(s.breaker, AgentAt(env, id)) == entry
    ensures Run(env, pool, longer) && longer[0] == run[0] && longer[|longer| - 1].slots == run[|run| - 1].slots + 1
    ensures Stepped(env, run[|run| - 1], longer[|longer| - 1], id, Asking(1), entry, [])
  {
    var mid := TakeSlot(env, pool, run, id);
    LookUp(env, id, entry);
    longer := LocalStep(env, pool, mid, id, Silent(Asking(1), entry));
  }

  /** With the circuit closed, a request is admitted, and not as a probe. */
  lemma AskClosed(env: Env, id: string, entry: Option<Circuit>)
    requires id in env.nodes && Closed(entry)
    ensures var e := Local(env, id, Asking(1), entry);
            e == Effect(Calling(1, false), entry,
                [Asked(id, AgentAt(env, id), PolicyAt(env, id), env.oracle.askedAt(id, 1), true, false)], [], [])
  {}

  lemma CallReturns(env: Env, id: string, entry: Option<Circuit>)
    requires id in env.nodes
    ensures Local(env, id, Calling(1, false), entry) ==
              Silent(Settling(1, false, env.oracle.call(id, 1, TimeoutAt(env, id, false))), entry)
  {}

  /** With the circuit closed, a node that asks is admitted and called. */
  lemma CallClosed(env: Env, pool: int, run: seq<State>, id: string, entry: Option<Circuit>, o: CallOutcome)
    returns (longer: seq<State>)
    requires Run(env, pool, run) && id in env.nodes && Closed(entry) &&
               o == env.oracle.call(id, 1, TimeoutAt(env, id, false))
    requires var s := run[|run| - 1];
             Typed(env, s) && s.pcs[id] == Asking(1) && Entry(s.breaker, AgentAt(env, id)) == entry
    ensures Run(env, pool, longer) && longer[0] == run[0] && longer[|longer| - 1].slots == run[|run| - 1].slots
    ensures Stepped(
              env, run[|run| - 1], longer[|longer| - 1], id, Settling(1, false, o), entry,
              [Asked(id, AgentAt(env, id), PolicyAt(env, id), env.oracle.askedAt(id, 1), true, false)])
  {
    AskClosed(env, id, entry);
    CallReturns(env, id, entry);
    var mid := LocalStep(env, pool, run, id, Local(env, id, Asking(1), entry));
    longer := LocalStep(env, pool, mid, id, Local(env, id, Calling(1, false), entry));
  }

  lemma EmitOne(env: Env, id: string, todo: seq<Todo>, r: AgentResult, entry: Option<Circuit>) returns (e: Effect)
    requires id in env.nodes
    ensures e == Local(env, id, Emitting(todo, Finish(r)), entry) && e.entry == entry && e.events == []
    ensures e.pc == if todo == [] then Sending(r) else Emitting(todo[1..], Finish(r))
  {
    e := Local(env, id, Emitting(todo, Finish(r)), entry);
  }

  /** The node has reported `r` and given its slot back. */
  ghost predicate SlotBack(env: Env, s: State, s': State, id: string, r: AgentResult)
    requires id in env.nodes
  {
    && Typed(env, s') && s'.pcs == s.pcs[id := Freed(r)] && s'.slots == s.slots - 1
    && s'.events == s.events && Entry(s'.breaker, AgentAt(env, id)) == Entry(s.breaker, AgentAt(env, id))
  }

  lemma SlotBackAfter(env: Env, s: State, mid: State, s': State, id: string, r: AgentResult, pc: Pc)
    requires id in env.nodes && Stepped(env, s, mid, id, pc, Entry(s.breaker, AgentAt(env, id)), [])
    requires mid.slots == s.slots && SlotBack(env, mid, s', id, r)
    ensures SlotBack(env, s, s', id, r)
  {}

  /** A node that has its result can report it, if the channel has room, and give its slot back. */
  lemma {:induction false} GiveSlotBack(env: Env, pool: int, run: seq<State>, id: string, todo: seq<Todo>,
    r: AgentResult)
    returns (longer: seq<State>)
    requires Run(env, pool, run) && id in env.nodes
    requires var s := run[|run| - 1];
             && Typed(env, s) && s.pcs[id] == Emitting(todo, Finish(r))
             && s.level < |env.levels| && |s.channel| < |env.levels[s.level]|
    ensures Run(env, pool, longer) && longer[0] == run[0]
    ensures SlotBack(env, run[|run| - 1], longer[|longer| - 1], id, r)
    decreases |todo|
  {
    var mid := EmitStep(env, pool, run, id, todo, r);
    if todo == [] {
      longer := SendAndFree(env, pool, mid, id, r);
      SlotBackAfter(env, run[|run| - 1], mid[|mid| - 1], longer[|longer| - 1], id, r, Sending(r));
    } else {
      longer := GiveSlotBack(env, pool, mid, id, todo[1..], r);
      SlotBackAfter(
        env, run[|run| - 1], mid[|mid| - 1], longer[|longer| - 1], id, r, Emitting(todo[1..], Finish(r)));
    }
  }

  lemma EmitStep(env: Env, pool: int, run: seq<State>, id: string, todo: seq<Todo>, r: AgentResult)
    returns (longer: seq<State>)
    requires Run(env, pool, run) && id in env.nodes
    requires var s := run[|run| - 1]; Typed(env, s) && s.pcs[id] == Emitting(todo, Finish(r))
    ensures Run(env, pool, longer) && longer[0] == run[0] && longer[|longer| - 1].slots == run[|run| - 1].slots
    ensures var s := run[|run| - 1];
            Stepped(
              env, s, longer[|longer| - 1], id, if todo == [] then Sending(r) else Emitting(todo[1..], Finish(r)),
              Entry(s.breaker, AgentAt(env, id)), [])
  {
    var s := run[|run| - 1];
    var e := EmitOne(env, id, todo, r, Entry(s.breaker, AgentAt(env, id)));
    longer := LocalStep(env, pool, run, id, e);
  }

  lemma SendAndFree(env: Env, pool: int, run: seq<State>, id: string, r: AgentResult) returns (longer: seq<State>)
    requires Run(env, pool, run) && id in env.nodes
    requires var s := run[|run| - 1];
             && Typed(env, s) && s.pcs[id] == Sending(r)
             && s.level < |env.levels| && |s.channel| < |env.levels[s.level]|
    ensures Run(env, pool, longer) && longer[0] == run[0]
    ensures SlotBack(env, run[|run| - 1], longer[|longer| - 1], id, r)
  {
    longer := Send(env, pool, run, id, r);
    longer := Free(env, pool, longer, id, r);
  }

  lemma Send(env: Env, pool: int, run: seq<State>, id: string, r: AgentResult) returns (longer: seq<State>)
    requires Run(env, pool, run) && id in env.nodes
    requires var s := run[|run| - 1];
             && Typed(env, s) && s.pcs[id] == Sending(r)
             && s.level < |env.levels| && |s.channel| < |env.levels[s.level]|
    ensures Run(env, pool, longer) && longer[0] == run[0]
    ensures var s := run[|run| - 1];
            longer[|longer| - 1] == s.(pcs := s.pcs[id := Sent(r)], channel := s.channel + [r])
  {
    var s := run[|run| - 1];
    var s' := s.(pcs := s.pcs[id := Sent(r)], channel := s.channel + [r]);
    assert NextNode(env, pool, id, s) == Some(s');
    longer := Extend(env, pool, run, s');
  }

  lemma Free(env: Env, pool: int, run: seq<State>, id: string, r: AgentResult) returns (longer: seq<State>)
    requires Run(env, pool, run) && id in env.nodes
    requires var s := run[|run| - 1]; Typed(env, s) && s.pcs[id] == Sent(r)
    ensures Run(env, pool, longer) && longer[0] == run[0]
    ensures var s := run[|run| - 1];
            longer[|longer| - 1] == s.(pcs := s.pcs[id := Freed(r)], slots := s.slots - 1)
  {
    var s := run[|run| - 1];
    var s' := s.(pcs := s.pcs[id := Freed(r)], slots := s.slots - 1);
    assert NextNode(env, pool, id, s) == Some(s');
    longer := Extend(env, pool, run, s');
  }

  // ---------------------------------------------------------------------
  // Two calls of one agent on a fresh engine
  // ---------------------------------------------------------------------

  ghost function FreshStart(env: Env): State {
    State(0, 0, map id | id in env.nodes :: Idle, 0, 0, [], map[], map[], [], [], [])
  }

  /** In the first level, with nothing sent yet. */
  ghost predicate Scene(env: Env, s: State, agent: string, entry: Option<Circuit>, events: History, slots: int) {
    Typed(env, s) && s.level == 0 && s.channel == [] && Entry(s.breaker, agent) == entry && s.events == events &&
        s.slots == slots
  }

  lemma FirstLevelSpawned(env: Env, pool: int, agent: string) returns (run: seq<State>)
    requires Accepted(env) && env.levels != []
    ensures Run(env, pool, run) && run[0] == FreshStart(env) && Scene(env, run[|run| - 1], agent, None, [], 0)
    ensures forall x :: x in env.levels[0] && x in env.nodes ==> run[|run| - 1].pcs[x].Spawned?
  {
    LevelsTyped(env);
    run := [FreshStart(env)];
    RunsFlow(env, pool, run, 0);
    ReadyAtStart(env, agent, None, run[0]);
    run := SpawnLevel(env, pool, run, |env.levels[0]|);
  }

  /** Two nodes of the first level share a registered agent, ask at 0, and their calls end with `o`. */
  ghost predicate Pair(env: Env, a: string, b: string, agent: string, p: BreakerPolicy, o: CallOutcome) {
    && env.levels != [] && a in env.levels[0] && b in env.levels[0] && a != b && a in env.nodes && b in env.nodes
    && AgentAt(env, a) == agent && AgentAt(env, b) == agent && agent in env.registry
    && PolicyAt(env, a) == p && PolicyAt(env, b) == p
    && env.oracle.askedAt(a, 1) == 0 && env.oracle.askedAt(b, 1) == 0
    && env.oracle.call(a, 1, TimeoutAt(env, a, false)) == o && env.oracle.call(b, 1, TimeoutAt(env, b, false)) == o
  }

  ghost predicate OthersSpawned(env: Env, s: State, a: string, b: string) {
    env.levels != [] && forall x :: x in env.levels[0] && x in s.pcs && x != a && x != b ==> s.pcs[x].Spawned?
  }

  lemma PairAsks(env: Env, pool: int, a: string, b: string, agent: string, p: BreakerPolicy, o: CallOutcome)
    returns (run: seq<State>)
    requires Accepted(env) && pool >= 2 && Pair(env, a, b, agent, p, o)
    ensures Run(env, pool, run) && run[0] == FreshStart(env) && Scene(env, run[|run| - 1], agent, None, [], 2)
    ensures var s := run[|run| - 1]; s.pcs[a] == Asking(1) && s.pcs[b] == Asking(1) && OthersSpawned(env, s, a, b)
  {
    run := FirstLevelSpawned(env, pool, agent);
    run := ReachAsking(env, pool, run, a, None);
    run := ReachAsking(env, pool, run, b, None);
  }

  /** Both are admitted and called. */
  lemma PairCalled(env: Env, pool: int, a: string, b: string, agent: string, p: BreakerPolicy, o: CallOutcome)
    returns (run: seq<State>)
    requires Accepted(env) && pool >= 2 && Pair(env, a, b, agent, p, o)
    ensures Run(env, pool, run) && run[0] == FreshStart(env)
    ensures Scene(
              env, run[|run| - 1], agent, None,
              [Asked(a, agent, p, 0, true, false), Asked(b, agent, p, 0, true, false)], 2)
    ensures var s := run[|run| - 1];
            && s.pcs[a] == Settling(1, false, o) && s.pcs[b] == Settling(1, false, o) && OthersSpawned(env, s, a, b)
  {
    run := PairAsks(env, pool, a, b, agent, p, o);
    run := CallClosed(env, pool, run, a, None, o);
    run := CallClosed(env, pool, run, b, None, o);
  }

  /** With threshold 1 every recorded failure opens the circuit anew. */
  lemma FailureMovesDeadline(env: Env, id: string, entry: Option<Circuit>, o: CallOutcome) returns (e: Effect)
    requires id in env.nodes && PolicyAt(env, id).threshold == 1 && PolicyAt(env, id).resetTimeout == 10
    requires o == Errored(ZERO_OUTPUT, Plain("failed")) && Of(entry).failures == 0
    ensures e == Local(env, id, Settling(1, false, o), entry)
    ensures e.entry == Some(Circuit(0, Some(env.oracle.failedAt(id, 1) + 10), false))
    ensures e.events == [Failed(id, AgentAt(env, id), PolicyAt(env, id), env.oracle.failedAt(id, 1))]
    ensures e.pc.Emitting? && (MaxAttempts(env, id) == 1 ==> e.pc.next.Finish?)
  {
    e := Local(env, id, Settling(1, false, o), entry);
  }

  /** Once the deadline of an open circuit is reached, a request is admitted as a probe. */
  lemma ProbeGranted(env: Env, id: string, until: int) returns (e: Effect)
    requires id in env.nodes && PolicyAt(env, id).threshold > 0 && until <= env.oracle.askedAt(id, 1)
    ensures e == Local(env, id, Asking(1), Some(Circuit(0, Some(until), false)))
    ensures e.pc == Calling(1, true) && e.entry == Some(Circuit(0, None, true))
    ensures e.events == [Asked(id, AgentAt(env, id), PolicyAt(env, id), env.oracle.askedAt(id, 1), true, true)]
  {
    e := Local(env, id, Asking(1), Some(Circuit(0, Some(until), false)));
  }
}
