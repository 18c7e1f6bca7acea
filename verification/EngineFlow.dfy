/** What every step of the engine keeps: who is where, the semaphore, the wait group and the channel. */
module EngineFlow {
  import opened Basics
  import opened Types
  import opened Graph
  import opened Engine
  import Planner

  // ---------------------------------------------------------------------
  // Program counters
  // ---------------------------------------------------------------------

  ghost predicate SaneNext(env: Env, id: string, next: Next)
    requires id in env.nodes
  {
    match next
    case Again(a) => 1 <= a < MaxAttempts(env, id)
    case Finish(r) => r.invocation == env.nodes[id].invocation
  }

  /** Attempts stay within the limit, and a node reports its own result. */
  ghost predicate Sane(env: Env, id: string, pc: Pc)
    requires id in env.nodes
  {
    && (pc.Asking? || pc.Calling? || pc.Settling? ==> 1 <= pc.attempt <= MaxAttempts(env, id))
    && (pc.Waiting? ==> 1 <= pc.attempt < MaxAttempts(env, id))
    && (pc.Emitting? ==> SaneNext(env, id, pc.next))
    && (HasResult(pc) ==> pc.r.invocation == env.nodes[id].invocation)
  }

  lemma LocalSane(env: Env, id: string, pc: Pc, entry: Option<Breaker.Circuit>)
    requires id in env.nodes && Busy(pc) && Sane(env, id, pc)
    ensures var pc' := Local(env, id, pc, entry).pc;
            Sane(env, id, pc') && (Busy(pc') || pc'.Sending?)
  {}

  ghost predicate AllSane(env: Env, s: State)
    requires Typed(env, s)
  {
    forall id {:trigger Sane(env, id, s.pcs[id])} :: id in s.pcs ==> Sane(env, id, s.pcs[id])
  }

  // ---------------------------------------------------------------------
  // Places
  // ---------------------------------------------------------------------

  ghost predicate PlacedAt(env: Env, s: State, k: int, i: int)
    requires Typed(env, s) && 0 <= k < |env.levels| && 0 <= i < |env.levels[k]|
  {
    var pc := s.pcs[env.levels[k][i]];
    if k < s.level then pc.Done?
    else if k == s.level && i < s.next then !pc.Idle? && !pc.Skipping?
    else if k == s.level && i == s.next then pc.Idle? || pc.Skipping?
    else pc.Idle?
  }

  /** Lower levels are done, the current one is dispatched up to `next`, the rest is untouched. */
  ghost predicate Placed(env: Env, s: State)
    requires Typed(env, s)
  {
    forall k, i {:trigger PlacedAt(env, s, k, i)} :: 0 <= k < |env.levels| && 0 <= i < |env.levels[k]| ==>
        PlacedAt(env, s, k, i)
  }

  lemma PositionOf(env: Env, id: string) returns (k: int, i: int)
    requires Accepted(env) && id in env.nodes
    ensures 0 <= k < |env.levels| && 0 <= i < |env.levels[k]| && env.levels[k][i] == id
  {
    MembersOf(env.levels, id);
    k :| 0 <= k < |env.levels| && id in env.levels[k];
    i :| 0 <= i < |env.levels[k]| && env.levels[k][i] == id;
  }

  lemma OnePosition(env: Env, k: int, i: int, k': int, i': int)
    requires Accepted(env)
    requires 0 <= k < |env.levels| && 0 <= i < |env.levels[k]|
    requires 0 <= k' < |env.levels| && 0 <= i' < |env.levels[k']|
    requires env.levels[k][i] == env.levels[k'][i']
    ensures k == k' && i == i'
  {
    var g := Planner.DepsOf(env.nodes);
    LevelsDisjoint(g, env.levels, k, k', env.levels[k][i]);
    assert LevelAt(g, env.levels, k);
    StrictlyOrderedDistinct(env.levels[k]);
  }

  /** A running node is a dispatched node of the current level. */
  lemma RunningPlace(env: Env, s: State, id: string) returns (i: int)
    requires Accepted(env) && Typed(env, s) && Placed(env, s)
    requires id in s.pcs && Running(s.pcs[id])
    ensures s.level < |env.levels| && 0 <= i < s.next && i < |env.levels[s.level]| && env.levels[s.level][i] == id
  {
    var k;
    k, i := PositionOf(env, id);
    assert PlacedAt(env, s, k, i);
  }

  // ---------------------------------------------------------------------
  // Counters
  // ---------------------------------------------------------------------

  ghost function Those(pcs: map<string, Pc>, p: Pc -> bool): set<string> {
    set id | id in pcs && p(pcs[id])
  }

  lemma CountOne(pcs: map<string, Pc>, id: string, pc: Pc, p: Pc -> bool)
    requires id in pcs
    ensures |Those(pcs[id := pc], p)| == |Those(pcs, p)| + (if p(pc) then 1 else 0) - (if p(pcs[id]) then 1 else 0)
  {
    var before, after := Those(pcs, p), Those(pcs[id := pc], p);
    if p(pc) {
      assert after == before + {id};
    } else {
      assert after == before - {id};
    }
  }

  /** The semaphore counts the slot holders and the wait group the running nodes. */
  ghost predicate Counted(s: State) {
    s.slots == |Those(s.pcs, Holding)| && s.waiting == |Those(s.pcs, Running)|
  }

  // ---------------------------------------------------------------------
  // The channel
  // ---------------------------------------------------------------------

  ghost predicate FromLevel(env: Env, s: State, r: AgentResult)
    requires Typed(env, s)
  {
    var id := r.invocation.id;
    && s.level < |env.levels| && id in env.levels[s.level]
    && id in s.pcs && Delivered(s.pcs[id]) && s.pcs[id].r == r
  }

  /** If the node is in the current level and has delivered its result, the channel holds it. */
  ghost predicate Received(env: Env, s: State, id: string)
    requires Typed(env, s)
  {
    s.level < |env.levels| && id in env.levels[s.level] && id in s.pcs && Delivered(s.pcs[id]) ==>
      s.pcs[id].r in s.channel
  }

  /** The channel holds exactly the delivered results of the current level, each once. */
  ghost predicate Channelled(env: Env, s: State)
    requires Typed(env, s)
  {
    && (forall r {:trigger FromLevel(env, s, r)} :: r in s.channel ==> FromLevel(env, s, r))
    && (forall a, b :: 0 <= a < b < |s.channel| ==> s.channel[a].invocation.id != s.channel[b].invocation.id)
    && (forall id {:trigger Received(env, s, id)} :: Received(env, s, id))
  }

  ghost function Ids(channel: seq<AgentResult>): (ids: seq<string>)
    ensures |ids| == |channel| && forall i :: 0 <= i < |ids| ==> ids[i] == channel[i].invocation.id
  {
    seq(|channel|, i requires 0 <= i < |channel| => channel[i].invocation.id)
  }

  /** A result that is not delivered yet still has room in the channel, so no send ever blocks. */
  lemma ChannelHasRoom(env: Env, s: State, id: string)
    requires Accepted(env) && Typed(env, s) && Channelled(env, s)
    requires s.level < |env.levels| && id in env.levels[s.level] && id in s.pcs && !Delivered(s.pcs[id])
    ensures |s.channel| < |env.levels[s.level]|
  {
    var ids, level := Ids(s.channel), env.levels[s.level];
    assert Distinct(ids);
    DistinctCardinality(ids);
    forall x | x in Elems(ids) ensures x in Elems(level) - {id} {
      var i :| 0 <= i < |ids| && ids[i] == x;
      assert FromLevel(env, s, s.channel[i]);
    }
    SubsetSize(Elems(ids), Elems(level) - {id});
    assert LevelAt(Planner.DepsOf(env.nodes), env.levels, s.level);
    StrictlyOrderedDistinct(level);
    DistinctCardinality(level);
  }

  // ---------------------------------------------------------------------
  // Filed results
  // ---------------------------------------------------------------------

  /** Exactly the nodes of finished levels have a filed result, the one they reported. */
  ghost predicate Filed(env: Env, s: State)
    requires Typed(env, s)
  {
    && s.results.Keys == Members(env.levels[..s.level])
    && forall id :: id in s.results && id in s.pcs ==> s.pcs[id] == Done(s.results[id])
  }

  lemma NotFiled(env: Env, s: State, id: string)
    requires Typed(env, s) && Filed(env, s) && id in s.pcs && !s.pcs[id].Done?
    ensures id !in s.results
  {}

  lemma {:induction false} GatherHas(results: map<string, AgentResult>, channel: seq<AgentResult>, id: string)
    ensures id in Gather(results, channel) <==>
              id in results || exists i :: 0 <= i < |channel| && channel[i].invocation.id == id
    ensures id in Gather(results, channel) ==>
              || (exists i ::
                    && 0 <= i < |channel| && channel[i].invocation.id == id
                    && Gather(results, channel)[id] == channel[i])
              || (&& id in results && Gather(results, channel)[id] == results[id]
                  && forall i :: 0 <= i < |channel| ==> channel[i].invocation.id != id)
  {
    if channel != [] {
      var n := |channel| - 1;
      GatherHas(results, channel[..n], id);
      if channel[n].invocation.id != id && id in Gather(results, channel[..n]) {
        var front := channel[..n];
        if i :| 0 <= i < n && front[i].invocation.id == id && Gather(results, front)[id] == front[i] {
          assert channel[i].invocation.id == id;
        }
      }
    }
  }

  /** Filing does not depend on the order in which the results are drained or sorted. */
  lemma GatherAnyOrder(results: map<string, AgentResult>, a: seq<AgentResult>, b: seq<AgentResult>)
    requires multiset(a) == multiset(b)
    requires forall i, j :: 0 <= i < j < |a| ==> a[i].invocation.id != a[j].invocation.id
    ensures Gather(results, a) == Gather(results, b)
  {
    forall id
      ensures id in Gather(results, a) <==> id in Gather(results, b)
      ensures id in Gather(results, a) ==> Gather(results, a)[id] == Gather(results, b)[id]
    {
      GatherHas(results, a, id);
      GatherHas(results, b, id);
      assert forall x :: x in a <==> x in multiset(b);
      assert forall x :: x in b <==> x in multiset(a);
      if i :| 0 <= i < |a| && a[i].invocation.id == id {
        assert a[i] in b;
        var j :| 0 <= j < |b| && b[j] == a[i];
        assert b[j].invocation.id == id;
        forall k | 0 <= k < |b| && b[k].invocation.id == id ensures b[k] == a[i] {
          assert b[k] in a;
          var m :| 0 <= m < |a| && a[m] == b[k];
          assert m == i;
        }
      } else {
        forall k | 0 <= k < |b| ensures b[k].invocation.id != id { assert b[k] in a; }
      }
    }
  }

  // ---------------------------------------------------------------------
  // The invariant
  // ---------------------------------------------------------------------

  ghost predicate Flow(env: Env, s: State) {
    Typed(env, s) && AllSane(env, s) && Placed(env, s) && Counted(s) && Channelled(env, s) && Filed(env, s)
  }

  lemma InitialFlow(env: Env, s: State)
    requires Accepted(env) && Initial(env, s)
    ensures Flow(env, s)
  {
    assert Those(s.pcs, Holding) == {} && Those(s.pcs, Running) == {};
    assert env.levels[..0] == [];
  }

  /** The frame of a node's step: only its own program counter moves, and it stays dispatched. */
  ghost predicate NodeFrame(s: State, s': State, id: string, pc: Pc) {
    && id in s.pcs && Running(s.pcs[id]) && s'.pcs == s.pcs[id := pc] && (Running(pc) || pc.Done?)
    && s'.level == s.level && s'.next == s.next && s'.results == s.results
  }

  /** What a node's step does to its program counter, the semaphore, the wait group and the channel. */
  ghost predicate NodeStep(env: Env, pool: int, s: State, s': State, id: string, pc: Pc)
    requires id in env.nodes && id in s.pcs
  {
    && NodeFrame(s, s', id, pc) && Sane(env, id, pc) && Typed(env, s')
    && s'.slots == s.slots + (if Holding(pc) then 1 else 0) - (if Holding(s.pcs[id]) then 1 else 0)
    && s'.waiting == s.waiting + (if Running(pc) then 1 else 0) - (if Running(s.pcs[id]) then 1 else 0)
    && s'.channel == (if s.pcs[id].Sending? then s.channel + [s.pcs[id].r] else s.channel)
    && (s.pcs[id].Sending? ==> pc == Sent(s.pcs[id].r))
    && (Delivered(pc) ==> HasResult(s.pcs[id]) && pc.r == s.pcs[id].r)
    && (Delivered(s.pcs[id]) ==> Delivered(pc))
    && (s.slots <= pool ==> s'.slots <= pool)
  }

  lemma EffectStep(env: Env, pool: int, id: string, s: State, e: Effect)
    requires Typed(env, s) && id in env.nodes && Busy(s.pcs[id])
    requires Sane(env, id, e.pc) && (Busy(e.pc) || e.pc.Sending?)
    ensures NodeStep(env, pool, s, ApplyEffect(env, s, id, e), id, e.pc)
  {}

  lemma NodeStepFrame(env: Env, pool: int, id: string, s: State, s': State) returns (pc: Pc)
    requires Typed(env, s) && AllSane(env, s) && id in env.nodes && NextNode(env, pool, id, s) == Some(s')
    ensures NodeStep(env, pool, s, s', id, pc)
  {
    assert Sane(env, id, s.pcs[id]);
    if Busy(s.pcs[id]) {
      var entry := Breaker.Entry(s.breaker, AgentAt(env, id));
      pc := Local(env, id, s.pcs[id], entry).pc;
      LocalSane(env, id, s.pcs[id], entry);
      EffectStep(env, pool, id, s, Local(env, id, s.pcs[id], entry));
    } else {
      pc := s'.pcs[id];
      SharedStep(env, pool, id, s, s');
    }
  }

  /** A node that holds a slot and has not finished moves by its own local step. */
  lemma BusyMove(env: Env, pool: int, id: string, s: State, s': State) returns (e: Effect)
    requires Typed(env, s) && id in env.nodes && Busy(s.pcs[id]) && NextNode(env, pool, id, s) == Some(s')
    ensures e == Local(env, id, s.pcs[id], Breaker.Entry(s.breaker, AgentAt(env, id)))
    ensures s' == ApplyEffect(env, s, id, e)
  {
    e := Local(env, id, s.pcs[id], Breaker.Entry(s.breaker, AgentAt(env, id)));
  }

  /** The next program counter when a node acquires, sends, frees or leaves. */
  function AfterShared(pc: Pc): Pc {
    match pc
    case Spawned => Looking
    case Sending(r) => Sent(r)
    case Sent(r) => Freed(r)
    case Freed(r) => Done(r)
    case _ => pc
  }

  /** The steps that concern the semaphore, the channel and the wait group. */
  lemma SharedMove(env: Env, pool: int, id: string, s: State, s': State)
    requires Typed(env, s) && id in env.nodes && !Busy(s.pcs[id]) && NextNode(env, pool, id, s) == Some(s')
    ensures s.pcs[id].Spawned? || s.pcs[id].Sending? || s.pcs[id].Sent? || s.pcs[id].Freed?
    ensures s' == s.(pcs := s.pcs[id := AfterShared(s.pcs[id])],
                     slots := s'.slots, waiting := s'.waiting, channel := s'.channel)
  {}

  lemma SharedStep(env: Env, pool: int, id: string, s: State, s': State)
    requires Typed(env, s) && AllSane(env, s) && id in env.nodes && NextNode(env, pool, id, s) == Some(s')
    requires !Busy(s.pcs[id])
    ensures id in s'.pcs && NodeStep(env, pool, s, s', id, s'.pcs[id])
  {
    assert Sane(env, id, s.pcs[id]);
    SharedMove(env, pool, id, s, s');
    SharedCounters(env, pool, id, s, s');
    SharedStepOf(env, pool, id, s, s');
  }

  lemma SharedCounters(env: Env, pool: int, id: string, s: State, s': State)
    requires Typed(env, s) && id in env.nodes && !Busy(s.pcs[id]) && NextNode(env, pool, id, s) == Some(s')
    ensures SharedCounts(pool, s, s', s.pcs[id])
  {}

  /** What a shared step does to the semaphore, the wait group and the channel. */
  ghost predicate SharedCounts(pool: int, s: State, s': State, pc: Pc) {
    && s'.slots == s.slots + (if pc.Spawned? then 1 else if pc.Sent? then -1 else 0)
    && s'.waiting == s.waiting - (if pc.Freed? then 1 else 0)
    && s'.channel == s.channel + (if pc.Sending? then [pc.r] else [])
    && (pc.Spawned? ==> s.slots < pool)
  }

  lemma SharedStepOf(env: Env, pool: int, id: string, s: State, s': State)
    requires Typed(env, s) && Typed(env, s') && id in env.nodes && Sane(env, id, s.pcs[id])
    requires s.pcs[id].Spawned? || s.pcs[id].Sending? || s.pcs[id].Sent? || s.pcs[id].Freed?
    requires s' == s.(pcs := s.pcs[id := AfterShared(s.pcs[id])],
                      slots := s'.slots, waiting := s'.waiting, channel := s'.channel)
    requires SharedCounts(pool, s, s', s.pcs[id])
    ensures NodeStep(env, pool, s, s', id, s'.pcs[id])
  {}

  lemma NodeKeepsPlaces(env: Env, s: State, s': State, id: string, pc: Pc)
    requires Typed(env, s) && Typed(env, s') && Placed(env, s) && NodeFrame(s, s', id, pc)
    ensures Placed(env, s')
  {
    forall k, i | 0 <= k < |env.levels| && 0 <= i < |env.levels[k]| ensures PlacedAt(env, s', k, i) {
      assert PlacedAt(env, s, k, i);
    }
  }

  lemma NodeKeepsChannel(env: Env, pool: int, id: string, s: State, s': State)
    requires Accepted(env) && Typed(env, s) && Placed(env, s) && AllSane(env, s) && Channelled(env, s)
    requires id in env.nodes && NextNode(env, pool, id, s) == Some(s')
    ensures Typed(env, s') && Channelled(env, s')
  {
    var pc := NodeStepFrame(env, pool, id, s, s');
    var i := RunningPlace(env, s, id);
    assert Sane(env, id, s.pcs[id]);
    if s.pcs[id].Sending? {
      ChannelGrows(env, s, s', id, pc);
    } else {
      ChannelStays(env, s, s', id, pc);
    }
  }

  lemma ChannelStays(env: Env, s: State, s': State, id: string, pc: Pc)
    requires Typed(env, s) && Typed(env, s') && Channelled(env, s) && id in s.pcs
    requires s'.level == s.level && s'.pcs == s.pcs[id := pc] && s'.channel == s.channel
    requires Delivered(pc) <==> Delivered(s.pcs[id])
    requires Delivered(pc) ==> pc.r == s.pcs[id].r
    ensures Channelled(env, s')
  {
    forall r | r in s'.channel ensures FromLevel(env, s', r) {
      assert FromLevel(env, s, r);
    }
    forall x ensures Received(env, s', x) {
      assert Received(env, s, x);
    }
  }

  lemma ChannelGrows(env: Env, s: State, s': State, id: string, pc: Pc)
    requires Typed(env, s) && Typed(env, s') && Channelled(env, s) && id in s.pcs
    requires s.level < |env.levels| && id in env.levels[s.level]
    requires Delivered(pc) && !Delivered(s.pcs[id]) && pc.r.invocation.id == id
    requires s'.level == s.level && s'.pcs == s.pcs[id := pc] && s'.channel == s.channel + [pc.r]
    ensures Channelled(env, s')
  {
    forall r | r in s'.channel ensures FromLevel(env, s', r) {
      if r in s.channel { assert FromLevel(env, s, r); }
    }
    forall a, b | 0 <= a < b < |s'.channel| ensures s'.channel[a].invocation.id != s'.channel[b].invocation.id {
      assert s'.channel[a] == s.channel[a];
      assert FromLevel(env, s, s.channel[a]);
    }
    assert pc.r == s'.channel[|s.channel|];
    forall x ensures Received(env, s', x) {
      assert Received(env, s, x);
    }
  }

  lemma NodeKeepsFlow(env: Env, pool: int, id: string, s: State, s': State)
    requires Accepted(env) && Flow(env, s) && id in env.nodes && NextNode(env, pool, id, s) == Some(s')
    ensures Flow(env, s')
  {
    var pc := NodeStepFrame(env, pool, id, s, s');
    NodeKeepsPlaces(env, s, s', id, pc);
    NodeKeepsChannel(env, pool, id, s, s');
    CountOne(s.pcs, id, pc, Holding);
    CountOne(s.pcs, id, pc, Running);
    NotFiled(env, s, id);
  }

  // ---------------------------------------------------------------------
  // The dispatcher
  // ---------------------------------------------------------------------

  /** The frame of a dispatching step: the node at the cursor changes, the cursor moves at most by one. */
  ghost predicate DispatchFrame(env: Env, s: State, s': State, pc: Pc)
    requires Typed(env, s)
  {
    && s.level < |env.levels| && s.next < |env.levels[s.level]|
    && s'.level == s.level && s'.results == s.results && s'.slots == s.slots
    && var id := env.levels[s.level][s.next];
       && (s.pcs[id].Idle? || s.pcs[id].Skipping?) && s'.pcs == s.pcs[id := pc]
       && (pc.Done? <==> s.pcs[id].Skipping?)
       && if pc.Skipping? then s'.next == s.next else s'.next == s.next + 1 && (pc.Spawned? || pc.Done?)
  }

  lemma DispatchStepFrame(env: Env, s: State, s': State) returns (pc: Pc)
    requires Typed(env, s) && AllSane(env, s) && NextMain(env, s) == Some(s') && s.next < |env.levels[s.level]|
    ensures DispatchFrame(env, s, s', pc) && Typed(env, s') && Sane(env, env.levels[s.level][s.next], pc)
    ensures s'.waiting == s.waiting + if pc.Spawned? then 1 else 0
    ensures s'.channel == if pc.Done? then s.channel + [pc.r] else s.channel
  {
    var id := env.levels[s.level][s.next];
    pc := s'.pcs[id];
    assert Sane(env, id, s.pcs[id]);
  }

  /** The three things the dispatcher does with a node: skip it, send the skipped result, or spawn it. */
  lemma DispatchMove(env: Env, s: State, s': State) returns (id: string, pc: Pc, added: seq<Step>)
    requires Typed(env, s) && NextMain(env, s) == Some(s') && s.next < |env.levels[s.level]|
    ensures id == env.levels[s.level][s.next]
    ensures s' == s.(pcs := s.pcs[id := pc], next := s'.next, waiting := s'.waiting, channel := s'.channel,
              log := s.log + added)
    ensures match pc
            case Skipping(r) =>
              && s.pcs[id].Idle? && r == ResultAt(env, id, ZERO_OUTPUT, r.err)
              && r.err.Some? && r.err == DependencyError(env.nodes[id].dependsOn, env.nodes, s.results)
              && added == [SkipStep(env, id, r.err.value)]
            case Spawned =>
              s.pcs[id].Idle? && added == [] && DependencyError(env.nodes[id].dependsOn, env.nodes, s.results).None?
            case Done(r) => s.pcs[id] == Skipping(r) && added == []
            case _ => false
  {
    id := env.levels[s.level][s.next];
    pc := s'.pcs[id];
    added := if pc.Skipping? then [SkipStep(env, id, pc.r.err.value)] else [];
  }

  /** The dispatcher's last step in a level. */
  lemma CollectMove(env: Env, s: State, s': State)
    requires Typed(env, s) && NextMain(env, s) == Some(s') && s.next == |env.levels[s.level]|
    ensures s.waiting == 0
    ensures s' == s.(results := Gather(s.results, s.channel), channel := [], level := s.level + 1, next := 0)
  {}

  lemma DispatchKeepsPlaces(env: Env, s: State, s': State, pc: Pc)
    requires Accepted(env) && Typed(env, s) && Typed(env, s') && Placed(env, s) && DispatchFrame(env, s, s', pc)
    ensures Placed(env, s')
  {
    forall k, i | 0 <= k < |env.levels| && 0 <= i < |env.levels[k]| ensures PlacedAt(env, s', k, i) {
      assert PlacedAt(env, s, k, i);
      if env.levels[k][i] == env.levels[s.level][s.next] {
        OnePosition(env, k, i, s.level, s.next);
      }
    }
  }

  lemma DispatchKeepsChannel(env: Env, s: State, s': State, pc: Pc)
    requires Accepted(env) && Typed(env, s) && Typed(env, s') && Channelled(env, s) && DispatchFrame(env, s, s', pc)
    requires Sane(env, env.levels[s.level][s.next], pc)
    requires s'.channel == if pc.Done? then s.channel + [pc.r] else s.channel
    ensures Channelled(env, s')
  {
    var id := env.levels[s.level][s.next];
    if pc.Done? {
      ChannelGrows(env, s, s', id, pc);
    } else {
      ChannelStays(env, s, s', id, pc);
    }
  }

  lemma DispatchKeepsRest(env: Env, s: State, s': State, pc: Pc)
    requires Flow(env, s) && Typed(env, s') && DispatchFrame(env, s, s', pc)
    requires Sane(env, env.levels[s.level][s.next], pc)
    requires s'.waiting == s.waiting + if pc.Spawned? then 1 else 0
    ensures AllSane(env, s') && Counted(s') && Filed(env, s')
  {
    var id := env.levels[s.level][s.next];
    CountOne(s.pcs, id, pc, Holding);
    CountOne(s.pcs, id, pc, Running);
    NotFiled(env, s, id);
  }

  lemma DispatchKeepsFlow(env: Env, s: State, s': State)
    requires Accepted(env) && Flow(env, s) && NextMain(env, s) == Some(s') && s.next < |env.levels[s.level]|
    ensures Flow(env, s')
  {
    var pc := DispatchStepFrame(env, s, s');
    DispatchKeepsPlaces(env, s, s', pc);
    DispatchKeepsChannel(env, s, s', pc);
    DispatchKeepsRest(env, s, s', pc);
  }

  /** When nobody runs any more, the whole current level is done. */
  lemma LevelDone(env: Env, s: State, i: int)
    requires Flow(env, s) && s.level < |env.levels| && s.next == |env.levels[s.level]| && s.waiting == 0
    requires 0 <= i < |env.levels[s.level]|
    ensures s.pcs[env.levels[s.level][i]].Done?
  {
    var id := env.levels[s.level][i];
    assert PlacedAt(env, s, s.level, i);
    assert Those(s.pcs, Running) == {};
    assert id !in Those(s.pcs, Running);
  }

  lemma CollectFiles(env: Env, s: State, id: string)
    requires Accepted(env) && Flow(env, s) && s.level < |env.levels| && s.next == |env.levels[s.level]| &&
               s.waiting == 0
    requires id in env.levels[s.level]
    ensures id in Gather(s.results, s.channel) && s.pcs[id] == Done(Gather(s.results, s.channel)[id])
  {
    var i :| 0 <= i < |env.levels[s.level]| && env.levels[s.level][i] == id;
    LevelDone(env, s, i);
    GatherHas(s.results, s.channel, id);
    assert Sane(env, id, s.pcs[id]);
    assert Received(env, s, id);
    var a :| 0 <= a < |s.channel| && s.channel[a] == s.pcs[id].r;
    assert FromLevel(env, s, s.channel[a]) && s.channel[a].invocation.id == id;
    forall b | 0 <= b < |s.channel| && s.channel[b].invocation.id == id ensures s.channel[b] == s.pcs[id].r {
      assert FromLevel(env, s, s.channel[b]);
    }
  }

  lemma CollectKeepsFlow(env: Env, s: State, s': State)
    requires Accepted(env) && Flow(env, s) && NextMain(env, s) == Some(s') && s.next == |env.levels[s.level]|
    ensures Flow(env, s')
  {
    forall k, i | 0 <= k < |env.levels| && 0 <= i < |env.levels[k]| ensures PlacedAt(env, s', k, i) {
      assert PlacedAt(env, s, k, i);
      if k == s.level { LevelDone(env, s, i); }
    }
    CollectFiled(env, s, s');
    forall id ensures Received(env, s', id) {
      if s'.level < |env.levels| && id in env.levels[s'.level] && id in s'.pcs {
        var i :| 0 <= i < |env.levels[s'.level]| && env.levels[s'.level][i] == id;
        assert PlacedAt(env, s', s'.level, i);
      }
    }
  }

  lemma CollectKeys(env: Env, s: State, id: string)
    requires Accepted(env) && Flow(env, s)
    requires s.level < |env.levels| && s.next == |env.levels[s.level]| && s.waiting == 0
    ensures id in Gather(s.results, s.channel) <==> id in s.results || id in env.levels[s.level]
    ensures id in Gather(s.results, s.channel) && id in s.pcs ==> s.pcs[id] == Done(Gather(s.results, s.channel)[id])
  {
    assert forall i :: 0 <= i < |s.channel| ==> FromLevel(env, s, s.channel[i]);
    GatherHas(s.results, s.channel, id);
    if id in env.levels[s.level] { CollectFiles(env, s, id); }
  }

  lemma CollectFiled(env: Env, s: State, s': State)
    requires Accepted(env) && Flow(env, s) && NextMain(env, s) == Some(s') && s.next == |env.levels[s.level]|
    ensures Typed(env, s') && Filed(env, s')
  {
    var level := env.levels[s.level];
    assert env.levels[..s.level + 1] == env.levels[..s.level] + [level];
    MembersSnoc(env.levels[..s.level], level);
    forall id
      ensures id in s'.results <==> id in s.results || id in level
      ensures id in s'.results && id in s'.pcs ==> s'.pcs[id] == Done(s'.results[id])
    {
      CollectKeys(env, s, id);
    }
  }

  lemma MovesKeepFlow(env: Env, pool: int, s: State, s': State)
    requires Accepted(env) && Flow(env, s) && Moves(env, pool, s, s')
    ensures Flow(env, s')
  {
    if NextMain(env, s) == Some(s') {
      if s.next == |env.levels[s.level]| {
        CollectKeepsFlow(env, s, s');
      } else {
        DispatchKeepsFlow(env, s, s');
      }
    } else {
      var id :| id in env.nodes && NextNode(env, pool, id, s) == Some(s');
      NodeKeepsFlow(env, pool, id, s, s');
    }
  }

  /** Every state of every run satisfies the invariant. */
  lemma {:induction false} RunsFlow(env: Env, pool: int, run: seq<State>, i: int)
    requires Accepted(env) && Run(env, pool, run) && 0 <= i < |run|
    ensures Flow(env, run[i])
  {
    if i == 0 {
      InitialFlow(env, run[0]);
    } else {
      RunsFlow(env, pool, run, i - 1);
      assert MovesAt(env, pool, run, i);
      MovesKeepFlow(env, pool, run[i - 1], run[i]);
    }
  }
}
