/** Schedule independence: whatever the interleaving and the number of workers, a run ends as if the
    nodes had been executed one after the other. */
module EngineSchedule {
  import opened Basics
  import opened Types
  import opened Breaker
  import opened Engine
  import opened EngineFlow
  import opened EngineProgress
  import opened EngineTrace
  import opened Metrics

  // ---------------------------------------------------------------------
  // The sequential engine
  // ---------------------------------------------------------------------

  /** Everything a node still does to its agent's circuit, the metrics and the trace, and its result. */
  datatype Fate = Fate(entry: Option<Circuit>, obs: seq<Observation>, steps: seq<Step>, r: AgentResult)

  /** The rest of `executeNode`, run without interruption. */
  ghost function Rest(env: Env, id: string, pc: Pc, entry: Option<Circuit>): Fate
    requires id in env.nodes && Sane(env, id, pc)
    decreases Rank(env, id, pc)
  {
    RankBounds(env, id, pc);
    if Busy(pc) then
      LocalSane(env, id, pc, entry);
      RankFalls(env, id, pc, entry);
      var e := Local(env, id, pc, entry);
      RankBounds(env, id, e.pc);
      var rest := Rest(env, id, e.pc, e.entry);
      Fate(rest.entry, e.obs + rest.obs, e.steps + rest.steps, rest.r)
    else if HasResult(pc) then Fate(entry, [], [], pc.r)
    else Rest(env, id, Looking, entry)
  }

  /** What is left behind by nodes executed one at a time. */
  datatype Ledger = Ledger(
    breaker: map<string, Circuit>, obs: seq<Observation>, log: seq<Step>, results: map<string, AgentResult>)

  /** What becomes of a node that is dispatched when the circuits are as in `breaker` and `results` are filed. */
  ghost function FateOf(env: Env, id: string, breaker: map<string, Circuit>, results: map<string, AgentResult>): Fate
    requires id in env.nodes
  {
    var entry, error := Entry(breaker, AgentAt(env, id)), DependencyError(env.nodes[id].dependsOn, env.nodes, results);
    if error.Some? then Fate(entry, [], [SkipStep(env, id, error.value)], ResultAt(env, id, ZERO_OUTPUT, error))
    else Rest(env, id, Looking, entry)
  }

  ghost function RunNode(env: Env, id: string, results: map<string, AgentResult>, l: Ledger): Ledger
    requires id in env.nodes
  {
    var f := FateOf(env, id, l.breaker, results);
    Ledger(Put(l.breaker, AgentAt(env, id), f.entry), l.obs + f.obs, l.log + f.steps, l.results[id := f.r])
  }

  /** The nodes `ids` one after the other, with the results filed before the level. */
  ghost function RunNodes(env: Env, ids: seq<string>, results: map<string, AgentResult>, l: Ledger): Ledger
    requires forall x :: x in ids ==> x in env.nodes
  {
    if ids == [] then l
    else RunNode(env, ids[|ids| - 1], results, RunNodes(env, ids[..|ids| - 1], results, l))
  }

  /** The first `k` levels one after the other. */
  ghost function RunLevels(env: Env, k: nat, l: Ledger): Ledger
    requires k <= |env.levels|
    requires forall j, x :: 0 <= j < |env.levels| && x in env.levels[j] ==> x in env.nodes
  {
    if k == 0 then l
    else
      var before := RunLevels(env, k - 1, l);
      RunNodes(env, env.levels[k - 1], before.results, before)
  }

  // ---------------------------------------------------------------------
  // A level of the sequential engine, agent by agent and node by node
  // ---------------------------------------------------------------------

  /** No two nodes of a level share an agent. */
  ghost predicate DistinctAgents(env: Env, ids: seq<string>)
    requires forall x :: x in ids ==> x in env.nodes
  {
    forall i, j :: 0 <= i < j < |ids| ==> AgentAt(env, ids[i]) != AgentAt(env, ids[j])
  }

  ghost predicate UsesAgent(env: Env, ids: seq<string>, agent: string) {
    exists i :: 0 <= i < |ids| && ids[i] in env.nodes && AgentAt(env, ids[i]) == agent
  }

  ghost function ObsOf(obs: seq<Observation>, agent: string): seq<Observation> { Pick(obs, Metrics.AgentOf, agent) }
  ghost function StepsOf(log: seq<Step>, id: string): seq<Step> { Pick(log, LogKey, id) }

  /** The fate of a node concerns its agent and itself. */
  ghost predicate OwnFate(env: Env, id: string, f: Fate)
    requires id in env.nodes
  {
    && (forall o :: o in f.obs ==> o.agent == AgentAt(env, id))
    && (forall s :: s in f.steps ==> s.invocationId == id)
  }

  lemma {:induction false} RestOwn(env: Env, id: string, pc: Pc, entry: Option<Circuit>)
    requires Accepted(env) && id in env.nodes && Sane(env, id, pc) && Own(env, id, pc)
    ensures OwnFate(env, id, Rest(env, id, pc, entry))
    decreases Rank(env, id, pc)
  {
    RankBounds(env, id, pc);
    if Busy(pc) {
      LocalSane(env, id, pc, entry);
      RankFalls(env, id, pc, entry);
      LocalOwn(env, id, pc, entry);
      var e := Local(env, id, pc, entry);
      RankBounds(env, id, e.pc);
      RestOwn(env, id, e.pc, e.entry);
    } else if !HasResult(pc) {
      RestOwn(env, id, Looking, entry);
    }
  }

  lemma FateOwn(env: Env, id: string, breaker: map<string, Circuit>, results: map<string, AgentResult>)
    requires Accepted(env) && id in env.nodes
    ensures OwnFate(env, id, FateOf(env, id, breaker, results))
  {
    RestOwn(env, id, Looking, Entry(breaker, AgentAt(env, id)));
  }

  /** A circuit entry is never removed. */
  lemma {:induction false} EntriesStay(env: Env, id: string, pc: Pc, entry: Option<Circuit>)
    requires id in env.nodes && Sane(env, id, pc)
    ensures entry.Some? ==> Rest(env, id, pc, entry).entry.Some?
    decreases Rank(env, id, pc)
  {
    RankBounds(env, id, pc);
    if Busy(pc) {
      LocalSane(env, id, pc, entry);
      RankFalls(env, id, pc, entry);
      var e := Local(env, id, pc, entry);
      RankBounds(env, id, e.pc);
      EntriesStay(env, id, e.pc, e.entry);
    } else if !HasResult(pc) {
      EntriesStay(env, id, Looking, entry);
    }
  }

  /** One sequential node changes its own agent's circuit and observations, its own steps and result. */
  lemma RunNodeFrame(env: Env, id: string, results: map<string, AgentResult>, l: Ledger)
    requires Accepted(env) && id in env.nodes
    ensures var f, l' := FateOf(env, id, l.breaker, results), RunNode(env, id, results, l);
            && Entry(l'.breaker, AgentAt(env, id)) == f.entry
            && (forall a :: a != AgentAt(env, id) ==> Entry(l'.breaker, a) == Entry(l.breaker, a))
            && (forall a ::
                  ObsOf(l'.obs, a) == if a == AgentAt(env, id) then ObsOf(l.obs, a) + f.obs else ObsOf(l.obs, a))
            && (forall x :: StepsOf(l'.log, x) == if x == id then StepsOf(l.log, x) + f.steps else StepsOf(l.log, x))
  {
    var f, l' := FateOf(env, id, l.breaker, results), RunNode(env, id, results, l);
    FateOwn(env, id, l.breaker, results);
    EntriesStay(env, id, Looking, Entry(l.breaker, AgentAt(env, id)));
    forall a ensures ObsOf(l'.obs, a) == if a == AgentAt(env, id) then ObsOf(l.obs, a) + f.obs else ObsOf(l.obs, a) {
      PickAppend(l.obs, f.obs, Metrics.AgentOf, a);
      PickAll(f.obs, Metrics.AgentOf, AgentAt(env, id), a);
    }
    forall x ensures StepsOf(l'.log, x) == if x == id then StepsOf(l.log, x) + f.steps else StepsOf(l.log, x) {
      PickAppend(l.log, f.steps, LogKey, x);
      PickAll(f.steps, LogKey, id, x);
    }
  }

  /** What executing `ids` in turn leaves for an agent. */
  ghost predicate AgentAfter(env: Env, ids: seq<string>, b: Ledger, l: Ledger, agent: string)
    requires forall x :: x in ids ==> x in env.nodes
  {
    && (!UsesAgent(env, ids, agent) ==>
          Entry(l.breaker, agent) == Entry(b.breaker, agent) && ObsOf(l.obs, agent) == ObsOf(b.obs, agent))
    && (forall i :: 0 <= i < |ids| && AgentAt(env, ids[i]) == agent ==>
          var f := FateOf(env, ids[i], b.breaker, b.results);
          Entry(l.breaker, agent) == f.entry && ObsOf(l.obs, agent) == ObsOf(b.obs, agent) + f.obs)
  }

  /** What executing `ids` in turn leaves for a node. */
  ghost predicate NodeAfter(env: Env, ids: seq<string>, b: Ledger, l: Ledger, x: string)
    requires forall y :: y in ids ==> y in env.nodes
  {
    && (x !in ids ==>
          && StepsOf(l.log, x) == StepsOf(b.log, x)
          && (x in l.results <==> x in b.results) && (x in l.results ==> l.results[x] == b.results[x]))
    && (x in ids ==>
          var f := FateOf(env, x, b.breaker, b.results);
          StepsOf(l.log, x) == StepsOf(b.log, x) + f.steps && x in l.results && l.results[x] == f.r)
  }

  lemma {:induction false} RunNodesAgent(env: Env, ids: seq<string>, b: Ledger, agent: string)
    requires Accepted(env) && (forall x :: x in ids ==> x in env.nodes) && DistinctAgents(env, ids)
    ensures AgentAfter(env, ids, b, RunNodes(env, ids, b.results, b), agent)
  {
    if ids != [] {
      var n := |ids| - 1;
      var front, id := ids[..n], ids[n];
      assert forall i :: 0 <= i < n ==> front[i] == ids[i];
      assert ids == front + [id];
      LastIsNew(env, ids);
      RunNodesAgent(env, front, b, agent);
      OneMoreAgent(env, front, id, b, RunNodes(env, front, b.results, b), agent);
    }
  }

  lemma OneMoreAgent(env: Env, front: seq<string>, id: string, b: Ledger, l: Ledger, agent: string)
    requires Accepted(env) && (forall y :: y in front ==> y in env.nodes) && id in env.nodes
    requires !UsesAgent(env, front, AgentAt(env, id)) && AgentAfter(env, front, b, l, agent)
    ensures AgentAfter(env, front + [id], b, RunNode(env, id, b.results, l), agent)
  {
    var ids := front + [id];
    RunNodeFrame(env, id, b.results, l);
    assert forall i :: 0 <= i < |front| ==> ids[i] == front[i];
    if AgentAt(env, id) == agent {
      assert FateOf(env, id, l.breaker, b.results) == FateOf(env, id, b.breaker, b.results);
      assert AgentAt(env, ids[|front|]) == agent;
    } else {
      assert UsesAgent(env, ids, agent) <==> UsesAgent(env, front, agent);
    }
  }

  lemma LastIsNew(env: Env, ids: seq<string>)
    requires ids != [] && (forall y :: y in ids ==> y in env.nodes) && DistinctAgents(env, ids)
    ensures var n := |ids| - 1; ids[n] !in ids[..n] && !UsesAgent(env, ids[..n], AgentAt(env, ids[n]))
  {
    var n := |ids| - 1;
    assert forall i :: 0 <= i < n ==> ids[..n][i] == ids[i];
    assert forall i :: 0 <= i < n ==> AgentAt(env, ids[i]) != AgentAt(env, ids[n]);
  }

  lemma OneMoreNode(env: Env, front: seq<string>, id: string, b: Ledger, l: Ledger, x: string)
    requires Accepted(env) && (forall y :: y in front ==> y in env.nodes) && id in env.nodes && id !in front
    requires NodeAfter(env, front, b, l, x)
    requires FateOf(env, id, l.breaker, b.results) == FateOf(env, id, b.breaker, b.results)
    ensures NodeAfter(env, front + [id], b, RunNode(env, id, b.results, l), x)
  {
    RunNodeFrame(env, id, b.results, l);
  }

  lemma {:induction false} RunNodesNode(env: Env, ids: seq<string>, b: Ledger, x: string)
    requires Accepted(env) && (forall y :: y in ids ==> y in env.nodes) && DistinctAgents(env, ids)
    ensures NodeAfter(env, ids, b, RunNodes(env, ids, b.results, b), x)
  {
    if ids != [] {
      var n := |ids| - 1;
      var front, id := ids[..n], ids[n];
      assert forall i :: 0 <= i < n ==> front[i] == ids[i];
      assert ids == front + [id];
      LastIsNew(env, ids);
      RunNodesNode(env, front, b, x);
      RunNodesAgent(env, front, b, AgentAt(env, id));
      OneMoreNode(env, front, id, b, RunNodes(env, front, b.results, b), x);
    }
  }

  // ---------------------------------------------------------------------
  // The concurrent engine is always on its way there
  // ---------------------------------------------------------------------

  /** What a node will still do from its present program counter. */
  ghost function Ahead(env: Env, s: State, id: string): Fate
    requires id in env.nodes && id in s.pcs && Sane(env, id, s.pcs[id])
  {
    if s.pcs[id].Idle? then FateOf(env, id, s.breaker, s.results)
    else Rest(env, id, s.pcs[id], Entry(s.breaker, AgentAt(env, id)))
  }

  /** From the observations and steps so far, `ahead` leads to where `want` leads from the ledger `b`. */
  ghost predicate Meets(
    b: Ledger, obs: seq<Observation>, log: seq<Step>, agent: string, id: string, want: Fate, ahead: Fate)
  {
    && ahead.entry == want.entry && ahead.r == want.r
    && ObsOf(obs, agent) + ahead.obs == ObsOf(b.obs, agent) + want.obs
    && StepsOf(log, id) + ahead.steps == StepsOf(b.log, id) + want.steps
  }

  lemma MeetsAdvances(
    b: Ledger, obs: seq<Observation>, log: seq<Step>, agent: string, id: string, want: Fate,
    ahead: Fate, seen: seq<Observation>, added: seq<Step>, rest: Fate)
    requires Meets(b, obs, log, agent, id, want, ahead)
    requires (forall x :: x in seen ==> x.agent == agent) && (forall x :: x in added ==> x.invocationId == id)
    requires ahead == Fate(rest.entry, seen + rest.obs, added + rest.steps, rest.r)
    ensures Meets(b, obs + seen, log + added, agent, id, want, rest)
  {
    PickAdvances(obs, Metrics.AgentOf, agent, seen, rest.obs);
    PickAdvances(log, LogKey, id, added, rest.steps);
  }

  lemma PickAdvances<T>(s: seq<T>, key: T -> string, k: string, added: seq<T>, rest: seq<T>)
    requires forall x :: x in added ==> key(x) == k
    ensures Pick(s + added, key, k) + rest == Pick(s, key, k) + (added + rest)
  {
    PickAppend(s, added, key, k);
    PickAll(added, key, k, k);
    Associative(Pick(s, key, k), added, rest);
  }

  lemma Associative<T>(a: seq<T>, b: seq<T>, c: seq<T>)
    ensures (a + b) + c == a + (b + c)
  {}

  /** What the node has done together with what it will do is its sequential fate. */
  ghost predicate OnTrack(env: Env, b: Ledger, s: State, id: string)
    requires id in env.nodes && id in s.pcs && Sane(env, id, s.pcs[id])
  {
    Meets(b, s.obs, s.log, AgentAt(env, id), id, FateOf(env, id, b.breaker, b.results), Ahead(env, s, id))
  }

  ghost function CurrentLevel(env: Env, s: State): seq<string> {
    if s.level < |env.levels| then env.levels[s.level] else []
  }

  /** An agent that the current level does not use is as it was when the level began. */
  ghost predicate AgentUntouched(env: Env, b: Ledger, s: State, agent: string) {
    !UsesAgent(env, CurrentLevel(env, s), agent) ==>
      Entry(s.breaker, agent) == Entry(b.breaker, agent) && ObsOf(s.obs, agent) == ObsOf(b.obs, agent)
  }

  ghost predicate NodeTracked(env: Env, b: Ledger, s: State, x: string)
    requires Typed(env, s) && AllSane(env, s)
  {
    if x in CurrentLevel(env, s) && x in env.nodes then OnTrack(env, b, s, x)
    else StepsOf(s.log, x) == StepsOf(b.log, x)
  }

  /** The state is one level's work away from what the sequential engine has after this level. */
  ghost predicate Tracked(env: Env, b: Ledger, s: State)
    requires Typed(env, s) && AllSane(env, s)
  {
    && s.results == b.results
    && (forall a {:trigger AgentUntouched(env, b, s, a)} :: AgentUntouched(env, b, s, a))
    && (forall x {:trigger NodeTracked(env, b, s, x)} :: NodeTracked(env, b, s, x))
  }

  ghost predicate DistinctAgentsPerLevel(env: Env) {
    forall k :: 0 <= k < |env.levels| ==>
      (forall x :: x in env.levels[k] ==> x in env.nodes) && DistinctAgents(env, env.levels[k])
  }

  lemma LevelAgents(env: Env, s: State, x: string, y: string)
    requires DistinctAgentsPerLevel(env) && x in CurrentLevel(env, s) && y in CurrentLevel(env, s) && x != y
    ensures x in env.nodes && y in env.nodes && AgentAt(env, x) != AgentAt(env, y)
  {
    var level := env.levels[s.level];
    var i :| 0 <= i < |level| && level[i] == x;
    var j :| 0 <= j < |level| && level[j] == y;
    assert if i < j then AgentAt(env, level[i]) != AgentAt(env, level[j])
             else AgentAt(env, level[j]) != AgentAt(env, level[i]);
  }

  /** A step of `id` that keeps its own track keeps everybody else's. */
  ghost predicate StepOf(env: Env, s: State, s': State, id: string)
    requires id in env.nodes
  {
    var agent := AgentAt(env, id);
    && id in s.pcs && s'.pcs.Keys == s.pcs.Keys && (forall x :: x in s.pcs && x != id ==> s'.pcs[x] == s.pcs[x])
    && s'.level == s.level && s'.results == s.results
    && (forall a :: a != agent ==> Entry(s'.breaker, a) == Entry(s.breaker, a) && ObsOf(s'.obs, a) == ObsOf(s.obs, a))
    && (forall x :: x != id ==> StepsOf(s'.log, x) == StepsOf(s.log, x))
  }

  lemma OthersKeepTrack(env: Env, b: Ledger, s: State, s': State, id: string, x: string)
    requires DistinctAgentsPerLevel(env) && Typed(env, s) && AllSane(env, s) && Typed(env, s') && AllSane(env, s')
    requires id in env.nodes && id in CurrentLevel(env, s) && StepOf(env, s, s', id) && x != id
    requires NodeTracked(env, b, s, x)
    ensures NodeTracked(env, b, s', x)
  {
    if x in CurrentLevel(env, s) && x in env.nodes {
      LevelAgents(env, s, id, x);
      assert FateOf(env, x, s'.breaker, s'.results) == FateOf(env, x, s.breaker, s.results);
      assert Ahead(env, s', x) == Ahead(env, s, x);
    }
  }

  lemma StepKeepsTrack(env: Env, b: Ledger, s: State, s': State, id: string)
    requires DistinctAgentsPerLevel(env) && Typed(env, s) && AllSane(env, s) && Typed(env, s') && AllSane(env, s')
    requires id in env.nodes && id in CurrentLevel(env, s) && StepOf(env, s, s', id)
    requires Tracked(env, b, s) && OnTrack(env, b, s', id)
    ensures Tracked(env, b, s')
  {
    assert CurrentLevel(env, s') == CurrentLevel(env, s);
    forall a ensures AgentUntouched(env, b, s', a) {
      assert AgentUntouched(env, b, s, a);
      var level := CurrentLevel(env, s);
      var i :| 0 <= i < |level| && level[i] == id;
      assert UsesAgent(env, level, AgentAt(env, id));
    }
    forall x ensures NodeTracked(env, b, s', x) {
      assert NodeTracked(env, b, s, x);
      if x != id { OthersKeepTrack(env, b, s, s', id, x); }
    }
  }

  // ---------------------------------------------------------------------
  // Steps of nodes
  // ---------------------------------------------------------------------

  lemma EffectFrame(env: Env, s: State, id: string, e: Effect)
    requires Typed(env, s) && id in env.nodes && OwnEffect(env, id, e)
    ensures StepOf(env, s, ApplyEffect(env, s, id, e), id)
    ensures ObsOf(ApplyEffect(env, s, id, e).obs, AgentAt(env, id)) == ObsOf(s.obs, AgentAt(env, id)) + e.obs
    ensures StepsOf(ApplyEffect(env, s, id, e).log, id) == StepsOf(s.log, id) + e.steps
  {
    var s', agent := ApplyEffect(env, s, id, e), AgentAt(env, id);
    forall a ensures ObsOf(s'.obs, a) == if a == agent then ObsOf(s.obs, a) + e.obs else ObsOf(s.obs, a) {
      PickAppend(s.obs, e.obs, Metrics.AgentOf, a);
      PickAll(e.obs, Metrics.AgentOf, agent, a);
    }
    forall x ensures StepsOf(s'.log, x) == if x == id then StepsOf(s.log, x) + e.steps else StepsOf(s.log, x) {
      PickAppend(s.log, e.steps, LogKey, x);
      PickAll(e.steps, LogKey, id, x);
    }
  }

  /** One local step is the beginning of the rest. */
  lemma RestUnfolds(env: Env, id: string, pc: Pc, entry: Option<Circuit>, e: Effect)
    requires id in env.nodes && Sane(env, id, pc) && Busy(pc) && e == Local(env, id, pc, entry)
    ensures Sane(env, id, e.pc) && (Busy(e.pc) || e.pc.Sending?)
    ensures var now, rest := Rest(env, id, pc, entry), Rest(env, id, e.pc, e.entry);
            now == Fate(rest.entry, e.obs + rest.obs, e.steps + rest.steps, rest.r)
    ensures entry.Some? ==> e.entry.Some?
  {
    LocalSane(env, id, pc, entry);
    if entry.Some? { LocalKeepsEntry(env, id, pc, entry); }
    RestIs(env, id, pc, entry);
  }

  lemma LocalKeepsEntry(env: Env, id: string, pc: Pc, entry: Option<Circuit>)
    requires id in env.nodes && Busy(pc) && entry.Some?
    ensures Local(env, id, pc, entry).entry.Some?
  {}

  lemma RestIs(env: Env, id: string, pc: Pc, entry: Option<Circuit>)
    requires id in env.nodes && Sane(env, id, pc) && Busy(pc) && Sane(env, id, Local(env, id, pc, entry).pc)
    ensures var e := Local(env, id, pc, entry);
            var rest := Rest(env, id, e.pc, e.entry);
            Rest(env, id, pc, entry) == Fate(rest.entry, e.obs + rest.obs, e.steps + rest.steps, rest.r)
  {}

  lemma AppliedEntry(env: Env, s: State, id: string, e: Effect)
    requires id in env.nodes && (Entry(s.breaker, AgentAt(env, id)).Some? ==> e.entry.Some?)
    ensures Entry(ApplyEffect(env, s, id, e).breaker, AgentAt(env, id)) == e.entry
  {}

  lemma BusyOnTrack(env: Env, b: Ledger, s: State, id: string, e: Effect)
    requires Typed(env, s) && id in env.nodes && Busy(s.pcs[id]) && Sane(env, id, s.pcs[id]) && OwnEffect(env, id, e)
    requires Sane(env, id, e.pc) && (Busy(e.pc) || e.pc.Sending?)
    requires var now, rest := Rest(env, id, s.pcs[id], Entry(s.breaker, AgentAt(env, id))),
               Rest(env, id, e.pc, e.entry);
             now == Fate(rest.entry, e.obs + rest.obs, e.steps + rest.steps, rest.r)
    requires Entry(s.breaker, AgentAt(env, id)).Some? ==> e.entry.Some?
    requires OnTrack(env, b, s, id)
    ensures OnTrack(env, b, ApplyEffect(env, s, id, e), id)
  {
    AppliedEntry(env, s, id, e);
    MeetsAdvances(
      b, s.obs, s.log, AgentAt(env, id), id, FateOf(env, id, b.breaker, b.results), Ahead(env, s, id),
      e.obs, e.steps, Rest(env, id, e.pc, e.entry));
  }

  lemma BusyKeepsTrack(env: Env, b: Ledger, s: State, id: string, e: Effect)
    requires DistinctAgentsPerLevel(env) && Accepted(env) && Flow(env, s) && Traced(env, s) && Tracked(env, b, s)
    requires id in env.nodes && Busy(s.pcs[id]) && e == Local(env, id, s.pcs[id], Entry(s.breaker, AgentAt(env, id)))
    requires Typed(env, ApplyEffect(env, s, id, e)) && AllSane(env, ApplyEffect(env, s, id, e))
    ensures Tracked(env, b, ApplyEffect(env, s, id, e))
  {
    var s' := ApplyEffect(env, s, id, e);
    assert TracedAt(env, s, id) && Sane(env, id, s.pcs[id]);
    LocalOwn(env, id, s.pcs[id], Entry(s.breaker, AgentAt(env, id)));
    RestUnfolds(env, id, s.pcs[id], Entry(s.breaker, AgentAt(env, id)), e);
    var i := RunningPlace(env, s, id);
    assert NodeTracked(env, b, s, id);
    BusyOnTrack(env, b, s, id, e);
    EffectFrame(env, s, id, e);
    StepKeepsTrack(env, b, s, s', id);
  }

  /** Acquiring, sending, freeing and leaving change nothing about what is ahead. */
  lemma SharedKeepsTrack(env: Env, pool: int, b: Ledger, s: State, s': State, id: string)
    requires DistinctAgentsPerLevel(env) && Accepted(env) && Flow(env, s) && Tracked(env, b, s)
    requires id in env.nodes && !Busy(s.pcs[id]) && NextNode(env, pool, id, s) == Some(s') && Flow(env, s')
    ensures Tracked(env, b, s')
  {
    SharedMove(env, pool, id, s, s');
    var i := RunningPlace(env, s, id);
    SharedTrack(env, b, s, s', id);
  }

  lemma SharedTrack(env: Env, b: Ledger, s: State, s': State, id: string)
    requires DistinctAgentsPerLevel(env) && Typed(env, s) && AllSane(env, s) && Typed(env, s') && AllSane(env, s')
    requires Tracked(env, b, s) && id in env.nodes && id in CurrentLevel(env, s)
    requires s.pcs[id].Spawned? || s.pcs[id].Sending? || s.pcs[id].Sent? || s.pcs[id].Freed?
    requires s' == s.(pcs := s.pcs[id := AfterShared(s.pcs[id])],
                      slots := s'.slots, waiting := s'.waiting, channel := s'.channel)
    ensures Tracked(env, b, s')
  {
    assert NodeTracked(env, b, s, id) && Sane(env, id, s.pcs[id]) && Sane(env, id, s'.pcs[id]);
    SameAhead(env, id, s.pcs[id], Entry(s.breaker, AgentAt(env, id)));
    StaysOnTrack(env, b, s, s', id);
    assert StepOf(env, s, s', id);
    StepKeepsTrack(env, b, s, s', id);
  }

  lemma SameAhead(env: Env, id: string, pc: Pc, entry: Option<Circuit>)
    requires id in env.nodes && Sane(env, id, pc) && Sane(env, id, AfterShared(pc))
    requires pc.Spawned? || pc.Sending? || pc.Sent? || pc.Freed?
    ensures Rest(env, id, AfterShared(pc), entry) == Rest(env, id, pc, entry)
  {}

  lemma StaysOnTrack(env: Env, b: Ledger, s: State, s': State, id: string)
    requires id in env.nodes && id in s.pcs && Sane(env, id, s.pcs[id]) && OnTrack(env, b, s, id)
    requires id in s'.pcs && Sane(env, id, s'.pcs[id]) && !s.pcs[id].Idle? && !s'.pcs[id].Idle?
    requires s'.breaker == s.breaker && s'.obs == s.obs && s'.log == s.log
    requires Rest(env, id, s'.pcs[id], Entry(s.breaker, AgentAt(env, id))) ==
               Rest(env, id, s.pcs[id], Entry(s.breaker, AgentAt(env, id)))
    ensures OnTrack(env, b, s', id)
  {}

  // ---------------------------------------------------------------------
  // Steps of the dispatcher
  // ---------------------------------------------------------------------

  /** Dispatching a node does, in `added`, the beginning of its fate. */
  ghost predicate Dispatched(env: Env, s: State, id: string, pc: Pc, added: seq<Step>)
    requires id in env.nodes && id in s.pcs
  {
    match pc
    case Skipping(r) =>
      && s.pcs[id].Idle? && r == ResultAt(env, id, ZERO_OUTPUT, r.err)
      && r.err.Some? && r.err == DependencyError(env.nodes[id].dependsOn, env.nodes, s.results)
      && added == [SkipStep(env, id, r.err.value)]
    case Spawned =>
      s.pcs[id].Idle? && added == [] && DependencyError(env.nodes[id].dependsOn, env.nodes, s.results).None?
    case Done(r) => s.pcs[id] == Skipping(r) && added == []
    case _ => false
  }

  lemma DispatchAhead(env: Env, s: State, id: string, pc: Pc, added: seq<Step>)
    requires id in env.nodes && id in s.pcs && Sane(env, id, s.pcs[id]) && Sane(env, id, pc) &&
               Dispatched(env, s, id, pc, added)
    ensures var now, then' := Ahead(env, s, id), Rest(env, id, pc, Entry(s.breaker, AgentAt(env, id)));
            now == Fate(then'.entry, then'.obs, added + then'.steps, then'.r)
  {
    var entry := Entry(s.breaker, AgentAt(env, id));
    if pc.Spawned? {
      assert Rest(env, id, pc, entry) == Rest(env, id, Looking, entry);
    } else {
      assert Rest(env, id, pc, entry) == Fate(entry, [], [], pc.r);
      assert added + [] == added;
    }
  }

  lemma TrackAdvances(env: Env, b: Ledger, s: State, s': State, id: string, pc: Pc, added: seq<Step>)
    requires id in env.nodes && id in s.pcs && Sane(env, id, s.pcs[id]) && Sane(env, id, pc) && !pc.Idle?
    requires OnTrack(env, b, s, id) && forall x :: x in added ==> x.invocationId == id
    requires s'.pcs == s.pcs[id := pc] && s'.log == s.log + added && s'.obs == s.obs && s'.breaker == s.breaker
    requires var rest := Rest(env, id, pc, Entry(s.breaker, AgentAt(env, id)));
             Ahead(env, s, id) == Fate(rest.entry, rest.obs, added + rest.steps, rest.r)
    ensures OnTrack(env, b, s', id)
  {
    var rest := Rest(env, id, pc, Entry(s.breaker, AgentAt(env, id)));
    assert [] + rest.obs == rest.obs;
    MeetsAdvances(b, s.obs, s.log, AgentAt(env, id), id, FateOf(env, id, b.breaker, b.results), Ahead(env, s, id), [],
        added, rest);
    assert s.obs + [] == s.obs;
  }

  lemma DispatchKeepsTrack(env: Env, b: Ledger, s: State, s': State)
    requires DistinctAgentsPerLevel(env) && Accepted(env) && Flow(env, s) && Tracked(env, b, s) && Flow(env, s')
    requires NextMain(env, s) == Some(s') && s.next < |env.levels[s.level]|
    ensures Tracked(env, b, s') && s'.level == s.level
  {
    var id, pc, added := DispatchMove(env, s, s');
    assert s.next < |env.levels[s.level]| && id in CurrentLevel(env, s);
    DispatchTrack(env, b, s, s', id, pc, added);
  }

  lemma DispatchTrack(env: Env, b: Ledger, s: State, s': State, id: string, pc: Pc, added: seq<Step>)
    requires DistinctAgentsPerLevel(env) && Accepted(env)
    requires Typed(env, s) && AllSane(env, s) && Typed(env, s') && AllSane(env, s')
    requires Tracked(env, b, s) && id in env.nodes && id in CurrentLevel(env, s) && Dispatched(env, s, id, pc, added)
    requires s' == s.(pcs := s.pcs[id := pc], next := s'.next, waiting := s'.waiting, channel := s'.channel,
               log := s.log + added)
    ensures Tracked(env, b, s')
  {
    assert NodeTracked(env, b, s, id);
    assert Sane(env, id, s.pcs[id]) && Sane(env, id, s'.pcs[id]);
    DispatchAhead(env, s, id, pc, added);
    TrackAdvances(env, b, s, s', id, pc, added);
    DispatchIsStep(env, s, s', id, pc, added);
    StepKeepsTrack(env, b, s, s', id);
  }

  lemma DispatchIsStep(env: Env, s: State, s': State, id: string, pc: Pc, added: seq<Step>)
    requires id in env.nodes && id in s.pcs && forall x :: x in added ==> x.invocationId == id
    requires s' == s.(pcs := s.pcs[id := pc], next := s'.next, waiting := s'.waiting, channel := s'.channel,
               log := s.log + added)
    ensures StepOf(env, s, s', id)
  {
    forall x | x != id ensures StepsOf(s'.log, x) == StepsOf(s.log, x) {
      PickAppend(s.log, added, LogKey, x);
      PickAll(added, LogKey, id, x);
    }
  }

  // ---------------------------------------------------------------------
  // The end of a level
  // ---------------------------------------------------------------------

  /** A ledger and a state agree, circuit by circuit, agent by agent and node by node. */
  ghost predicate Agrees(l: Ledger, s: State) {
    && s.results == l.results
    && (forall a :: Entry(s.breaker, a) == Entry(l.breaker, a) && ObsOf(s.obs, a) == ObsOf(l.obs, a))
    && (forall x :: StepsOf(s.log, x) == StepsOf(l.log, x))
  }

  lemma AgreedIsTracked(env: Env, l: Ledger, s: State)
    requires Accepted(env) && Flow(env, s) && Agrees(l, s) && s.next == 0
    requires forall x :: x in CurrentLevel(env, s) && x in s.pcs ==> s.pcs[x].Idle?
    ensures Tracked(env, l, s)
  {
    forall x ensures NodeTracked(env, l, s, x) {
      if x in CurrentLevel(env, s) && x in env.nodes {
        assert Ahead(env, s, x) == FateOf(env, x, l.breaker, l.results);
      }
    }
  }

  lemma DoneAhead(env: Env, s: State, id: string)
    requires id in env.nodes && id in s.pcs && s.pcs[id].Done? && Sane(env, id, s.pcs[id])
    ensures Ahead(env, s, id) == Fate(Entry(s.breaker, AgentAt(env, id)), [], [], s.pcs[id].r)
  {}

  /** The track of a finished node has reached its end. */
  lemma TrackEnds(env: Env, b: Ledger, s: State, id: string)
    requires id in env.nodes && id in s.pcs && s.pcs[id].Done? && Sane(env, id, s.pcs[id]) && OnTrack(env, b, s, id)
    ensures var f := FateOf(env, id, b.breaker, b.results);
            && Entry(s.breaker, AgentAt(env, id)) == f.entry && s.pcs[id].r == f.r
            && ObsOf(s.obs, AgentAt(env, id)) == ObsOf(b.obs, AgentAt(env, id)) + f.obs
            && StepsOf(s.log, id) == StepsOf(b.log, id) + f.steps
  {
    DoneAhead(env, s, id);
    assert ObsOf(s.obs, AgentAt(env, id)) + [] == ObsOf(s.obs, AgentAt(env, id));
    assert StepsOf(s.log, id) + [] == StepsOf(s.log, id);
  }

  /** The whole current level is done. */
  ghost predicate LevelOver(env: Env, s: State)
    requires Typed(env, s)
  {
    s.level < |env.levels| && forall i :: 0 <= i < |env.levels[s.level]| ==> s.pcs[env.levels[s.level][i]].Done?
  }

  lemma DoneAgent(env: Env, b: Ledger, l: Ledger, s: State, agent: string)
    requires Typed(env, s) && AllSane(env, s) && Tracked(env, b, s) && LevelOver(env, s)
    requires AgentAfter(env, env.levels[s.level], b, l, agent)
    ensures Entry(s.breaker, agent) == Entry(l.breaker, agent) && ObsOf(s.obs, agent) == ObsOf(l.obs, agent)
  {
    var level := env.levels[s.level];
    assert AgentUntouched(env, b, s, agent);
    if i :| 0 <= i < |level| && AgentAt(env, level[i]) == agent {
      assert NodeTracked(env, b, s, level[i]) && Sane(env, level[i], s.pcs[level[i]]);
      TrackEnds(env, b, s, level[i]);
    }
  }

  lemma DoneNode(env: Env, b: Ledger, l: Ledger, s: State, r: map<string, AgentResult>, x: string)
    requires Typed(env, s) && AllSane(env, s) && Tracked(env, b, s) && LevelOver(env, s)
    requires NodeAfter(env, env.levels[s.level], b, l, x)
    requires x in r <==> x in s.results || x in env.levels[s.level]
    requires x in env.levels[s.level] ==> s.pcs[x] == Done(r[x])
    requires x in s.results && x !in env.levels[s.level] ==> r[x] == s.results[x]
    ensures StepsOf(s.log, x) == StepsOf(l.log, x)
    ensures (x in r <==> x in l.results) && (x in r ==> r[x] == l.results[x])
  {
    var level := env.levels[s.level];
    assert NodeTracked(env, b, s, x);
    if x in level {
      assert Sane(env, x, s.pcs[x]);
      TrackEnds(env, b, s, x);
    }
  }

  /** What the dispatcher files at the end of a level. */
  lemma FiledNow(env: Env, s: State, x: string)
    requires Accepted(env) && Flow(env, s)
    requires s.level < |env.levels| && s.next == |env.levels[s.level]| && s.waiting == 0
    ensures var r := Gather(s.results, s.channel);
            && (x in r <==> x in s.results || x in env.levels[s.level])
            && (x in env.levels[s.level] ==> s.pcs[x] == Done(r[x]))
            && (x in s.results && x !in env.levels[s.level] ==> r[x] == s.results[x])
  {
    CollectKeys(env, s, x);
    assert forall i :: 0 <= i < |s.channel| ==> FromLevel(env, s, s.channel[i]);
    GatherHas(s.results, s.channel, x);
  }

  /** Everything that executing `ids` in turn leaves behind. */
  ghost predicate LedgerAfter(env: Env, ids: seq<string>, b: Ledger, l: Ledger)
    requires forall x :: x in ids ==> x in env.nodes
  {
    && (forall a {:trigger AgentAfter(env, ids, b, l, a)} :: AgentAfter(env, ids, b, l, a))
    && (forall x {:trigger NodeAfter(env, ids, b, l, x)} :: NodeAfter(env, ids, b, l, x))
  }

  lemma RunNodesAfter(env: Env, ids: seq<string>, b: Ledger)
    requires Accepted(env) && (forall x :: x in ids ==> x in env.nodes) && DistinctAgents(env, ids)
    ensures LedgerAfter(env, ids, b, RunNodes(env, ids, b.results, b))
  {
    forall a ensures AgentAfter(env, ids, b, RunNodes(env, ids, b.results, b), a) { RunNodesAgent(env, ids, b, a); }
    forall x ensures NodeAfter(env, ids, b, RunNodes(env, ids, b.results, b), x) { RunNodesNode(env, ids, b, x); }
  }

  lemma CollectAgrees(env: Env, b: Ledger, l: Ledger, s: State, s': State)
    requires Accepted(env) && Flow(env, s) && Tracked(env, b, s)
    requires s.level < |env.levels| && s.next == |env.levels[s.level]| && s.waiting == 0
    requires s'.results == Gather(s.results, s.channel) && s'.breaker == s.breaker && s'.obs == s.obs && s'.log == s.log
    requires LedgerAfter(env, env.levels[s.level], b, l)
    ensures Agrees(l, s')
  {
    assert LevelOver(env, s) by {
      forall i | 0 <= i < |env.levels[s.level]| ensures s.pcs[env.levels[s.level][i]].Done? { LevelDone(env, s, i); }
    }
    forall a ensures Entry(s'.breaker, a) == Entry(l.breaker, a) && ObsOf(s'.obs, a) == ObsOf(l.obs, a) {
      assert AgentAfter(env, env.levels[s.level], b, l, a);
      DoneAgent(env, b, l, s, a);
    }
    forall x
      ensures StepsOf(s'.log, x) == StepsOf(l.log, x)
      ensures x in s'.results <==> x in l.results
      ensures x in s'.results ==> s'.results[x] == l.results[x]
    {
      FiledNow(env, s, x);
      assert NodeAfter(env, env.levels[s.level], b, l, x);
      DoneNode(env, b, l, s, s'.results, x);
    }
  }

  lemma CollectKeepsTrack(env: Env, b: Ledger, l: Ledger, s: State, s': State)
    requires Accepted(env) && Flow(env, s) && Tracked(env, b, s) && Flow(env, s')
    requires NextMain(env, s) == Some(s') && s.next == |env.levels[s.level]|
    requires LedgerAfter(env, env.levels[s.level], b, l)
    ensures Tracked(env, l, s') && s'.level == s.level + 1
  {
    CollectMove(env, s, s');
    CollectAgrees(env, b, l, s, s');
    forall x | x in CurrentLevel(env, s') && x in s'.pcs ensures s'.pcs[x].Idle? {
      var i :| 0 <= i < |env.levels[s'.level]| && env.levels[s'.level][i] == x;
      assert PlacedAt(env, s', s'.level, i);
      assert i == s'.next ==> s'.pcs[x] == s.pcs[x] && PlacedAt(env, s, s'.level, i);
    }
    AgreedIsTracked(env, l, s');
  }

  // ---------------------------------------------------------------------
  // Whole runs
  // ---------------------------------------------------------------------

  /** The state of the sequential engine before the first level. */
  ghost function Before(s: State): Ledger { Ledger(s.breaker, s.obs, s.log, s.results) }

  lemma MainMoves(env: Env, l: Ledger, s: State, s': State)
    requires Accepted(env) && DistinctAgentsPerLevel(env) && Flow(env, s) && Flow(env, s')
    requires Tracked(env, RunLevels(env, s.level, l), s) && NextMain(env, s) == Some(s')
    ensures Tracked(env, RunLevels(env, s'.level, l), s')
  {
    var b := RunLevels(env, s.level, l);
    if s.next < |env.levels[s.level]| {
      DispatchKeepsTrack(env, b, s, s');
    } else {
      RunNodesAfter(env, env.levels[s.level], b);
      CollectKeepsTrack(env, b, RunNodes(env, env.levels[s.level], b.results, b), s, s');
    }
  }

  lemma MovesKeepTrack(env: Env, pool: int, l: Ledger, s: State, s': State)
    requires Accepted(env) && DistinctAgentsPerLevel(env) && Flow(env, s) && Traced(env, s) && Flow(env, s')
    requires Tracked(env, RunLevels(env, s.level, l), s) && Moves(env, pool, s, s')
    ensures Tracked(env, RunLevels(env, s'.level, l), s')
  {
    if NextMain(env, s) == Some(s') {
      MainMoves(env, l, s, s');
    } else {
      var id :| id in env.nodes && NextNode(env, pool, id, s) == Some(s');
      NodeMoves(env, pool, RunLevels(env, s.level, l), s, s', id);
    }
  }

  lemma NodeMoves(env: Env, pool: int, b: Ledger, s: State, s': State, id: string)
    requires Accepted(env) && DistinctAgentsPerLevel(env) && Flow(env, s) && Traced(env, s) && Flow(env, s')
    requires Tracked(env, b, s) && id in env.nodes && NextNode(env, pool, id, s) == Some(s')
    ensures Tracked(env, b, s') && s'.level == s.level
  {
    if Busy(s.pcs[id]) {
      var e := BusyMove(env, pool, id, s, s');
      BusyKeepsTrack(env, b, s, id, e);
    } else {
      SharedKeepsTrack(env, pool, b, s, s', id);
      SharedMove(env, pool, id, s, s');
    }
  }

  lemma {:induction false} RunsTracked(env: Env, pool: int, run: seq<State>, i: int)
    requires Accepted(env) && DistinctAgentsPerLevel(env) && Run(env, pool, run) && 0 <= i < |run|
    ensures Flow(env, run[i]) && Traced(env, run[i])
    ensures Tracked(env, RunLevels(env, run[i].level, Before(run[0])), run[i])
  {
    if i == 0 {
      RunsTraced(env, pool, run, 0);
      AgreedIsTracked(env, Before(run[0]), run[0]);
    } else {
      RunsTracked(env, pool, run, i - 1);
      StepTracked(env, pool, run, i, Before(run[0]));
    }
  }

  lemma StepTracked(env: Env, pool: int, run: seq<State>, i: int, l: Ledger)
    requires Accepted(env) && DistinctAgentsPerLevel(env) && Run(env, pool, run) && 0 < i < |run|
    requires Flow(env, run[i - 1]) && Traced(env, run[i - 1])
    requires Tracked(env, RunLevels(env, run[i - 1].level, l), run[i - 1])
    ensures Flow(env, run[i]) && Traced(env, run[i])
    ensures Tracked(env, RunLevels(env, run[i].level, l), run[i])
  {
    RunsTraced(env, pool, run, i);
    assert MovesAt(env, pool, run, i);
    MovesKeepTrack(env, pool, l, run[i - 1], run[i]);
  }

  lemma EntriesDetermineBreaker(a: map<string, Circuit>, b: map<string, Circuit>)
    requires forall k :: Entry(a, k) == Entry(b, k)
    ensures a == b
  {
    forall k ensures k in a <==> k in b { assert Entry(a, k) == Entry(b, k); }
    forall k | k in a ensures a[k] == b[k] { assert Entry(a, k) == Entry(b, k); }
  }

  /** Every complete run, with any interleaving and any number of workers, ends with the results and
      circuits of the sequential engine, and with a permutation of its trace and of its metrics calls. */
  lemma RunsLikeSequential(env: Env, pool: int, run: seq<State>)
    requires Accepted(env) && DistinctAgentsPerLevel(env) && Run(env, pool, run) && Final(env, run[|run| - 1])
    ensures var s, l := run[|run| - 1], RunLevels(env, |env.levels|, Before(run[0]));
            && s.results == l.results && s.breaker == l.breaker
            && Tally(s.obs) == Tally(l.obs)
            && multiset(s.log) == multiset(l.log)
  {
    RunsTracked(env, pool, run, |run| - 1);
    TrackedAtEnd(env, RunLevels(env, |env.levels|, Before(run[0])), run[|run| - 1]);
  }

  lemma TrackedAtEnd(env: Env, l: Ledger, s: State)
    requires Typed(env, s) && AllSane(env, s) && Tracked(env, l, s) && Final(env, s)
    ensures s.results == l.results && s.breaker == l.breaker
    ensures Tally(s.obs) == Tally(l.obs) && multiset(s.log) == multiset(l.log)
  {
    forall a ensures Entry(s.breaker, a) == Entry(l.breaker, a) {
      assert AgentUntouched(env, l, s, a);
    }
    forall a ensures Pick(s.obs, Metrics.AgentOf, a) == Pick(l.obs, Metrics.AgentOf, a) {
      assert AgentUntouched(env, l, s, a);
    }
    EntriesDetermineBreaker(s.breaker, l.breaker);
    SameSnapshot(s.obs, l.obs);
    forall x ensures Pick(s.log, LogKey, x) == Pick(l.log, LogKey, x) {
      assert NodeTracked(env, l, s, x);
    }
    PicksDetermineContents(s.log, l.log, LogKey);
  }

  /** Two complete runs of the same plan from the same start, with different interleavings and
      different numbers of workers, have the same results, circuits, metrics and trace contents. */
  lemma ScheduleIndependence(env: Env, pool: int, pool': int, run: seq<State>, run': seq<State>)
    requires Accepted(env) && DistinctAgentsPerLevel(env)
    requires Run(env, pool, run) && Final(env, run[|run| - 1])
    requires Run(env, pool', run') && Final(env, run'[|run'| - 1])
    requires run[0].breaker == run'[0].breaker && run[0].obs == run'[0].obs
    ensures var s, s' := run[|run| - 1], run'[|run'| - 1];
            && s.results == s'.results && s.breaker == s'.breaker
            && Tally(s.obs) == Tally(s'.obs)
            && multiset(s.log) == multiset(s'.log)
  {
    RunsLikeSequential(env, pool, run);
    RunsLikeSequential(env, pool', run');
  }
}
