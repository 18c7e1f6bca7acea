/** How failures travel along dependencies, and the list of results that a run returns. */
module EnginePropagation {
  import opened Basics
  import opened Types
  import opened Graph
  import opened Engine
  import opened EngineFlow
  import opened EngineTrace
  import Planner

  // ---------------------------------------------------------------------
  // The invariant
  // ---------------------------------------------------------------------

  /** The node was skipped: its log starts with a step of attempt 0. */
  ghost predicate WasSkipped(s: State, id: string) {
    LogOf(s, id) != [] && LogOf(s, id)[0].attempt == 0
  }

  /** The result quotes the first dependency that failed. */
  ghost predicate SkippedFor(deps: seq<string>, results: map<string, AgentResult>, r: AgentResult) {
    r.err.Some? && QuotesFirst(deps, results, r.err.value)
  }

  /** A node that runs or ran had only successful dependencies; a skipped one had a failed dependency. */
  ghost predicate JustifiedAt(env: Env, s: State, id: string)
    requires id in env.nodes && id in s.pcs
  {
    var deps, pc := env.nodes[id].dependsOn, s.pcs[id];
    && (Running(pc) || (pc.Done? && !WasSkipped(s, id)) ==> DepsSucceeded(deps, s.results))
    && (pc.Skipping? || (pc.Done? && WasSkipped(s, id)) ==> SkippedFor(deps, s.results, pc.r))
  }

  ghost predicate Justified(env: Env, s: State)
    requires Typed(env, s)
  {
    forall id {:trigger JustifiedAt(env, s, id)} :: id in s.pcs ==> JustifiedAt(env, s, id)
  }

  lemma EndedNotSkipped(env: Env, s: State, id: string, r: AgentResult)
    requires id in env.nodes
    ensures Ended(env, id, LogOf(s, id), r) ==> !WasSkipped(s, id)
    ensures Skipped(env, id, LogOf(s, id), r) ==> WasSkipped(s, id)
  {
    if Ended(env, id, LogOf(s, id), r) { EndedNumbers(env, id, LogOf(s, id), r); }
  }

  lemma NodeJustified(env: Env, pool: int, id: string, s: State, s': State)
    requires Accepted(env) && Flow(env, s) && Traced(env, s) && Justified(env, s)
    requires id in env.nodes && NextNode(env, pool, id, s) == Some(s')
    ensures Typed(env, s') && Justified(env, s')
  {
    assert TracedAt(env, s, id) && Sane(env, id, s.pcs[id]);
    if Busy(s.pcs[id]) {
      var entry := Breaker.Entry(s.breaker, AgentAt(env, id));
      LocalOwn(env, id, s.pcs[id], entry);
      LocalSane(env, id, s.pcs[id], entry);
      var e := BusyMove(env, pool, id, s, s');
      BusyJustified(env, s, id, e);
    } else {
      SharedMove(env, pool, id, s, s');
      SharedJustified(env, s, s', id);
    }
  }

  lemma BusyJustified(env: Env, s: State, id: string, e: Effect)
    requires Typed(env, s) && Justified(env, s) && id in env.nodes && Busy(s.pcs[id])
    requires OwnEffect(env, id, e) && (Busy(e.pc) || e.pc.Sending?)
    ensures Typed(env, ApplyEffect(env, s, id, e)) && Justified(env, ApplyEffect(env, s, id, e))
  {
    var s' := ApplyEffect(env, s, id, e);
    forall x | x in s'.pcs ensures JustifiedAt(env, s', x) {
      assert JustifiedAt(env, s, x);
      LogGrows(s, s', id, e.steps, x);
    }
  }

  lemma SharedJustified(env: Env, s: State, s': State, id: string)
    requires Typed(env, s) && Justified(env, s) && id in env.nodes && TracedAt(env, s, id)
    requires s.pcs[id].Spawned? || s.pcs[id].Sending? || s.pcs[id].Sent? || s.pcs[id].Freed?
    requires Typed(env, s') && s'.pcs == s.pcs[id := AfterShared(s.pcs[id])] && s'.results == s.results &&
               s'.log == s.log
    ensures Justified(env, s')
  {
    if s.pcs[id].Freed? { EndedNotSkipped(env, s, id, s.pcs[id].r); }
    forall x | x in s'.pcs ensures JustifiedAt(env, s', x) {
      assert JustifiedAt(env, s, x);
    }
  }

  /** Every dependency of a node of the current level has a filed result. */
  lemma DependenciesFiled(env: Env, s: State, id: string)
    requires Accepted(env) && Typed(env, s) && Filed(env, s) && s.level < |env.levels| && id in env.levels[s.level]
    ensures id in env.nodes && forall d :: d in env.nodes[id].dependsOn ==> d in s.results && d in env.nodes
  {
    var g := Planner.DepsOf(env.nodes);
    assert LevelAt(g, env.levels, s.level);
    assert id in Layer(g, Members(env.levels[..s.level]));
    assert g[id] == env.nodes[id].dependsOn;
    forall d | d in g[id] ensures d in s.results && d in env.nodes {
      assert d in g;
    }
  }

  /** The message about a missing dependency result is never produced. */
  lemma NoMissingDependency(env: Env, pool: int, run: seq<State>, i: int, id: string)
    requires Accepted(env) && Run(env, pool, run) && 0 <= i < |run|
    requires run[i].level < |env.levels| && id in env.levels[run[i].level]
    ensures id in env.nodes
    ensures var e := DependencyError(env.nodes[id].dependsOn, env.nodes, run[i].results);
            e.Some? ==> QuotesFirst(env.nodes[id].dependsOn, run[i].results, e.value)
  {
    RunsFlow(env, pool, run, i);
    DependenciesFiled(env, run[i], id);
    DependencyErrorMeans(env.nodes[id].dependsOn, env.nodes, run[i].results);
  }

  lemma DispatchJustified(env: Env, s: State, s': State)
    requires Accepted(env) && Flow(env, s) && Traced(env, s) && Justified(env, s)
    requires NextMain(env, s) == Some(s') && s.next < |env.levels[s.level]|
    ensures Typed(env, s') && Justified(env, s')
  {
    var id, pc, added := DispatchMove(env, s, s');
    JustifiedDispatch(env, s, id);
    assert Typed(env, s');
    DispatchedJustified(env, s, s', id, pc, added);
  }

  lemma JustifiedDispatch(env: Env, s: State, id: string)
    requires Accepted(env) && Typed(env, s) && Filed(env, s) && Traced(env, s)
    requires s.level < |env.levels| && id in env.levels[s.level] && id in env.nodes
    ensures var error, deps := DependencyError(env.nodes[id].dependsOn, env.nodes, s.results), env.nodes[id].dependsOn;
            && (error.Some? ==> QuotesFirst(deps, s.results, error.value))
            && (error.None? ==> DepsSucceeded(deps, s.results))
    ensures s.pcs[id].Skipping? ==> WasSkipped(s, id)
  {
    DependenciesFiled(env, s, id);
    DependencyErrorMeans(env.nodes[id].dependsOn, env.nodes, s.results);
    assert TracedAt(env, s, id);
    if s.pcs[id].Skipping? { EndedNotSkipped(env, s, id, s.pcs[id].r); }
  }

  lemma DispatchedJustified(env: Env, s: State, s': State, id: string, pc: Pc, added: seq<Step>)
    requires Accepted(env) && Typed(env, s) && Typed(env, s') && Justified(env, s) && id in env.nodes
    requires s'.pcs == s.pcs[id := pc] && s'.log == s.log + added && s'.results == s.results
    requires forall x :: x in added ==> x.invocationId == id
    requires match pc
             case Skipping(r) => SkippedFor(env.nodes[id].dependsOn, s.results, r)
             case Spawned => DepsSucceeded(env.nodes[id].dependsOn, s.results)
             case Done(r) => s.pcs[id] == Skipping(r) && added == [] && WasSkipped(s, id)
             case _ => false
    ensures Justified(env, s')
  {
    forall x | x in s'.pcs ensures JustifiedAt(env, s', x) {
      assert JustifiedAt(env, s, x);
      LogGrows(s, s', id, added, x);
    }
  }

  lemma CollectJustified(env: Env, s: State, s': State)
    requires Accepted(env) && Flow(env, s) && Flow(env, s') && Justified(env, s)
    requires NextMain(env, s) == Some(s') && s.next == |env.levels[s.level]|
    ensures Justified(env, s')
  {
    CollectMove(env, s, s');
    ResultsStay(env, s, s');
    JustifiedStays(env, s, s');
  }

  lemma ResultsStay(env: Env, s: State, s': State)
    requires Accepted(env) && Typed(env, s) && Filed(env, s) && Typed(env, s') && Filed(env, s')
    requires s'.pcs == s.pcs && s'.results == Gather(s.results, s.channel)
    ensures forall d :: d in s.results ==> d in s'.results && s'.results[d] == s.results[d]
  {
    forall d | d in s.results ensures d in s'.results && s'.results[d] == s.results[d] {
      GatherHas(s.results, s.channel, d);
      MembersOf(env.levels[..s.level], d);
      MembersOf(env.levels, d);
    }
  }

  lemma JustifiedStays(env: Env, s: State, s': State)
    requires Typed(env, s) && Typed(env, s') && Justified(env, s) && s'.pcs == s.pcs && s'.log == s.log
    requires forall d :: d in s.results ==> d in s'.results && s'.results[d] == s.results[d]
    ensures Justified(env, s')
  {
    forall x | x in s'.pcs ensures JustifiedAt(env, s', x) {
      assert JustifiedAt(env, s, x);
      if s.pcs[x].Skipping? || s.pcs[x].Done? { QuoteStays(env.nodes[x].dependsOn, s.results, s'.results, s.pcs[x].r); }
    }
  }

  lemma QuoteStays(
    deps: seq<string>, before: map<string, AgentResult>, after: map<string, AgentResult>, r: AgentResult)
    requires forall d :: d in before ==> d in after && after[d] == before[d]
    ensures SkippedFor(deps, before, r) ==> SkippedFor(deps, after, r)
  {
    if SkippedFor(deps, before, r) {
      var j :| FirstFailed(deps, before, j) && r.err.value == Quoting(deps[j], before[deps[j]]);
      assert FirstFailed(deps, after, j);
    }
  }

  lemma {:induction false} RunsJustified(env: Env, pool: int, run: seq<State>, i: int)
    requires Accepted(env) && Run(env, pool, run) && 0 <= i < |run|
    ensures Flow(env, run[i]) && Traced(env, run[i]) && Justified(env, run[i])
  {
    if i == 0 {
      RunsTraced(env, pool, run, 0);
    } else {
      RunsJustified(env, pool, run, i - 1);
      StepJustified(env, pool, run, i);
    }
  }

  lemma StepJustified(env: Env, pool: int, run: seq<State>, i: int)
    requires Accepted(env) && Run(env, pool, run) && 0 < i < |run|
    requires Flow(env, run[i - 1]) && Traced(env, run[i - 1]) && Justified(env, run[i - 1])
    ensures Flow(env, run[i]) && Traced(env, run[i]) && Justified(env, run[i])
  {
    StepTraced(env, pool, run, i);
    assert MovesAt(env, pool, run, i);
    MovesJustified(env, pool, run[i - 1], run[i]);
  }

  lemma MovesJustified(env: Env, pool: int, s: State, s': State)
    requires Accepted(env) && Flow(env, s) && Flow(env, s') && Traced(env, s) && Justified(env, s)
    requires Moves(env, pool, s, s')
    ensures Justified(env, s')
  {
    if NextMain(env, s) == Some(s') {
      if s.next < |env.levels[s.level]| {
        DispatchJustified(env, s, s');
      } else {
        CollectJustified(env, s, s');
      }
    } else {
      var id :| id in env.nodes && NextNode(env, pool, id, s) == Some(s');
      NodeJustified(env, pool, id, s, s');
    }
  }

  // ---------------------------------------------------------------------
  // Ancestors
  // ---------------------------------------------------------------------

  /** The agent of the node was (or is being) given the call. */
  ghost predicate Executed(s: State, id: string) {
    id in s.pcs && (Running(s.pcs[id]) || (s.pcs[id].Done? && !WasSkipped(s, id)))
  }

  ghost predicate ExecutedWell(s: State, id: string) {
    id in s.pcs && s.pcs[id].Done? && !WasSkipped(s, id) && s.pcs[id].r.err.None?
  }

  ghost predicate ExecutedBadly(s: State, id: string) {
    id in s.pcs && s.pcs[id].Done? && !WasSkipped(s, id) && s.pcs[id].r.err.Some?
  }

  /** Filed results are those of finished nodes, and a successful one was not skipped. */
  ghost predicate SoundlyFiled(s: State) {
    forall d :: d in s.results ==>
      d in s.pcs && s.pcs[d] == Done(s.results[d]) && (s.results[d].err.None? ==> !WasSkipped(s, d))
  }

  lemma FiledSoundly(env: Env, s: State)
    requires Accepted(env) && Typed(env, s) && Filed(env, s) && Traced(env, s)
    ensures SoundlyFiled(s)
  {
    forall d | d in s.results
      ensures d in s.pcs && s.pcs[d] == Done(s.results[d]) && (s.results[d].err.None? ==> !WasSkipped(s, d))
    {
      MembersOf(env.levels[..s.level], d);
      MembersOf(env.levels, d);
      assert TracedAt(env, s, d);
      EndedNotSkipped(env, s, d, s.results[d]);
    }
  }

  lemma WellExecutedDep(env: Env, s: State, id: string, d: string)
    requires SoundlyFiled(s) && id in env.nodes && Executed(s, id) && JustifiedAt(env, s, id)
    requires d in env.nodes[id].dependsOn
    ensures ExecutedWell(s, d)
  {}

  /** A node that runs or ran has only successfully executed ancestors. */
  lemma {:induction false} AncestorsSucceeded(env: Env, s: State, p: seq<string>, j: int)
    requires Typed(env, s) && SoundlyFiled(s) && Justified(env, s)
    requires Path(Planner.DepsOf(env.nodes), p) && Executed(s, p[|p| - 1])
    requires 0 <= j < |p| - 1
    ensures ExecutedWell(s, p[j])
    decreases |p|
  {
    assert JustifiedAt(env, s, p[|p| - 1]);
    WellExecutedDep(env, s, p[|p| - 1], p[|p| - 2]);
    if j < |p| - 2 {
      AncestorsSucceeded(env, s, p[..|p| - 1], j);
    }
  }

  ghost predicate Skips(s: State, id: string) {
    id in s.pcs && (s.pcs[id].Skipping? || (s.pcs[id].Done? && WasSkipped(s, id)))
  }

  lemma BadDep(env: Env, s: State, id: string) returns (d: string)
    requires SoundlyFiled(s) && id in env.nodes && Skips(s, id) && JustifiedAt(env, s, id)
    ensures d in env.nodes[id].dependsOn && d in s.pcs && (Skips(s, d) || ExecutedBadly(s, d))
  {
    var deps := env.nodes[id].dependsOn;
    var j :| FirstFailed(deps, s.results, j);
    d := deps[j];
  }

  /** A skipped node has an ancestor that was executed and failed. */
  lemma {:induction false} FailedAncestor(env: Env, s: State, id: string, k: int) returns (p: seq<string>)
    requires Accepted(env) && Typed(env, s) && SoundlyFiled(s) && Justified(env, s)
    requires id in env.nodes && Skips(s, id) && 0 <= k < |env.levels| && id in env.levels[k]
    ensures Path(Planner.DepsOf(env.nodes), p) && |p| >= 2 && p[|p| - 1] == id && ExecutedBadly(s, p[0])
    decreases k
  {
    var g := Planner.DepsOf(env.nodes);
    assert JustifiedAt(env, s, id);
    var d := BadDep(env, s, id);
    assert d in g[id];
    if ExecutedBadly(s, d) {
      p := [d, id];
    } else {
      var j := DependencyBelow(g, env.levels, k, id, d);
      var q := FailedAncestor(env, s, d, j);
      p := q + [id];
    }
  }

  /** In every state of every run: an executed node has only well executed ancestors, and a finished
      node was skipped exactly when some ancestor was executed and failed. */
  lemma FailurePropagation(env: Env, pool: int, run: seq<State>, i: int, id: string)
    requires Accepted(env) && Run(env, pool, run) && 0 <= i < |run| && id in env.nodes
    ensures var g, s := Planner.DepsOf(env.nodes), run[i];
            && id in s.pcs
            && (Executed(s, id) ==>
                  forall p, j :: Path(g, p) && p[|p| - 1] == id && 0 <= j < |p| - 1 ==> ExecutedWell(s, p[j]))
            && (s.pcs[id].Done? ==>
                  (WasSkipped(s, id) <==>
                     exists p :: Path(g, p) && |p| >= 2 && p[|p| - 1] == id && ExecutedBadly(s, p[0])))
  {
    RunsJustified(env, pool, run, i);
    var g, s := Planner.DepsOf(env.nodes), run[i];
    FiledSoundly(env, s);
    if Executed(s, id) {
      forall p, j | Path(g, p) && p[|p| - 1] == id && 0 <= j < |p| - 1 ensures ExecutedWell(s, p[j]) {
        AncestorsSucceeded(env, s, p, j);
      }
    }
    if s.pcs[id].Done? && WasSkipped(s, id) {
      var k, x := PositionOf(env, id);
      var p := FailedAncestor(env, s, id, k);
    }
  }

  /** One step of attempt 0 if the node was skipped, else its attempts 1 to k, the last of which
      gives the result unless the wait after it was cancelled. */
  ghost predicate Accounted(env: Env, s: State, id: string, r: AgentResult)
    requires id in env.nodes
  {
    var steps := LogOf(s, id);
    if WasSkipped(s, id) then |steps| == 1 && r.err.Some? && steps[0].error == r.err.value.text
    else
      && 1 <= |steps| <= MaxAttempts(env, id)
      && (forall a :: 0 <= a < |steps| ==> steps[a].attempt == a + 1)
      && (forall a :: 0 <= a < |steps| - 1 ==> Retried(env, id, a + 1, steps[a]))
      && (LastStep(env, id, |steps|, steps[|steps| - 1], r) || CutShort(env, id, steps, r))
  }

  lemma EndedAccounted(env: Env, s: State, id: string, r: AgentResult)
    requires id in env.nodes && (Ended(env, id, LogOf(s, id), r) || Skipped(env, id, LogOf(s, id), r))
    ensures Accounted(env, s, id, r)
  {
    EndedNotSkipped(env, s, id, r);
    if !WasSkipped(s, id) { EndedNumbers(env, id, LogOf(s, id), r); }
  }

  /** The trace steps of a finished node, in every state of every run. */
  lemma FinishedSteps(env: Env, pool: int, run: seq<State>, i: int, id: string)
    requires Accepted(env) && Run(env, pool, run) && 0 <= i < |run| && id in env.nodes
    requires id in run[i].pcs && run[i].pcs[id].Done?
    ensures Accounted(env, run[i], id, run[i].pcs[id].r)
  {
    RunsTraced(env, pool, run, i);
    DoneAccounted(env, run[i], id);
  }

  lemma DoneAccounted(env: Env, s: State, id: string)
    requires Typed(env, s) && Traced(env, s) && id in env.nodes && s.pcs[id].Done?
    ensures Accounted(env, s, id, s.pcs[id].r)
  {
    assert TracedAt(env, s, id);
    EndedAccounted(env, s, id, s.pcs[id].r);
  }

  // ---------------------------------------------------------------------
  // The results that are returned
  // ---------------------------------------------------------------------

  predicate LessId(a: AgentResult, b: AgentResult) { Less(a.invocation.id, b.invocation.id) }

  lemma LessIdIsStrictOrder()
    ensures StrictOrder(LessId)
  {
    LessIsStrictOrder();
    assert forall a: AgentResult, b: AgentResult :: LessId(a, b) <==> Less(a.invocation.id, b.invocation.id);
  }

  /** When a run is over, every node has exactly one result, the one it reported. */
  lemma AllFiled(env: Env, pool: int, run: seq<State>)
    requires Accepted(env) && Run(env, pool, run) && Final(env, run[|run| - 1])
    ensures var s := run[|run| - 1];
            && s.results.Keys == env.nodes.Keys
            && forall id :: id in env.nodes ==>
                id in s.pcs && s.pcs[id] == Done(s.results[id]) && s.results[id].invocation == env.nodes[id].invocation
  {
    var s := run[|run| - 1];
    RunsFlow(env, pool, run, |run| - 1);
    assert env.levels[..s.level] == env.levels;
    forall id | id in env.nodes ensures s.results[id].invocation == env.nodes[id].invocation {
      assert Sane(env, id, s.pcs[id]);
    }
  }

  lemma PermutedResults(a: seq<AgentResult>, b: seq<AgentResult>)
    requires multiset(a) == multiset(b)
    requires forall i, j :: 0 <= i < j < |a| ==> a[i].invocation.id != a[j].invocation.id
    ensures forall i, j :: 0 <= i < j < |b| ==> b[i].invocation.id != b[j].invocation.id
    ensures forall x :: x in a <==> x in b
  {
    assert Distinct(a);
    PermutationOfDistinct(a, b);
    forall i, j | 0 <= i < j < |b| ensures b[i].invocation.id != b[j].invocation.id {
      assert b[i] in a && b[j] in a && b[i] != b[j];
      var x :| 0 <= x < |a| && a[x] == b[i];
      var y :| 0 <= y < |a| && a[y] == b[j];
      assert if x < y then a[x].invocation.id != a[y].invocation.id else a[y].invocation.id != a[x].invocation.id;
    }
  }

  /** The end of `RunPlan`: one result per node, strictly sorted by ID. */
  method ReportResults(nodes: seq<PlanNode>, resultsById: map<string, AgentResult>) returns (results: seq<AgentResult>)
    requires Planner.CleanIds(nodes)
    requires forall i :: 0 <= i < |nodes| ==>
               Planner.Id(nodes[i]) in resultsById &&
                   resultsById[Planner.Id(nodes[i])].invocation == nodes[i].invocation
    ensures |results| == |nodes|
    ensures forall i, j :: 0 <= i < j < |results| ==> Less(results[i].invocation.id, results[j].invocation.id)
    ensures forall r :: r in results <==> exists i :: 0 <= i < |nodes| && r == resultsById[Planner.Id(nodes[i])]
  {
    var listed: seq<AgentResult> := [];
    for i := 0 to |nodes|
      invariant |listed| == i
      invariant forall j :: 0 <= j < i ==> listed[j] == resultsById[Planner.Id(nodes[j])]
    {
      listed := listed + [resultsById[Planner.Id(nodes[i])]];
    }
    forall i, j | 0 <= i < j < |listed| ensures listed[i].invocation.id != listed[j].invocation.id {
      assert Planner.Id(nodes[i]) != Planner.Id(nodes[j]);
    }
    LessIdIsStrictOrder();
    results := SortSlice(listed, LessId);
    PermutedResults(listed, results);
    forall i, j | 0 <= i < j < |results| ensures LessId(results[i], results[j]) {
      LessTotal(results[i].invocation.id, results[j].invocation.id);
    }
  }
}
