/** Bounded damage in runs of the engine: under which readings it holds, and a run in which it fails. */
module EngineDamage {
  import opened Basics
  import opened Types
  import opened Breaker
  import opened BreakerHistory
  import opened Engine
  import opened EngineFlow
  import opened EngineBreaker
  import opened EngineReach

  // ---------------------------------------------------------------------
  // Readings that lie close enough together
  // ---------------------------------------------------------------------

  /** The readings of the agent's nodes: failures read at least `lo`, requests less than `hi`. */
  ghost predicate ReadingsWithin(env: Env, agent: string, lo: int, hi: int) {
    forall id, a :: id in env.nodes && AgentAt(env, id) == agent ==>
      lo <= env.oracle.failedAt(id, a) && env.oracle.askedAt(id, a) < hi
  }

  ghost predicate EventsWithin(h: History, lo: int, hi: int) {
    forall v :: v in h ==> (v.Failed? ==> lo <= v.now) && (v.Asked? ==> v.now < hi)
  }

  lemma LocalReadings(env: Env, id: string, pc: Pc, entry: Option<Circuit>, lo: int, hi: int)
    requires id in env.nodes && Busy(pc) && ReadingsWithin(env, AgentAt(env, id), lo, hi)
    ensures EventsWithin(Local(env, id, pc, entry).events, lo, hi)
  {}

  lemma BusyReadings(env: Env, s: State, id: string, e: Effect, agent: string, lo: int, hi: int)
    requires Typed(env, s) && id in env.nodes && (forall v :: v in e.events ==> v.agent == AgentAt(env, id))
    requires AgentAt(env, id) == agent ==> EventsWithin(e.events, lo, hi)
    requires EventsWithin(HistoryOf(s, agent), lo, hi)
    ensures EventsWithin(HistoryOf(ApplyEffect(env, s, id, e), agent), lo, hi)
  {
    PickAppend(s.events, e.events, BreakerHistory.AgentOf, agent);
    PickAll(e.events, BreakerHistory.AgentOf, AgentAt(env, id), agent);
  }

  lemma NodeReadings(env: Env, pool: int, s: State, s': State, id: string, agent: string, lo: int, hi: int)
    requires Typed(env, s) && id in env.nodes && NextNode(env, pool, id, s) == Some(s')
    requires ReadingsWithin(env, agent, lo, hi) && EventsWithin(HistoryOf(s, agent), lo, hi)
    ensures EventsWithin(HistoryOf(s', agent), lo, hi)
  {
    if Busy(s.pcs[id]) {
      var entry := Entry(s.breaker, AgentAt(env, id));
      var e := BusyMove(env, pool, id, s, s');
      LocalBreakerEffect(env, id, s.pcs[id], entry);
      if AgentAt(env, id) == agent { LocalReadings(env, id, s.pcs[id], entry, lo, hi); }
      BusyReadings(env, s, id, e, agent, lo, hi);
    } else {
      SharedMove(env, pool, id, s, s');
    }
  }

  lemma {:induction false} RunsReadings(env: Env, pool: int, run: seq<State>, i: int, agent: string, lo: int, hi: int)
    requires Accepted(env) && Run(env, pool, run) && FreshBreaker(run[0]) && 0 <= i < |run|
    requires ReadingsWithin(env, agent, lo, hi)
    ensures EventsWithin(HistoryOf(run[i], agent), lo, hi)
  {
    if i > 0 {
      RunsReadings(env, pool, run, i - 1, agent, lo, hi);
      var s, s' := run[i - 1], run[i];
      assert MovesAt(env, pool, run, i);
      if NextMain(env, s) == Some(s') {
        MainQuiet(env, s, s', agent);
      } else {
        var id :| id in env.nodes && NextNode(env, pool, id, s) == Some(s');
        NodeReadings(env, pool, s, s', id, agent, lo, hi);
      }
    }
  }

  /** If every call of an agent fails, and its requests are read less than a reset time after the earliest
      reading of a failure, a whole run admits at most threshold + pool - 1 calls of it, in whatever order
      the readings are recorded. */
  lemma DamageBoundByReadings(env: Env, pool: int, run: seq<State>, i: int, agent: string, policy: BreakerPolicy,
    lo: int)
    requires Accepted(env) && pool >= 1 && Run(env, pool, run) && FreshBreaker(run[0]) && 0 <= i < |run|
    requires AlwaysFails(env, agent, policy) && policy.threshold > 0
    requires ReadingsWithin(env, agent, lo, lo + ResetAfter(policy))
    ensures Admissions(HistoryOf(run[i], agent)) <= policy.threshold + pool - 1
  {
    var h := HistoryOf(run[i], agent);
    RunsReadings(env, pool, run, i, agent, lo, lo + ResetAfter(policy));
    RunsFailing(env, pool, run, i, agent, policy);
    assert forall j :: 0 <= j < |h| ==> h[j] in h;
    CloseReadingsShut(h, policy, lo);
    DamageBound(env, pool, run, i, agent, policy);
  }

  // ---------------------------------------------------------------------
  // A run that exceeds the bound
  // ---------------------------------------------------------------------

  /** Every call fails. The failure of `a` is read at 5, the others at 1; `c` asks at 12, the others at 0. */
  function TrioOracle(a: string, c: string): Oracle {
    Oracle(
      (id: string, n: nat, t: int) => Errored(ZERO_OUTPUT, Plain("failed")),
      (id: string, n: nat) => if id == c then 12 else 0,
      (id: string, n: nat) => if id == a then 5 else 1,
      (id: string, n: nat) => 0,
      (id: string, n: nat) => None)
  }

  /** Three nodes of the first level share a registered agent with threshold 1 and reset time 10. */
  ghost predicate Trio(env: Env, a: string, b: string, c: string, agent: string, p: BreakerPolicy) {
    && env.levels != [] && a in env.levels[0] && b in env.levels[0] && c in env.levels[0]
    && a != b && a != c && b != c && a in env.nodes && b in env.nodes && c in env.nodes
    && AgentAt(env, a) == agent && AgentAt(env, b) == agent && AgentAt(env, c) == agent && agent in env.registry
    && (forall id :: id in env.nodes && AgentAt(env, id) == agent ==> PolicyAt(env, id) == p)
    && p.threshold == 1 && p.resetTimeout == 10 && MaxAttempts(env, a) == 1
    && env.oracle == TrioOracle(a, c)
  }

  lemma BothCalled(env: Env, a: string, b: string, c: string, agent: string, p: BreakerPolicy, o: CallOutcome)
    returns (run: seq<State>)
    requires Accepted(env) && Trio(env, a, b, c, agent, p) && o == Errored(ZERO_OUTPUT, Plain("failed"))
    ensures Run(env, 2, run) && run[0] == FreshStart(env)
    ensures Scene(
              env, run[|run| - 1], agent, None,
              [Asked(a, agent, p, 0, true, false), Asked(b, agent, p, 0, true, false)], 2)
    ensures var s := run[|run| - 1];
            s.pcs[a] == Settling(1, false, o) && s.pcs[b] == Settling(1, false, o) && s.pcs[c].Spawned?
  {
    assert Pair(env, a, b, agent, p, o);
    run := PairCalled(env, 2, a, b, agent, p, o);
  }

  lemma OneFails(env: Env, a: string, b: string, c: string, agent: string, p: BreakerPolicy, o: CallOutcome)
    returns (run: seq<State>)
    requires Accepted(env) && Trio(env, a, b, c, agent, p) && o == Errored(ZERO_OUTPUT, Plain("failed"))
    ensures Run(env, 2, run) && run[0] == FreshStart(env)
    ensures Scene(
              env, run[|run| - 1], agent, Some(Circuit(0, Some(15), false)),
              [Asked(a, agent, p, 0, true, false), Asked(b, agent, p, 0, true, false), Failed(a, agent, p, 5)], 2)
    ensures var s := run[|run| - 1];
            && s.pcs[a].Emitting? && s.pcs[a].next.Finish? && s.pcs[b] == Settling(1, false, o) && s.pcs[c].Spawned?
  {
    run := BothCalled(env, a, b, c, agent, p, o);
    var e := FailureMovesDeadline(env, a, None, o);
    run := LocalStep(env, 2, run, a, e);
  }

  lemma BothFail(env: Env, a: string, b: string, c: string, agent: string, p: BreakerPolicy) returns (run: seq<State>)
    requires Accepted(env) && Trio(env, a, b, c, agent, p)
    ensures Run(env, 2, run) && run[0] == FreshStart(env)
    ensures Scene(
              env, run[|run| - 1], agent, Some(Circuit(0, Some(11), false)),
              [Asked(a, agent, p, 0, true, false), Asked(b, agent, p, 0, true, false),
               Failed(a, agent, p, 5), Failed(b, agent, p, 1)], 2)
    ensures var s := run[|run| - 1]; s.pcs[a].Emitting? && s.pcs[a].next.Finish? && s.pcs[c].Spawned?
  {
    var o := Errored(ZERO_OUTPUT, Plain("failed"));
    run := OneFails(env, a, b, c, agent, p, o);
    var e := FailureMovesDeadline(env, b, Some(Circuit(0, Some(15), false)), o);
    run := LocalStep(env, 2, run, b, e);
  }

  lemma SlotIsFree(env: Env, a: string, b: string, c: string, agent: string, p: BreakerPolicy) returns (run: seq<State>)
    requires Accepted(env) && Trio(env, a, b, c, agent, p)
    ensures Run(env, 2, run) && run[0] == FreshStart(env)
    ensures var s := run[|run| - 1];
            && Typed(env, s) && s.pcs[c].Spawned? && s.slots == 1
            && Entry(s.breaker, agent) == Some(Circuit(0, Some(11), false))
            && s.events == [Asked(a, agent, p, 0, true, false), Asked(b, agent, p, 0, true, false),
                Failed(a, agent, p, 5), Failed(b, agent, p, 1)]
  {
    run := BothFail(env, a, b, c, agent, p);
    var pc := run[|run| - 1].pcs[a];
    assert env.levels[0] != [];
    run := GiveSlotBack(env, 2, run, a, pc.todo, pc.next.r);
  }

  lemma ThirdCall(env: Env, a: string, b: string, c: string, agent: string, p: BreakerPolicy) returns (run: seq<State>)
    requires Accepted(env) && Trio(env, a, b, c, agent, p)
    ensures Run(env, 2, run) && run[0] == FreshStart(env) && run[|run| - 1].events == EarlyReading(p, agent, a, b, c)
  {
    run := SlotIsFree(env, a, b, c, agent, p);
    run := ReachAsking(env, 2, run, c, Some(Circuit(0, Some(11), false)));
    var e := ProbeGranted(env, c, 11);
    run := LocalStep(env, 2, run, c, e);
  }

  /** A run of two workers on a fresh engine in which every call fails and no reading reaches the first
      opening plus the reset time, but three calls are admitted with threshold 1: the failure of `b` was
      read before the opening and recorded after it. */
  lemma EarlyReadingInRun(env: Env, a: string, b: string, c: string, agent: string, p: BreakerPolicy)
    returns (run: seq<State>)
    requires Accepted(env) && Trio(env, a, b, c, agent, p)
    ensures Run(env, 2, run) && FreshBreaker(run[0]) && AlwaysFails(env, agent, p)
    ensures var h := HistoryOf(run[|run| - 1], agent); BeforeFirstDeadline(h, p) && Admissions(h) == p.threshold + 2
  {
    run := ThirdCall(env, a, b, c, agent, p);
    EarlyReadingBreaksBound(p, agent, a, b, c);
    EarlyReadingOf(run[|run| - 1], p, agent, a, b, c);
    TrioFails(env, a, b, c, agent, p);
  }

  lemma EarlyReadingOf(s: State, p: BreakerPolicy, agent: string, a: string, b: string, c: string)
    requires s.events == EarlyReading(p, agent, a, b, c)
    ensures HistoryOf(s, agent) == EarlyReading(p, agent, a, b, c)
  {
    PickAll(s.events, BreakerHistory.AgentOf, agent, agent);
  }

  lemma TrioFails(env: Env, a: string, b: string, c: string, agent: string, p: BreakerPolicy)
    requires Trio(env, a, b, c, agent, p)
    ensures AlwaysFails(env, agent, p)
  {}
}
