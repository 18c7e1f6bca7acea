/** The engine never deadlocks, every run ends, and the worker pool bounds the calls in flight. */
module EngineProgress {
  import opened Basics
  import opened Graph
  import opened Engine
  import opened EngineFlow
  import Planner

  // ---------------------------------------------------------------------
  // The worker pool
  // ---------------------------------------------------------------------

  lemma MovesKeepSlots(env: Env, pool: int, s: State, s': State)
    requires Flow(env, s) && Moves(env, pool, s, s') && s.slots <= pool
    ensures s'.slots <= pool
  {
    if NextMain(env, s) == Some(s') {
    } else {
      var id :| id in env.nodes && NextNode(env, pool, id, s) == Some(s');
      var pc := NodeStepFrame(env, pool, id, s, s');
    }
  }

  lemma {:induction false} RunsKeepSlots(env: Env, pool: int, run: seq<State>, i: int)
    requires Accepted(env) && pool >= 0 && Run(env, pool, run) && 0 <= i < |run|
    ensures run[i].slots <= pool
  {
    if i > 0 {
      RunsKeepSlots(env, pool, run, i - 1);
      StepKeepsSlots(env, pool, run, i);
    }
  }

  lemma StepKeepsSlots(env: Env, pool: int, run: seq<State>, i: int)
    requires Accepted(env) && Run(env, pool, run) && 0 < i < |run| && run[i - 1].slots <= pool
    ensures run[i].slots <= pool
  {
    RunsFlow(env, pool, run, i - 1);
    assert MovesAt(env, pool, run, i);
    MovesKeepSlots(env, pool, run[i - 1], run[i]);
  }

  predicate InCall(pc: Pc) { pc.Calling? || pc.Settling? }

  /** In every state of every run at most `pool` agent calls are in flight. */
  lemma CallsWithinPool(env: Env, pool: int, run: seq<State>, i: int)
    requires Accepted(env) && pool >= 0 && Run(env, pool, run) && 0 <= i < |run|
    ensures |Those(run[i].pcs, InCall)| <= pool
  {
    RunsFlow(env, pool, run, i);
    RunsKeepSlots(env, pool, run, i);
    SubsetSize(Those(run[i].pcs, InCall), Those(run[i].pcs, Holding));
  }

  // ---------------------------------------------------------------------
  // No deadlock
  // ---------------------------------------------------------------------

  lemma HolderCanMove(env: Env, pool: int, s: State, id: string)
    requires Accepted(env) && Flow(env, s) && id in env.nodes && Holding(s.pcs[id])
    ensures NextNode(env, pool, id, s).Some?
  {
    if s.pcs[id].Sending? {
      var i := RunningPlace(env, s, id);
      ChannelHasRoom(env, s, id);
    }
  }

  lemma DispatcherCanMove(env: Env, s: State)
    requires Accepted(env) && Flow(env, s) && s.level < |env.levels| && s.waiting == 0
    ensures NextMain(env, s).Some?
  {
    var level := env.levels[s.level];
    if s.next < |level| {
      assert PlacedAt(env, s, s.level, s.next);
      if s.pcs[level[s.next]].Skipping? { ChannelHasRoom(env, s, level[s.next]); }
    }
  }

  /** Until the run is over some step is enabled, with any pool of at least one worker. */
  lemma NeverStuck(env: Env, pool: int, s: State)
    requires Accepted(env) && pool >= 1 && Flow(env, s) && s.level < |env.levels|
    ensures exists s' :: Moves(env, pool, s, s')
  {
    if id :| id in env.nodes && Holding(s.pcs[id]) {
      HolderCanMove(env, pool, s, id);
      assert Moves(env, pool, s, NextNode(env, pool, id, s).value);
    } else {
      assert Those(s.pcs, Holding) == {};
      if id :| id in env.nodes && Running(s.pcs[id]) {
        assert s.pcs[id].Spawned? || s.pcs[id].Freed?;
        assert NextNode(env, pool, id, s).Some?;
        assert Moves(env, pool, s, NextNode(env, pool, id, s).value);
      } else {
        assert Those(s.pcs, Running) == {};
        DispatcherCanMove(env, s);
        assert Moves(env, pool, s, NextMain(env, s).value);
      }
    }
  }

  // ---------------------------------------------------------------------
  // Termination
  // ---------------------------------------------------------------------

  /** Steps a node can take from the start of attempt `a`, at most. */
  function FromAttempt(env: Env, id: string, a: int): int
    requires id in env.nodes
  {
    10 * (MaxAttempts(env, id) - a) + 10
  }

  /** Steps a node can still take, at most. */
  function Rank(env: Env, id: string, pc: Pc): int
    requires id in env.nodes
  {
    match pc
    case Idle => FromAttempt(env, id, 0) + 3
    case Skipping(_) => 1
    case Spawned => FromAttempt(env, id, 0) + 2
    case Looking => FromAttempt(env, id, 0) + 1
    case Asking(a) => FromAttempt(env, id, a)
    case Calling(a, _) => FromAttempt(env, id, a) - 1
    case Settling(a, _, _) => FromAttempt(env, id, a) - 2
    case Emitting(todo, Again(a)) => FromAttempt(env, id, a + 1) + 2 + |todo|
    case Emitting(todo, Finish(_)) => 4 + |todo|
    case Waiting(a) => FromAttempt(env, id, a + 1) + 1
    case Sending(_) => 3
    case Sent(_) => 2
    case Freed(_) => 1
    case Done(_) => 0
  }

  lemma RankFalls(env: Env, id: string, pc: Pc, entry: Option<Breaker.Circuit>)
    requires id in env.nodes && Busy(pc) && Sane(env, id, pc)
    ensures Rank(env, id, Local(env, id, pc, entry).pc) < Rank(env, id, pc)
  {}

  lemma RankBounds(env: Env, id: string, pc: Pc)
    requires id in env.nodes && Sane(env, id, pc)
    ensures Rank(env, id, pc) >= 0
  {}

  function RankAt(env: Env, pcs: map<string, Pc>, id: string): int {
    if id in env.nodes && id in pcs then Rank(env, id, pcs[id]) else 0
  }

  /** Steps the whole engine can still take, at most. */
  ghost function Remaining(env: Env, s: State): int {
    Sum(Flatten(env.levels), id => RankAt(env, s.pcs, id)) + |env.levels| - s.level
  }

  lemma {:induction false} SumNonNegative<T>(l: seq<T>, f: T -> int)
    requires forall x :: f(x) >= 0
    ensures Sum(l, f) >= 0
  {
    if l != [] { SumNonNegative(l[..|l| - 1], f); }
  }

  lemma RemainingNonNegative(env: Env, s: State)
    requires Flow(env, s)
    ensures Remaining(env, s) >= 0
  {
    forall id ensures RankAt(env, s.pcs, id) >= 0 {
      if id in env.nodes { RankBounds(env, id, s.pcs[id]); }
    }
    SumNonNegative(Flatten(env.levels), id => RankAt(env, s.pcs, id));
  }

  lemma {:induction false} FlatDistinct(env: Env, k: nat)
    requires Accepted(env) && k <= |env.levels|
    ensures Distinct(Flatten(env.levels[..k]))
  {
    if k > 0 {
      var g, front, last := Planner.DepsOf(env.nodes), env.levels[..k - 1], env.levels[k - 1];
      FlatDistinct(env, k - 1);
      assert env.levels[..k][..k - 1] == front;
      assert LevelAt(g, env.levels, k - 1);
      StrictlyOrderedDistinct(last);
      forall x | x in last ensures x !in Flatten(front) {
        FlattenMembers(front, x);
      }
      JoinDistinct(Flatten(front), last);
    }
  }

  /** Moving one program counter to a lower rank lowers the total. */
  lemma OneRankFalls(env: Env, s: State, s': State, id: string, pc: Pc)
    requires Accepted(env) && Typed(env, s) && id in env.nodes && s'.pcs == s.pcs[id := pc] && s'.level == s.level
    requires Rank(env, id, pc) < Rank(env, id, s.pcs[id])
    ensures Remaining(env, s') < Remaining(env, s)
  {
    var ids := Flatten(env.levels);
    assert env.levels[..|env.levels|] == env.levels;
    FlatDistinct(env, |env.levels|);
    FlattenMembers(env.levels, id);
    SumChange(ids, id, x => RankAt(env, s.pcs, x), x => RankAt(env, s'.pcs, x));
  }

  lemma BusyRankFalls(env: Env, pool: int, id: string, s: State, s': State) returns (pc: Pc)
    requires Typed(env, s) && id in env.nodes && Sane(env, id, s.pcs[id]) && Busy(s.pcs[id])
    requires NextNode(env, pool, id, s) == Some(s')
    ensures s'.pcs == s.pcs[id := pc] && s'.level == s.level
    ensures Rank(env, id, pc) < Rank(env, id, s.pcs[id])
  {
    RankFalls(env, id, s.pcs[id], Breaker.Entry(s.breaker, AgentAt(env, id)));
    var e := BusyMove(env, pool, id, s, s');
    pc := e.pc;
  }

  lemma SharedRankFalls(env: Env, pool: int, id: string, s: State, s': State) returns (pc: Pc)
    requires Typed(env, s) && id in env.nodes && Sane(env, id, s.pcs[id]) && !Busy(s.pcs[id])
    requires NextNode(env, pool, id, s) == Some(s')
    ensures s'.pcs == s.pcs[id := pc] && s'.level == s.level
    ensures Rank(env, id, pc) < Rank(env, id, s.pcs[id])
  {
    SharedMove(env, pool, id, s, s');
    pc := AfterShared(s.pcs[id]);
  }

  lemma NodeRankFalls(env: Env, pool: int, id: string, s: State, s': State) returns (pc: Pc)
    requires Flow(env, s) && id in env.nodes && NextNode(env, pool, id, s) == Some(s')
    ensures s'.pcs == s.pcs[id := pc] && s'.level == s.level
    ensures Rank(env, id, pc) < Rank(env, id, s.pcs[id])
  {
    if Busy(s.pcs[id]) {
      pc := BusyRankFalls(env, pool, id, s, s');
    } else {
      pc := SharedRankFalls(env, pool, id, s, s');
    }
  }

  lemma DispatchRankFalls(env: Env, id: string, before: Pc, after: Pc)
    requires id in env.nodes && Sane(env, id, before)
    requires (before.Idle? && (after.Skipping? || after.Spawned?)) || (before.Skipping? && after.Done?)
    ensures Rank(env, id, after) < Rank(env, id, before)
  {}

  lemma MovesFinish(env: Env, pool: int, s: State, s': State)
    requires Accepted(env) && Flow(env, s) && Moves(env, pool, s, s')
    ensures Remaining(env, s') < Remaining(env, s)
  {
    if NextMain(env, s) == Some(s') {
      if s.next < |env.levels[s.level]| {
        var id := env.levels[s.level][s.next];
        var pc := DispatchStepFrame(env, s, s');
        DispatchRankFalls(env, id, s.pcs[id], pc);
        OneRankFalls(env, s, s', id, pc);
      }
    } else {
      var id :| id in env.nodes && NextNode(env, pool, id, s) == Some(s');
      var pc := NodeRankFalls(env, pool, id, s, s');
      OneRankFalls(env, s, s', id, pc);
    }
  }

  /** Every run is finite: it has no more steps than the bound computed from its first state. */
  lemma {:induction false} RunsEnd(env: Env, pool: int, run: seq<State>, i: int)
    requires Accepted(env) && Run(env, pool, run) && 0 <= i < |run|
    ensures Remaining(env, run[i]) >= 0
    ensures i + Remaining(env, run[i]) <= Remaining(env, run[0])
  {
    StepsRemain(env, pool, run, i);
    if i > 0 {
      RunsEnd(env, pool, run, i - 1);
      FewerRemain(env, pool, run, i);
    }
  }

  lemma StepsRemain(env: Env, pool: int, run: seq<State>, i: int)
    requires Accepted(env) && Run(env, pool, run) && 0 <= i < |run|
    ensures Remaining(env, run[i]) >= 0
  {
    RunsFlow(env, pool, run, i);
    RemainingNonNegative(env, run[i]);
  }

  lemma FewerRemain(env: Env, pool: int, run: seq<State>, i: int)
    requires Accepted(env) && Run(env, pool, run) && 0 < i < |run|
    ensures Remaining(env, run[i]) < Remaining(env, run[i - 1])
  {
    RunsFlow(env, pool, run, i - 1);
    assert MovesAt(env, pool, run, i);
    MovesFinish(env, pool, run[i - 1], run[i]);
  }

  /** Any run can be continued to a final state, so complete runs exist for every pool size. */
  lemma {:induction false} CanComplete(env: Env, pool: int, run: seq<State>) returns (full: seq<State>)
    requires Accepted(env) && pool >= 1 && Run(env, pool, run)
    ensures Run(env, pool, full) && run <= full && Final(env, full[|full| - 1])
    decreases Remaining(env, run[|run| - 1])
  {
    LevelBound(env, pool, run);
    if run[|run| - 1].level == |env.levels| {
      full := run;
    } else {
      var longer := OneMore(env, pool, run);
      full := CanComplete(env, pool, longer);
    }
  }

  lemma LevelBound(env: Env, pool: int, run: seq<State>)
    requires Accepted(env) && Run(env, pool, run)
    ensures run[|run| - 1].level <= |env.levels|
  {
    RunsFlow(env, pool, run, |run| - 1);
  }

  lemma Extend(env: Env, pool: int, run: seq<State>, s': State) returns (longer: seq<State>)
    requires Run(env, pool, run) && Moves(env, pool, run[|run| - 1], s')
    ensures Run(env, pool, longer) && run <= longer && longer[0] == run[0] && longer[|longer| - 1] == s'
  {
    longer := run + [s'];
    forall i | 0 < i < |longer| ensures MovesAt(env, pool, longer, i) {
      if i < |run| { assert MovesAt(env, pool, run, i); }
    }
  }

  /** A run that is not over has a next step, which lowers the measure. */
  lemma OneMore(env: Env, pool: int, run: seq<State>) returns (longer: seq<State>)
    requires Accepted(env) && pool >= 1 && Run(env, pool, run) && run[|run| - 1].level < |env.levels|
    ensures Run(env, pool, longer) && run <= longer && longer[0] == run[0]
    ensures 0 <= Remaining(env, longer[|longer| - 1]) < Remaining(env, run[|run| - 1])
  {
    var s := run[|run| - 1];
    RunsFlow(env, pool, run, |run| - 1);
    NeverStuck(env, pool, s);
    var s' :| Moves(env, pool, s, s');
    MovesFinish(env, pool, s, s');
    MovesKeepFlow(env, pool, s, s');
    RemainingNonNegative(env, s');
    longer := Extend(env, pool, run, s');
  }
}
