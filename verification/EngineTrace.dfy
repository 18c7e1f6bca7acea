/** What the trace of a run looks like: the attempts of every node, and what its steps say about its result. */
module EngineTrace {
  import opened Basics
  import opened Types
  import opened Breaker
  import opened Engine
  import opened EngineFlow
  import Trace

  function LogKey(s: Step): string { s.invocationId }

  // ---------------------------------------------------------------------
  // Steps of one node
  // ---------------------------------------------------------------------

  /** What attempt `a` of `id` gives when the breaker lets it through (as a probe or not). */
  function CallAt(env: Env, id: string, a: nat, probe: bool): (AgentOutput, Option<Error>)
    requires id in env.nodes
  {
    Normalized(env.oracle.call(id, a, TimeoutAt(env, id, probe)))
  }

  function Timed(env: Env, id: string, a: nat, out: AgentOutput): AgentOutput {
    if out.duration == 0 then out.(duration := env.oracle.elapsed(id, a)) else out
  }

  /** A step for a call of attempt `a` that failed with `err`. */
  ghost predicate FailedCall(env: Env, id: string, a: nat, probe: bool, step: Step)
    requires id in env.nodes
  {
    var (out, err) := CallAt(env, id, a, probe);
    err.Some? && step == StepAt(env, id, out, err.value.text, env.oracle.elapsed(id, a), a)
  }

  /** A step for a failed attempt after which the engine tries again. */
  ghost predicate Retried(env: Env, id: string, a: nat, step: Step)
    requires id in env.nodes
  {
    exists probe: bool :: FailedCall(env, id, a, probe, step) &&
        TriesAgain(env, id, a, CallAt(env, id, a, probe).1.value)
  }

  /** Attempts 1 to `n`, each failed and retryable. */
  ghost predicate Attempts(env: Env, id: string, steps: seq<Step>, n: int)
    requires id in env.nodes
  {
    |steps| == n && forall i :: 0 <= i < n ==> Retried(env, id, i + 1, steps[i])
  }

  /** The last step `step`, of attempt `k`, and the result it goes with. */
  datatype Ending = NotRegistered | RefusedOpen | Succeeds(probe: bool) | GivesUp(probe: bool)

  ghost predicate EndsBy(env: Env, id: string, k: nat, step: Step, r: AgentResult, how: Ending)
    requires id in env.nodes
  {
    match how
    case NotRegistered =>
      var err := Plain("agent not registered: " + AgentAt(env, id));
      && k == 1 && AgentAt(env, id) !in env.registry
      && step == StepAt(env, id, ZERO_OUTPUT, err.text, 0, 1) && r == ResultAt(env, id, ZERO_OUTPUT, Some(err))
    case RefusedOpen =>
      && step == StepAt(env, id, ZERO_OUTPUT, OpenError(env, id).text, 0, k)
      && r == ResultAt(env, id, ZERO_OUTPUT, Some(OpenError(env, id)))
    case Succeeds(probe) =>
      var (out, err) := CallAt(env, id, k, probe);
      && err.None?
      && step == StepAt(env, id, Timed(env, id, k, out), "", env.oracle.elapsed(id, k), k)
      && r == ResultAt(env, id, Timed(env, id, k, out), None)
    case GivesUp(probe) =>
      && FailedCall(env, id, k, probe, step)
      && var err := CallAt(env, id, k, probe).1;
         !TriesAgain(env, id, k, err.value) && r == ResultAt(env, id, ZERO_OUTPUT, err)
  }

  ghost predicate LastStep(env: Env, id: string, k: nat, step: Step, r: AgentResult)
    requires id in env.nodes
  {
    exists how :: EndsBy(env, id, k, step, r, how)
  }

  /** All attempts but the last were retried; the last one gives the result. */
  ghost predicate Concluded(env: Env, id: string, steps: seq<Step>, r: AgentResult)
    requires id in env.nodes
  {
    var k := |steps|;
    && 1 <= k <= MaxAttempts(env, id)
    && Attempts(env, id, steps[..k - 1], k - 1)
    && LastStep(env, id, k, steps[k - 1], r)
  }

  /** The wait after the last attempt was cancelled. */
  ghost predicate CutShort(env: Env, id: string, steps: seq<Step>, r: AgentResult)
    requires id in env.nodes
  {
    var k := |steps|;
    && 1 <= k < MaxAttempts(env, id) && Attempts(env, id, steps, k)
    && env.oracle.cancelled(id, k).Some? && r == ResultAt(env, id, ZERO_OUTPUT, env.oracle.cancelled(id, k))
  }

  ghost predicate Ended(env: Env, id: string, steps: seq<Step>, r: AgentResult)
    requires id in env.nodes
  {
    Concluded(env, id, steps, r) || CutShort(env, id, steps, r)
  }

  /** A skipped node has one step, of attempt 0. */
  ghost predicate Skipped(env: Env, id: string, steps: seq<Step>, r: AgentResult)
    requires id in env.nodes
  {
    r.err.Some? && steps == [SkipStep(env, id, r.err.value)] && r == ResultAt(env, id, ZERO_OUTPUT, r.err)
  }

  ghost function Logged(todo: seq<Todo>): seq<Step> {
    if todo == [] then []
    else if todo[0].Log? then [todo[0].s] + Logged(todo[1..])
    else Logged(todo[1..])
  }

  /** What a node has logged so far, by program counter. */
  ghost predicate Shape(env: Env, id: string, pc: Pc, steps: seq<Step>)
    requires id in env.nodes
  {
    match pc
    case Idle => steps == []
    case Skipping(r) => Skipped(env, id, steps, r)
    case Spawned => steps == []
    case Looking => steps == []
    case Asking(a) => Attempts(env, id, steps, a - 1)
    case Calling(a, _) => Attempts(env, id, steps, a - 1)
    case Settling(a, probe, o) =>
      Attempts(env, id, steps, a - 1) && o == env.oracle.call(id, a, TimeoutAt(env, id, probe))
    case Emitting(todo, Again(a)) => Attempts(env, id, steps + Logged(todo), a)
    case Emitting(todo, Finish(r)) => Concluded(env, id, steps + Logged(todo), r)
    case Waiting(a) => Attempts(env, id, steps, a)
    case Sending(r) => Ended(env, id, steps, r)
    case Sent(r) => Ended(env, id, steps, r)
    case Freed(r) => Ended(env, id, steps, r)
    case Done(r) => Ended(env, id, steps, r) || Skipped(env, id, steps, r)
  }

  lemma LoggedPair(a: Todo, b: Todo)
    requires a.Count? && b.Log?
    ensures Logged([a, b]) == [b.s]
  {
    assert [a, b][1..] == [b] && [b][1..] == [];
    assert Logged([b]) == [b.s];
  }

  lemma LoggedTriple(a: Todo, b: Todo, c: Todo)
    requires a.Count?
    ensures b.Count? && c.Log? ==> Logged([a, b, c]) == [c.s]
    ensures b.Log? && c.Count? ==> Logged([a, b, c]) == [b.s]
  {
    assert [a, b, c][1..] == [b, c] && [b, c][1..] == [c] && [c][1..] == [];
    assert Logged([c]) == if c.Log? then [c.s] else [];
    assert Logged([b, c]) == if b.Log? then [b.s] + Logged([c]) else Logged([c]);
  }

  lemma ConcludedBy(env: Env, id: string, steps: seq<Step>, last: Step, r: AgentResult, how: Ending)
    requires id in env.nodes && |steps| < MaxAttempts(env, id) && Attempts(env, id, steps, |steps|)
    requires EndsBy(env, id, |steps| + 1, last, r, how)
    ensures Concluded(env, id, steps + [last], r)
  {
    var all := steps + [last];
    assert all[..|all| - 1] == steps && all[|all| - 1] == last;
  }

  lemma FinishShape(env: Env, id: string, steps: seq<Step>, todo: seq<Todo>, last: Step, r: AgentResult, how: Ending)
    requires id in env.nodes && |steps| < MaxAttempts(env, id) && Attempts(env, id, steps, |steps|)
    requires Logged(todo) == [last] && EndsBy(env, id, |steps| + 1, last, r, how)
    ensures Shape(env, id, Emitting(todo, Finish(r)), steps)
  {
    ConcludedBy(env, id, steps, last, r, how);
  }

  lemma AgainShape(env: Env, id: string, steps: seq<Step>, todo: seq<Todo>, last: Step)
    requires id in env.nodes && Attempts(env, id, steps, |steps|)
    requires Logged(todo) == [last] && Retried(env, id, |steps| + 1, last)
    ensures Shape(env, id, Emitting(todo, Again(|steps| + 1)), steps)
  {
    assert forall i :: 0 <= i < |steps| ==> (steps + [last])[i] == steps[i];
  }

  lemma UnregisteredShape(env: Env, id: string)
    requires id in env.nodes && AgentAt(env, id) !in env.registry
    ensures Shape(env, id, Unregistered(env, id), [])
  {
    var pc := Unregistered(env, id);
    LoggedPair(pc.todo[0], pc.todo[1]);
    FinishShape(env, id, [], pc.todo, pc.todo[1].s, pc.next.r, NotRegistered);
  }

  lemma RefusedShape(env: Env, id: string, a: nat, steps: seq<Step>)
    requires id in env.nodes && 1 <= a <= MaxAttempts(env, id) && Attempts(env, id, steps, a - 1)
    ensures Shape(env, id, Refused(env, id, a), steps)
  {
    var pc := Refused(env, id, a);
    LoggedTriple(pc.todo[0], pc.todo[1], pc.todo[2]);
    FinishShape(env, id, steps, pc.todo, pc.todo[2].s, pc.next.r, RefusedOpen);
  }

  lemma CompletedShape(env: Env, id: string, a: nat, probe: bool, steps: seq<Step>)
    requires id in env.nodes && 1 <= a <= MaxAttempts(env, id) && Attempts(env, id, steps, a - 1)
    requires CallAt(env, id, a, probe).1.None?
    ensures Shape(env, id, Completed(env, id, a, CallAt(env, id, a, probe).0), steps)
  {
    var pc := Completed(env, id, a, CallAt(env, id, a, probe).0);
    LoggedPair(pc.todo[0], pc.todo[1]);
    FinishShape(env, id, steps, pc.todo, pc.todo[1].s, pc.next.r, Succeeds(probe));
  }

  lemma FailedShape(env: Env, id: string, a: nat, probe: bool, steps: seq<Step>)
    requires id in env.nodes && 1 <= a <= MaxAttempts(env, id) && Attempts(env, id, steps, a - 1)
    requires CallAt(env, id, a, probe).1.Some?
    ensures var (out, err) := CallAt(env, id, a, probe);
            Shape(env, id, FailedAttempt(env, id, a, out, err.value), steps)
  {
    var (out, err) := CallAt(env, id, a, probe);
    var pc := FailedAttempt(env, id, a, out, err.value);
    var step := pc.todo[1].s;
    assert FailedCall(env, id, a, probe, step);
    if TriesAgain(env, id, a, err.value) {
      LoggedTriple(pc.todo[0], pc.todo[1], pc.todo[2]);
      assert pc.todo == [pc.todo[0], pc.todo[1], pc.todo[2]];
      AgainShape(env, id, steps, pc.todo, step);
    } else {
      LoggedPair(pc.todo[0], pc.todo[1]);
      assert pc.todo == [pc.todo[0], pc.todo[1]];
      FinishShape(env, id, steps, pc.todo, step, pc.next.r, GivesUp(probe));
    }
  }

  /** A node's own steps keep its log in shape. */
  lemma LocalShape(env: Env, id: string, pc: Pc, entry: Option<Circuit>, steps: seq<Step>)
    requires id in env.nodes && Busy(pc) && Sane(env, id, pc) && Shape(env, id, pc, steps)
    ensures var e := Local(env, id, pc, entry); Shape(env, id, e.pc, steps + e.steps)
  {
    var e := Local(env, id, pc, entry);
    match pc
    case Looking =>
      assert steps + e.steps == [];
      if AgentAt(env, id) !in env.registry { UnregisteredShape(env, id); }
    case Asking(a) =>
      assert steps + e.steps == steps;
      if !Ask(entry, PolicyAt(env, id), env.oracle.askedAt(id, a)).admitted { RefusedShape(env, id, a, steps); }
    case Calling(_, _) =>
      assert steps + e.steps == steps;
    case Settling(_, _, _) =>
      SettlingShape(env, id, pc, entry, steps);
    case Emitting(_, _) =>
      EmittingShape(env, id, pc, entry, steps);
    case Waiting(a) =>
      assert steps + e.steps == steps;
  }

  lemma SettlingShape(env: Env, id: string, pc: Pc, entry: Option<Circuit>, steps: seq<Step>)
    requires id in env.nodes && pc.Settling? && Sane(env, id, pc) && Shape(env, id, pc, steps)
    ensures var e := Local(env, id, pc, entry); Shape(env, id, e.pc, steps + e.steps)
  {
    var e := Local(env, id, pc, entry);
    assert steps + e.steps == steps;
    if Normalized(pc.o).1.None? {
      CompletedShape(env, id, pc.attempt, pc.probe, steps);
    } else {
      FailedShape(env, id, pc.attempt, pc.probe, steps);
    }
  }

  lemma EmittingShape(env: Env, id: string, pc: Pc, entry: Option<Circuit>, steps: seq<Step>)
    requires id in env.nodes && pc.Emitting? && Shape(env, id, pc, steps)
    ensures var e := Local(env, id, pc, entry); Shape(env, id, e.pc, steps + e.steps)
  {
    var e := Local(env, id, pc, entry);
    if pc.todo == [] {
      assert steps + e.steps == steps == steps + Logged(pc.todo);
    } else {
      LoggedOne(steps, pc.todo, e.steps);
    }
  }

  lemma LoggedOne(steps: seq<Step>, todo: seq<Todo>, added: seq<Step>)
    requires todo != [] && added == if todo[0].Log? then [todo[0].s] else []
    ensures (steps + added) + Logged(todo[1..]) == steps + Logged(todo)
  {}

  // ---------------------------------------------------------------------
  // Whose effects they are
  // ---------------------------------------------------------------------

  ghost predicate OwnTodo(env: Env, id: string, t: Todo)
    requires id in env.nodes
  {
    match t
    case Count(o) => o.agent == AgentAt(env, id)
    case Log(s) => s.invocationId == id && s.attempt >= 1
  }

  /** What a node is about to emit concerns itself and its agent. */
  ghost predicate Own(env: Env, id: string, pc: Pc)
    requires id in env.nodes
  {
    pc.Emitting? ==> forall t :: t in pc.todo ==> OwnTodo(env, id, t)
  }

  ghost predicate OwnEffect(env: Env, id: string, e: Effect)
    requires id in env.nodes
  {
    && Own(env, id, e.pc)
    && (forall s :: s in e.steps ==> s.invocationId == id && s.attempt >= 1)
    && (forall o :: o in e.obs ==> o.agent == AgentAt(env, id))
    && (forall v :: v in e.events ==> v.agent == AgentAt(env, id) && v.who == id)
  }

  lemma LocalOwn(env: Env, id: string, pc: Pc, entry: Option<Circuit>)
    requires Accepted(env) && id in env.nodes && Busy(pc) && Sane(env, id, pc) && Own(env, id, pc)
    ensures OwnEffect(env, id, Local(env, id, pc, entry))
  {
    if pc.Emitting? && pc.todo != [] {
      assert OwnTodo(env, id, pc.todo[0]);
      assert forall t :: t in pc.todo[1..] ==> t in pc.todo;
    }
  }

  // ---------------------------------------------------------------------
  // The invariant
  // ---------------------------------------------------------------------

  ghost function LogOf(s: State, id: string): seq<Step> { Pick(s.log, LogKey, id) }

  ghost predicate TracedAt(env: Env, s: State, id: string)
    requires id in env.nodes && id in s.pcs
  {
    Own(env, id, s.pcs[id]) && Shape(env, id, s.pcs[id], LogOf(s, id))
  }

  ghost predicate Traced(env: Env, s: State)
    requires Typed(env, s)
  {
    && (forall id {:trigger TracedAt(env, s, id)} :: id in s.pcs ==> TracedAt(env, s, id))
    && (forall x :: x in s.log ==> x.invocationId in env.nodes)
  }

  lemma InitialTraced(env: Env, s: State)
    requires Initial(env, s)
    ensures Traced(env, s)
  {}

  /** Appending steps of one node leaves the logs of the others alone. */
  lemma LogGrows(s: State, s': State, id: string, steps: seq<Step>, other: string)
    requires s'.log == s.log + steps && forall x :: x in steps ==> x.invocationId == id
    ensures LogOf(s', other) == if other == id then LogOf(s, other) + steps else LogOf(s, other)
  {
    PickAppend(s.log, steps, LogKey, other);
    PickAll(steps, LogKey, id, other);
  }

  lemma BusyTraced(env: Env, s: State, id: string, e: Effect)
    requires Accepted(env) && Typed(env, s) && AllSane(env, s) && Traced(env, s) && id in env.nodes && Busy(s.pcs[id])
    requires OwnEffect(env, id, e) && Shape(env, id, e.pc, LogOf(s, id) + e.steps)
    ensures Typed(env, ApplyEffect(env, s, id, e)) && Traced(env, ApplyEffect(env, s, id, e))
  {
    var s' := ApplyEffect(env, s, id, e);
    forall x | x in s'.pcs ensures TracedAt(env, s', x) {
      assert TracedAt(env, s, x);
      LogGrows(s, s', id, e.steps, x);
    }
  }

  lemma NodeKeepsTrace(env: Env, pool: int, id: string, s: State, s': State)
    requires Accepted(env) && Typed(env, s) && AllSane(env, s) && Traced(env, s)
    requires id in env.nodes && NextNode(env, pool, id, s) == Some(s')
    ensures Typed(env, s') && Traced(env, s')
  {
    assert TracedAt(env, s, id) && Sane(env, id, s.pcs[id]);
    if Busy(s.pcs[id]) {
      var entry := Entry(s.breaker, AgentAt(env, id));
      LocalOwn(env, id, s.pcs[id], entry);
      LocalShape(env, id, s.pcs[id], entry, LogOf(s, id));
      BusyTraced(env, s, id, Local(env, id, s.pcs[id], entry));
    } else {
      SharedMove(env, pool, id, s, s');
      SharedTraced(env, s, s', id);
    }
  }

  lemma SharedTraced(env: Env, s: State, s': State, id: string)
    requires Typed(env, s) && Traced(env, s) && id in env.nodes && Typed(env, s')
    requires s.pcs[id].Spawned? || s.pcs[id].Sending? || s.pcs[id].Sent? || s.pcs[id].Freed?
    requires s'.pcs == s.pcs[id := AfterShared(s.pcs[id])] && s'.log == s.log
    ensures Traced(env, s')
  {
    forall x | x in s'.pcs ensures TracedAt(env, s', x) {
      assert TracedAt(env, s, x);
    }
  }

  lemma DispatchTraced(env: Env, s: State, s': State, id: string, pc: Pc, added: seq<Step>)
    requires Accepted(env) && Typed(env, s) && Typed(env, s') && Traced(env, s) && id in env.nodes
    requires s'.pcs == s.pcs[id := pc] && s'.log == s.log + added
    requires match pc
             case Skipping(r) => s.pcs[id].Idle? && Skipped(env, id, added, r)
             case Spawned => s.pcs[id].Idle? && added == []
             case Done(r) => s.pcs[id] == Skipping(r) && added == []
             case _ => false
    ensures Traced(env, s')
  {
    assert TracedAt(env, s, id);
    forall x | x in s'.pcs ensures TracedAt(env, s', x) {
      assert TracedAt(env, s, x);
      LogGrows(s, s', id, added, x);
    }
  }

  lemma DispatchKeepsTrace(env: Env, s: State, s': State)
    requires Accepted(env) && Typed(env, s) && AllSane(env, s) && Traced(env, s)
    requires NextMain(env, s) == Some(s')
    ensures Typed(env, s') && Traced(env, s')
  {
    if s.next < |env.levels[s.level]| {
      var id, pc, added := DispatchMove(env, s, s');
      DispatchTraced(env, s, s', id, pc, added);
    } else {
      CollectMove(env, s, s');
      forall x | x in s'.pcs ensures TracedAt(env, s', x) {
        assert TracedAt(env, s, x);
      }
    }
  }

  lemma {:induction false} RunsTraced(env: Env, pool: int, run: seq<State>, i: int)
    requires Accepted(env) && Run(env, pool, run) && 0 <= i < |run|
    ensures Flow(env, run[i]) && Traced(env, run[i])
  {
    if i == 0 {
      RunsFlow(env, pool, run, 0);
      InitialTraced(env, run[0]);
    } else {
      RunsTraced(env, pool, run, i - 1);
      StepTraced(env, pool, run, i);
    }
  }

  lemma StepTraced(env: Env, pool: int, run: seq<State>, i: int)
    requires Accepted(env) && Run(env, pool, run) && 0 < i < |run| && Flow(env, run[i - 1]) && Traced(env, run[i - 1])
    ensures Flow(env, run[i]) && Traced(env, run[i])
  {
    assert MovesAt(env, pool, run, i);
    MovesKeepFlow(env, pool, run[i - 1], run[i]);
    MovesKeepTrace(env, pool, run[i - 1], run[i]);
  }

  lemma MovesKeepTrace(env: Env, pool: int, s: State, s': State)
    requires Accepted(env) && Typed(env, s) && AllSane(env, s) && Traced(env, s) && Moves(env, pool, s, s')
    ensures Typed(env, s') && Traced(env, s')
  {
    if NextMain(env, s) == Some(s') {
      DispatchKeepsTrace(env, s, s');
    } else {
      var id :| id in env.nodes && NextNode(env, pool, id, s) == Some(s');
      NodeKeepsTrace(env, pool, id, s, s');
    }
  }

  // ---------------------------------------------------------------------
  // Attempts are numbered, and no step key repeats
  // ---------------------------------------------------------------------

  /** The attempts logged for one node strictly increase. */
  ghost predicate Numbered(steps: seq<Step>) {
    forall i, j :: 0 <= i < j < |steps| ==> steps[i].attempt < steps[j].attempt
  }

  lemma AttemptNumbers(env: Env, id: string, steps: seq<Step>, n: int)
    requires id in env.nodes && Attempts(env, id, steps, n)
    ensures forall i :: 0 <= i < n ==> steps[i].attempt == i + 1
  {
    forall i | 0 <= i < n ensures steps[i].attempt == i + 1 {
      assert Retried(env, id, i + 1, steps[i]);
    }
  }

  /** The steps of a finished node that was not skipped are its attempts 1 to k, within the limit. */
  lemma EndedNumbers(env: Env, id: string, steps: seq<Step>, r: AgentResult)
    requires id in env.nodes && Ended(env, id, steps, r)
    ensures 1 <= |steps| <= MaxAttempts(env, id)
    ensures forall i :: 0 <= i < |steps| ==> steps[i].attempt == i + 1
    ensures forall i :: 0 <= i < |steps| - 1 ==> Retried(env, id, i + 1, steps[i])
  {
    var k := |steps|;
    if Concluded(env, id, steps, r) {
      AttemptNumbers(env, id, steps[..k - 1], k - 1);
      assert forall i :: 0 <= i < k - 1 ==> steps[..k - 1][i] == steps[i];
    } else {
      AttemptNumbers(env, id, steps, k);
    }
  }

  lemma ShapeNumbered(env: Env, id: string, pc: Pc, steps: seq<Step>)
    requires id in env.nodes && Sane(env, id, pc) && Shape(env, id, pc, steps)
    ensures Numbered(steps)
  {
    match pc
    case Asking(a) => AttemptNumbers(env, id, steps, a - 1);
    case Calling(a, _) => AttemptNumbers(env, id, steps, a - 1);
    case Settling(a, _, _) => AttemptNumbers(env, id, steps, a - 1);
    case Emitting(todo, Again(a)) =>
      AttemptNumbers(env, id, steps + Logged(todo), a);
      assert forall i :: 0 <= i < |steps| ==> steps[i] == (steps + Logged(todo))[i];
    case Emitting(todo, Finish(r)) =>
      EndedNumbers(env, id, steps + Logged(todo), r);
      assert forall i :: 0 <= i < |steps| ==> steps[i] == (steps + Logged(todo))[i];
    case Waiting(a) => AttemptNumbers(env, id, steps, a);
    case Sending(r) => EndedNumbers(env, id, steps, r);
    case Sent(r) => EndedNumbers(env, id, steps, r);
    case Freed(r) => EndedNumbers(env, id, steps, r);
    case Done(r) => if Ended(env, id, steps, r) { EndedNumbers(env, id, steps, r); }
    case _ =>
  }

  lemma {:induction false} UniqueFromPicks(log: seq<Step>)
    requires forall id :: Numbered(Pick(log, LogKey, id))
    ensures Trace.UniqueKeys(log)
  {
    if log != [] {
      var n := |log| - 1;
      var f, x := log[..n], log[n];
      forall id ensures Numbered(Pick(f, LogKey, id)) {
        var p, q := Pick(f, LogKey, id), Pick(log, LogKey, id);
        assert Numbered(q);
        assert forall i :: 0 <= i < |p| ==> p[i] == q[i];
      }
      UniqueFromPicks(f);
      var p := Pick(f, LogKey, x.invocationId);
      assert Pick(log, LogKey, x.invocationId) == p + [x];
      assert Numbered(Pick(log, LogKey, x.invocationId));
      forall i | 0 <= i < n && log[i].invocationId == x.invocationId ensures log[i].attempt != x.attempt {
        PickMember(f, LogKey, x.invocationId, log[i]);
        assert log[i] == f[i];
        var j :| 0 <= j < |p| && p[j] == log[i];
        assert (p + [x])[j] == p[j] && (p + [x])[|p|] == x;
      }
    }
  }

  lemma LogNumbered(env: Env, s: State, id: string)
    requires Typed(env, s) && AllSane(env, s) && Traced(env, s)
    ensures Numbered(LogOf(s, id))
  {
    if id in env.nodes {
      assert TracedAt(env, s, id) && Sane(env, id, s.pcs[id]);
      ShapeNumbered(env, id, s.pcs[id], LogOf(s, id));
    } else if LogOf(s, id) != [] {
      PickMember(s.log, LogKey, id, LogOf(s, id)[0]);
    }
  }

  /** In no state of any run do two trace steps share invocation and attempt. */
  lemma StepKeysUnique(env: Env, pool: int, run: seq<State>, i: int)
    requires Accepted(env) && Run(env, pool, run) && 0 <= i < |run|
    ensures Trace.UniqueKeys(run[i].log)
  {
    RunsTraced(env, pool, run, i);
    forall id ensures Numbered(Pick(run[i].log, LogKey, id)) {
      LogNumbered(env, run[i], id);
    }
    UniqueFromPicks(run[i].log);
  }
}
