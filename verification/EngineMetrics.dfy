/** The metrics of a run against its trace: every counter, in total and agent by agent. */
module EngineMetrics {
  import opened Basics
  import opened Types
  import opened Graph
  import opened BreakerHistory
  import opened Engine
  import opened EngineFlow
  import opened EngineProgress
  import opened EngineTrace
  import opened EnginePropagation
  import opened EngineStory
  import opened Metrics
  import Breaker

  // ---------------------------------------------------------------------
  // What is counted
  // ---------------------------------------------------------------------

  datatype Kind = OfAttempts | OfSuccesses | OfErrors | OfRetries | OfOpens | OfDuration

  /** What an observation adds to a counter. */
  function Seen(k: Kind, o: Observation): int {
    match k
    case OfAttempts => IsInvocation(o)
    case OfSuccesses => if o.Invocation? && o.status == Success then 1 else 0
    case OfErrors => IsError(o)
    case OfRetries => IsRetry(o)
    case OfOpens => IsOpened(o)
    case OfDuration => if o.Invocation? then o.duration else 0
  }

  /** The counter of all agents, or of one. */
  datatype Counter = Counter(kind: Kind, whose: Option<string>)

  function Adds(c: Counter): Observation -> int {
    (o: Observation) => if c.whose.None? || c.whose == Some(o.agent) then Seen(c.kind, o) else 0
  }

  predicate Mine(env: Env, c: Counter, id: string) {
    id in env.nodes && (c.whose.None? || c.whose == Some(env.nodes[id].invocation.agentId))
  }

  function IsAttempt(s: Step): int { if s.attempt >= 1 then 1 else 0 }
  function IsLater(s: Step): int { if s.attempt >= 2 then 1 else 0 }
  function StepDuration(s: Step): int { s.duration }
  function IsRefusal(v: Event): int { if v.Asked? && !v.admitted then 1 else 0 }

  ghost function Fine(fin: Option<AgentResult>): int { if fin.Some? && fin.value.err.None? then 1 else 0 }

  /** A success counts with the duration of its output instead of that of its step. */
  ghost function Correction(steps: seq<Step>, fin: Option<AgentResult>): int {
    if Fine(fin) == 1 && steps != [] then steps[|steps| - 1].output.duration - steps[|steps| - 1].duration else 0
  }

  ghost function CutShortBy(env: Env, id: string, evs: History, steps: seq<Step>, fin: Option<AgentResult>): int
    requires id in env.nodes
  {
    if fin.Some? && IsCancelled(env, id, evs, steps, fin.value) then 1 else 0
  }

  /** What the counter is due for a node with these events and steps, that ended with `fin` or, if `again`,
      is about to try again. */
  ghost function Due(
    env: Env, k: Kind, id: string, evs: History, steps: seq<Step>, fin: Option<AgentResult>, again: bool): int
    requires id in env.nodes
  {
    match k
    case OfAttempts => Sum(steps, IsAttempt)
    case OfSuccesses => Fine(fin)
    case OfErrors => Sum(steps, IsAttempt) - Fine(fin)
    case OfRetries => Sum(steps, IsLater) + (if again then 1 else 0) + CutShortBy(env, id, evs, steps, fin)
    case OfOpens => Sum(evs, IsRefusal)
    case OfDuration => Sum(steps, StepDuration) + Correction(steps, fin)
  }

  /** What is still to be observed. */
  ghost function Owing(k: Kind, todo: seq<Todo>): int {
    if todo == [] then 0 else (if todo[0].Count? then Seen(k, todo[0].o) else 0) + Owing(k, todo[1..])
  }

  /** What was observed for a node so far. */
  ghost function Amount(env: Env, k: Kind, id: string, pc: Pc, evs: History, steps: seq<Step>): int
    requires id in env.nodes
  {
    match pc
    case Asking(a) => Due(env, k, id, evs, steps, None, a >= 2)
    case Calling(a, _) => Due(env, k, id, evs, steps, None, a >= 2)
    case Settling(a, _, _) => Due(env, k, id, evs, steps, None, a >= 2)
    case Emitting(todo, Again(_)) => Due(env, k, id, evs, steps + Logged(todo), None, true) - Owing(k, todo)
    case Emitting(todo, Finish(r)) => Due(env, k, id, evs, steps + Logged(todo), Some(r), false) - Owing(k, todo)
    case Waiting(_) => Due(env, k, id, evs, steps, None, true)
    case Skipping(r) => Due(env, k, id, evs, steps, Some(r), false)
    case Sending(r) => Due(env, k, id, evs, steps, Some(r), false)
    case Sent(r) => Due(env, k, id, evs, steps, Some(r), false)
    case Freed(r) => Due(env, k, id, evs, steps, Some(r), false)
    case Done(r) => Due(env, k, id, evs, steps, Some(r), false)
    case _ => Due(env, k, id, evs, steps, None, false)
  }

  // ---------------------------------------------------------------------
  // One step of a node
  // ---------------------------------------------------------------------

  /** The step observes exactly what it adds to the node's amount. */
  ghost predicate Fair(env: Env, k: Kind, id: string, pc: Pc, e: Effect, evs: History, steps: seq<Step>)
    requires id in env.nodes
  {
    Sum(e.obs, o => Seen(k, o)) ==
      Amount(env, k, id, e.pc, evs + e.events, steps + e.steps) - Amount(env, k, id, pc, evs, steps)
  }

  lemma OwingPair(k: Kind, a: Todo, b: Todo)
    requires a.Count? && b.Log?
    ensures Owing(k, [a, b]) == Seen(k, a.o)
  {
    assert [a, b][1..] == [b] && [b][1..] == [];
    assert Owing(k, [b]) == 0;
  }

  lemma OwingTriple(k: Kind, a: Todo, b: Todo, c: Todo)
    requires a.Count?
    ensures Owing(k, [a, b, c]) ==
              Seen(k, a.o) + (if b.Count? then Seen(k, b.o) else 0) + (if c.Count? then Seen(k, c.o) else 0)
  {
    assert [a, b, c][1..] == [b, c] && [b, c][1..] == [c] && [c][1..] == [];
    assert Owing(k, [c]) == if c.Count? then Seen(k, c.o) else 0;
    assert Owing(k, [b, c]) == (if b.Count? then Seen(k, b.o) else 0) + Owing(k, [c]);
  }

  lemma SumOne<T>(x: T, f: T -> int)
    ensures Sum([x], f) == f(x)
  {
    SumSnoc([], x, f);
    assert [] + [x] == [x];
  }

  /** What one more step makes due. */
  ghost function Delta(k: Kind, step: Step, fine: int, refusals: int, was: bool, again: bool): int {
    match k
    case OfAttempts => 1
    case OfSuccesses => fine
    case OfErrors => 1 - fine
    case OfRetries => IsLater(step) + (if again then 1 else 0) - (if was then 1 else 0)
    case OfOpens => refusals
    case OfDuration => if fine == 1 then step.output.duration else step.duration
  }

  lemma DueMore(
    env: Env, k: Kind, id: string, evs: History, evs': History, steps: seq<Step>, step: Step,
    fin: Option<AgentResult>, was: bool, again: bool)
    requires id in env.nodes && step.attempt >= 1
    requires fin.Some? ==> !IsCancelled(env, id, evs', steps + [step], fin.value)
    ensures Due(env, k, id, evs', steps + [step], fin, again) - Due(env, k, id, evs, steps, None, was) ==
              Delta(k, step, Fine(fin), Sum(evs', IsRefusal) - Sum(evs, IsRefusal), was, again)
  {
    SumSnoc(steps, step, IsAttempt);
    SumSnoc(steps, step, IsLater);
    SumSnoc(steps, step, StepDuration);
    assert (steps + [step])[|steps|] == step;
  }

  /** A node that concludes was not cut short. */
  lemma ConcludedNotCut(env: Env, id: string, evs: History, steps: seq<Step>, r: AgentResult)
    requires id in env.nodes && Concludes(env, id, evs, steps, r)
    ensures !IsCancelled(env, id, evs, steps, r)
  {
    CancelledLast(env, id, evs, steps, r);
  }

  /** A list of emissions that ends the node pays for its step. */
  lemma FinishFair(
    env: Env, k: Kind, id: string, evs: History, evs': History, steps: seq<Step>, todo: seq<Todo>, step: Step,
    r: AgentResult, was: bool)
    requires id in env.nodes && step.attempt >= 1 && Logged(todo) == [step] &&
               Concludes(env, id, evs', steps + [step], r)
    requires Owing(k, todo) == Delta(k, step, Fine(Some(r)), Sum(evs', IsRefusal) - Sum(evs, IsRefusal), was, false)
    ensures Amount(env, k, id, Emitting(todo, Finish(r)), evs', steps) == Due(env, k, id, evs, steps, None, was)
  {
    ConcludedNotCut(env, id, evs', steps + [step], r);
    DueMore(env, k, id, evs, evs', steps, step, Some(r), was, false);
  }

  lemma AgainFair(
    env: Env, k: Kind, id: string, evs: History, evs': History, steps: seq<Step>, todo: seq<Todo>, step: Step,
    a: nat, was: bool)
    requires id in env.nodes && step.attempt >= 1 && Logged(todo) == [step]
    requires Owing(k, todo) == Delta(k, step, 0, Sum(evs', IsRefusal) - Sum(evs, IsRefusal), was, true)
    ensures Amount(env, k, id, Emitting(todo, Again(a)), evs', steps) == Due(env, k, id, evs, steps, None, was)
  {
    DueMore(env, k, id, evs, evs', steps, step, None, was, true);
  }

  // ---------------------------------------------------------------------
  // What each list of emissions observes
  // ---------------------------------------------------------------------

  lemma UnregisteredOwes(env: Env, k: Kind, id: string) returns (step: Step)
    requires id in env.nodes
    ensures var todo := Unregistered(env, id).todo;
            Logged(todo) == [step] && step.attempt == 1 && step.duration == 0 &&
                Owing(k, todo) == Delta(k, step, 0, 0, false, false)
  {
    var todo := Unregistered(env, id).todo;
    step := todo[1].s;
    LoggedPair(todo[0], todo[1]);
    OwingPair(k, todo[0], todo[1]);
    assert todo == [todo[0], todo[1]];
  }

  lemma RefusedOwes(env: Env, k: Kind, id: string, a: nat) returns (step: Step)
    requires id in env.nodes && a >= 1
    ensures var todo := Refused(env, id, a).todo;
            Logged(todo) == [step] && step.attempt == a && Owing(k, todo) == Delta(k, step, 0, 1, a >= 2, false)
  {
    var todo := Refused(env, id, a).todo;
    step := todo[2].s;
    LoggedTriple(todo[0], todo[1], todo[2]);
    OwingTriple(k, todo[0], todo[1], todo[2]);
    assert todo == [todo[0], todo[1], todo[2]];
  }

  lemma CompletedOwes(env: Env, k: Kind, id: string, a: nat, out: AgentOutput) returns (step: Step)
    requires id in env.nodes && a >= 1
    ensures var todo := Completed(env, id, a, out).todo;
            Logged(todo) == [step] && step.attempt == a && Owing(k, todo) == Delta(k, step, 1, 0, a >= 2, false)
  {
    var todo := Completed(env, id, a, out).todo;
    step := todo[1].s;
    LoggedPair(todo[0], todo[1]);
    OwingPair(k, todo[0], todo[1]);
    assert todo == [todo[0], todo[1]];
  }

  lemma FailedOwes(env: Env, k: Kind, id: string, a: nat, out: AgentOutput, err: Error) returns (step: Step)
    requires id in env.nodes && a >= 1
    ensures var todo := FailedAttempt(env, id, a, out, err).todo;
            && Logged(todo) == [step] && step.attempt == a
            && Owing(k, todo) == Delta(k, step, 0, 0, a >= 2, TriesAgain(env, id, a, err))
  {
    var todo := FailedAttempt(env, id, a, out, err).todo;
    step := todo[1].s;
    if TriesAgain(env, id, a, err) {
      LoggedTriple(todo[0], todo[1], todo[2]);
      OwingTriple(k, todo[0], todo[1], todo[2]);
      assert todo == [todo[0], todo[1], todo[2]];
    } else {
      LoggedPair(todo[0], todo[1]);
      OwingPair(k, todo[0], todo[1]);
      assert todo == [todo[0], todo[1]];
    }
  }

  /** The emissions `pc` pay for what they log. */
  ghost predicate Pays(env: Env, k: Kind, id: string, pc: Pc, evs: History, evs': History, steps: seq<Step>, was: bool)
    requires id in env.nodes
  {
    Amount(env, k, id, pc, evs', steps) == Due(env, k, id, evs, steps, None, was)
  }

  lemma UnregisteredPays(env: Env, k: Kind, id: string)
    requires id in env.nodes && SoFar(env, id, Unregistered(env, id), [], [])
    ensures Pays(env, k, id, Unregistered(env, id), [], [], [], false)
  {
    var step := UnregisteredOwes(env, k, id);
    assert [] + [step] == [step];
    FinishFair(env, k, id, [], [], [], Unregistered(env, id).todo, step, Unregistered(env, id).next.r, false);
  }

  lemma RefusedPays(env: Env, k: Kind, id: string, a: nat, evs: History, v: Event, steps: seq<Step>)
    requires id in env.nodes && a >= 1 && IsRefusal(v) == 1
    requires SoFar(env, id, Refused(env, id, a), evs + [v], steps)
    ensures Pays(env, k, id, Refused(env, id, a), evs, evs + [v], steps, a >= 2)
  {
    var step := RefusedOwes(env, k, id, a);
    SumSnoc(evs, v, IsRefusal);
    FinishFair(
      env, k, id, evs, evs + [v], steps, Refused(env, id, a).todo, step, Refused(env, id, a).next.r, a >= 2);
  }

  lemma CompletedPays(env: Env, k: Kind, id: string, a: nat, out: AgentOutput, evs: History, w: Event, steps: seq<Step>)
    requires id in env.nodes && a >= 1 && IsRefusal(w) == 0
    requires SoFar(env, id, Completed(env, id, a, out), evs + [w], steps)
    ensures Pays(env, k, id, Completed(env, id, a, out), evs, evs + [w], steps, a >= 2)
  {
    var step := CompletedOwes(env, k, id, a, out);
    SumSnoc(evs, w, IsRefusal);
    FinishFair(
      env, k, id, evs, evs + [w], steps, Completed(env, id, a, out).todo, step, Completed(env, id, a, out).next.r,
          a >= 2);
  }

  lemma FailedPays(
    env: Env, k: Kind, id: string, a: nat, out: AgentOutput, err: Error, evs: History, w: Event, steps: seq<Step>)
    requires id in env.nodes && a >= 1 && IsRefusal(w) == 0
    requires SoFar(env, id, FailedAttempt(env, id, a, out, err), evs + [w], steps)
    ensures Pays(env, k, id, FailedAttempt(env, id, a, out, err), evs, evs + [w], steps, a >= 2)
  {
    var step := FailedOwes(env, k, id, a, out, err);
    var pc := FailedAttempt(env, id, a, out, err);
    SumSnoc(evs, w, IsRefusal);
    if TriesAgain(env, id, a, err) {
      AgainFair(env, k, id, evs, evs + [w], steps, pc.todo, step, a, a >= 2);
    } else {
      FinishFair(env, k, id, evs, evs + [w], steps, pc.todo, step, pc.next.r, a >= 2);
    }
  }

  // ---------------------------------------------------------------------
  // Every step
  // ---------------------------------------------------------------------

  lemma LookingFair(env: Env, k: Kind, id: string, entry: Option<Breaker.Circuit>)
    requires Accepted(env) && id in env.nodes
    ensures Fair(env, k, id, Looking, Local(env, id, Looking, entry), [], [])
  {
    LookingTold(env, id, entry);
    var none: History, nothing: seq<Step> := [], [];
    assert none + [] == none && nothing + [] == nothing;
    if AgentAt(env, id) !in env.registry { UnregisteredPays(env, k, id); }
  }

  lemma AskingFair(
    env: Env, k: Kind, id: string, a: nat, entry: Option<Breaker.Circuit>, evs: History, steps: seq<Step>)
    requires Accepted(env) && id in env.nodes && SoFar(env, id, Asking(a), evs, steps)
    ensures Fair(env, k, id, Asking(a), Local(env, id, Asking(a), entry), evs, steps)
  {
    var v := AskingEmits(env, id, a, entry);
    AskingTold(env, id, a, entry, evs, steps);
    assert steps + [] == steps;
    if v.admitted {
      SumSnoc(evs, v, IsRefusal);
      AdmittedPays(env, k, id, a, v.probe, evs, v, steps);
    } else {
      RefusedPays(env, k, id, a, evs, v, steps);
    }
  }

  lemma AskingEmits(env: Env, id: string, a: nat, entry: Option<Breaker.Circuit>) returns (v: Event)
    requires id in env.nodes
    ensures var e := Local(env, id, Asking(a), entry);
            && e.events == [v] && v.Asked? && e.steps == [] && e.obs == []
            && e.pc == if v.admitted then Calling(a, v.probe) else Refused(env, id, a)
  {
    v := Local(env, id, Asking(a), entry).events[0];
  }

  lemma AdmittedPays(
    env: Env, k: Kind, id: string, a: nat, probe: bool, evs: History, v: Event, steps: seq<Step>)
    requires id in env.nodes && IsRefusal(v) == 0
    ensures Pays(env, k, id, Calling(a, probe), evs, evs + [v], steps, a >= 2)
  {
    SumSnoc(evs, v, IsRefusal);
  }

  lemma SettlingFair(
    env: Env, k: Kind, id: string, pc: Pc, entry: Option<Breaker.Circuit>, evs: History, steps: seq<Step>)
    requires Accepted(env) && id in env.nodes && pc.Settling? && Sane(env, id, pc) && SoFar(env, id, pc, evs, steps)
    ensures Fair(env, k, id, pc, Local(env, id, pc, entry), evs, steps)
  {
    var a, probe, o := pc.attempt, pc.probe, pc.o;
    var w := SettlingEmits(env, id, a, probe, entry, o);
    SettingsAre(env, id, probe);
    SettlingTold(env, id, a, probe, entry, o, evs, steps);
    OutcomePays(env, k, id, a, probe, o, evs, w, steps, Local(env, id, pc, entry).pc);
    SettlingQuiet(env, id, pc, entry);
    PaysIsFair(env, k, id, pc, Local(env, id, pc, entry), evs, steps, a >= 2);
  }

  lemma SettlingQuiet(env: Env, id: string, pc: Pc, entry: Option<Breaker.Circuit>)
    requires id in env.nodes && pc.Settling?
    ensures Local(env, id, pc, entry).obs == [] && Local(env, id, pc, entry).steps == []
  {}

  lemma OutcomePays(
    env: Env, k: Kind, id: string, a: nat, probe: bool, o: CallOutcome, evs: History, w: Event, steps: seq<Step>,
        pc: Pc)
    requires id in env.nodes && a >= 1 && EndedAs(env, id, a, probe, w) && SoFar(env, id, pc, evs + [w], steps)
    requires o.Returned? ==> pc == Completed(env, id, a, o.out)
    requires !o.Returned? ==> pc == FailedAttempt(env, id, a, OutputOf(o), ErrorOf(o).value)
    ensures Pays(env, k, id, pc, evs, evs + [w], steps, a >= 2)
  {
    if o.Returned? {
      CompletedPays(env, k, id, a, o.out, evs, w, steps);
    } else {
      FailedPays(env, k, id, a, OutputOf(o), ErrorOf(o).value, evs, w, steps);
    }
  }

  lemma PaysIsFair(env: Env, k: Kind, id: string, pc: Pc, e: Effect, evs: History, steps: seq<Step>, was: bool)
    requires id in env.nodes && e.obs == [] && e.steps == [] && Pays(env, k, id, e.pc, evs, evs + e.events, steps, was)
    requires Amount(env, k, id, pc, evs, steps) == Due(env, k, id, evs, steps, None, was)
    ensures Fair(env, k, id, pc, e, evs, steps)
  {
    assert steps + [] == steps;
  }

  lemma EmittingFair(
    env: Env, k: Kind, id: string, pc: Pc, entry: Option<Breaker.Circuit>, evs: History, steps: seq<Step>)
    requires id in env.nodes && pc.Emitting?
    ensures Fair(env, k, id, pc, Local(env, id, pc, entry), evs, steps)
  {
    assert evs + [] == evs;
    if pc.todo == [] {
      assert steps + [] == steps;
    } else {
      EmitOneFair(env, k, id, pc.todo, pc.next, entry, evs, steps);
    }
  }

  lemma EmitOneFair(
    env: Env, k: Kind, id: string, todo: seq<Todo>, next: Next, entry: Option<Breaker.Circuit>, evs: History,
    steps: seq<Step>)
    requires id in env.nodes && todo != []
    ensures Fair(env, k, id, Emitting(todo, next), Local(env, id, Emitting(todo, next), entry), evs, steps)
  {
    var e := Local(env, id, Emitting(todo, next), entry);
    assert evs + [] == evs;
    LoggedOne(steps, todo, e.steps);
    if todo[0].Count? { SumOne(todo[0].o, o => Seen(k, o)); }
    assert Owing(k, todo) == Owing(k, todo[1..]) + Sum(e.obs, o => Seen(k, o));
  }

  lemma WaitingFair(
    env: Env, k: Kind, id: string, a: nat, entry: Option<Breaker.Circuit>, evs: History, steps: seq<Step>)
    requires id in env.nodes && SoFar(env, id, Waiting(a), evs, steps)
    ensures Fair(env, k, id, Waiting(a), Local(env, id, Waiting(a), entry), evs, steps)
  {
    assert evs + [] == evs && steps + [] == steps;
  }

  /** Every local step observes exactly what it adds. */
  lemma LocalFair(env: Env, k: Kind, id: string, pc: Pc, entry: Option<Breaker.Circuit>, evs: History, steps: seq<Step>)
    requires Accepted(env) && id in env.nodes && Busy(pc) && Sane(env, id, pc) && SoFar(env, id, pc, evs, steps)
    ensures Fair(env, k, id, pc, Local(env, id, pc, entry), evs, steps)
  {
    assert evs + [] == evs && steps + [] == steps;
    match pc
    case Looking => LookingFair(env, k, id, entry);
    case Asking(a) => AskingFair(env, k, id, a, entry, evs, steps);
    case Calling(_, _) =>
    case Settling(_, _, _) => SettlingFair(env, k, id, pc, entry, evs, steps);
    case Emitting(_, _) => EmittingFair(env, k, id, pc, entry, evs, steps);
    case Waiting(a) => WaitingFair(env, k, id, a, entry, evs, steps);
  }

  // ---------------------------------------------------------------------
  // The balance
  // ---------------------------------------------------------------------

  /** A node's share of a counter. */
  ghost function Share(env: Env, c: Counter, s: State, base: int, id: string): int {
    if Mine(env, c, id) && id in s.pcs then Amount(env, c.kind, id, s.pcs[id], NodeEvents(s, base, id), LogOf(s, id))
        else 0
  }

  ghost function Shares(env: Env, c: Counter, s: State, base: int): int {
    Sum(Flatten(env.levels), id => Share(env, c, s, base, id))
  }

  /** What was observed since the run began is what the nodes add up to. */
  ghost predicate Balanced(env: Env, c: Counter, before: seq<Observation>, s: State, base: int) {
    Sum(s.obs, Adds(c)) - Sum(before, Adds(c)) == Shares(env, c, s, base)
  }

  /** Only the mover's share changes. */
  lemma ShareChange(env: Env, c: Counter, s: State, s': State, base: int, id: string)
    requires Accepted(env) && id in env.nodes
    requires forall x :: x != id ==> Share(env, c, s', base, x) == Share(env, c, s, base, x)
    ensures Shares(env, c, s', base) == Shares(env, c, s, base)
              + Share(env, c, s', base, id) - Share(env, c, s, base, id)
  {
    assert env.levels[..|env.levels|] == env.levels;
    FlatDistinct(env, |env.levels|);
    FlattenMembers(env.levels, id);
    SumChange(Flatten(env.levels), id, x => Share(env, c, s, base, x), x => Share(env, c, s', base, x));
  }

  lemma {:induction false} OwnObservations(env: Env, c: Counter, id: string, obs: seq<Observation>)
    requires id in env.nodes && forall o :: o in obs ==> o.agent == AgentAt(env, id)
    ensures Sum(obs, Adds(c)) == if Mine(env, c, id) then Sum(obs, o => Seen(c.kind, o)) else 0
  {
    if obs != [] {
      assert obs[|obs| - 1] in obs;
      OwnObservations(env, c, id, obs[..|obs| - 1]);
    }
  }

  lemma BusyBalanced(env: Env, c: Counter, before: seq<Observation>, s: State, base: int, id: string, e: Effect)
    requires Accepted(env) && Typed(env, s) && 0 <= base <= |s.events| && id in env.nodes && OwnEffect(env, id, e)
    requires Fair(env, c.kind, id, s.pcs[id], e, NodeEvents(s, base, id), LogOf(s, id))
    requires Balanced(env, c, before, s, base)
    ensures Balanced(env, c, before, ApplyEffect(env, s, id, e), base)
  {
    var s' := ApplyEffect(env, s, id, e);
    forall x | x != id ensures Share(env, c, s', base, x) == Share(env, c, s, base, x) {
      OtherShare(env, c, s, base, id, e, x);
    }
    OwnShare(env, c, s, base, id, e);
    ShareChange(env, c, s, s', base, id);
    SumAppend(s.obs, e.obs, Adds(c));
  }

  lemma OtherShare(env: Env, c: Counter, s: State, base: int, id: string, e: Effect, x: string)
    requires 0 <= base <= |s.events| && id in env.nodes && OwnEffect(env, id, e) && x != id
    ensures Share(env, c, ApplyEffect(env, s, id, e), base, x) == Share(env, c, s, base, x)
  {
    var s' := ApplyEffect(env, s, id, e);
    EventsGrow(s, s', base, id, e.events, x);
    LogGrows(s, s', id, e.steps, x);
  }

  lemma OwnShare(env: Env, c: Counter, s: State, base: int, id: string, e: Effect)
    requires 0 <= base <= |s.events| && id in env.nodes && id in s.pcs && OwnEffect(env, id, e)
    requires Fair(env, c.kind, id, s.pcs[id], e, NodeEvents(s, base, id), LogOf(s, id))
    ensures Share(env, c, ApplyEffect(env, s, id, e), base, id) == Share(env, c, s, base, id) + Sum(e.obs, Adds(c))
  {
    var s' := ApplyEffect(env, s, id, e);
    EventsGrow(s, s', base, id, e.events, id);
    LogGrows(s, s', id, e.steps, id);
    OwnObservations(env, c, id, e.obs);
  }

  /** A step without observations that leaves the mover's amount alone. */
  lemma QuietBalanced(
    env: Env, c: Counter, before: seq<Observation>, s: State, s': State, base: int, id: string, added: seq<Step>)
    requires Accepted(env) && id in env.nodes && id in s.pcs && id in s'.pcs && Balanced(env, c, before, s, base)
    requires s'.obs == s.obs && s'.events == s.events && s'.log == s.log + added
    requires (forall x :: x in added ==> x.invocationId == id) && s'.pcs == s.pcs[id := s'.pcs[id]]
    requires var evs := NodeEvents(s, base, id);
             Amount(env, c.kind, id, s'.pcs[id], evs, LogOf(s, id) + added) ==
                 Amount(env, c.kind, id, s.pcs[id], evs, LogOf(s, id))
    ensures Balanced(env, c, before, s', base)
  {
    forall x ensures LogOf(s', x) == if x == id then LogOf(s, x) + added else LogOf(s, x) {
      LogGrows(s, s', id, added, x);
    }
    ShareChange(env, c, s, s', base, id);
  }

  lemma SharedAmount(env: Env, k: Kind, id: string, pc: Pc, evs: History, steps: seq<Step>)
    requires id in env.nodes && (pc.Spawned? || pc.Sending? || pc.Sent? || pc.Freed?)
    ensures Amount(env, k, id, AfterShared(pc), evs, steps) == Amount(env, k, id, pc, evs, steps)
  {}

  /** A skipped node adds nothing. */
  lemma SkippedAmount(env: Env, k: Kind, id: string, r: AgentResult, added: seq<Step>)
    requires id in env.nodes && SkipStory(env, id, [], added, r)
    ensures Amount(env, k, id, Skipping(r), [], added) == Amount(env, k, id, Idle, [], [])
  {
    assert added == [added[0]];
    SumOne(added[0], IsAttempt);
    SumOne(added[0], IsLater);
    SumOne(added[0], StepDuration);
  }

  lemma NodeBalanced(
    env: Env, c: Counter, pool: int, before: seq<Observation>, s: State, s': State, base: int, id: string)
    requires Accepted(env) && Typed(env, s) && AllSane(env, s) && Traced(env, s) && Told(env, s, base)
    requires id in env.nodes && NextNode(env, pool, id, s) == Some(s') && Balanced(env, c, before, s, base)
    ensures Balanced(env, c, before, s', base)
  {
    assert TracedAt(env, s, id) && ToldAt(env, s, base, id) && Sane(env, id, s.pcs[id]);
    if Busy(s.pcs[id]) {
      var entry := Breaker.Entry(s.breaker, AgentAt(env, id));
      LocalOwn(env, id, s.pcs[id], entry);
      LocalFair(env, c.kind, id, s.pcs[id], entry, NodeEvents(s, base, id), LogOf(s, id));
      var e := BusyMove(env, pool, id, s, s');
      BusyBalanced(env, c, before, s, base, id, e);
    } else {
      SharedMove(env, pool, id, s, s');
      SharedAmount(env, c.kind, id, s.pcs[id], NodeEvents(s, base, id), LogOf(s, id));
      assert s.log + [] == s.log && LogOf(s, id) + [] == LogOf(s, id);
      QuietBalanced(env, c, before, s, s', base, id, []);
    }
  }

  lemma MainBalanced(env: Env, c: Counter, before: seq<Observation>, s: State, s': State, base: int)
    requires Accepted(env) && Typed(env, s) && Told(env, s, base) && NextMain(env, s) == Some(s')
    requires Balanced(env, c, before, s, base)
    ensures Balanced(env, c, before, s', base)
  {
    if s.next < |env.levels[s.level]| {
      var id, pc, added := DispatchMove(env, s, s');
      assert ToldAt(env, s, base, id) && DispatchedAs(env, id, s.pcs[id], pc, added);
      DispatchBalanced(env, c, before, s, s', base, id, added);
    } else {
      CollectMove(env, s, s');
      SumSame(Flatten(env.levels), id => Share(env, c, s, base, id), id => Share(env, c, s', base, id));
    }
  }

  lemma DispatchBalanced(
    env: Env, c: Counter, before: seq<Observation>, s: State, s': State, base: int, id: string, added: seq<Step>)
    requires Accepted(env) && id in env.nodes && id in s.pcs && id in s'.pcs && Balanced(env, c, before, s, base)
    requires ToldAt(env, s, base, id) && DispatchedAs(env, id, s.pcs[id], s'.pcs[id], added)
    requires s'.obs == s.obs && s'.events == s.events && s'.log == s.log + added && s'.pcs == s.pcs[id := s'.pcs[id]]
    ensures Balanced(env, c, before, s', base)
  {
    var evs, steps := NodeEvents(s, base, id), LogOf(s, id);
    DispatchSoFar(env, id, s.pcs[id], s'.pcs[id], evs, steps, added);
    DispatchAmount(env, c.kind, id, s.pcs[id], s'.pcs[id], evs, steps, added);
    QuietBalanced(env, c, before, s, s', base, id, added);
  }

  lemma DispatchAmount(
    env: Env, k: Kind, id: string, was: Pc, pc: Pc, evs: History, steps: seq<Step>, added: seq<Step>)
    requires id in env.nodes && SoFar(env, id, was, evs, steps) && DispatchedAs(env, id, was, pc, added)
    ensures Amount(env, k, id, pc, evs, steps + added) == Amount(env, k, id, was, evs, steps)
  {
    if pc.Skipping? {
      assert [] + added == added;
      SkippedAmount(env, k, id, pc.r, added);
    } else {
      assert steps + [] == steps;
    }
  }

  lemma MovesBalanced(env: Env, c: Counter, pool: int, before: seq<Observation>, s: State, s': State, base: int)
    requires Accepted(env) && Typed(env, s) && AllSane(env, s) && Traced(env, s) && Told(env, s, base)
    requires Moves(env, pool, s, s') && Balanced(env, c, before, s, base)
    ensures Balanced(env, c, before, s', base)
  {
    if NextMain(env, s) == Some(s') {
      MainBalanced(env, c, before, s, s', base);
    } else {
      var id :| id in env.nodes && NextNode(env, pool, id, s) == Some(s');
      NodeBalanced(env, c, pool, before, s, s', base, id);
    }
  }

  lemma StepBalanced(env: Env, c: Counter, pool: int, run: seq<State>, i: int)
    requires Accepted(env) && Run(env, pool, run) && 0 < i < |run|
    requires Balanced(env, c, run[0].obs, run[i - 1], |run[0].events|)
    ensures Balanced(env, c, run[0].obs, run[i], |run[0].events|)
  {
    RunsTraced(env, pool, run, i - 1);
    RunsTold(env, pool, run, i - 1);
    assert MovesAt(env, pool, run, i);
    MovesBalanced(env, c, pool, run[0].obs, run[i - 1], run[i], |run[0].events|);
  }

  lemma InitialBalanced(env: Env, c: Counter, s: State)
    requires Initial(env, s)
    ensures Balanced(env, c, s.obs, s, |s.events|)
  {
    assert s.events[|s.events|..] == [];
    SumZero(Flatten(env.levels), id => Share(env, c, s, |s.events|, id));
  }

  /** In every state of every run, each counter has grown by what the nodes add up to. */
  lemma {:induction false} RunsBalanced(env: Env, c: Counter, pool: int, run: seq<State>, i: int)
    requires Accepted(env) && Run(env, pool, run) && 0 <= i < |run|
    ensures Balanced(env, c, run[0].obs, run[i], |run[0].events|)
  {
    if i == 0 {
      InitialBalanced(env, c, run[0]);
    } else {
      RunsBalanced(env, c, pool, run, i - 1);
      StepBalanced(env, c, pool, run, i);
    }
  }

  // ---------------------------------------------------------------------
  // At the end of a run
  // ---------------------------------------------------------------------

  /** The attempts of a node; none if it was skipped. */
  ghost function AttemptsOf(s: State, id: string): int {
    if WasSkipped(s, id) then 0 else |LogOf(s, id)|
  }

  /** The attempts but the first, and one more if the wait after the last was cancelled. */
  ghost function RetriesOf(env: Env, s: State, base: int, id: string): int
    requires id in env.nodes && id in s.results
  {
    (if WasSkipped(s, id) then 0 else |LogOf(s, id)| - 1)
    + (if IsCancelled(env, id, NodeEvents(s, base, id), LogOf(s, id), s.results[id]) then 1 else 0)
  }

  ghost predicate EndedWell(s: State, id: string) { id in s.results && s.results[id].err.None? }

  /** The durations of the attempts: of the step for a failure, of the output for a success. */
  ghost function DurationOf(s: State, id: string): int {
    var steps := LogOf(s, id);
    if EndedWell(s, id) && steps != [] then Sum(steps[..|steps| - 1], StepDuration) + steps[|steps| - 1].output.duration
    else Sum(steps, StepDuration)
  }

  ghost function NodeValue(env: Env, k: Kind, s: State, base: int, id: string): int
    requires id in env.nodes && id in s.results
  {
    match k
    case OfAttempts => AttemptsOf(s, id)
    case OfSuccesses => if EndedWell(s, id) then 1 else 0
    case OfErrors => AttemptsOf(s, id) - (if EndedWell(s, id) then 1 else 0)
    case OfRetries => RetriesOf(env, s, base, id)
    case OfOpens => Sum(NodeEvents(s, base, id), IsRefusal)
    case OfDuration => DurationOf(s, id)
  }

  /** The value of a node, if it is one of those that the counter is about. */
  ghost function ValueOf(env: Env, c: Counter, s: State, base: int, id: string): int {
    if Mine(env, c, id) && id in s.results then NodeValue(env, c.kind, s, base, id) else 0
  }

  lemma {:induction false} NumberedSums(steps: seq<Step>)
    requires forall a :: 0 <= a < |steps| ==> steps[a].attempt == a + 1
    ensures Sum(steps, IsAttempt) == |steps|
    ensures steps != [] ==> Sum(steps, IsLater) == |steps| - 1
  {
    if steps != [] { NumberedSums(steps[..|steps| - 1]); }
  }

  lemma AccountedSums(env: Env, s: State, id: string, r: AgentResult)
    requires id in env.nodes && Accounted(env, s, id, r)
    ensures Sum(LogOf(s, id), IsAttempt) == AttemptsOf(s, id)
    ensures Sum(LogOf(s, id), IsLater) == if WasSkipped(s, id) then 0 else |LogOf(s, id)| - 1
  {
    if WasSkipped(s, id) {
      SumOne(LogOf(s, id)[0], IsAttempt);
      SumOne(LogOf(s, id)[0], IsLater);
      assert LogOf(s, id) == [LogOf(s, id)[0]];
    } else {
      NumberedSums(LogOf(s, id));
    }
  }

  lemma CorrectedDuration(steps: seq<Step>, fin: Option<AgentResult>)
    ensures Sum(steps, StepDuration) + Correction(steps, fin) ==
              if Fine(fin) == 1 && steps != [] then
                Sum(steps[..|steps| - 1], StepDuration) + steps[|steps| - 1].output.duration
              else Sum(steps, StepDuration)
  {}

  lemma DoneValue(env: Env, k: Kind, s: State, base: int, id: string)
    requires id in env.nodes && id in s.results && id in s.pcs && s.pcs[id] == Done(s.results[id])
    requires Sum(LogOf(s, id), IsAttempt) == AttemptsOf(s, id)
    requires Sum(LogOf(s, id), IsLater) == if WasSkipped(s, id) then 0 else |LogOf(s, id)| - 1
    ensures Amount(env, k, id, s.pcs[id], NodeEvents(s, base, id), LogOf(s, id)) == NodeValue(env, k, s, base, id)
  {
    var r, evs, steps := s.results[id], NodeEvents(s, base, id), LogOf(s, id);
    CorrectedDuration(steps, Some(r));
    DueIs(env, k, id, evs, steps, r, AttemptsOf(s, id), if WasSkipped(s, id) then 0 else |steps| - 1);
  }

  lemma DueIs(
    env: Env, k: Kind, id: string, evs: History, steps: seq<Step>, r: AgentResult, attempts: int, later: int)
    requires id in env.nodes && Sum(steps, IsAttempt) == attempts && Sum(steps, IsLater) == later
    ensures Due(env, k, id, evs, steps, Some(r), false) ==
              match k
              case OfAttempts => attempts
              case OfSuccesses => if r.err.None? then 1 else 0
              case OfErrors => attempts - (if r.err.None? then 1 else 0)
              case OfRetries => later + (if IsCancelled(env, id, evs, steps, r) then 1 else 0)
              case OfOpens => Sum(evs, IsRefusal)
              case OfDuration => Sum(steps, StepDuration) + Correction(steps, Some(r))
  {}

  lemma NodeAtEnd(env: Env, c: Counter, pool: int, run: seq<State>, id: string)
    requires Accepted(env) && Run(env, pool, run) && Final(env, run[|run| - 1]) && id in env.nodes
    ensures var s, base := run[|run| - 1], |run[0].events|; Share(env, c, s, base, id) == ValueOf(env, c, s, base, id)
  {
    var s, base := run[|run| - 1], |run[0].events|;
    AllFiled(env, pool, run);
    FinishedSteps(env, pool, run, |run| - 1, id);
    AccountedSums(env, s, id, s.results[id]);
    DoneValue(env, c.kind, s, base, id);
  }

  /** After a complete run each counter has grown by the values of the nodes that it is about. */
  lemma CounterGrows(env: Env, c: Counter, pool: int, run: seq<State>)
    requires Accepted(env) && Run(env, pool, run) && Final(env, run[|run| - 1])
    ensures var s, base := run[|run| - 1], |run[0].events|;
            Sum(s.obs, Adds(c)) - Sum(run[0].obs, Adds(c)) ==
                Sum(Flatten(env.levels), id => ValueOf(env, c, s, base, id))
  {
    var s, base := run[|run| - 1], |run[0].events|;
    RunsBalanced(env, c, pool, run, |run| - 1);
    forall id | id in Flatten(env.levels) ensures Share(env, c, s, base, id) == ValueOf(env, c, s, base, id) {
      FlattenMembers(env.levels, id);
      NodeAtEnd(env, c, pool, run, id);
    }
    SumSame(Flatten(env.levels), id => Share(env, c, s, base, id), id => ValueOf(env, c, s, base, id));
  }

  /** The requests of this run that the breaker refused, of all agents or of one. */
  ghost function RefusedBy(c: Counter): Event -> int {
    (v: Event) => if c.whose.None? || c.whose == Some(v.agent) then IsRefusal(v) else 0
  }

  lemma {:induction false} NodeRefusals(env: Env, c: Counter, id: string, evs: History)
    requires id in env.nodes && forall v :: v in evs ==> v.agent == env.nodes[id].invocation.agentId
    ensures Sum(evs, RefusedBy(c)) == if Mine(env, c, id) then Sum(evs, IsRefusal) else 0
  {
    if evs != [] {
      assert evs[|evs| - 1] in evs;
      NodeRefusals(env, c, id, evs[..|evs| - 1]);
    }
  }

  /** The refusals of the nodes are the refusals of the run. */
  lemma RefusalsAddUp(env: Env, whose: Option<string>, pool: int, run: seq<State>)
    requires Accepted(env) && Run(env, pool, run) && Final(env, run[|run| - 1])
    ensures var s, base, c := run[|run| - 1], |run[0].events|, Counter(OfOpens, whose);
            Sum(Flatten(env.levels), id => ValueOf(env, c, s, base, id)) == Sum(Fresh(s, base), RefusedBy(c))
  {
    var s, base, c, ids := run[|run| - 1], |run[0].events|, Counter(OfOpens, whose), Flatten(env.levels);
    EventsUnderPolicy(env, pool, run, |run| - 1);
    AllFiled(env, pool, run);
    FlatDistinct(env, |env.levels|);
    assert env.levels[..|env.levels|] == env.levels;
    forall v | v in Fresh(s, base) ensures WhoOf(v) in ids {
      assert ForNode(env, v);
      FlattenMembers(env.levels, v.who);
    }
    SumByKey(Fresh(s, base), ids, WhoOf, RefusedBy(c));
    forall id | id in ids ensures Sum(Pick(Fresh(s, base), WhoOf, id), RefusedBy(c)) == ValueOf(env, c, s, base, id) {
      FlattenMembers(env.levels, id);
      NodeRefusalsIn(env, c, s, base, id);
    }
    SumSame(ids, id => Sum(Pick(Fresh(s, base), WhoOf, id), RefusedBy(c)), id => ValueOf(env, c, s, base, id));
  }

  lemma NodeRefusalsIn(env: Env, c: Counter, s: State, base: int, id: string)
    requires id in env.nodes && id in s.results && c.kind == OfOpens
    requires forall v :: v in Fresh(s, base) ==> ForNode(env, v)
    ensures Sum(Pick(Fresh(s, base), WhoOf, id), RefusedBy(c)) == ValueOf(env, c, s, base, id)
  {
    var evs := Pick(Fresh(s, base), WhoOf, id);
    forall v | v in evs ensures v.agent == env.nodes[id].invocation.agentId {
      PickMember(Fresh(s, base), WhoOf, id, v);
    }
    NodeRefusals(env, c, id, evs);
  }

  /** The sum of a value over the nodes of the plan. */
  ghost function OverNodes(env: Env, c: Counter, s: State, base: int): int {
    Sum(Flatten(env.levels), id => ValueOf(env, c, s, base, id))
  }

  lemma {:induction false} AddsAll(h: seq<Observation>)
    ensures Sum(h, Adds(Counter(OfAttempts, None))) == Sum(h, IsInvocation)
    ensures Sum(h, Adds(Counter(OfErrors, None))) == Sum(h, IsError)
    ensures Sum(h, Adds(Counter(OfRetries, None))) == Sum(h, IsRetry)
    ensures Sum(h, Adds(Counter(OfOpens, None))) == Sum(h, IsOpened)
  {
    if h != [] { AddsAll(h[..|h| - 1]); }
  }

  /** After a complete run the totals of the recorder have grown by the attempts of the nodes; by those that
      did not succeed; by the attempts but the first of each node, and one for each node whose wait was
      cancelled; and by the requests of the run that the breaker refused. */
  lemma MetricsMatchTrace(env: Env, pool: int, run: seq<State>)
    requires Accepted(env) && Run(env, pool, run) && Final(env, run[|run| - 1])
    ensures var s, base := run[|run| - 1], |run[0].events|;
            var t0, t := Tally(run[0].obs), Tally(s.obs);
            && t.totalInvocations - t0.totalInvocations == OverNodes(env, Counter(OfAttempts, None), s, base)
            && t.errorInvocations - t0.errorInvocations == OverNodes(env, Counter(OfErrors, None), s, base)
            && t.retryAttempts - t0.retryAttempts == OverNodes(env, Counter(OfRetries, None), s, base)
            && t.circuitOpens - t0.circuitOpens == Sum(Fresh(s, base), IsRefusal)
  {
    var s, base := run[|run| - 1], |run[0].events|;
    TotalsCount(run[0].obs);
    TotalsCount(s.obs);
    AddsAll(run[0].obs);
    AddsAll(s.obs);
    CounterGrows(env, Counter(OfAttempts, None), pool, run);
    CounterGrows(env, Counter(OfErrors, None), pool, run);
    CounterGrows(env, Counter(OfRetries, None), pool, run);
    CounterGrows(env, Counter(OfOpens, None), pool, run);
    RefusalsAddUp(env, None, pool, run);
    SumSame(Fresh(s, base), RefusedBy(Counter(OfOpens, None)), IsRefusal);
  }

  /** The statistics of an agent are sums over the observations about it. */
  lemma {:induction false} AgentSums(h: seq<Observation>, agent: string)
    ensures var t := Stats(Tally(h).byAgent, agent);
            && t.successes == Sum(h, Adds(Counter(OfSuccesses, Some(agent))))
            && t.errors == Sum(h, Adds(Counter(OfErrors, Some(agent))))
            && t.retries == Sum(h, Adds(Counter(OfRetries, Some(agent))))
            && t.circuitOpens == Sum(h, Adds(Counter(OfOpens, Some(agent))))
            && t.totalDuration == Sum(h, Adds(Counter(OfDuration, Some(agent))))
  {
    if h != [] { AgentSums(h[..|h| - 1], agent); }
  }

  /** And the same agent by agent: its successes have grown by the nodes of the agent that ended without an
      error, its errors by their other attempts, its duration by the durations of their attempts. */
  lemma AgentMetricsMatchTrace(env: Env, pool: int, run: seq<State>, agent: string)
    requires Accepted(env) && Run(env, pool, run) && Final(env, run[|run| - 1])
    ensures var s, base := run[|run| - 1], |run[0].events|;
            var t0, t := Stats(Tally(run[0].obs).byAgent, agent), Stats(Tally(s.obs).byAgent, agent);
            && t.successes - t0.successes == OverNodes(env, Counter(OfSuccesses, Some(agent)), s, base)
            && t.errors - t0.errors == OverNodes(env, Counter(OfErrors, Some(agent)), s, base)
            && t.retries - t0.retries == OverNodes(env, Counter(OfRetries, Some(agent)), s, base)
            && t.circuitOpens - t0.circuitOpens == Sum(Fresh(s, base), RefusedBy(Counter(OfOpens, Some(agent))))
            && t.totalDuration - t0.totalDuration == OverNodes(env, Counter(OfDuration, Some(agent)), s, base)
  {
    var s := run[|run| - 1];
    AgentSums(run[0].obs, agent);
    AgentSums(s.obs, agent);
    CounterGrows(env, Counter(OfSuccesses, Some(agent)), pool, run);
    CounterGrows(env, Counter(OfErrors, Some(agent)), pool, run);
    CounterGrows(env, Counter(OfRetries, Some(agent)), pool, run);
    CounterGrows(env, Counter(OfOpens, Some(agent)), pool, run);
    CounterGrows(env, Counter(OfDuration, Some(agent)), pool, run);
    RefusalsAddUp(env, Some(agent), pool, run);
  }
}
