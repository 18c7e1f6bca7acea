/** What a node does, told from outside: on the fields of the plan and of the configuration, and on what
    agents, clock and cancellation answer, without the engine's own functions. */
module EngineStory {
  import opened Basics
  import opened Types
  import opened Breaker
  import opened BreakerHistory
  import opened Engine
  import opened EngineFlow
  import opened EngineTrace
  import opened EnginePropagation

  // ---------------------------------------------------------------------
  // Settings
  // ---------------------------------------------------------------------

  /** How many attempts the node has: its own setting if positive, else the engine's if positive, else one. */
  ghost function Limit(env: Env, id: string): int
    requires id in env.nodes
  {
    if env.nodes[id].retry.maxAttempts > 0 then env.nodes[id].retry.maxAttempts
    else if env.cfg.retry.maxAttempts > 0 then env.cfg.retry.maxAttempts
    else 1
  }

  /** The list of retryable errors of the same policy. */
  ghost function AllowList(env: Env, id: string): seq<Sentinel>
    requires id in env.nodes
  {
    if env.nodes[id].retry.maxAttempts > 0 then env.nodes[id].retry.retryableErrs else env.cfg.retry.retryableErrs
  }

  /** The strategy of the same policy, linear if it names none. */
  ghost function Strategy(env: Env, id: string): BackoffStrategy
    requires id in env.nodes
  {
    var s := (if env.nodes[id].retry.maxAttempts > 0 then env.nodes[id].retry else env.cfg.retry).backoff;
    if s.Unset? then Linear else s
  }

  ghost function PositiveOr(x: int, default: int): int { if x > 0 then x else default }

  /** The breaker policy of the node: its own if its threshold is positive, else the engine's, with
      defaults for the times. */
  ghost predicate OwnPolicy(env: Env, id: string, p: BreakerPolicy)
    requires id in env.nodes
  {
    var own := env.nodes[id].breaker;
    var source := if own.threshold > 0 then own else env.cfg.breaker;
    && p.threshold == source.threshold
    && p.resetTimeout == PositiveOr(source.resetTimeout, 60 * SECOND)
    && p.probeTimeout == PositiveOr(source.probeTimeout, 5 * SECOND)
  }

  /** The time limit of a call: the engine's; for a probe the smaller of that and the probe time. */
  ghost function CallLimit(env: Env, id: string, probe: bool): int
    requires id in env.nodes
  {
    var own := env.nodes[id].breaker;
    var probeTime := PositiveOr((if own.threshold > 0 then own else env.cfg.breaker).probeTimeout, 5 * SECOND);
    if probe && probeTime < env.cfg.defaultTimeout then probeTime else env.cfg.defaultTimeout
  }

  /** The engine's effective settings are these. */
  lemma SettingsAre(env: Env, id: string, probe: bool)
    requires id in env.nodes
    ensures MaxAttempts(env, id) == Limit(env, id)
    ensures RetryAt(env, id).retryableErrs == AllowList(env, id) && RetryAt(env, id).backoff == Strategy(env, id)
    ensures OwnPolicy(env, id, PolicyAt(env, id))
    ensures TimeoutAt(env, id, probe) == CallLimit(env, id, probe)
  {}

  // ---------------------------------------------------------------------
  // Outcomes
  // ---------------------------------------------------------------------

  /** The error that is reported for a call: none if it returned; a returned error as it is, unless it is a
      deadline; a panic as an error that is not retryable. */
  ghost function ErrorOf(o: CallOutcome): Option<Error> {
    match o
    case Returned(_) => None
    case Errored(_, e) =>
      if DeadlineExceeded in e.chain then Some(Error("agent timeout: " + e.text, None, {AgentTimeout})) else Some(e)
    case Panicked(reason) => Some(Error("agent error: agent panicked: " + reason, Some(false), {AgentPanic}))
  }

  ghost function OutputOf(o: CallOutcome): AgentOutput {
    match o
    case Returned(out) => out
    case Errored(out, _) => out
    case Panicked(_) => AgentOutput("", [], map[], 0)
  }

  lemma OutcomesAre(o: CallOutcome)
    ensures Normalized(o) == (OutputOf(o), ErrorOf(o))
  {
    if o.Panicked? {
      assert "agent error: " + ("agent panicked: " + o.reason) == "agent error: agent panicked: " + o.reason;
    }
  }

  /** Whether the node tries again after such an error, the limit aside. */
  ghost predicate Retryable(env: Env, id: string, e: Error)
    requires id in env.nodes
  {
    match e.agentError
    case Some(mark) => mark
    case None =>
      && Canceled !in e.chain
      && (AllowList(env, id) == [] || exists t :: t in AllowList(env, id) && t in e.chain)
  }

  lemma RetryableIs(env: Env, id: string, a: nat, e: Error)
    requires id in env.nodes
    ensures TriesAgain(env, id, a, e) <==> a != Limit(env, id) && Retryable(env, id, e)
  {
    SettingsAre(env, id, false);
  }

  // ---------------------------------------------------------------------
  // Attempts
  // ---------------------------------------------------------------------

  ghost function CallOf(env: Env, id: string, a: nat, probe: bool): CallOutcome
    requires id in env.nodes
  {
    env.oracle.call(id, a, CallLimit(env, id, probe))
  }

  /** The step names the node, its agent and its input. */
  ghost predicate Describes(env: Env, id: string, step: Step)
    requires id in env.nodes
  {
    var inv := env.nodes[id].invocation;
    step.invocationId == id && step.agentId == inv.agentId && step.requestId == inv.input.requestId &&
        step.input == inv.input
  }

  ghost predicate NoOutput(step: Step) {
    step.output == AgentOutput("", [], map[], 0) && step.duration == 0
  }

  /** The output, with the time the call took if the agent gave none. */
  ghost predicate TimedOutput(env: Env, id: string, a: nat, out: AgentOutput, timed: AgentOutput) {
    && timed.requestId == out.requestId && timed.payload == out.payload && timed.metadata == out.metadata
    && timed.duration == (if out.duration == 0 then env.oracle.elapsed(id, a) else out.duration)
  }

  /** Attempt `a` asks the breaker. */
  ghost predicate AskedAs(env: Env, id: string, a: nat, v: Event)
    requires id in env.nodes
  {
    && v.Asked? && v.who == id && v.agent == env.nodes[id].invocation.agentId
    && OwnPolicy(env, id, v.policy) && v.now == env.oracle.askedAt(id, a)
  }

  /** The outcome of attempt `a` is recorded in the breaker. */
  ghost predicate EndedAs(env: Env, id: string, a: nat, probe: bool, w: Event)
    requires id in env.nodes
  {
    && !w.Asked? && w.who == id && w.agent == env.nodes[id].invocation.agentId
    && (w.Succeeded? <==> CallOf(env, id, a, probe).Returned?)
    && (w.Failed? ==> OwnPolicy(env, id, w.policy) && w.now == env.oracle.failedAt(id, a))
  }

  /** The step of attempt `a`, whose call was made. */
  ghost predicate StepOfCall(env: Env, id: string, a: nat, probe: bool, step: Step)
    requires id in env.nodes
  {
    var o := CallOf(env, id, a, probe);
    && Describes(env, id, step) && step.attempt == a && step.duration == env.oracle.elapsed(id, a)
    && if o.Returned? then step.error == "" && TimedOutput(env, id, a, o.out, step.output)
       else step.error == ErrorOf(o).value.text && step.output == OutputOf(o)
  }

  /** Events `2a - 2` and `2a - 1` and step `a - 1` are those of an admitted attempt `a`. */
  ghost predicate Attempted(env: Env, id: string, evs: History, steps: seq<Step>, a: int)
    requires id in env.nodes
  {
    && 1 <= a <= |steps| && 2 * a <= |evs|
    && AskedAs(env, id, a, evs[2 * a - 2]) && evs[2 * a - 2].admitted
    && EndedAs(env, id, a, evs[2 * a - 2].probe, evs[2 * a - 1])
    && StepOfCall(env, id, a, evs[2 * a - 2].probe, steps[a - 1])
  }

  /** An admitted attempt that failed and is followed by another one. */
  ghost predicate Round(env: Env, id: string, evs: History, steps: seq<Step>, a: int)
    requires id in env.nodes
  {
    && Attempted(env, id, evs, steps, a) && a < Limit(env, id)
    && var err := ErrorOf(CallOf(env, id, a, evs[2 * a - 2].probe)); err.Some? && Retryable(env, id, err.value)
  }

  ghost predicate Rounds(env: Env, id: string, evs: History, steps: seq<Step>, n: int)
    requires id in env.nodes
  {
    && 0 <= n <= |steps| && 2 * n <= |evs|
    && forall a {:trigger Round(env, id, evs, steps, a)} :: 1 <= a <= n ==> Round(env, id, evs, steps, a)
  }

  /** No wait after attempts 1 to `n` was cancelled. */
  ghost predicate GoesOn(env: Env, id: string, n: int) {
    forall a :: 1 <= a <= n ==> env.oracle.cancelled(id, a).None?
  }

  /** Attempts 1 to `n` were rounds, and the node went on to attempt `n + 1`. */
  ghost predicate UpTo(env: Env, id: string, evs: History, steps: seq<Step>, n: int)
    requires id in env.nodes
  {
    Rounds(env, id, evs, steps, n) && GoesOn(env, id, n)
  }

  // ---------------------------------------------------------------------
  // Endings
  // ---------------------------------------------------------------------

  ghost predicate Reports(env: Env, id: string, r: AgentResult, err: Error)
    requires id in env.nodes
  {
    r.invocation == env.nodes[id].invocation && r.output == AgentOutput("", [], map[], 0) && r.err == Some(err)
  }

  /** The agent is not registered. */
  ghost predicate NoAgent(env: Env, id: string, evs: History, steps: seq<Step>, r: AgentResult)
    requires id in env.nodes
  {
    var text := "agent not registered: " + env.nodes[id].invocation.agentId;
    && env.nodes[id].invocation.agentId !in env.registry && evs == [] && |steps| == 1
    && Describes(env, id, steps[0]) && steps[0].attempt == 1 && steps[0].error == text && NoOutput(steps[0])
    && Reports(env, id, r, Error(text, None, {}))
  }

  /** The breaker refused attempt `k`. */
  ghost predicate TurnedAway(env: Env, id: string, evs: History, steps: seq<Step>, r: AgentResult)
    requires id in env.nodes
  {
    var k, text := |steps|, "agent error: circuit breaker open: " + env.nodes[id].invocation.agentId;
    && k >= 1 && |evs| == 2 * k - 1 && UpTo(env, id, evs, steps, k - 1)
    && AskedAs(env, id, k, evs[2 * k - 2]) && !evs[2 * k - 2].admitted
    && Describes(env, id, steps[k - 1]) && steps[k - 1].attempt == k && steps[k - 1].error == text &&
        NoOutput(steps[k - 1])
    && Reports(env, id, r, Error(text, Some(false), {Sentinel.CircuitOpen}))
  }

  /** Attempt `k` was the last one that was called. */
  ghost predicate LastCalled(env: Env, id: string, evs: History, steps: seq<Step>)
    requires id in env.nodes
  {
    var k := |steps|;
    && k >= 1 && |evs| == 2 * k && UpTo(env, id, evs, steps, k - 1) && Attempted(env, id, evs, steps, k)
  }

  ghost function LastCall(env: Env, id: string, evs: History, steps: seq<Step>): CallOutcome
    requires id in env.nodes && LastCalled(env, id, evs, steps)
  {
    CallOf(env, id, |steps|, evs[2 * |steps| - 2].probe)
  }

  /** It returned. */
  ghost predicate ReturnsLast(env: Env, id: string, evs: History, steps: seq<Step>, r: AgentResult)
    requires id in env.nodes
  {
    && LastCalled(env, id, evs, steps) && LastCall(env, id, evs, steps).Returned?
    && r.invocation == env.nodes[id].invocation && r.err.None? && r.output == steps[|steps| - 1].output
  }

  /** It failed, and there is no other attempt. */
  ghost predicate FailsLast(env: Env, id: string, evs: History, steps: seq<Step>, r: AgentResult)
    requires id in env.nodes
  {
    && LastCalled(env, id, evs, steps)
    && var err := ErrorOf(LastCall(env, id, evs, steps));
       err.Some? && Reports(env, id, r, err.value) && !(|steps| != Limit(env, id) && Retryable(env, id, err.value))
  }

  /** It failed, and the wait for the next attempt was cancelled. */
  ghost predicate IsCancelled(env: Env, id: string, evs: History, steps: seq<Step>, r: AgentResult)
    requires id in env.nodes
  {
    var k := |steps|;
    && k >= 1 && |evs| == 2 * k && Rounds(env, id, evs, steps, k) && GoesOn(env, id, k - 1)
    && env.oracle.cancelled(id, k).Some? && Reports(env, id, r, env.oracle.cancelled(id, k).value)
  }

  ghost predicate Concludes(env: Env, id: string, evs: History, steps: seq<Step>, r: AgentResult)
    requires id in env.nodes
  {
    || NoAgent(env, id, evs, steps, r) || TurnedAway(env, id, evs, steps, r)
    || ReturnsLast(env, id, evs, steps, r) || FailsLast(env, id, evs, steps, r)
  }

  /** The whole story of a node that was not skipped. */
  ghost predicate Story(env: Env, id: string, evs: History, steps: seq<Step>, r: AgentResult)
    requires id in env.nodes
  {
    Concludes(env, id, evs, steps, r) || IsCancelled(env, id, evs, steps, r)
  }

  /** The story of a node that was skipped: one step of attempt 0 with the error of its result. */
  ghost predicate SkipStory(env: Env, id: string, evs: History, steps: seq<Step>, r: AgentResult)
    requires id in env.nodes
  {
    && evs == [] && |steps| == 1 && Describes(env, id, steps[0]) && steps[0].attempt == 0 && NoOutput(steps[0])
    && r.err.Some? && Reports(env, id, r, r.err.value) && steps[0].error == r.err.value.text
  }

  // ---------------------------------------------------------------------
  // The story so far, by program counter
  // ---------------------------------------------------------------------

  ghost predicate SoFar(env: Env, id: string, pc: Pc, evs: History, steps: seq<Step>)
    requires id in env.nodes
  {
    match pc
    case Idle => evs == [] && steps == []
    case Skipping(r) => SkipStory(env, id, evs, steps, r)
    case Spawned => evs == [] && steps == []
    case Looking => evs == [] && steps == []
    case Asking(a) => a >= 1 && |evs| == 2 * a - 2 && |steps| == a - 1 && UpTo(env, id, evs, steps, a - 1)
    case Calling(a, probe) => InCallSoFar(env, id, a, probe, evs, steps)
    case Settling(a, probe, o) => InCallSoFar(env, id, a, probe, evs, steps) && o == CallOf(env, id, a, probe)
    case Emitting(todo, Again(a)) => Waits(env, id, a, evs, steps + Logged(todo))
    case Emitting(todo, Finish(r)) => Concludes(env, id, evs, steps + Logged(todo), r)
    case Waiting(a) => Waits(env, id, a, evs, steps)
    case Sending(r) => Story(env, id, evs, steps, r)
    case Sent(r) => Story(env, id, evs, steps, r)
    case Freed(r) => Story(env, id, evs, steps, r)
    case Done(r) => Story(env, id, evs, steps, r) || SkipStory(env, id, evs, steps, r)
  }

  ghost predicate InCallSoFar(env: Env, id: string, a: nat, probe: bool, evs: History, steps: seq<Step>)
    requires id in env.nodes
  {
    && a >= 1 && |evs| == 2 * a - 1 && |steps| == a - 1 && UpTo(env, id, evs, steps, a - 1)
    && AskedAs(env, id, a, evs[2 * a - 2]) && evs[2 * a - 2].admitted && evs[2 * a - 2].probe == probe
  }

  ghost predicate Waits(env: Env, id: string, a: nat, evs: History, steps: seq<Step>)
    requires id in env.nodes
  {
    a >= 1 && |evs| == 2 * a && |steps| == a && Rounds(env, id, evs, steps, a) && GoesOn(env, id, a - 1)
  }

  /** Rounds stay rounds when more events and steps follow. */
  lemma RoundsGrow(env: Env, id: string, evs: History, steps: seq<Step>, evs': History, steps': seq<Step>, n: int)
    requires id in env.nodes && Rounds(env, id, evs, steps, n) && evs <= evs' && steps <= steps'
    ensures Rounds(env, id, evs', steps', n)
  {
    forall a | 1 <= a <= n ensures Round(env, id, evs', steps', a) {
      assert Round(env, id, evs, steps, a);
    }
  }

  lemma RoundsMore(env: Env, id: string, evs: History, steps: seq<Step>, n: int)
    requires id in env.nodes && Rounds(env, id, evs, steps, n) && Round(env, id, evs, steps, n + 1)
    ensures Rounds(env, id, evs, steps, n + 1)
  {}

  // ---------------------------------------------------------------------
  // Steps of a node
  // ---------------------------------------------------------------------

  lemma LookingTold(env: Env, id: string, entry: Option<Circuit>)
    requires Accepted(env) && id in env.nodes
    ensures var e := Local(env, id, Looking, entry); e.events == [] && e.steps == [] && SoFar(env, id, e.pc, [], [])
  {
    if AgentAt(env, id) !in env.registry {
      var pc := Unregistered(env, id);
      LoggedPair(pc.todo[0], pc.todo[1]);
      assert pc.todo == [pc.todo[0], pc.todo[1]];
      assert [] + Logged(pc.todo) == [pc.todo[1].s];
    }
  }

  lemma AskingTold(env: Env, id: string, a: nat, entry: Option<Circuit>, evs: History, steps: seq<Step>)
    requires Accepted(env) && id in env.nodes && SoFar(env, id, Asking(a), evs, steps)
    ensures var e := Local(env, id, Asking(a), entry);
            |e.events| == 1 && e.steps == [] && SoFar(env, id, e.pc, evs + e.events, steps)
  {
    var e := Local(env, id, Asking(a), entry);
    var v := e.events[0];
    var more := evs + e.events;
    SettingsAre(env, id, false);
    assert more[2 * a - 2] == v && AskedAs(env, id, a, v);
    RoundsGrow(env, id, evs, steps, more, steps, a - 1);
    if !v.admitted { RefusedTold(env, id, a, more, steps); }
  }

  lemma RefusedTold(env: Env, id: string, a: nat, evs: History, steps: seq<Step>)
    requires Accepted(env) && id in env.nodes && a >= 1 && |evs| == 2 * a - 1 && |steps| == a - 1
    requires UpTo(env, id, evs, steps, a - 1) && AskedAs(env, id, a, evs[2 * a - 2]) && !evs[2 * a - 2].admitted
    ensures SoFar(env, id, Refused(env, id, a), evs, steps)
  {
    var step := RefusedEmits(env, id, a);
    RoundsGrow(env, id, evs, steps, evs, steps + [step], a - 1);
    assert (steps + [step])[a - 1] == step;
  }

  lemma RefusedEmits(env: Env, id: string, a: nat) returns (step: Step)
    requires Accepted(env) && id in env.nodes
    ensures var pc, text := Refused(env, id, a), "agent error: circuit breaker open: "
              + env.nodes[id].invocation.agentId;
            && pc.Emitting? && Logged(pc.todo) == [step] && pc.next.Finish?
            && Reports(env, id, pc.next.r, Error(text, Some(false), {Sentinel.CircuitOpen}))
            && Describes(env, id, step) && step.attempt == a && step.error == text && NoOutput(step)
  {
    var pc := Refused(env, id, a);
    step := pc.todo[2].s;
    LoggedTriple(pc.todo[0], pc.todo[1], pc.todo[2]);
    assert pc.todo == [pc.todo[0], pc.todo[1], pc.todo[2]];
    OpenErrorIs(env, id);
  }

  lemma OpenErrorIs(env: Env, id: string)
    requires id in env.nodes
    ensures var text := "agent error: circuit breaker open: " + env.nodes[id].invocation.agentId;
            OpenError(env, id) == Error(text, Some(false), {Sentinel.CircuitOpen})
  {
    assert "agent error: " + ("circuit breaker open: " + AgentAt(env, id)) ==
             "agent error: circuit breaker open: " + AgentAt(env, id);
  }

  lemma CallingTold(env: Env, id: string, a: nat, probe: bool, entry: Option<Circuit>, evs: History, steps: seq<Step>)
    requires id in env.nodes && SoFar(env, id, Calling(a, probe), evs, steps)
    ensures var e := Local(env, id, Calling(a, probe), entry);
            e.events == [] && e.steps == [] && SoFar(env, id, e.pc, evs, steps)
  {
    SettingsAre(env, id, probe);
  }

  /** The call of attempt `a` is settled: its step and its outcome complete an attempt. */
  lemma SettledAttempt(
    env: Env, id: string, a: nat, probe: bool, evs: History, steps: seq<Step>, w: Event, step: Step)
    requires id in env.nodes && InCallSoFar(env, id, a, probe, evs, steps)
    requires EndedAs(env, id, a, probe, w) && StepOfCall(env, id, a, probe, step)
    ensures Attempted(env, id, evs + [w], steps + [step], a) && UpTo(env, id, evs + [w], steps + [step], a - 1)
  {
    RoundsGrow(env, id, evs, steps, evs + [w], steps + [step], a - 1);
  }

  lemma CompletedEmits(env: Env, id: string, a: nat, out: AgentOutput) returns (step: Step)
    requires Accepted(env) && id in env.nodes
    ensures var pc := Completed(env, id, a, out);
            && pc.Emitting? && Logged(pc.todo) == [step] && pc.next.Finish?
            && pc.next.r == AgentResult(env.nodes[id].invocation, step.output, None)
            && Describes(env, id, step) && step.attempt == a && step.error == "" &&
                step.duration == env.oracle.elapsed(id, a)
            && TimedOutput(env, id, a, out, step.output)
  {
    var pc := Completed(env, id, a, out);
    step := pc.todo[1].s;
    LoggedPair(pc.todo[0], pc.todo[1]);
    assert pc.todo == [pc.todo[0], pc.todo[1]];
  }

  lemma FailedEmits(env: Env, id: string, a: nat, out: AgentOutput, err: Error) returns (step: Step)
    requires Accepted(env) && id in env.nodes
    ensures var pc := FailedAttempt(env, id, a, out, err);
            && pc.Emitting? && Logged(pc.todo) == [step]
            && (if TriesAgain(env, id, a, err) then pc.next == Again(a)
                else pc.next.Finish? && Reports(env, id, pc.next.r, err))
            && Describes(env, id, step) && step.attempt == a && step.error == err.text
            && step.duration == env.oracle.elapsed(id, a) && step.output == out
  {
    var pc := FailedAttempt(env, id, a, out, err);
    step := pc.todo[1].s;
    if TriesAgain(env, id, a, err) {
      LoggedTriple(pc.todo[0], pc.todo[1], pc.todo[2]);
      assert pc.todo == [pc.todo[0], pc.todo[1], pc.todo[2]];
    } else {
      LoggedPair(pc.todo[0], pc.todo[1]);
      assert pc.todo == [pc.todo[0], pc.todo[1]];
    }
  }

  /** What the settling step tells the breaker and where it goes. */
  lemma SettlingEmits(env: Env, id: string, a: nat, probe: bool, entry: Option<Circuit>, o: CallOutcome)
    returns (w: Event)
    requires id in env.nodes && o == CallOf(env, id, a, probe)
    ensures var e := Local(env, id, Settling(a, probe, o), entry);
            && e.events == [w] && e.steps == [] && EndedAs(env, id, a, probe, w)
            && (o.Returned? ==> e.pc == Completed(env, id, a, o.out))
            && (!o.Returned? ==> e.pc == FailedAttempt(env, id, a, OutputOf(o), ErrorOf(o).value))
  {
    OutcomesAre(o);
    SettingsAre(env, id, probe);
    w := Local(env, id, Settling(a, probe, o), entry).events[0];
  }

  lemma SuccessTold(
    env: Env, id: string, a: nat, probe: bool, evs: History, steps: seq<Step>, o: CallOutcome, w: Event)
    requires Accepted(env) && id in env.nodes && InCallSoFar(env, id, a, probe, evs, steps)
    requires o == CallOf(env, id, a, probe) && o.Returned? && EndedAs(env, id, a, probe, w)
    ensures SoFar(env, id, Completed(env, id, a, o.out), evs + [w], steps)
  {
    var step := CompletedEmits(env, id, a, o.out);
    SettledAttempt(env, id, a, probe, evs, steps, w, step);
    assert (steps + [step])[a - 1] == step;
  }

  lemma FailureTold(
    env: Env, id: string, a: nat, probe: bool, evs: History, steps: seq<Step>, o: CallOutcome, w: Event)
    requires Accepted(env) && id in env.nodes && InCallSoFar(env, id, a, probe, evs, steps)
    requires o == CallOf(env, id, a, probe) && !o.Returned? && EndedAs(env, id, a, probe, w) && a <= Limit(env, id)
    ensures SoFar(env, id, FailedAttempt(env, id, a, OutputOf(o), ErrorOf(o).value), evs + [w], steps)
  {
    var err := ErrorOf(o).value;
    var step := FailedEmits(env, id, a, OutputOf(o), err);
    RetryableIs(env, id, a, err);
    SettledAttempt(env, id, a, probe, evs, steps, w, step);
    if TriesAgain(env, id, a, err) { RoundsMore(env, id, evs + [w], steps + [step], a - 1); }
  }

  lemma SettlingTold(
    env: Env, id: string, a: nat, probe: bool, entry: Option<Circuit>, o: CallOutcome, evs: History, steps: seq<Step>)
    requires Accepted(env) && id in env.nodes && SoFar(env, id, Settling(a, probe, o), evs, steps) &&
               a <= Limit(env, id)
    ensures var e := Local(env, id, Settling(a, probe, o), entry);
            e.steps == [] && SoFar(env, id, e.pc, evs + e.events, steps)
  {
    var w := SettlingEmits(env, id, a, probe, entry, o);
    if o.Returned? {
      SuccessTold(env, id, a, probe, evs, steps, o, w);
    } else {
      FailureTold(env, id, a, probe, evs, steps, o, w);
    }
  }

  lemma EmittingTold(env: Env, id: string, pc: Pc, entry: Option<Circuit>, evs: History, steps: seq<Step>)
    requires id in env.nodes && pc.Emitting? && SoFar(env, id, pc, evs, steps)
    ensures var e := Local(env, id, pc, entry); e.events == [] && SoFar(env, id, e.pc, evs, steps + e.steps)
  {
    var e := Local(env, id, pc, entry);
    if pc.todo == [] {
      assert steps + e.steps == steps == steps + Logged(pc.todo);
    } else {
      LoggedOne(steps, pc.todo, e.steps);
    }
  }

  lemma WaitingTold(env: Env, id: string, a: nat, entry: Option<Circuit>, evs: History, steps: seq<Step>)
    requires id in env.nodes && SoFar(env, id, Waiting(a), evs, steps)
    ensures var e := Local(env, id, Waiting(a), entry);
            e.events == [] && e.steps == [] && SoFar(env, id, e.pc, evs, steps)
  {}

  /** Every step of a node continues its story. */
  lemma LocalTold(env: Env, id: string, pc: Pc, entry: Option<Circuit>, evs: History, steps: seq<Step>)
    requires Accepted(env) && id in env.nodes && Busy(pc) && Sane(env, id, pc) && SoFar(env, id, pc, evs, steps)
    ensures var e := Local(env, id, pc, entry); SoFar(env, id, e.pc, evs + e.events, steps + e.steps)
  {
    assert evs + [] == evs && steps + [] == steps;
    match pc
    case Looking => LookingTold(env, id, entry);
    case Asking(a) => AskingTold(env, id, a, entry, evs, steps);
    case Calling(a, probe) => CallingTold(env, id, a, probe, entry, evs, steps);
    case Settling(a, probe, o) =>
      SettingsAre(env, id, probe);
      SettlingTold(env, id, a, probe, entry, o, evs, steps);
    case Emitting(_, _) => EmittingTold(env, id, pc, entry, evs, steps);
    case Waiting(a) => WaitingTold(env, id, a, entry, evs, steps);
  }

  // ---------------------------------------------------------------------
  // Whole runs
  // ---------------------------------------------------------------------

  function WhoOf(v: Event): string { v.who }

  /** The breaker calls since the run began, `base` being how many there were before. */
  ghost function Fresh(s: State, base: int): History {
    if 0 <= base <= |s.events| then s.events[base..] else []
  }

  ghost function NodeEvents(s: State, base: int, id: string): History {
    Pick(Fresh(s, base), WhoOf, id)
  }

  ghost predicate ToldAt(env: Env, s: State, base: int, id: string)
    requires id in env.nodes && id in s.pcs
  {
    SoFar(env, id, s.pcs[id], NodeEvents(s, base, id), LogOf(s, id))
  }

  ghost predicate Told(env: Env, s: State, base: int)
    requires Typed(env, s)
  {
    0 <= base <= |s.events| && forall id {:trigger ToldAt(env, s, base, id)} :: id in s.pcs ==> ToldAt(env, s, base, id)
  }

  lemma EventsGrow(s: State, s': State, base: int, id: string, events: History, other: string)
    requires 0 <= base <= |s.events| && s'.events == s.events + events && forall v :: v in events ==> v.who == id
    ensures NodeEvents(s', base, other) ==
              if other == id then NodeEvents(s, base, other) + events else NodeEvents(s, base, other)
  {
    assert s'.events[base..] == s.events[base..] + events;
    PickAppend(s.events[base..], events, WhoOf, other);
    PickAll(events, WhoOf, id, other);
  }

  lemma BusyTold(env: Env, s: State, base: int, id: string, e: Effect)
    requires Typed(env, s) && Told(env, s, base) && id in env.nodes && OwnEffect(env, id, e)
    requires SoFar(env, id, e.pc, NodeEvents(s, base, id) + e.events, LogOf(s, id) + e.steps)
    ensures Typed(env, ApplyEffect(env, s, id, e)) && Told(env, ApplyEffect(env, s, id, e), base)
  {
    var s' := ApplyEffect(env, s, id, e);
    forall x | x in s'.pcs ensures ToldAt(env, s', base, x) {
      assert ToldAt(env, s, base, x);
      EventsGrow(s, s', base, id, e.events, x);
      LogGrows(s, s', id, e.steps, x);
    }
  }

  lemma SharedTold(env: Env, s: State, s': State, base: int, id: string)
    requires Typed(env, s) && Told(env, s, base) && id in env.nodes && Typed(env, s')
    requires s.pcs[id].Spawned? || s.pcs[id].Sending? || s.pcs[id].Sent? || s.pcs[id].Freed?
    requires s'.pcs == s.pcs[id := AfterShared(s.pcs[id])] && s'.log == s.log && s'.events == s.events
    ensures Told(env, s', base)
  {
    forall x | x in s'.pcs ensures ToldAt(env, s', base, x) {
      assert ToldAt(env, s, base, x);
    }
  }

  lemma NodeTold(env: Env, pool: int, id: string, s: State, s': State, base: int)
    requires Accepted(env) && Typed(env, s) && AllSane(env, s) && Traced(env, s) && Told(env, s, base)
    requires id in env.nodes && NextNode(env, pool, id, s) == Some(s')
    ensures Typed(env, s') && Told(env, s', base)
  {
    assert TracedAt(env, s, id) && ToldAt(env, s, base, id) && Sane(env, id, s.pcs[id]);
    if Busy(s.pcs[id]) {
      var entry := Entry(s.breaker, AgentAt(env, id));
      LocalOwn(env, id, s.pcs[id], entry);
      LocalTold(env, id, s.pcs[id], entry, NodeEvents(s, base, id), LogOf(s, id));
      var e := BusyMove(env, pool, id, s, s');
      BusyTold(env, s, base, id, e);
    } else {
      SharedMove(env, pool, id, s, s');
      SharedTold(env, s, s', base, id);
    }
  }

  lemma DispatchTold(env: Env, s: State, s': State, base: int, id: string, pc: Pc, added: seq<Step>)
    requires Accepted(env) && Typed(env, s) && Typed(env, s') && Told(env, s, base) && id in env.nodes
    requires s'.pcs == s.pcs[id := pc] && s'.log == s.log + added && s'.events == s.events
    requires DispatchedAs(env, id, s.pcs[id], pc, added)
    ensures Told(env, s', base)
  {
    assert ToldAt(env, s, base, id);
    DispatchSoFar(env, id, s.pcs[id], pc, NodeEvents(s, base, id), LogOf(s, id), added);
    forall x | x in s'.pcs ensures ToldAt(env, s', base, x) {
      assert ToldAt(env, s, base, x);
      LogGrows(s, s', id, added, x);
    }
  }

  /** What the dispatcher does with a node: skip it, spawn it, or send the skipped result. */
  ghost predicate DispatchedAs(env: Env, id: string, was: Pc, pc: Pc, added: seq<Step>)
    requires id in env.nodes
  {
    match pc
    case Skipping(r) => was.Idle? && SkipStory(env, id, [], added, r)
    case Spawned => was.Idle? && added == []
    case Done(r) => was == Skipping(r) && added == []
    case _ => false
  }

  lemma DispatchSoFar(env: Env, id: string, was: Pc, pc: Pc, evs: History, steps: seq<Step>, added: seq<Step>)
    requires id in env.nodes && SoFar(env, id, was, evs, steps) && DispatchedAs(env, id, was, pc, added)
    ensures SoFar(env, id, pc, evs, steps + added) && forall x :: x in added ==> x.invocationId == id
  {
    assert steps + [] == steps;
    if pc.Skipping? { assert [] + added == added; }
  }

  lemma MainTold(env: Env, s: State, s': State, base: int)
    requires Accepted(env) && Typed(env, s) && Told(env, s, base) && NextMain(env, s) == Some(s')
    ensures Typed(env, s') && Told(env, s', base)
  {
    if s.next < |env.levels[s.level]| {
      var id, pc, added := DispatchMove(env, s, s');
      DispatchTold(env, s, s', base, id, pc, added);
    } else {
      CollectMove(env, s, s');
      forall x | x in s'.pcs ensures ToldAt(env, s', base, x) {
        assert ToldAt(env, s, base, x);
      }
    }
  }

  lemma MovesTold(env: Env, pool: int, s: State, s': State, base: int)
    requires Accepted(env) && Typed(env, s) && AllSane(env, s) && Traced(env, s) && Told(env, s, base)
    requires Moves(env, pool, s, s')
    ensures Typed(env, s') && Told(env, s', base)
  {
    if NextMain(env, s) == Some(s') {
      MainTold(env, s, s', base);
    } else {
      var id :| id in env.nodes && NextNode(env, pool, id, s) == Some(s');
      NodeTold(env, pool, id, s, s', base);
    }
  }

  lemma InitialTold(env: Env, s: State)
    requires Initial(env, s)
    ensures Told(env, s, |s.events|)
  {
    forall id | id in s.pcs ensures ToldAt(env, s, |s.events|, id) {
      assert s.events[|s.events|..] == [];
    }
  }

  lemma StepTold(env: Env, pool: int, run: seq<State>, i: int, base: int)
    requires Accepted(env) && Run(env, pool, run) && 0 < i < |run|
    requires Typed(env, run[i - 1]) && Told(env, run[i - 1], base)
    ensures Typed(env, run[i]) && Told(env, run[i], base)
  {
    RunsTraced(env, pool, run, i - 1);
    assert MovesAt(env, pool, run, i);
    MovesTold(env, pool, run[i - 1], run[i], base);
  }

  /** In every state of every run, every node is in the middle of its story. */
  lemma {:induction false} RunsTold(env: Env, pool: int, run: seq<State>, i: int)
    requires Accepted(env) && Run(env, pool, run) && 0 <= i < |run|
    ensures Typed(env, run[i]) && Told(env, run[i], |run[0].events|)
  {
    if i == 0 {
      InitialTold(env, run[0]);
    } else {
      RunsTold(env, pool, run, i - 1);
      StepTold(env, pool, run, i, |run[0].events|);
    }
  }

  // ---------------------------------------------------------------------
  // What the story says
  // ---------------------------------------------------------------------

  lemma CancelledLast(env: Env, id: string, evs: History, steps: seq<Step>, r: AgentResult)
    requires id in env.nodes
    ensures IsCancelled(env, id, evs, steps, r) ==> Round(env, id, evs, steps, |steps|)
  {
    if IsCancelled(env, id, evs, steps, r) { assert Round(env, id, evs, steps, |steps|); }
  }

  lemma StoryStarts(env: Env, id: string, evs: History, steps: seq<Step>, r: AgentResult)
    requires id in env.nodes && Story(env, id, evs, steps, r)
    ensures 1 <= |steps| && steps[0].attempt == 1
  {
    if IsCancelled(env, id, evs, steps, r) || |steps| > 1 { assert Round(env, id, evs, steps, 1); }
  }

  /** A finished node was skipped, with the error that quotes its first failed dependency, or its events,
      steps and result tell one of the five stories. */
  lemma NodeStory(env: Env, pool: int, run: seq<State>, i: int, id: string)
    requires Accepted(env) && Run(env, pool, run) && 0 <= i < |run| && id in env.nodes
    requires id in run[i].pcs && run[i].pcs[id].Done?
    ensures var s, evs, r := run[i], NodeEvents(run[i], |run[0].events|, id), run[i].pcs[id].r;
            if WasSkipped(s, id) then
              SkipStory(env, id, evs, LogOf(s, id), r) && SkippedFor(env.nodes[id].dependsOn, s.results, r)
            else Story(env, id, evs, LogOf(s, id), r)
  {
    var s, base := run[i], |run[0].events|;
    RunsTold(env, pool, run, i);
    ToldEnd(env, s, base, id);
    if WasSkipped(s, id) { SkipQuotes(env, pool, run, i, id); }
  }

  lemma ToldEnd(env: Env, s: State, base: int, id: string)
    requires Typed(env, s) && Told(env, s, base) && id in env.nodes && s.pcs[id].Done?
    ensures if WasSkipped(s, id) then SkipStory(env, id, NodeEvents(s, base, id), LogOf(s, id), s.pcs[id].r)
            else Story(env, id, NodeEvents(s, base, id), LogOf(s, id), s.pcs[id].r)
  {
    assert ToldAt(env, s, base, id);
    if Story(env, id, NodeEvents(s, base, id), LogOf(s, id), s.pcs[id].r) {
      StoryStarts(env, id, NodeEvents(s, base, id), LogOf(s, id), s.pcs[id].r);
    }
  }

  lemma SkipQuotes(env: Env, pool: int, run: seq<State>, i: int, id: string)
    requires Accepted(env) && Run(env, pool, run) && 0 <= i < |run| && id in env.nodes && id in run[i].pcs
    requires run[i].pcs[id].Done? && WasSkipped(run[i], id)
    ensures SkippedFor(env.nodes[id].dependsOn, run[i].results, run[i].pcs[id].r)
  {
    RunsJustified(env, pool, run, i);
    assert JustifiedAt(env, run[i], id);
  }

  /** How the call of attempt `a` ended, if there was one. */
  ghost function AttemptCall(env: Env, id: string, evs: History, a: int): Option<CallOutcome>
    requires id in env.nodes
  {
    if 1 <= a && 2 * a <= |evs| && evs[2 * a - 2].Asked? then Some(CallOf(env, id, a, evs[2 * a - 2].probe)) else None
  }

  /** How the last attempt ended, if it was called. */
  ghost function FinalCall(env: Env, id: string, evs: History, steps: seq<Step>): Option<CallOutcome>
    requires id in env.nodes
  {
    AttemptCall(env, id, evs, |steps|)
  }

  /** A node ends without an error exactly when its last call returned, and then it hands on what that call
      returned. */
  lemma SucceedsIffReturned(env: Env, id: string, evs: History, steps: seq<Step>, r: AgentResult)
    requires id in env.nodes && Story(env, id, evs, steps, r)
    ensures var o := FinalCall(env, id, evs, steps);
            && (r.err.None? <==> o.Some? && o.value.Returned?)
            && (r.err.None? ==> TimedOutput(env, id, |steps|, o.value.out, r.output))
  {
    CancelledLast(env, id, evs, steps, r);
  }

  /** A panic ends the node at that attempt, with an error that is not retryable. */
  lemma PanicEnds(env: Env, id: string, evs: History, steps: seq<Step>, r: AgentResult, a: int)
    requires id in env.nodes && Story(env, id, evs, steps, r)
    requires AttemptCall(env, id, evs, a).Some? && AttemptCall(env, id, evs, a).value.Panicked?
    ensures var reason := AttemptCall(env, id, evs, a).value.reason;
            && 1 <= a == |steps|
            && r.err == Some(Error("agent error: agent panicked: " + reason, Some(false), {AgentPanic}))
            && steps[a - 1].error == "agent error: agent panicked: " + reason
  {
    NoRoundPanics(env, id, evs, steps, a);
  }

  lemma NoRoundPanics(env: Env, id: string, evs: History, steps: seq<Step>, a: int)
    requires id in env.nodes && AttemptCall(env, id, evs, a).Some? && AttemptCall(env, id, evs, a).value.Panicked?
    ensures !Round(env, id, evs, steps, a)
  {}

  /** An error that ends the node is reported as it was returned; one with a deadline as a timeout. */
  lemma ErrorReported(env: Env, id: string, evs: History, steps: seq<Step>, r: AgentResult)
    requires id in env.nodes && Story(env, id, evs, steps, r) && !IsCancelled(env, id, evs, steps, r)
    requires FinalCall(env, id, evs, steps).Some? && FinalCall(env, id, evs, steps).value.Errored?
    ensures var e := FinalCall(env, id, evs, steps).value.err;
            r.err == Some(if DeadlineExceeded in e.chain then Error("agent timeout: " + e.text, None, {AgentTimeout})
                else e)
  {}

  /** A node whose requests are all admitted, whose calls all fail with retryable errors and whose waits are
      not cancelled makes exactly as many attempts as its limit says. */
  lemma AttemptsExhausted(env: Env, id: string, evs: History, steps: seq<Step>, r: AgentResult)
    requires id in env.nodes && Story(env, id, evs, steps, r) && env.nodes[id].invocation.agentId in env.registry
    requires forall v :: v in evs && v.Asked? ==> v.admitted
    requires forall a {:trigger AttemptCall(env, id, evs, a)} :: AttemptCall(env, id, evs, a).Some? ==>
               FailsRetryably(env, id, AttemptCall(env, id, evs, a).value)
    requires GoesOn(env, id, |steps|)
    ensures |steps| == Limit(env, id)
  {
    assert |evs| > 0 ==> evs[|evs| - 1] in evs;
    var o := FinalCall(env, id, evs, steps);
    assert o.Some? ==> FailsRetryably(env, id, o.value);
  }

  ghost predicate FailsRetryably(env: Env, id: string, o: CallOutcome)
    requires id in env.nodes
  {
    ErrorOf(o).Some? && Retryable(env, id, ErrorOf(o).value)
  }

  /** In every state of every run, every breaker call is made for a node, on its agent and under its policy. */
  lemma {:induction false} EventsUnderPolicy(env: Env, pool: int, run: seq<State>, i: int)
    requires Accepted(env) && Run(env, pool, run) && 0 <= i < |run|
    ensures |run[0].events| <= |run[i].events|
    ensures forall v :: v in Fresh(run[i], |run[0].events|) ==> ForNode(env, v)
  {
    if i > 0 {
      EventsUnderPolicy(env, pool, run, i - 1);
      RunsTraced(env, pool, run, i - 1);
      assert MovesAt(env, pool, run, i);
      MovesUnderPolicy(env, pool, run[i - 1], run[i], |run[0].events|);
    }
  }

  /** The breaker call is made for a node, on its agent and, unless it is a success, under its policy. */
  ghost predicate ForNode(env: Env, v: Event) {
    && v.who in env.nodes && v.agent == env.nodes[v.who].invocation.agentId
    && (!v.Succeeded? ==> OwnPolicy(env, v.who, v.policy))
  }

  lemma LocalUnderPolicy(env: Env, id: string, pc: Pc, entry: Option<Circuit>)
    requires id in env.nodes && Busy(pc)
    ensures forall v :: v in Local(env, id, pc, entry).events ==> ForNode(env, v)
  {
    SettingsAre(env, id, false);
  }

  lemma MovesUnderPolicy(env: Env, pool: int, s: State, s': State, base: int)
    requires Moves(env, pool, s, s') && 0 <= base <= |s.events| && forall v :: v in Fresh(s, base) ==> ForNode(env, v)
    ensures base <= |s'.events| && forall v :: v in Fresh(s', base) ==> ForNode(env, v)
  {
    if NextMain(env, s) == Some(s') {
      if s.next < |env.levels[s.level]| {
        var id, pc, added := DispatchMove(env, s, s');
      } else {
        CollectMove(env, s, s');
      }
    } else {
      var id :| id in env.nodes && NextNode(env, pool, id, s) == Some(s');
      if Busy(s.pcs[id]) {
        var e := BusyMove(env, pool, id, s, s');
        LocalUnderPolicy(env, id, s.pcs[id], Entry(s.breaker, AgentAt(env, id)));
        assert s'.events[base..] == s.events[base..] + e.events;
      } else {
        SharedMove(env, pool, id, s, s');
      }
    }
  }
}
