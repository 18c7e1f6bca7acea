/** The trace recorder, replay, and trace comparison. */
module Trace {
  import opened Basics
  import opened Types

  datatype ExecutionTrace = ExecutionTrace(
    taskId: string, steps: seq<Step>, startTime: int, endTime: int, totalLatency: int)

  // ---------------------------------------------------------------------
  // The recorder
  // ---------------------------------------------------------------------

  /** The order of the finalized steps. */
  predicate StepLess(a: Step, b: Step) {
    if a.invocationId != b.invocationId then Less(a.invocationId, b.invocationId)
    else if a.attempt != b.attempt then a.attempt < b.attempt
    else Less(a.requestId, b.requestId)
  }

  /** By invocation, then by attempt, then by request ID; steps that agree in all three come in any order. */
  ghost predicate Precedes(a: Step, b: Step) {
    || Less(a.invocationId, b.invocationId)
    || (a.invocationId == b.invocationId && a.attempt < b.attempt)
    || (a.invocationId == b.invocationId && a.attempt == b.attempt && !Less(b.requestId, a.requestId))
  }

  lemma NotLessPrecedes(a: Step, b: Step)
    requires !StepLess(b, a)
    ensures Precedes(a, b)
  {
    LessTotal(a.invocationId, b.invocationId);
  }

  lemma StepLessTransitive(a: Step, b: Step, c: Step)
    ensures StepLess(a, b) && StepLess(b, c) ==> StepLess(a, c)
  {
    if StepLess(a, b) && StepLess(b, c) {
      if a.invocationId != b.invocationId && b.invocationId != c.invocationId {
        LessTransitive(a.invocationId, b.invocationId, c.invocationId);
        LessIrreflexive(a.invocationId);
        if a.invocationId == c.invocationId {
          LessTransitive(a.invocationId, b.invocationId, a.invocationId);
        }
      } else if a.invocationId == b.invocationId == c.invocationId && a.attempt == b.attempt == c.attempt {
        LessTransitive(a.requestId, b.requestId, c.requestId);
      }
    }
  }

  lemma StepLessTotal(a: Step, b: Step)
    ensures
      || StepLess(a, b) || StepLess(b, a)
      || (a.invocationId == b.invocationId && a.attempt == b.attempt && a.requestId == b.requestId)
  {
    LessTotal(a.invocationId, b.invocationId);
    LessTotal(a.requestId, b.requestId);
  }

  lemma StepLessIsStrictOrder()
    ensures StrictOrder(StepLess)
  {
    forall a: Step ensures !StepLess(a, a) { LessIrreflexive(a.requestId); }
    forall a, b, c | StepLess(a, b) && StepLess(b, c) ensures StepLess(a, c) { StepLessTransitive(a, b, c); }
    forall a, b, c | !StepLess(b, a) && !StepLess(c, b) ensures !StepLess(c, a) {
      StepLessTotal(a, b);
      StepLessTotal(b, c);
      StepLessTransitive(c, a, b);
      StepLessTransitive(b, c, a);
    }
  }

  class Recorder {
    var trace: ExecutionTrace

    constructor (taskId: string, start: int)
      ensures trace == ExecutionTrace(taskId, [], start, 0, 0)
    {
      trace := ExecutionTrace(taskId, [], start, 0, 0);
    }

    method AddStep(step: Step)
      modifies this
      ensures trace == old(trace).(steps := old(trace.steps) + [step])
    {
      trace := trace.(steps := trace.steps + [step]);
    }

    /** The steps in order; the recorder itself is not changed. */
    method Finalize(end: int) returns (out: ExecutionTrace)
      ensures out.taskId == trace.taskId && out.startTime == trace.startTime
      ensures out.endTime == end && out.totalLatency == end - trace.startTime
      ensures Ordered(out.steps, StepLess) && multiset(out.steps) == multiset(trace.steps)
      ensures forall i, j :: 0 <= i < j < |out.steps| ==> Precedes(out.steps[i], out.steps[j])
    {
      StepLessIsStrictOrder();
      var steps := SortSlice(trace.steps, StepLess);
      forall i, j | 0 <= i < j < |steps| ensures Precedes(steps[i], steps[j]) {
        NotLessPrecedes(steps[i], steps[j]);
      }
      out := ExecutionTrace(trace.taskId, steps, trace.startTime, end, end - trace.startTime);
    }
  }

  /** No two steps share invocation and attempt. */
  ghost predicate UniqueKeys(log: seq<Step>) {
    forall i, j :: 0 <= i < j < |log| && log[i].invocationId == log[j].invocationId ==> log[i].attempt != log[j].attempt
  }

  lemma UniqueKeysPermuted(a: seq<Step>, b: seq<Step>)
    requires UniqueKeys(a) && multiset(a) == multiset(b)
    ensures UniqueKeys(b)
  {
    assert Distinct(a);
    PermutationOfDistinct(a, b);
    forall i, j | 0 <= i < j < |b| && b[i].invocationId == b[j].invocationId ensures b[i].attempt != b[j].attempt {
      assert b[i] in a && b[j] in a && b[i] != b[j];
      var x :| 0 <= x < |a| && a[x] == b[i];
      var y :| 0 <= y < |a| && a[y] == b[j];
      assert if x < y then a[x].attempt != a[y].attempt else a[y].attempt != a[x].attempt;
    }
  }

  /** Although the sort is not stable, logs with the same steps under unique keys are finalized to the same sequence. */
  lemma FinalizedUnique(a: seq<Step>, b: seq<Step>, fa: seq<Step>, fb: seq<Step>)
    requires UniqueKeys(a) && multiset(a) == multiset(b)
    requires Ordered(fa, StepLess) && multiset(fa) == multiset(a)
    requires Ordered(fb, StepLess) && multiset(fb) == multiset(b)
    ensures fa == fb
  {
    StepLessIsStrictOrder();
    StrictByKeys(a, fa);
    StrictByKeys(a, fb);
    StrictlyOrderedUnique(fa, fb, StepLess);
  }

  lemma StrictByKeys(a: seq<Step>, f: seq<Step>)
    requires UniqueKeys(a) && multiset(f) == multiset(a) && Ordered(f, StepLess)
    ensures StrictlyOrdered(f, StepLess)
  {
    UniqueKeysPermuted(a, f);
    forall i, j | 0 <= i < j < |f| ensures StepLess(f[i], f[j]) {
      StepLessTotal(f[i], f[j]);
    }
  }

  // ---------------------------------------------------------------------
  // The latest attempt of each invocation
  // ---------------------------------------------------------------------

  function Latest(steps: seq<Step>): map<string, Step> {
    if steps == [] then map[]
    else
      var m, s := Latest(steps[..|steps| - 1]), steps[|steps| - 1];
      if s.invocationId !in m || s.attempt >= m[s.invocationId].attempt then m[s.invocationId := s] else m
  }

  method LatestByInvocation(steps: seq<Step>) returns (m: map<string, Step>)
    ensures m == Latest(steps)
  {
    m := map[];
    for i := 0 to |steps|
      invariant m == Latest(steps[..i])
    {
      var s := steps[i];
      assert steps[..i + 1][..i] == steps[..i];
      if s.invocationId !in m || s.attempt >= m[s.invocationId].attempt {
        m := m[s.invocationId := s];
      }
    }
    assert steps[..|steps|] == steps;
  }

  ghost predicate HasInvocation(steps: seq<Step>, id: string) {
    exists i :: 0 <= i < |steps| && steps[i].invocationId == id
  }

  /** Step `i` has the highest attempt of its invocation, and is the last such step. */
  ghost predicate LatestAt(steps: seq<Step>, id: string, i: int) {
    && 0 <= i < |steps| && steps[i].invocationId == id
    && forall j :: 0 <= j < |steps| && steps[j].invocationId == id ==>
         steps[j].attempt <= steps[i].attempt && (j > i ==> steps[j].attempt < steps[i].attempt)
  }

  /** The latest step of an invocation is the last one with its highest attempt. */
  lemma {:induction false} LatestMeans(steps: seq<Step>, id: string)
    ensures id in Latest(steps) <==> HasInvocation(steps, id)
    ensures id in Latest(steps) ==> exists i :: LatestAt(steps, id, i) && steps[i] == Latest(steps)[id]
  {
    if steps != [] {
      var n := |steps| - 1;
      var f, s := steps[..n], steps[n];
      LatestMeans(f, id);
      assert forall j :: 0 <= j < n ==> f[j] == steps[j];
      if id in Latest(f) {
        var i :| LatestAt(f, id, i) && f[i] == Latest(f)[id];
        assert steps[i].invocationId == id;
        var k := if s.invocationId == id && s.attempt >= f[i].attempt then n else i;
        assert LatestAt(steps, id, k);
      } else if s.invocationId == id {
        assert LatestAt(steps, id, n);
      }
    }
  }

  /** Under unique keys the order of the steps does not matter. */
  lemma LatestPermuted(a: seq<Step>, b: seq<Step>)
    requires UniqueKeys(a) && multiset(a) == multiset(b)
    ensures Latest(a) == Latest(b)
  {
    UniqueKeysPermuted(a, b);
    forall id
      ensures id in Latest(a) <==> id in Latest(b)
      ensures id in Latest(a) ==> Latest(a)[id] == Latest(b)[id]
    {
      LatestIncluded(a, b, id);
      LatestIncluded(b, a, id);
      if id in Latest(a) { LatestSame(a, b, id); }
    }
  }

  lemma LatestIncluded(a: seq<Step>, b: seq<Step>, id: string)
    requires multiset(a) == multiset(b)
    ensures id in Latest(a) ==> id in Latest(b)
  {
    LatestMeans(a, id);
    LatestMeans(b, id);
    if id in Latest(a) {
      var i :| 0 <= i < |a| && a[i].invocationId == id;
      assert a[i] in multiset(b);
      var j :| 0 <= j < |b| && b[j] == a[i];
    }
  }

  lemma LatestSame(a: seq<Step>, b: seq<Step>, id: string)
    requires UniqueKeys(a) && multiset(a) == multiset(b) && id in Latest(a) && id in Latest(b)
    ensures Latest(a)[id] == Latest(b)[id]
  {
    LatestMeans(a, id);
    LatestMeans(b, id);
    var x, y := Latest(a)[id], Latest(b)[id];
    assert x in multiset(b) && y in multiset(a);
    var i :| 0 <= i < |a| && a[i] == x;
    var j :| 0 <= j < |a| && a[j] == y;
    var k :| 0 <= k < |b| && b[k] == x;
    assert x.attempt == y.attempt;
    assert i == j;
  }

  // ---------------------------------------------------------------------
  // Replay
  // ---------------------------------------------------------------------

  /** An agent as replay sees it: how a call with an input and a time limit ends. */
  type Behaviour = (AgentInput, int) -> CallOutcome

  datatype ReplayError =
    | NoSteps
    | AgentNotFound(agent: string)
    | ExpectedError(id: string)
    | ErrorMismatch(id: string)
    | UnexpectedError(id: string)
    | RequestIdMismatch(id: string)
    | PayloadMismatch(id: string)

  /** What replay's `safeCall` makes of a call: the output and the error text. */
  function ReplayCall(o: CallOutcome): (AgentOutput, Option<string>) {
    match o
    case Returned(out) => (out, None)
    case Errored(out, e) => (out, Some(e.text))
    case Panicked(reason) => (ZERO_OUTPUT, Some("agent panic: " + reason))
  }

  /** Running the recorded call again gives the recorded error text, or the recorded request ID and payload. */
  ghost predicate Reproduces(s: Step, agents: map<string, Behaviour>, timeout: int) {
    && s.agentId in agents
    && var (out, err) := ReplayCall(agents[s.agentId](s.input, timeout));
       if s.error != "" then err == Some(s.error)
       else err.None? && out.requestId == s.output.requestId && out.payload == s.output.payload
  }

  /** Reproduction, by how the second call ends: a return must match a recorded success in request ID and
      payload, a returned error a recorded one in its text, and a panic one with text "agent panic: " and
      the reason. */
  lemma ReproducesMeans(s: Step, agents: map<string, Behaviour>, timeout: int)
    requires s.agentId in agents
    ensures Reproduces(s, agents, timeout) <==>
              match agents[s.agentId](s.input, timeout)
              case Returned(out) => s.error == "" && out.requestId == s.output.requestId &&
                  out.payload == s.output.payload
              case Errored(_, e) => s.error != "" && e.text == s.error
              case Panicked(reason) => s.error == "agent panic: " + reason
  {
    var o := agents[s.agentId](s.input, timeout);
    if o.Panicked? { assert ("agent panic: " + o.reason)[0] == 'a'; }
  }

  /** The latest step of every invocation is reproduced. */
  ghost predicate AllReproduced(steps: seq<Step>, agents: map<string, Behaviour>, timeout: int) {
    forall id :: id in Latest(steps) ==> Reproduces(Latest(steps)[id], agents, timeout)
  }

  /** The first difference between a recorded step and its second execution. */
  ghost predicate Differs(id: string, s: Step, agents: map<string, Behaviour>, timeout: int, e: ReplayError) {
    match e
    case NoSteps => false
    case AgentNotFound(agent) => agent == s.agentId && agent !in agents
    case _ =>
      && s.agentId in agents && e.id == id
      && var (out, err) := ReplayCall(agents[s.agentId](s.input, timeout));
         match e
         case ExpectedError(_) => s.error != "" && err.None?
         case ErrorMismatch(_) => s.error != "" && err.Some? && err.value != s.error
         case UnexpectedError(_) => s.error == "" && err.Some?
         case RequestIdMismatch(_) => s.error == "" && err.None? && out.requestId != s.output.requestId
         case PayloadMismatch(_) =>
           s.error == "" && err.None? && out.requestId == s.output.requestId && out.payload != s.output.payload
         case _ => false
  }

  method ReplayStep(id: string, expected: Step, agents: map<string, Behaviour>, timeout: int)
    returns (r: Option<ReplayError>)
    ensures r.None? <==> Reproduces(expected, agents, timeout)
    ensures r.Some? ==> Differs(id, expected, agents, timeout, r.value)
  {
    if expected.agentId !in agents {
      return Some(AgentNotFound(expected.agentId));
    }
    var (actual, err) := ReplayCall(agents[expected.agentId](expected.input, timeout));
    if expected.error != "" {
      if err.None? { return Some(ExpectedError(id)); }
      if err.value != expected.error { return Some(ErrorMismatch(id)); }
      return None;
    }
    if err.Some? { return Some(UnexpectedError(id)); }
    if actual.requestId != expected.output.requestId { return Some(RequestIdMismatch(id)); }
    if actual.payload != expected.output.payload { return Some(PayloadMismatch(id)); }
    return None;
  }

  function ReplayTimeout(timeout: int): int {
    if timeout <= 0 then 30 * SECOND else timeout
  }

  /** Re-executes the latest step of every invocation, in order of ID. It succeeds exactly when there
      are steps and each is reproduced; otherwise it reports the first one that is not. */
  method ReplayAndCompare(steps: seq<Step>, timeout: int, agents: map<string, Behaviour>)
    returns (r: Option<ReplayError>)
    ensures r == Some(NoSteps) <==> steps == []
    ensures r.None? <==>
              steps != [] && AllReproduced(steps, agents, ReplayTimeout(timeout))
    ensures r.Some? && steps != [] ==>
              exists id ::
                && id in Latest(steps) && Differs(id, Latest(steps)[id], agents, ReplayTimeout(timeout), r.value)
                && forall x :: x in Latest(steps) && Less(x, id) ==>
                    Reproduces(Latest(steps)[x], agents, ReplayTimeout(timeout))
  {
    if |steps| == 0 { return Some(NoSteps); }
    var limit := timeout;
    if limit <= 0 { limit := 30 * SECOND; }
    var expected := LatestByInvocation(steps);
    var ids := SortedKeys(expected.Keys);
    ghost var k;
    r, k := ReplayAll(ids, expected, agents, limit);
    if r.Some? { FirstFailure(ids, k); }
  }

  /** Re-executes the steps in the order of `ids` up to the first that is not reproduced, number `k`. */
  method ReplayAll(ids: seq<string>, expected: map<string, Step>, agents: map<string, Behaviour>, limit: int)
    returns (r: Option<ReplayError>, ghost k: nat)
    requires forall x :: x in ids ==> x in expected
    ensures k <= |ids| && forall a :: 0 <= a < k ==> Reproduces(expected[ids[a]], agents, limit)
    ensures r.None? ==> k == |ids|
    ensures r.Some? ==> k < |ids| && Differs(ids[k], expected[ids[k]], agents, limit, r.value)
    ensures r.Some? ==> !Reproduces(expected[ids[k]], agents, limit)
  {
    k := 0;
    for i := 0 to |ids|
      invariant k == i && forall a :: 0 <= a < i ==> Reproduces(expected[ids[a]], agents, limit)
    {
      r := ReplayStep(ids[i], expected[ids[i]], agents, limit);
      if r.Some? { return; }
      k := k + 1;
    }
    r := None;
  }

  /** Of strictly sorted IDs, those below the `k`-th are the first `k`. */
  lemma FirstFailure(ids: seq<string>, k: nat)
    requires StrictlyOrdered(ids, Less) && k < |ids|
    ensures forall x :: x in ids && Less(x, ids[k]) ==> exists a :: 0 <= a < k && ids[a] == x
  {
    forall x | x in ids && Less(x, ids[k]) ensures exists a :: 0 <= a < k && ids[a] == x {
      var a :| 0 <= a < |ids| && ids[a] == x;
      if a == k { LessIrreflexive(x); }
      if a > k {
        LessTransitive(x, ids[k], x);
        LessIrreflexive(x);
      }
    }
  }

  // ---------------------------------------------------------------------
  // Comparison
  // ---------------------------------------------------------------------

  datatype Divergence = Divergence(invocationId: string, field: string, expected: string, actual: string)

  function Differing(id: string, field: string, expected: string, actual: string): seq<Divergence> {
    if expected != actual then [Divergence(id, field, expected, actual)] else []
  }

  /** What is reported about one invocation. */
  function DivergencesAt(id: string, em: map<string, Step>, am: map<string, Step>,
    hash: Bytes -> string): seq<Divergence>
    requires id in em || id in am
  {
    if id !in em then [Divergence(id, "missing_expected", "", am[id].agentId)]
    else if id !in am then [Divergence(id, "missing_actual", em[id].agentId, "")]
    else
      var e, a := em[id], am[id];
      Differing(id, "agent_id", e.agentId, a.agentId) + Differing(id, "error", e.error, a.error)
      + Differing(id, "request_id", e.output.requestId, a.output.requestId)
      + Differing(id, "payload_hash", hash(e.output.payload), hash(a.output.payload))
  }

  function DivergencesOf(ids: seq<string>, em: map<string, Step>, am: map<string, Step>,
    hash: Bytes -> string): seq<Divergence>
    requires forall x :: x in ids ==> x in em || x in am
  {
    if ids == [] then []
    else DivergencesOf(ids[..|ids| - 1], em, am, hash) + DivergencesAt(ids[|ids| - 1], em, am, hash)
  }

  /** A divergence between the latest steps `em` of the expected trace and `am` of the actual one. */
  ghost predicate Diverges(d: Divergence, em: map<string, Step>, am: map<string, Step>, hash: Bytes -> string) {
    var id := d.invocationId;
    if id in em && id in am then
      && d.expected != d.actual
      && (|| (d.field == "agent_id" && d.expected == em[id].agentId && d.actual == am[id].agentId)
          || (d.field == "error" && d.expected == em[id].error && d.actual == am[id].error)
          || (d.field == "request_id" && d.expected == em[id].output.requestId && d.actual == am[id].output.requestId)
          || (&& d.field == "payload_hash" && d.expected == hash(em[id].output.payload)
              && d.actual == hash(am[id].output.payload)))
    else if id in am then d.field == "missing_expected" && d.expected == "" && d.actual == am[id].agentId
    else id in em && d.field == "missing_actual" && d.expected == em[id].agentId && d.actual == ""
  }

  /** The order of the fields in a report. */
  ghost function FieldRank(field: string): nat {
    if field == "agent_id" then 1 else if field == "error" then 2 else if field == "request_id" then 3
    else if field == "payload_hash" then 4 else 0
  }

  /** By invocation, then by field; no field of an invocation is reported twice. */
  ghost predicate Before(a: Divergence, b: Divergence) {
    || Less(a.invocationId, b.invocationId)
    || (a.invocationId == b.invocationId && FieldRank(a.field) < FieldRank(b.field))
  }

  ghost predicate InOrder(out: seq<Divergence>) {
    forall i, j :: 0 <= i < j < |out| ==> Before(out[i], out[j])
  }

  lemma ReportedAt(id: string, em: map<string, Step>, am: map<string, Step>, hash: Bytes -> string, d: Divergence)
    requires id in em || id in am
    ensures d in DivergencesAt(id, em, am, hash) <==> d.invocationId == id && Diverges(d, em, am, hash)
  {
    if id in em && id in am {
      var e, a := em[id], am[id];
      var x, y := Differing(id, "agent_id", e.agentId, a.agentId), Differing(id, "error", e.error, a.error);
      var z := Differing(id, "request_id", e.output.requestId, a.output.requestId);
      var w := Differing(id, "payload_hash", hash(e.output.payload), hash(a.output.payload));
      assert DivergencesAt(id, em, am, hash) == x + y + z + w;
      assert d in x + y + z + w <==> d in x || d in y || d in z || d in w;
    }
  }

  lemma {:induction false} ReportedBy(
    ids: seq<string>, em: map<string, Step>, am: map<string, Step>, hash: Bytes -> string, d: Divergence)
    requires forall x :: x in ids ==> x in em || x in am
    ensures d in DivergencesOf(ids, em, am, hash) <==> d.invocationId in ids && Diverges(d, em, am, hash)
  {
    if ids != [] {
      var f, last := ids[..|ids| - 1], ids[|ids| - 1];
      assert ids == f + [last];
      ReportedBy(f, em, am, hash, d);
      ReportedAt(last, em, am, hash, d);
    }
  }

  lemma ListedIff(ids: seq<string>, em: map<string, Step>, am: map<string, Step>, hash: Bytes -> string)
    requires forall x :: x in ids <==> x in em || x in am
    ensures forall d :: d in DivergencesOf(ids, em, am, hash) <==> Diverges(d, em, am, hash)
  {
    forall d ensures d in DivergencesOf(ids, em, am, hash) <==> Diverges(d, em, am, hash) {
      ReportedBy(ids, em, am, hash, d);
    }
  }

  lemma OneInOrder(id: string, em: map<string, Step>, am: map<string, Step>, hash: Bytes -> string)
    requires id in em || id in am
    ensures InOrder(DivergencesAt(id, em, am, hash))
  {
    if id in em && id in am {
      var e, a := em[id], am[id];
      var x, y := Differing(id, "agent_id", e.agentId, a.agentId), Differing(id, "error", e.error, a.error);
      var z := Differing(id, "request_id", e.output.requestId, a.output.requestId);
      var w := Differing(id, "payload_hash", hash(e.output.payload), hash(a.output.payload));
      JoinInOrder(x, y);
      JoinInOrder(x + y, z);
      JoinInOrder(x + y + z, w);
    }
  }

  lemma {:induction false} ListedInOrder(
    ids: seq<string>, em: map<string, Step>, am: map<string, Step>, hash: Bytes -> string)
    requires StrictlyOrdered(ids, Less) && forall x :: x in ids ==> x in em || x in am
    ensures InOrder(DivergencesOf(ids, em, am, hash))
  {
    if ids != [] {
      var f, last := ids[..|ids| - 1], ids[|ids| - 1];
      var front, back := DivergencesOf(f, em, am, hash), DivergencesAt(last, em, am, hash);
      ListedInOrder(f, em, am, hash);
      OneInOrder(last, em, am, hash);
      forall d, d' | d in front && d' in back ensures Before(d, d') {
        ReportedBy(f, em, am, hash, d);
        ReportedAt(last, em, am, hash, d');
        var i :| 0 <= i < |f| && f[i] == d.invocationId;
        assert Less(ids[i], ids[|ids| - 1]);
      }
      JoinInOrder(front, back);
    }
  }

  lemma JoinInOrder(a: seq<Divergence>, b: seq<Divergence>)
    requires InOrder(a) && InOrder(b) && forall x, y :: x in a && y in b ==> Before(x, y)
    ensures InOrder(a + b)
  {
    var c := a + b;
    forall i, j | 0 <= i < j < |c| ensures Before(c[i], c[j]) {
      if i < |a| <= j { assert c[i] in a && c[j] in b; }
    }
  }

  ghost predicate Injective(hash: Bytes -> string) {
    forall x, y :: hash(x) == hash(y) ==> x == y
  }

  /** The replay-significant fields agree. */
  ghost predicate SameOutcome(e: Step, a: Step) {
    && e.agentId == a.agentId && e.error == a.error
    && e.output.requestId == a.output.requestId && e.output.payload == a.output.payload
  }

  /** The same invocations, whose latest attempts agree on the replay-significant fields. */
  ghost predicate Equivalent(expected: seq<Step>, actual: seq<Step>) {
    var em, am := Latest(expected), Latest(actual);
    em.Keys == am.Keys && forall id :: id in em && id in am ==> SameOutcome(em[id], am[id])
  }

  lemma {:induction false} NoDivergences(ids: seq<string>, em: map<string, Step>, am: map<string, Step>,
    hash: Bytes -> string)
    requires forall x :: x in ids ==> x in em || x in am
    ensures DivergencesOf(ids, em, am, hash) == [] <==> forall x :: x in ids ==> DivergencesAt(x, em, am, hash) == []
  {
    if ids != [] {
      var f, last := ids[..|ids| - 1], ids[|ids| - 1];
      assert ids == f + [last];
      NoDivergences(f, em, am, hash);
    }
  }

  lemma NoDivergenceAt(id: string, em: map<string, Step>, am: map<string, Step>, hash: Bytes -> string)
    requires Injective(hash) && (id in em || id in am)
    ensures DivergencesAt(id, em, am, hash) == [] <==> id in em && id in am && SameOutcome(em[id], am[id])
  {}

  /** The divergences of the sorted invocations of both traces, one after the other; none exactly when
      the traces are equivalent (for a hash without collisions). */
  method Compare(expected: seq<Step>, actual: seq<Step>, hash: Bytes -> string)
    returns (out: seq<Divergence>, ghost ids: seq<string>)
    ensures ComparedIds(expected, actual, ids)
    ensures out == DivergencesOf(ids, Latest(expected), Latest(actual), hash)
    ensures forall d :: d in out <==> Diverges(d, Latest(expected), Latest(actual), hash)
    ensures InOrder(out)
    ensures Injective(hash) ==> (out == [] <==> Equivalent(expected, actual))
  {
    var em := LatestByInvocation(expected);
    var am := LatestByInvocation(actual);
    var sorted := SortedKeys(em.Keys + am.Keys);
    ids := sorted;
    out := ListDivergences(sorted, em, am, hash);
    ListedIff(sorted, em, am, hash);
    ListedInOrder(sorted, em, am, hash);
    if Injective(hash) { EmptyMeansEquivalent(sorted, expected, actual, hash); }
  }

  method ListDivergences(sorted: seq<string>, em: map<string, Step>, am: map<string, Step>, hash: Bytes -> string)
    returns (out: seq<Divergence>)
    requires forall x :: x in sorted ==> x in em || x in am
    ensures out == DivergencesOf(sorted, em, am, hash)
  {
    out := [];
    for k := 0 to |sorted|
      invariant out == DivergencesOf(sorted[..k], em, am, hash)
    {
      assert sorted[..k + 1][..k] == sorted[..k];
      out := out + DivergencesAt(sorted[k], em, am, hash);
    }
    assert sorted[..|sorted|] == sorted;
  }

  lemma EmptyMeansEquivalent(ids: seq<string>, expected: seq<Step>, actual: seq<Step>, hash: Bytes -> string)
    requires Injective(hash) && forall x :: x in ids <==> x in Latest(expected) || x in Latest(actual)
    ensures DivergencesOf(ids, Latest(expected), Latest(actual), hash) == [] <==> Equivalent(expected, actual)
  {
    var em, am := Latest(expected), Latest(actual);
    NoDivergences(ids, em, am, hash);
    forall x | x in ids
      ensures DivergencesAt(x, em, am, hash) == [] <==> x in em && x in am && SameOutcome(em[x], am[x])
    {
      NoDivergenceAt(x, em, am, hash);
    }
    if Equivalent(expected, actual) {
      forall x | x in ids ensures DivergencesAt(x, em, am, hash) == [] {
        assert x in em.Keys && x in am.Keys;
      }
    }
  }

  /** Equivalence of traces is an equivalence relation, and reordering the steps of a trace with unique
      keys does not change what it is equivalent to. */
  lemma EquivalenceRelation(a: seq<Step>, b: seq<Step>, c: seq<Step>, a': seq<Step>)
    ensures Equivalent(a, a)
    ensures Equivalent(a, b) ==> Equivalent(b, a)
    ensures Equivalent(a, b) && Equivalent(b, c) ==> Equivalent(a, c)
    ensures UniqueKeys(a) && multiset(a) == multiset(a') ==>
              Equivalent(a, a') && (Equivalent(a, b) <==> Equivalent(a', b)) &&
                  (Equivalent(b, a) <==> Equivalent(b, a'))
  {
    if Equivalent(a, b) && Equivalent(b, c) {
      forall id | id in Latest(a) && id in Latest(c) ensures SameOutcome(Latest(a)[id], Latest(c)[id]) {
        assert id in Latest(b).Keys;
      }
    }
    if UniqueKeys(a) && multiset(a) == multiset(a') { LatestPermuted(a, a'); }
  }

  /** `ids` lists the invocations of both traces in order, as `Compare` does. */
  ghost predicate ComparedIds(a: seq<Step>, b: seq<Step>, ids: seq<string>) {
    StrictlyOrdered(ids, Less) && forall x :: x in ids <==> x in Latest(a) || x in Latest(b)
  }

  /** Reordering the steps of traces with unique keys changes nothing in the list of divergences. */
  lemma ComparisonReordered(
    a: seq<Step>, b: seq<Step>, a': seq<Step>, b': seq<Step>, ids: seq<string>, ids': seq<string>,
        hash: Bytes -> string)
    requires UniqueKeys(a) && multiset(a) == multiset(a') && UniqueKeys(b) && multiset(b) == multiset(b')
    requires ComparedIds(a, b, ids) && ComparedIds(a', b', ids')
    ensures ids == ids'
    ensures DivergencesOf(ids, Latest(a), Latest(b), hash) == DivergencesOf(ids', Latest(a'), Latest(b'), hash)
  {
    LatestPermuted(a, a');
    LatestPermuted(b, b');
    SortedSetUnique(ids, ids');
  }
}
