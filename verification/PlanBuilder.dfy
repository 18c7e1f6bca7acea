/** `buildExecutionPlan`: a manifest becomes an execution plan; the two topological sorts agree on it. */
module PlanBuilder {
  import opened Basics
  import opened Types
  import opened Graph
  import opened Manifest
  import Planner

  // ---------------------------------------------------------------------
  // Invocation IDs
  // ---------------------------------------------------------------------

  function Digit(n: nat): char
    requires n < 10
  {
    '0' + n as char
  }

  /** `%d` */
  function Decimal(n: nat): string {
    if n < 10 then [Digit(n)] else Decimal(n / 10) + [Digit(n % 10)]
  }

  function Zeros(n: nat): string {
    if n == 0 then "" else "0" + Zeros(n - 1)
  }

  /** `%04d` */
  function Padded(n: nat): string {
    var d := Decimal(n);
    if |d| < 4 then Zeros(4 - |d|) + d else d
  }

  /** `fmt.Sprintf("%04d_%s", i+1, step)` */
  function InvocationId(i: nat, step: string): string {
    Padded(i + 1) + "_" + step
  }

  function RequestId(i: nat): string {
    "req_" + Padded(i + 1)
  }

  /** Up to 9999 the padded number is its four digits. */
  lemma FourDigits(n: nat)
    requires n <= 9999
    ensures Padded(n) == [Digit(n / 1000), Digit(n / 100 % 10), Digit(n / 10 % 10), Digit(n % 10)]
  {
    if n < 10 {
      assert Decimal(n) == [Digit(n)];
      assert Zeros(3) == "0" + Zeros(2) && Zeros(2) == "0" + Zeros(1) && Zeros(1) == "0" + Zeros(0);
    } else if n < 100 {
      assert Decimal(n) == Decimal(n / 10) + [Digit(n % 10)];
      assert Decimal(n / 10) == [Digit(n / 10)];
      assert Zeros(2) == "0" + Zeros(1) && Zeros(1) == "0" + Zeros(0);
    } else if n < 1000 {
      var t := n / 10;
      assert Decimal(n) == Decimal(t) + [Digit(n % 10)];
      assert Decimal(t) == Decimal(t / 10) + [Digit(t % 10)];
      assert t / 10 == n / 100;
      assert Decimal(t / 10) == [Digit(n / 100)];
      assert Zeros(1) == "0" + Zeros(0);
    } else {
      var t, h := n / 10, n / 100;
      assert Decimal(n) == Decimal(t) + [Digit(n % 10)];
      assert Decimal(t) == Decimal(t / 10) + [Digit(t % 10)];
      assert t / 10 == h;
      assert Decimal(h) == Decimal(h / 10) + [Digit(h % 10)];
      assert h / 10 == n / 1000;
      assert Decimal(h / 10) == [Digit(n / 1000)];
    }
  }

  function DigitAt(n: nat, k: nat): nat
    requires n <= 9999 && k < 4
    ensures DigitAt(n, k) < 10
  {
    if k == 0 then n / 1000 else if k == 1 then n / 100 % 10 else if k == 2 then n / 10 % 10 else n % 10
  }

  lemma DigitSum(n: nat)
    requires n <= 9999
    ensures n == 1000 * DigitAt(n, 0) + 100 * DigitAt(n, 1) + 10 * DigitAt(n, 2) + DigitAt(n, 3)
  {
    var t := n / 10;
    var h := t / 10;
    assert n == 10 * t + n % 10 && t == 10 * h + t % 10 && h == 10 * (h / 10) + h % 10;
    assert h == n / 100 && h / 10 == n / 1000;
  }

  lemma FirstDifference(a: nat, b: nat) returns (k: nat)
    requires a < b <= 9999
    ensures k < 4 && DigitAt(a, k) < DigitAt(b, k)
    ensures forall t :: 0 <= t < k ==> DigitAt(a, t) == DigitAt(b, t)
  {
    DigitSum(a);
    DigitSum(b);
    k := if DigitAt(a, 0) != DigitAt(b, 0) then 0
         else if DigitAt(a, 1) != DigitAt(b, 1) then 1
         else if DigitAt(a, 2) != DigitAt(b, 2) then 2
         else 3;
  }

  lemma IdDigits(i: nat, x: string)
    requires i < 9999
    ensures |InvocationId(i, x)| >= 4
    ensures forall t :: 0 <= t < 4 ==> InvocationId(i, x)[t] == Digit(DigitAt(i + 1, t))
  {
    FourDigits(i + 1);
  }

  /** Numbers up to 9999 sort as text the way they sort as numbers. */
  lemma IdsIncrease(i: nat, j: nat, x: string, y: string)
    requires i < j < 9999
    ensures Less(InvocationId(i, x), InvocationId(j, y))
  {
    var s, t := InvocationId(i, x), InvocationId(j, y);
    IdDigits(i, x);
    IdDigits(j, y);
    var k := FirstDifference(i + 1, j + 1);
    LessAt(s, t, k);
  }

  /** The number that a string of digits writes. */
  ghost function Value(s: string): int {
    if s == [] then 0 else 10 * Value(s[..|s| - 1]) + (s[|s| - 1] as int - '0' as int)
  }

  ghost predicate AllDigits(s: string) {
    forall i :: 0 <= i < |s| ==> '0' <= s[i] <= '9'
  }

  lemma {:induction false} DecimalValue(n: nat)
    ensures Value(Decimal(n)) == n && AllDigits(Decimal(n))
  {
    if n >= 10 {
      var front, last := Decimal(n / 10), Digit(n % 10);
      DecimalValue(n / 10);
      assert (front + [last])[..|front|] == front;
    }
  }

  lemma {:induction false} ZerosValue(k: nat, s: string)
    requires AllDigits(s)
    ensures Value(Zeros(k) + s) == Value(s) && AllDigits(Zeros(k) + s)
    decreases |s|, k
  {
    if s == [] {
      if k > 0 {
        ZerosSnoc(k - 1);
        ZerosValue(k - 1, s);
        assert Zeros(k - 1) + s == Zeros(k - 1) && Zeros(k) + s == Zeros(k - 1) + "0";
        assert (Zeros(k - 1) + "0")[..|Zeros(k - 1)|] == Zeros(k - 1);
      }
    } else {
      var front, last := s[..|s| - 1], s[|s| - 1];
      ZerosValue(k, front);
      assert Zeros(k) + s == (Zeros(k) + front) + [last];
      assert ((Zeros(k) + front) + [last])[..|Zeros(k) + front|] == Zeros(k) + front;
    }
  }

  lemma {:induction false} ZerosSnoc(k: nat)
    ensures Zeros(k + 1) == Zeros(k) + "0"
  {
    if k > 0 { ZerosSnoc(k - 1); }
  }

  lemma PaddedValue(n: nat)
    ensures Value(Padded(n)) == n && AllDigits(Padded(n))
  {
    DecimalValue(n);
    ZerosValue(if |Decimal(n)| < 4 then 4 - |Decimal(n)| else 0, Decimal(n));
  }

  /** What comes before the first underscore is the number. */
  lemma FirstUnderscore(p: string, x: string)
    requires AllDigits(p)
    ensures var s := p + "_" + x;
            s[..|p|] == p && s[|p|] == '_' && forall i :: 0 <= i < |p| ==> s[i] != '_'
  {}

  lemma DigitsDecide(p: string, x: string, q: string, y: string)
    requires AllDigits(p) && AllDigits(q) && p != q
    ensures p + "_" + x != q + "_" + y
  {
    FirstUnderscore(p, x);
    FirstUnderscore(q, y);
  }

  lemma PaddedDistinct(m: nat, n: nat)
    requires m != n
    ensures Padded(m) != Padded(n)
  {
    PaddedValue(m);
    PaddedValue(n);
  }

  /** IDs with different numbers differ, for any number of steps. */
  lemma IdsDistinct(i: nat, j: nat, x: string, y: string)
    requires i != j
    ensures InvocationId(i, x) != InvocationId(j, y)
  {
    PaddedDistinct(i + 1, j + 1);
    assert AllDigits(Padded(i + 1)) by { PaddedValue(i + 1); }
    assert AllDigits(Padded(j + 1)) by { PaddedValue(j + 1); }
    DigitsDecide(Padded(i + 1), x, Padded(j + 1), y);
  }

  lemma IdNotEmpty(i: nat, x: string)
    ensures InvocationId(i, x) != ""
  {}

  /** The ten-thousandth ID sorts before the one that precedes it. */
  lemma TenThousandOutOfOrder(x: string, y: string)
    ensures Less(InvocationId(9999, y), InvocationId(9998, x))
  {
    FourDigits(9999);
    assert Decimal(10000)[0] == '1' by {
      assert Decimal(10000) == Decimal(1000) + [Digit(0)];
      assert Decimal(1000) == Decimal(100) + [Digit(0)];
      assert Decimal(100) == Decimal(10) + [Digit(0)];
      assert Decimal(10) == Decimal(1) + [Digit(0)];
    }
    assert |Decimal(10000)| >= 4 by {
      assert Decimal(10000) == Decimal(1000) + [Digit(0)];
      assert Decimal(1000) == Decimal(100) + [Digit(0)];
      assert Decimal(100) == Decimal(10) + [Digit(0)];
    }
  }

  ghost function PlanIds(names: seq<string>): (ids: seq<string>)
    ensures |ids| == |names| && forall i :: 0 <= i < |names| ==> ids[i] == InvocationId(i, names[i])
  {
    seq(|names|, i requires 0 <= i < |names| => InvocationId(i, names[i]))
  }

  /** Sorting by ID gives back the pipeline order exactly when there are at most 9999 steps. */
  lemma IdsSortedIff9999(names: seq<string>)
    ensures StrictlyOrdered(PlanIds(names), Less) <==> |names| <= 9999
  {
    var ids := PlanIds(names);
    if |names| <= 9999 {
      forall i, j | 0 <= i < j < |ids| ensures Less(ids[i], ids[j]) {
        IdsIncrease(i, j, names[i], names[j]);
      }
    } else {
      TenThousandOutOfOrder(names[9998], names[9999]);
      if Less(ids[9998], ids[9999]) {
        LessTransitive(ids[9998], ids[9999], ids[9998]);
        LessIrreflexive(ids[9998]);
      }
    }
  }

  // ---------------------------------------------------------------------
  // The plan of a manifest
  // ---------------------------------------------------------------------

  /** `RetryPolicyFromConfig` */
  function RetryFromConfig(c: RetryConfig): RetryPolicy {
    RetryPolicy(
      if c.maxAttempts <= 0 then 1 else c.maxAttempts,
      if c.backoff.Unset? then Linear else c.backoff,
      [])
  }

  /** `CircuitBreakerPolicyFromConfig`; nothing when a duration does not parse. */
  function BreakerFromConfig(c: BreakerConfig, fallback: BreakerPolicy): Option<BreakerPolicy> {
    if c.resetTimeout.Malformed? || c.probeTimeout.Malformed? then None
    else
      var threshold := if c.threshold > 0 then c.threshold else fallback.threshold;
      var reset := if c.resetTimeout.Parsed? then c.resetTimeout.nanoseconds else fallback.resetTimeout;
      var probe := if c.probeTimeout.Parsed? then c.probeTimeout.nanoseconds else fallback.probeTimeout;
      Some(BreakerPolicy(
        if threshold < 0 then 0 else threshold,
        if reset <= 0 then 60 * SECOND else reset,
        if probe <= 0 then 5 * SECOND else probe))
  }

  const NO_RETRY := RetryPolicy(0, Unset, [])
  const NO_BREAKER := BreakerPolicy(0, 0, 0)
  const PAYLOAD: Bytes := [0x7b, 0x22, 0x6d, 0x65, 0x73, 0x73, 0x61, 0x67, 0x65, 0x22, 0x3a, 0x22, 0x68, 0x65, 0x6c,
      0x6c, 0x6f, 0x22, 0x7d]

  function Find<T>(m: map<string, T>, key: string, default: T): T {
    if key in m then m[key] else default
  }

  function RetryByAgent(agents: seq<AgentBinding>): map<string, RetryPolicy> {
    if agents == [] then map[]
    else RetryByAgent(agents[..|agents| - 1])[agents[|agents| - 1].id := RetryFromConfig(agents[|agents| - 1].retry)]
  }

  function BreakerByAgent(agents: seq<AgentBinding>, fallback: BreakerPolicy): map<string, BreakerPolicy> {
    if agents == [] then map[]
    else
      var rest := BreakerByAgent(agents[..|agents| - 1], fallback);
      match BreakerFromConfig(agents[|agents| - 1].breaker, fallback)
      case Some(p) => rest[agents[|agents| - 1].id := p]
      case None => rest
  }

  /** `invocationIDByStep` */
  function IdByStep(order: seq<PipelineStep>): map<string, string> {
    if order == [] then map[]
    else
      var n := |order| - 1;
      IdByStep(order[..n])[order[n].step := InvocationId(n, order[n].step)]
  }

  /** The node of step `s`, number `i`. */
  function NodeWith(
    namespace: string, s: PipelineStep, i: nat, at: int,
    ids: map<string, string>, retries: map<string, RetryPolicy>, breakers: map<string, BreakerPolicy>)
    : PlanNode
  {
    PlanNode(
      Invocation(
        Find(ids, s.step, ""), s.step,
        AgentInput(
          namespace + ".task_demo", RequestId(i), PAYLOAD,
          map["pipeline_step" := s.step, "tool_name" := s.step, "namespace" := namespace], at)),
      if s.dependsOn == "" then [] else [Find(ids, s.dependsOn, "")],
      Find(retries, s.step, NO_RETRY),
      Find(breakers, s.step, NO_BREAKER))
  }

  /** Node `i` of the plan. */
  function NodeAt(
    m: RouterManifest, namespace: string, fallback: BreakerPolicy, order: seq<PipelineStep>, clock: nat -> int, i: nat)
    : PlanNode
    requires i < |order|
  {
    NodeWith(namespace, order[i], i, clock(i), IdByStep(order), RetryByAgent(m.agents),
        BreakerByAgent(m.agents, fallback))
  }

  /** The plan `nodes` of a manifest whose steps come in the order `order`. */
  ghost predicate PlanOf(
    m: RouterManifest, namespace: string, fallback: BreakerPolicy, order: seq<PipelineStep>, clock: nat -> int,
    nodes: seq<PlanNode>)
  {
    |nodes| == |order| && forall i :: 0 <= i < |nodes| ==> nodes[i] == NodeAt(m, namespace, fallback, order, clock, i)
  }

  datatype BuildError = NoOrder(cause: ManifestError) | BadPolicy(agent: string)

  predicate BadDuration(a: AgentBinding) {
    a.breaker.resetTimeout.Malformed? || a.breaker.probeTimeout.Malformed?
  }

  /** Agent `i` is the first with a duration that does not parse. */
  ghost predicate FirstBadDuration(agents: seq<AgentBinding>, i: int) {
    0 <= i < |agents| && BadDuration(agents[i]) && forall j :: 0 <= j < i ==> !BadDuration(agents[j])
  }

  method Policies(agents: seq<AgentBinding>, fallback: BreakerPolicy)
    returns (bad: Option<string>, retries: map<string, RetryPolicy>, breakers: map<string, BreakerPolicy>)
    ensures bad.None? <==> forall i :: 0 <= i < |agents| ==> !BadDuration(agents[i])
    ensures bad.Some? ==> exists i :: FirstBadDuration(agents, i) && bad.value == agents[i].id
    ensures bad.None? ==> retries == RetryByAgent(agents) && breakers == BreakerByAgent(agents, fallback)
  {
    retries, breakers := map[], map[];
    for i := 0 to |agents|
      invariant forall j :: 0 <= j < i ==> !BadDuration(agents[j])
      invariant retries == RetryByAgent(agents[..i]) && breakers == BreakerByAgent(agents[..i], fallback)
    {
      var a := agents[i];
      assert agents[..i + 1][..i] == agents[..i];
      retries := retries[a.id := RetryFromConfig(a.retry)];
      var policy := BreakerFromConfig(a.breaker, fallback);
      if policy.None? {
        assert FirstBadDuration(agents, i);
        return Some(a.id), retries, breakers;
      }
      breakers := breakers[a.id := policy.value];
    }
    assert agents[..|agents|] == agents;
    bad := None;
  }

  method AssignIds(steps: seq<PipelineStep>) returns (ids: map<string, string>)
    ensures ids == IdByStep(steps)
  {
    ids := map[];
    for i := 0 to |steps|
      invariant ids == IdByStep(steps[..i])
    {
      assert steps[..i + 1][..i] == steps[..i];
      ids := ids[steps[i].step := InvocationId(i, steps[i].step)];
    }
    assert steps[..|steps|] == steps;
  }

  method MakeNodes(
    ghost m: RouterManifest, namespace: string, ghost fallback: BreakerPolicy, steps: seq<PipelineStep>,
        clock: nat -> int,
    ids: map<string, string>, retries: map<string, RetryPolicy>, breakers: map<string, BreakerPolicy>)
    returns (nodes: seq<PlanNode>)
    requires ids == IdByStep(steps)
    requires retries == RetryByAgent(m.agents) && breakers == BreakerByAgent(m.agents, fallback)
    ensures PlanOf(m, namespace, fallback, steps, clock, nodes)
  {
    ghost var made := i requires 0 <= i < |steps| => NodeAt(m, namespace, fallback, steps, clock, i);
    nodes := [];
    for i := 0 to |steps|
      invariant Made(nodes, made, i)
    {
      var node := NodeWith(namespace, steps[i], i, clock(i), ids, retries, breakers);
      MadeOneMore(nodes, made, i, node);
      nodes := nodes + [node];
    }
  }

  /** The nodes made so far. */
  ghost predicate Made(nodes: seq<PlanNode>, made: int --> PlanNode, n: int) {
    |nodes| == n && forall j :: 0 <= j < n ==> made.requires(j) && nodes[j] == made(j)
  }

  lemma MadeOneMore(nodes: seq<PlanNode>, made: int --> PlanNode, n: int, node: PlanNode)
    requires Made(nodes, made, n) && n >= 0 && made.requires(n) && made(n) == node
    ensures Made(nodes + [node], made, n + 1)
  {}

  /** Builds the plan of a manifest. `order` is the order of the steps it used. */
  method BuildExecutionPlan(m: RouterManifest, namespace: string, fallback: BreakerPolicy, clock: nat -> int)
    returns (r: Result<ExecutionPlan, BuildError>, ghost order: seq<PipelineStep>)
    ensures CleanSteps(m.pipeline) ==> (r.Err? && r.error.NoOrder? <==> HasCycle(PipelineDeps(m.pipeline)))
    ensures r.Err? && r.error.BadPolicy? ==>
              exists i :: FirstBadDuration(m.agents, i) && r.error.agent == m.agents[i].id
    ensures r.Ok? ==> forall i :: 0 <= i < |m.agents| ==> !BadDuration(m.agents[i])
    ensures r.Ok? ==> |order| == |m.pipeline| && PlanOf(m, namespace, fallback, order, clock, r.value.nodes)
    ensures r.Ok? && CleanSteps(m.pipeline) ==> BreadthFirst(m.pipeline, order)
    ensures ValidManifest(m) ==> r.Ok?
  {
    order := [];
    var ordered := OrderedPipeline(m);
    if ordered.Err? {
      return Err(NoOrder(ordered.error)), order;
    }
    var steps := ordered.value;
    order := steps;
    var bad, retries, breakers := Policies(m.agents, fallback);
    if bad.Some? {
      assert !ValidManifest(m) by {
        ghost var i :| FirstBadDuration(m.agents, i) && bad.value == m.agents[i].id;
        assert !ValidAgent(m.agents, i);
      }
      return Err(BadPolicy(bad.value)), order;
    }
    var ids := AssignIds(steps);
    var nodes := MakeNodes(m, namespace, fallback, steps, clock, ids, retries, breakers);
    return Ok(ExecutionPlan(namespace + ".task_demo", nodes)), order;
  }

  // ---------------------------------------------------------------------
  // The two sorts agree
  // ---------------------------------------------------------------------

  lemma {:induction false} IdOfStep(order: seq<PipelineStep>, i: int)
    requires Distinct(Names(order)) && 0 <= i < |order|
    ensures order[i].step in IdByStep(order) && IdByStep(order)[order[i].step] == InvocationId(i, order[i].step)
  {
    var n := |order| - 1;
    if i < n {
      var front := order[..n];
      assert forall j :: 0 <= j < n ==> Names(front)[j] == Names(order)[j];
      IdOfStep(front, i);
      assert Names(order)[i] != Names(order)[n];
    }
  }

  /** What the plan of a breadth-first order looks like: node `i` has the `i`-th ID and its
      dependency, if any, is an earlier node. */
  ghost predicate Chained(p: seq<PipelineStep>, order: seq<PipelineStep>, nodes: seq<PlanNode>) {
    var names := Names(order);
    && |nodes| == |order|
    && (forall i :: 0 <= i < |nodes| ==> Planner.Id(nodes[i]) == InvocationId(i, names[i]))
    && (forall i :: 0 <= i < |nodes| ==> nodes[i].invocation.agentId == names[i])
    && (forall i {:trigger DependencyAt(p, order, nodes, i)} :: 0 <= i < |nodes| ==> DependencyAt(p, order, nodes, i))
  }

  ghost predicate DependencyAt(p: seq<PipelineStep>, order: seq<PipelineStep>, nodes: seq<PlanNode>, i: int)
    requires 0 <= i < |nodes| == |order|
  {
    if order[i].dependsOn == "" then nodes[i].dependsOn == []
    else exists k :: 0 <= k < i && order[k].step == order[i].dependsOn && nodes[i].dependsOn == [Planner.Id(nodes[k])]
  }

  lemma PlanIsChained(
    m: RouterManifest, namespace: string, fallback: BreakerPolicy, order: seq<PipelineStep>, clock: nat -> int,
    nodes: seq<PlanNode>)
    requires CleanSteps(m.pipeline) && BreadthFirst(m.pipeline, order)
    requires PlanOf(m, namespace, fallback, order, clock, nodes)
    ensures Chained(m.pipeline, order, nodes)
  {
    var p, names := m.pipeline, Names(order);
    assert names + [] == names;
    forall i | 0 <= i < |nodes|
      ensures Planner.Id(nodes[i]) == InvocationId(i, names[i])
    {
      IdOfStep(order, i);
    }
    forall i | 0 <= i < |nodes| ensures DependencyAt(p, order, nodes, i) {
      var y, k := ParentOf(p, order, i);
      if y != "" {
        IdOfStep(order, k);
      }
    }
  }

  lemma ParentOf(p: seq<PipelineStep>, order: seq<PipelineStep>, i: int) returns (y: string, k: int)
    requires CleanSteps(p) && BreadthFirst(p, order) && 0 <= i < |order|
    ensures y == order[i].dependsOn
    ensures y != "" ==> 0 <= k < i && order[k].step == y
  {
    y, k := ParentEarlier(p, Names(order), i);
    assert order[i] in p;
    assert DependsOn(p, order[i].step, order[i].dependsOn);
    OneParent(p, order[i].step, y, order[i].dependsOn);
  }

  lemma {:induction false} ByAgentAt(agents: seq<AgentBinding>, fallback: BreakerPolicy, k: int)
    requires 0 <= k < |agents| && forall i :: 0 <= i < |agents| ==> ValidAgent(agents, i)
    ensures var id := agents[k].id;
            && id in RetryByAgent(agents) && RetryByAgent(agents)[id] == RetryFromConfig(agents[k].retry)
            && id in BreakerByAgent(agents, fallback)
            && Some(BreakerByAgent(agents, fallback)[id]) == BreakerFromConfig(agents[k].breaker, fallback)
  {
    var n := |agents| - 1;
    assert ValidAgent(agents, n);
    if k < n {
      var front := agents[..n];
      forall i | 0 <= i < n ensures ValidAgent(front, i) {
        assert ValidAgent(agents, i);
      }
      ByAgentAt(front, fallback, k);
    }
  }

  /** The step of a node has an agent binding, and the node runs under the policies of that binding:
      at least one attempt, and positive reset and probe times. */
  lemma PoliciesOfAgents(
    m: RouterManifest, namespace: string, fallback: BreakerPolicy, order: seq<PipelineStep>, clock: nat -> int,
    nodes: seq<PlanNode>, i: int)
    requires ValidManifest(m) && BreadthFirst(m.pipeline, order)
    requires PlanOf(m, namespace, fallback, order, clock, nodes) && 0 <= i < |nodes|
    ensures exists k :: 0 <= k < |m.agents| && RunsUnder(nodes[i], m.agents[k], fallback)
    ensures nodes[i].retry.maxAttempts >= 1 && nodes[i].breaker.resetTimeout > 0 && nodes[i].breaker.probeTimeout > 0
  {
    var k := AgentOfStep(m, order, i);
    ByAgentAt(m.agents, fallback, k);
    NodePolicies(
      namespace, order[i], i, clock(i), IdByStep(order), RetryByAgent(m.agents), BreakerByAgent(m.agents, fallback),
      m.agents[k], fallback);
    assert nodes[i] == NodeAt(m, namespace, fallback, order, clock, i);
  }

  lemma AgentOfStep(m: RouterManifest, order: seq<PipelineStep>, i: int) returns (k: int)
    requires ValidManifest(m) && BreadthFirst(m.pipeline, order) && 0 <= i < |order|
    ensures 0 <= k < |m.agents| && m.agents[k].id == order[i].step
  {
    assert order[i] in m.pipeline;
    var j :| 0 <= j < |m.pipeline| && m.pipeline[j] == order[i];
    assert HasAgent(m.agents, m.pipeline[j].step);
    k :| 0 <= k < |m.agents| && m.agents[k].id == order[i].step;
  }

  lemma NodePolicies(
    namespace: string, s: PipelineStep, i: nat, at: int, ids: map<string, string>, retries: map<string, RetryPolicy>,
    breakers: map<string, BreakerPolicy>, a: AgentBinding, fallback: BreakerPolicy)
    requires s.step == a.id && a.id in retries && retries[a.id] == RetryFromConfig(a.retry)
    requires a.id in breakers && Some(breakers[a.id]) == BreakerFromConfig(a.breaker, fallback)
    ensures var n := NodeWith(namespace, s, i, at, ids, retries, breakers);
            && RunsUnder(n, a, fallback)
            && n.retry.maxAttempts >= 1 && n.breaker.resetTimeout > 0 && n.breaker.probeTimeout > 0
  {}

  /** A duration of the manifest, or what stands in for it, or the default if that is not positive. */
  ghost function Effective(field: DurationField, fallback: int, default: int): int {
    var given := if field.Parsed? then field.nanoseconds else fallback;
    if given > 0 then given else default
  }

  /** The node runs under the settings of the binding, field by field. */
  ghost predicate RunsUnder(n: PlanNode, a: AgentBinding, fallback: BreakerPolicy) {
    && n.invocation.agentId == a.id
    && n.retry.maxAttempts == (if a.retry.maxAttempts > 0 then a.retry.maxAttempts else 1)
    && n.retry.backoff == (if a.retry.backoff.Unset? then Linear else a.retry.backoff)
    && n.retry.retryableErrs == []
    && n.breaker.threshold ==
         (if a.breaker.threshold > 0 then a.breaker.threshold else if fallback.threshold > 0 then fallback.threshold
             else 0)
    && n.breaker.resetTimeout == Effective(a.breaker.resetTimeout, fallback.resetTimeout, 60 * SECOND)
    && n.breaker.probeTimeout == Effective(a.breaker.probeTimeout, fallback.probeTimeout, 5 * SECOND)
  }

  /** What node `i` asks of its agent. */
  ghost predicate Carries(n: PlanNode, namespace: string, step: PipelineStep, i: nat, at: int) {
    var inv := n.invocation;
    && inv.id == Padded(i + 1) + "_" + step.step && inv.agentId == step.step
    && inv.input.taskId == namespace + ".task_demo" && inv.input.requestId == "req_" + Padded(i + 1)
    && inv.input.timestamp == at && IsText(inv.input.payload, "{\"message\":\"hello\"}")
    && inv.input.metadata.Keys == {"pipeline_step", "tool_name", "namespace"}
    && inv.input.metadata["pipeline_step"] == step.step && inv.input.metadata["tool_name"] == step.step
    && inv.input.metadata["namespace"] == namespace
  }

  ghost predicate IsText(b: Bytes, text: string) {
    |b| == |text| && forall i :: 0 <= i < |b| ==> b[i] as int == text[i] as int
  }

  lemma PayloadText()
    ensures IsText(PAYLOAD, "{\"message\":\"hello\"}")
  {}

  /** Every node carries its number, its step, the namespace and the payload. */
  lemma NodesCarry(
    m: RouterManifest, namespace: string, fallback: BreakerPolicy, order: seq<PipelineStep>, clock: nat -> int,
    nodes: seq<PlanNode>, i: int)
    requires CleanSteps(m.pipeline) && BreadthFirst(m.pipeline, order)
    requires PlanOf(m, namespace, fallback, order, clock, nodes) && 0 <= i < |nodes|
    ensures Carries(nodes[i], namespace, order[i], i, clock(i))
  {
    assert Names(order) + [] == Names(order);
    IdOfStep(order, i);
    PayloadText();
    assert nodes[i] == NodeAt(m, namespace, fallback, order, clock, i);
  }

  lemma ChainedIds(p: seq<PipelineStep>, order: seq<PipelineStep>, nodes: seq<PlanNode>)
    requires Chained(p, order, nodes)
    ensures Planner.CleanIds(nodes)
  {
    var names := Names(order);
    forall i | 0 <= i < |nodes| ensures Planner.Id(nodes[i]) != "" {
      IdNotEmpty(i, names[i]);
    }
    forall i, j | 0 <= i < j < |nodes| ensures Planner.Id(nodes[i]) != Planner.Id(nodes[j]) {
      IdsDistinct(i, j, names[i], names[j]);
    }
  }

  lemma ChainedIdsSorted(p: seq<PipelineStep>, order: seq<PipelineStep>, nodes: seq<PlanNode>)
    requires Chained(p, order, nodes) && |nodes| <= 9999
    ensures forall i, j :: 0 <= i < j < |nodes| ==> Less(Planner.Id(nodes[i]), Planner.Id(nodes[j]))
  {
    var names := Names(order);
    forall i, j | 0 <= i < j < |nodes| ensures Less(Planner.Id(nodes[i]), Planner.Id(nodes[j])) {
      IdsIncrease(i, j, names[i], names[j]);
    }
  }

  lemma ChainedAccepted(p: seq<PipelineStep>, order: seq<PipelineStep>, nodes: seq<PlanNode>)
    requires Chained(p, order, nodes) && 0 < |nodes|
    ensures Planner.WellFormed(nodes) && !HasCycle(Planner.GraphOf(nodes))
  {
    ChainedIds(p, order, nodes);
    forall i | 0 <= i < |nodes| ensures Planner.SoundDeps(nodes, i) {
      forall j | 0 <= j < |nodes[i].dependsOn| ensures Planner.SoundDep(nodes, i, j) {
        var k := OnlyParent(p, order, nodes, i, nodes[i].dependsOn[j]);
        Planner.NodesByIdAt(nodes, k);
      }
    }
    ChainedRank(p, order, nodes);
  }

  lemma OnlyParent(p: seq<PipelineStep>, order: seq<PipelineStep>, nodes: seq<PlanNode>, i: int, d: string)
    returns (k: int)
    requires Chained(p, order, nodes) && 0 <= i < |nodes| && d in nodes[i].dependsOn
    ensures 0 <= k < i && d == Planner.Id(nodes[k])
  {
    assert DependencyAt(p, order, nodes, i);
    k :| 0 <= k < i && nodes[i].dependsOn == [Planner.Id(nodes[k])];
  }

  ghost function Ranks(nodes: seq<PlanNode>): map<string, int> {
    if nodes == [] then map[]
    else Ranks(nodes[..|nodes| - 1])[Planner.Id(nodes[|nodes| - 1]) := |nodes| - 1]
  }

  lemma {:induction false} RankAt(nodes: seq<PlanNode>, i: int)
    requires Planner.CleanIds(nodes) && 0 <= i < |nodes|
    ensures Planner.Id(nodes[i]) in Ranks(nodes) && Ranks(nodes)[Planner.Id(nodes[i])] == i
  {
    if i < |nodes| - 1 { RankAt(nodes[..|nodes| - 1], i); }
  }

  lemma ChainedRank(p: seq<PipelineStep>, order: seq<PipelineStep>, nodes: seq<PlanNode>)
    requires Chained(p, order, nodes) && Planner.CleanIds(nodes)
    ensures !HasCycle(Planner.GraphOf(nodes))
  {
    var g, rank := Planner.GraphOf(nodes), Ranks(nodes);
    forall n | n in g ensures n in rank {
      Planner.NodesByIdHas(nodes, n);
      var i :| 0 <= i < |nodes| && Planner.Id(nodes[i]) == n;
      RankAt(nodes, i);
    }
    forall n, d | n in g && d in g[n] && d in g ensures rank[d] < rank[n] {
      EdgeRises(p, order, nodes, n, d);
    }
    RankedAcyclic(g, rank);
  }

  lemma EdgeRises(p: seq<PipelineStep>, order: seq<PipelineStep>, nodes: seq<PlanNode>, n: string, d: string)
    requires Chained(p, order, nodes) && Planner.CleanIds(nodes)
    requires n in Planner.GraphOf(nodes) && d in Planner.GraphOf(nodes)[n]
    ensures n in Ranks(nodes) && d in Ranks(nodes) && Ranks(nodes)[d] < Ranks(nodes)[n]
  {
    Planner.NodesByIdHas(nodes, n);
    var i :| 0 <= i < |nodes| && Planner.Id(nodes[i]) == n;
    Planner.NodesByIdAt(nodes, i);
    var k := OnlyParent(p, order, nodes, i, d);
    RankAt(nodes, i);
    RankAt(nodes, k);
  }

  /** A node whose only dependency is in level `a` is in level `a + 1`. */
  lemma LevelAfterParent(nodes: seq<PlanNode>, levels: seq<seq<string>>, i: int, k: int, a: int, b: int)
    requires Planner.WellFormed(nodes) && Planner.CompleteLevels(nodes, levels)
    requires 0 <= k < |nodes| && 0 <= i < |nodes| && nodes[i].dependsOn == [Planner.Id(nodes[k])]
    requires 0 <= a < |levels| && Planner.Id(nodes[k]) in levels[a]
    requires 0 <= b < |levels| && Planner.Id(nodes[i]) in levels[b]
    ensures b == a + 1
  {
    var g := Planner.GraphOf(nodes);
    Planner.NodesByIdAt(nodes, i);
    Planner.WellFormedClosed(nodes);
    LevelEquation(g, levels, b, Planner.Id(nodes[i]));
    assert b > 0;
    var d :| d in g[Planner.Id(nodes[i])] && d in levels[b - 1];
    LevelsDisjoint(g, levels, a, b - 1, d);
  }

  lemma LevelOf(nodes: seq<PlanNode>, levels: seq<seq<string>>, i: int) returns (a: int)
    requires Planner.CleanIds(nodes) && Planner.CompleteLevels(nodes, levels) && 0 <= i < |nodes|
    ensures 0 <= a < |levels| && Planner.Id(nodes[i]) in levels[a]
  {
    Planner.NodesByIdAt(nodes, i);
    MembersOf(levels, Planner.Id(nodes[i]));
    a :| 0 <= a < |levels| && Planner.Id(nodes[i]) in levels[a];
  }

  /** `parent[i]` is the position of the only dependency of node `i`, or -1; it never falls. */
  ghost predicate Parents(nodes: seq<PlanNode>, parent: seq<int>) {
    && |parent| == |nodes|
    && (forall i :: 0 <= i < |nodes| ==> ParentAt(nodes, parent, i))
    && (forall i, j :: 0 <= i < j < |nodes| && parent[i] >= 0 ==> parent[i] <= parent[j])
  }

  ghost predicate ParentAt(nodes: seq<PlanNode>, parent: seq<int>, i: int)
    requires |parent| == |nodes| && 0 <= i < |nodes|
  {
    if parent[i] < 0 then nodes[i].dependsOn == []
    else parent[i] < i && nodes[i].dependsOn == [Planner.Id(nodes[parent[i]])]
  }

  /** Along the breadth-first order the levels never fall. */
  lemma {:induction false} LevelsNeverFall(
    nodes: seq<PlanNode>, parent: seq<int>, levels: seq<seq<string>>, i: int, j: int, a: int, b: int)
    requires Planner.WellFormed(nodes) && Planner.CompleteLevels(nodes, levels) && Parents(nodes, parent)
    requires 0 <= i < j < |nodes|
    requires 0 <= a < |levels| && Planner.Id(nodes[i]) in levels[a]
    requires 0 <= b < |levels| && Planner.Id(nodes[j]) in levels[b]
    ensures a <= b
    decreases j
  {
    assert ParentAt(nodes, parent, i) && ParentAt(nodes, parent, j);
    if parent[i] < 0 {
      RootLevel(nodes, levels, i, a);
    } else {
      var k, k' := parent[i], parent[j];
      var c := LevelOf(nodes, levels, k);
      var d := LevelOf(nodes, levels, k');
      LevelAfterParent(nodes, levels, i, k, c, a);
      LevelAfterParent(nodes, levels, j, k', d, b);
      if k < k' {
        LevelsNeverFall(nodes, parent, levels, k, k', c, d);
      } else {
        LevelsDisjoint(Planner.GraphOf(nodes), levels, c, d, Planner.Id(nodes[k]));
      }
    }
  }

  ghost function ParentPosition(p: seq<PipelineStep>, order: seq<PipelineStep>, nodes: seq<PlanNode>, i: int): (k: int)
    requires Chained(p, order, nodes) && 0 <= i < |nodes|
    ensures k < 0 <==> order[i].dependsOn == ""
    ensures k < 0 ==> nodes[i].dependsOn == []
    ensures k >= 0 ==> k < i && nodes[i].dependsOn == [Planner.Id(nodes[k])]
  {
    assert DependencyAt(p, order, nodes, i);
    if order[i].dependsOn == "" then -1
    else var k :| 0 <= k < i && order[k].step == order[i].dependsOn && nodes[i].dependsOn == [Planner.Id(nodes[k])]; k
  }

  /** A breadth-first order gives such parents. */
  lemma FindParents(p: seq<PipelineStep>, order: seq<PipelineStep>, nodes: seq<PlanNode>) returns (parent: seq<int>)
    requires CleanSteps(p) && BreadthFirst(p, order) && Chained(p, order, nodes) && Planner.CleanIds(nodes)
    ensures Parents(nodes, parent)
  {
    parent := seq(|nodes|, i requires 0 <= i < |nodes| => ParentPosition(p, order, nodes, i));
    forall i, j | 0 <= i < j < |nodes| && parent[i] >= 0 ensures parent[i] <= parent[j] {
      SameParents(p, order, nodes, i, j);
    }
  }

  lemma SameParents(p: seq<PipelineStep>, order: seq<PipelineStep>, nodes: seq<PlanNode>, i: int, j: int)
    requires CleanSteps(p) && BreadthFirst(p, order) && Chained(p, order, nodes) && Planner.CleanIds(nodes)
    requires 0 <= i < j < |nodes| && ParentPosition(p, order, nodes, i) >= 0
    ensures ParentPosition(p, order, nodes, i) <= ParentPosition(p, order, nodes, j)
  {
    var u, v := ParentPositions(p, order, nodes, i, j);
    SameId(nodes, ParentPosition(p, order, nodes, i), u);
    SameId(nodes, ParentPosition(p, order, nodes, j), v);
  }

  lemma SameId(nodes: seq<PlanNode>, a: int, b: int)
    requires Planner.CleanIds(nodes) && 0 <= a < |nodes| && 0 <= b < |nodes|
    requires [Planner.Id(nodes[a])] == [Planner.Id(nodes[b])]
    ensures a == b
  {
    assert [Planner.Id(nodes[a])][0] == [Planner.Id(nodes[b])][0];
  }

  lemma RootLevel(nodes: seq<PlanNode>, levels: seq<seq<string>>, i: int, a: int)
    requires Planner.WellFormed(nodes) && Planner.CompleteLevels(nodes, levels)
    requires 0 <= i < |nodes| && nodes[i].dependsOn == []
    requires 0 <= a < |levels| && Planner.Id(nodes[i]) in levels[a]
    ensures a == 0
  {
    Planner.NodesByIdAt(nodes, i);
    Planner.WellFormedClosed(nodes);
    LevelEquation(Planner.GraphOf(nodes), levels, a, Planner.Id(nodes[i]));
  }

  lemma ParentPositions(p: seq<PipelineStep>, order: seq<PipelineStep>, nodes: seq<PlanNode>, i: int, j: int)
    returns (k: int, k': int)
    requires CleanSteps(p) && BreadthFirst(p, order) && Chained(p, order, nodes)
    requires 0 <= i < j < |nodes| && order[i].dependsOn != ""
    ensures 0 <= k < i && k <= k' < j
    ensures nodes[i].dependsOn == [Planner.Id(nodes[k])] && nodes[j].dependsOn == [Planner.Id(nodes[k'])]
  {
    var names := Names(order);
    assert names + [] == names;
    var y, y';
    y, k, y', k' := ParentsInOrder(p, names, i, j);
    assert order[i] in p && order[j] in p;
    OneParent(p, order[i].step, y, order[i].dependsOn);
    OneParent(p, order[j].step, y', order[j].dependsOn);
    assert DependencyAt(p, order, nodes, i) && DependencyAt(p, order, nodes, j);
    var u :| 0 <= u < i && order[u].step == y && nodes[i].dependsOn == [Planner.Id(nodes[u])];
    var v :| 0 <= v < j && order[v].step == y' && nodes[j].dependsOn == [Planner.Id(nodes[v])];
    SamePosition(names, u, k);
    SamePosition(names, v, k');
  }

  lemma SamePosition(names: seq<string>, u: int, k: int)
    requires Distinct(names) && 0 <= u < |names| && 0 <= k < |names| && names[u] == names[k]
    ensures u == k
  {}

  /** A node of a lower level has a smaller ID than a node of a higher level. */
  lemma LowerLevelSmallerId(
    nodes: seq<PlanNode>, parent: seq<int>, levels: seq<seq<string>>, a: int, b: int, x: string, y: string)
    requires Planner.WellFormed(nodes) && Planner.CompleteLevels(nodes, levels) && Parents(nodes, parent)
    requires forall i, j :: 0 <= i < j < |nodes| ==> Less(Planner.Id(nodes[i]), Planner.Id(nodes[j]))
    requires 0 <= a < b < |levels| && x in levels[a] && y in levels[b]
    ensures Less(x, y)
  {
    MembersOf(levels, x);
    MembersOf(levels, y);
    Planner.NodesByIdHas(nodes, x);
    Planner.NodesByIdHas(nodes, y);
    var i :| 0 <= i < |nodes| && Planner.Id(nodes[i]) == x;
    var j :| 0 <= j < |nodes| && Planner.Id(nodes[j]) == y;
    if j < i {
      LevelsNeverFall(nodes, parent, levels, j, i, b, a);
    } else if i == j {
      LevelsDisjoint(Planner.GraphOf(nodes), levels, a, b, x);
    }
  }

  lemma SortedLevels(nodes: seq<PlanNode>, parent: seq<int>, levels: seq<seq<string>>)
    requires Planner.WellFormed(nodes) && Planner.CompleteLevels(nodes, levels) && Parents(nodes, parent)
    requires forall i, j :: 0 <= i < j < |nodes| ==> Less(Planner.Id(nodes[i]), Planner.Id(nodes[j]))
    ensures StrictlyOrdered(Flatten(levels), Less)
  {
    forall a, b, x, y | 0 <= a < b < |levels| && x in levels[a] && y in levels[b] ensures Less(x, y) {
      LowerLevelSmallerId(nodes, parent, levels, a, b, x, y);
    }
    forall k | 0 <= k < |levels| ensures StrictlyOrdered(levels[k], Less) {
      assert LevelAt(Planner.GraphOf(nodes), levels, k);
    }
    FlattenSorted(levels);
  }

  /** The level-by-level sort of the plan runs the nodes in exactly the order of the breadth-first sort. */
  lemma SortsAgree(p: seq<PipelineStep>, order: seq<PipelineStep>, nodes: seq<PlanNode>, levels: seq<seq<string>>)
    requires CleanSteps(p) && BreadthFirst(p, order) && Chained(p, order, nodes) && 0 < |nodes| <= 9999
    requires Planner.CompleteLevels(nodes, levels)
    ensures Flatten(levels) == PlanIds(Names(order))
  {
    ChainedAccepted(p, order, nodes);
    ChainedIdsSorted(p, order, nodes);
    var ids := PlanIds(Names(order));
    var parent := FindParents(p, order, nodes);
    SortedLevels(nodes, parent, levels);
    IdsSortedIff9999(Names(order));
    forall x ensures x in Flatten(levels) <==> x in ids {
      FlattenMembers(levels, x);
      Planner.NodesByIdHas(nodes, x);
      assert forall i :: 0 <= i < |nodes| ==> ids[i] == Planner.Id(nodes[i]);
    }
    SortedSetUnique(Flatten(levels), ids);
  }

  /** From manifest to levels: the planner accepts every plan built from a valid manifest, agents of
      different nodes differ, and each dependency is an earlier node. For at most 9999 steps the levels run
      the steps in pipeline order, and that order is the order of the IDs. */
  method PlanManifest(m: RouterManifest, namespace: string, fallback: BreakerPolicy, clock: nat -> int)
    returns (graph: Planner.PlanGraph, ghost order: seq<PipelineStep>)
    requires ValidManifest(m)
    ensures BreadthFirst(m.pipeline, order)
    ensures PlanOf(m, namespace, fallback, order, clock, graph.nodes)
    ensures Planner.OwnAgents(graph)
    ensures forall i :: 0 <= i < |order| && order[i].dependsOn != "" ==> DependsOnEarlier(graph.nodes, i)
    ensures |m.pipeline| <= 9999 ==>
              Flatten(graph.levels) == PlanIds(Names(order)) && StrictlyOrdered(Flatten(graph.levels), Less)
  {
    var built;
    built, order := BuildExecutionPlan(m, namespace, fallback, clock);
    var plan := built.value;
    PlanIsChained(m, namespace, fallback, order, clock, plan.nodes);
    ChainedAccepted(m.pipeline, order, plan.nodes);
    var r := Planner.BuildGraph(plan);
    graph := r.value;
    ChainedAgents(m.pipeline, order, graph.nodes);
    DependenciesFirst(m.pipeline, order, graph.nodes);
    if |m.pipeline| <= 9999 {
      SortsAgree(m.pipeline, order, graph.nodes, graph.levels);
      IdsSortedIff9999(Names(order));
    }
  }

  /** Node `i` has one dependency, which is listed before it. */
  ghost predicate DependsOnEarlier(nodes: seq<PlanNode>, i: int) {
    exists k :: 0 <= k < i < |nodes| && nodes[i].dependsOn == [Planner.Id(nodes[k])]
  }

  lemma ChainedAgents(p: seq<PipelineStep>, order: seq<PipelineStep>, nodes: seq<PlanNode>)
    requires CleanSteps(p) && BreadthFirst(p, order) && Chained(p, order, nodes)
    ensures forall i, j :: 0 <= i < j < |nodes| ==> nodes[i].invocation.agentId != nodes[j].invocation.agentId
  {
    assert Names(order) + [] == Names(order);
    assert Distinct(Names(order));
  }

  lemma DependenciesFirst(p: seq<PipelineStep>, order: seq<PipelineStep>, nodes: seq<PlanNode>)
    requires Chained(p, order, nodes)
    ensures forall i :: 0 <= i < |order| && order[i].dependsOn != "" ==> DependsOnEarlier(nodes, i)
  {
    forall i | 0 <= i < |order| && order[i].dependsOn != "" ensures DependsOnEarlier(nodes, i) {
      assert DependencyAt(p, order, nodes, i);
    }
  }
}
