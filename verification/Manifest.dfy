/** The parsed manifest, its validation, and `OrderedPipeline`, a first-in-first-out topological sort. */
module Manifest {
  import opened Basics
  import opened Types
  import opened Graph

  /** A duration field of the manifest after parsing. */
  datatype DurationField = Absent | Parsed(nanoseconds: int) | Malformed

  datatype RetryConfig = RetryConfig(maxAttempts: int, backoff: BackoffStrategy)

  datatype BreakerConfig = BreakerConfig(threshold: int, resetTimeout: DurationField, probeTimeout: DurationField)

  datatype AgentBinding = AgentBinding(id: string, retry: RetryConfig, breaker: BreakerConfig)

  datatype PipelineStep = PipelineStep(step: string, dependsOn: string)

  datatype RouterManifest = RouterManifest(agents: seq<AgentBinding>, pipeline: seq<PipelineStep>)

  /** The part of the router settings that is checked: the namespace and the roles per action. */
  datatype RouterSettings = RouterSettings(namespace: string, rbac: seq<seq<string>>)

  datatype ManifestError =
    | EmptyAgents | EmptyPipeline
    | BadNamespace | BadRole(role: string)
    | AgentIdEmpty | DuplicateAgent(agent: string) | NegativeThreshold(agent: string)
    | BadResetTimeout(agent: string) | BadProbeTimeout(agent: string)
    | StepEmpty | DuplicateStep(step: string) | NoMatchingAgent(step: string)
    | DependsOnItself(step: string) | UnknownStep(step: string, dependsOn: string)
    | CycleDetected

  // ---------------------------------------------------------------------
  // What a pipeline must look like
  // ---------------------------------------------------------------------

  ghost predicate HasStep(p: seq<PipelineStep>, name: string) {
    exists i :: 0 <= i < |p| && p[i].step == name
  }

  ghost predicate DistinctSteps(p: seq<PipelineStep>) {
    && (forall i :: 0 <= i < |p| ==> p[i].step != "")
    && (forall i, j :: 0 <= i < j < |p| ==> p[i].step != p[j].step)
  }

  ghost predicate KnownDependency(p: seq<PipelineStep>, s: PipelineStep) {
    s.dependsOn != "" ==> s.dependsOn != s.step && HasStep(p, s.dependsOn)
  }

  ghost predicate CleanSteps(p: seq<PipelineStep>) {
    DistinctSteps(p) && forall i :: 0 <= i < |p| ==> KnownDependency(p, p[i])
  }

  /** The pipeline as a dependency graph. */
  ghost function PipelineDeps(p: seq<PipelineStep>): Deps {
    if p == [] then map[]
    else
      var last := p[|p| - 1];
      PipelineDeps(p[..|p| - 1])[last.step := if last.dependsOn == "" then [] else [last.dependsOn]]
  }

  lemma {:induction false} PipelineDepsHas(p: seq<PipelineStep>, x: string)
    ensures x in PipelineDeps(p) <==> HasStep(p, x)
  {
    if p != [] {
      var front, last := p[..|p| - 1], p[|p| - 1];
      PipelineDepsHas(front, x);
      if x == last.step {
        assert p[|p| - 1].step == x;
      } else if HasStep(front, x) {
        var i :| 0 <= i < |front| && front[i].step == x;
        assert p[i].step == x;
      }
    }
  }

  lemma {:induction false} PipelineDepsAt(p: seq<PipelineStep>, i: int)
    requires DistinctSteps(p) && 0 <= i < |p|
    ensures p[i].step in PipelineDeps(p)
    ensures PipelineDeps(p)[p[i].step] == if p[i].dependsOn == "" then [] else [p[i].dependsOn]
  {
    if i < |p| - 1 {
      PipelineDepsAt(p[..|p| - 1], i);
      assert p[i].step != p[|p| - 1].step;
    }
  }

  // ---------------------------------------------------------------------
  // The breadth-first order
  // ---------------------------------------------------------------------

  /** The steps that depend on `parent`, in manifest order; `""` gives the steps without a dependency. */
  function ChildrenOf(p: seq<PipelineStep>, parent: string): seq<string> {
    if p == [] then []
    else
      var rest := ChildrenOf(p[..|p| - 1], parent);
      if p[|p| - 1].dependsOn == parent then rest + [p[|p| - 1].step] else rest
  }

  /** The children of each of `names` in turn. */
  ghost function AllChildren(p: seq<PipelineStep>, names: seq<string>): seq<string> {
    if names == [] then []
    else AllChildren(p, names[..|names| - 1]) + ChildrenOf(p, names[|names| - 1])
  }

  lemma {:induction false} ChildOf(p: seq<PipelineStep>, parent: string, x: string)
    ensures x in ChildrenOf(p, parent) <==> exists i :: 0 <= i < |p| && p[i].step == x && p[i].dependsOn == parent
  {
    if p != [] {
      var front, last := p[..|p| - 1], p[|p| - 1];
      ChildOf(front, parent, x);
      if x in ChildrenOf(front, parent) {
        var i :| 0 <= i < |front| && front[i].step == x && front[i].dependsOn == parent;
        assert p[i] == front[i];
      }
      if last.step == x && last.dependsOn == parent { assert p[|p| - 1] == last; }
    }
  }

  lemma {:induction false} ChildrenDistinct(p: seq<PipelineStep>, parent: string)
    requires DistinctSteps(p)
    ensures Distinct(ChildrenOf(p, parent))
  {
    if p != [] {
      var front, last := p[..|p| - 1], p[|p| - 1];
      ChildrenDistinct(front, parent);
      ChildOf(front, parent, last.step);
    }
  }

  /** Step `x` depends on `y` (or on nothing, when `y` is empty). */
  ghost predicate DependsOn(p: seq<PipelineStep>, x: string, y: string) {
    exists i :: 0 <= i < |p| && p[i].step == x && p[i].dependsOn == y
  }

  lemma OneParent(p: seq<PipelineStep>, x: string, y: string, z: string)
    requires DistinctSteps(p) && DependsOn(p, x, y) && DependsOn(p, x, z)
    ensures y == z
  {
    var i :| 0 <= i < |p| && p[i].step == x && p[i].dependsOn == y;
    var j :| 0 <= j < |p| && p[j].step == x && p[j].dependsOn == z;
    assert i == j;
  }

  lemma {:induction false} AllChildrenOf(p: seq<PipelineStep>, names: seq<string>, x: string)
    ensures x in AllChildren(p, names) <==> exists k :: 0 <= k < |names| && DependsOn(p, x, names[k])
  {
    if names != [] {
      var front, last := names[..|names| - 1], names[|names| - 1];
      AllChildrenOf(p, front, x);
      ChildOf(p, last, x);
      assert names[|names| - 1] == last;
      assert forall k :: 0 <= k < |front| ==> front[k] == names[k];
    }
  }

  /** Where the search stands: `names` were taken from the queue, `queue` is still waiting.
      Together they are the roots followed by the children of everything taken, in turn. */
  ghost predicate Searched(p: seq<PipelineStep>, names: seq<string>, queue: seq<string>) {
    && names + queue == ChildrenOf(p, "") + AllChildren(p, names)
    && Distinct(names + queue)
    && forall j :: 0 <= j < |names| ==> j < |ChildrenOf(p, "")| + |AllChildren(p, names[..j])|
  }

  /** A step still counts its dependency until that dependency was taken from the queue. */
  ghost predicate Pending(p: seq<PipelineStep>, names: seq<string>, inDegree: map<string, int>) {
    forall i :: 0 <= i < |p| ==>
      && p[i].step in inDegree
      && inDegree[p[i].step] == if p[i].dependsOn == "" || p[i].dependsOn in names then 0 else 1
  }

  lemma HeadIsNew(p: seq<PipelineStep>, names: seq<string>, queue: seq<string>)
    requires CleanSteps(p) && queue != [] && Searched(p, names, queue)
    ensures queue[0] !in names && queue[0] != ""
  {
    var all := names + queue;
    assert all[|names|] == queue[0];
    assert forall j :: 0 <= j < |names| ==> all[j] == names[j];
    QueuedParent(p, names, queue, queue[0]);
    var i :| 0 <= i < |p| && p[i].step == queue[0];
  }

  lemma ParentTaken(p: seq<PipelineStep>, names: seq<string>, queue: seq<string>, x: string, y: string)
    requires DistinctSteps(p) && Searched(p, names, queue) && x in names + queue && DependsOn(p, x, y)
    ensures y == "" || y in names
  {
    QueuedParent(p, names, queue, x);
    var z :| DependsOn(p, x, z) && (z == "" || z in names);
    OneParent(p, x, y, z);
  }

  /** The children of the head of the queue were never queued before. */
  lemma KidIsNew(p: seq<PipelineStep>, names: seq<string>, queue: seq<string>, x: string)
    requires CleanSteps(p) && queue != [] && Searched(p, names, queue) && x in ChildrenOf(p, queue[0])
    ensures x !in names + queue
  {
    HeadIsNew(p, names, queue);
    ChildOf(p, queue[0], x);
    assert DependsOn(p, x, queue[0]);
    if x in names + queue { ParentTaken(p, names, queue, x, queue[0]); }
  }

  /** Taking the head of the queue and appending its children keeps the search in order. */
  lemma TakeOne(p: seq<PipelineStep>, names: seq<string>, queue: seq<string>)
    requires CleanSteps(p) && queue != [] && Searched(p, names, queue)
    ensures Searched(p, names + [queue[0]], queue[1..] + ChildrenOf(p, queue[0]))
  {
    var names', kids := names + [queue[0]], ChildrenOf(p, queue[0]);
    assert names'[..|names|] == names;
    var roots, before, after := ChildrenOf(p, ""), AllChildren(p, names), AllChildren(p, names');
    assert after == before + kids;
    assert names' + (queue[1..] + kids) == (names + queue) + kids;
    assert (roots + before) + kids == roots + after;
    ChildrenDistinct(p, queue[0]);
    forall x | x in kids ensures x !in names + queue { KidIsNew(p, names, queue, x); }
    JoinDistinct(names + queue, kids);
    forall j | 0 <= j < |names'| ensures j < |roots| + |AllChildren(p, names'[..j])| {
      assert names'[..j] == names[..j];
    }
  }

  /** Whatever has been queued is a step without a dependency, or its dependency was taken before. */
  lemma QueuedParent(p: seq<PipelineStep>, names: seq<string>, queue: seq<string>, x: string)
    requires Searched(p, names, queue) && x in names + queue
    ensures HasStep(p, x)
    ensures exists y :: DependsOn(p, x, y) && (y == "" || y in names)
  {
    if x in ChildrenOf(p, "") {
      ChildOf(p, "", x);
      assert DependsOn(p, x, "");
    } else {
      assert x in AllChildren(p, names);
      AllChildrenOf(p, names, x);
      var k :| 0 <= k < |names| && DependsOn(p, x, names[k]);
    }
  }

  // ---------------------------------------------------------------------
  // OrderedPipeline
  // ---------------------------------------------------------------------

  ghost predicate ChildrenListed(p: seq<PipelineStep>, children: map<string, seq<string>>) {
    forall d :: d != "" ==> Kids(children, d) == ChildrenOf(p, d)
  }

  ghost predicate KnownKids(children: map<string, seq<string>>, inDegree: map<string, int>) {
    forall d, x :: x in Kids(children, d) ==> x in inDegree
  }

  /** The first `i` steps are counted; with distinct steps the count is one if there is a dependency. */
  ghost predicate Counted(p: seq<PipelineStep>, i: int, inDegree: map<string, int>)
    requires 0 <= i <= |p|
  {
    && (forall a :: 0 <= a < i ==> p[a].step in inDegree)
    && (forall x :: x in inDegree ==> exists a :: 0 <= a < i && p[a].step == x)
    && (DistinctSteps(p) ==> forall a :: 0 <= a < i ==> inDegree[p[a].step] == if p[a].dependsOn == "" then 0 else 1)
  }

  lemma ListOne(p: seq<PipelineStep>, i: int, children: map<string, seq<string>>, inDegree: map<string, int>)
    requires 0 <= i < |p| && p[i].step in inDegree
    requires ChildrenListed(p[..i], children) && KnownKids(children, inDegree)
    ensures var more := if p[i].dependsOn == "" then children
                        else children[p[i].dependsOn := Kids(children, p[i].dependsOn) + [p[i].step]];
            ChildrenListed(p[..i + 1], more) && KnownKids(more, inDegree)
  {
    var upTo, dep := p[..i + 1], p[i].dependsOn;
    var more := if dep == "" then children else children[dep := Kids(children, dep) + [p[i].step]];
    assert upTo[..i] == p[..i];
    forall d | d != "" ensures Kids(more, d) == ChildrenOf(upTo, d) {
      assert Kids(children, d) == ChildrenOf(p[..i], d);
    }
    forall d, x | x in Kids(more, d) ensures x in inDegree {
      assert x in Kids(children, d) || x == p[i].step;
    }
  }

  lemma CountOne(p: seq<PipelineStep>, i: int, inDegree: map<string, int>)
    requires 0 <= i < |p| && Counted(p, i, inDegree)
    ensures var was := if p[i].step in inDegree then inDegree[p[i].step] else 0;
            Counted(p, i + 1, inDegree[p[i].step := if p[i].dependsOn == "" then was else was + 1])
  {
    assert DistinctSteps(p) ==> p[i].step !in inDegree;
  }

  /** In-degrees and children lists of any pipeline, checked or not. */
  method Index(p: seq<PipelineStep>) returns (inDegree: map<string, int>, children: map<string, seq<string>>)
    ensures ChildrenListed(p, children) && KnownKids(children, inDegree) && Counted(p, |p|, inDegree)
  {
    inDegree, children := map[], map[];
    for i := 0 to |p|
      invariant ChildrenListed(p[..i], children) && KnownKids(children, inDegree)
      invariant Counted(p, i, inDegree)
    {
      var s := p[i];
      CountOne(p, i, inDegree);
      if s.step !in inDegree {
        inDegree := inDegree[s.step := 0];
      }
      if s.dependsOn != "" {
        inDegree := inDegree[s.step := inDegree[s.step] + 1];
      }
      ListOne(p, i, children, inDegree);
      if s.dependsOn != "" {
        children := children[s.dependsOn := Kids(children, s.dependsOn) + [s.step]];
      }
    }
    assert p[..|p|] == p;
  }

  /** The steps that are queued at the start. */
  method Start(p: seq<PipelineStep>, inDegree: map<string, int>) returns (queue: seq<string>)
    requires Counted(p, |p|, inDegree)
    ensures forall x :: x in queue ==> x in inDegree
    ensures DistinctSteps(p) ==> queue == ChildrenOf(p, "")
  {
    queue := [];
    for i := 0 to |p|
      invariant forall x :: x in queue ==> x in inDegree
      invariant DistinctSteps(p) ==> queue == ChildrenOf(p[..i], "")
    {
      assert p[..i + 1][..i] == p[..i];
      if inDegree[p[i].step] == 0 { queue := queue + [p[i].step]; }
    }
    assert p[..|p|] == p;
  }

  ghost function Positive(inDegree: map<string, int>): set<string> {
    set x | x in inDegree && inDegree[x] > 0
  }

  /** Decrements the children of one step; `released` are those that reach zero. */
  method Decrement(kids: seq<string>, inDegree: map<string, int>)
    returns (inDegree': map<string, int>, released: seq<string>)
    requires forall x :: x in kids ==> x in inDegree
    ensures inDegree'.Keys == inDegree.Keys
    ensures forall x :: x in released ==> x in inDegree
    ensures |released| + |Positive(inDegree')| <= |Positive(inDegree)|
    ensures Distinct(kids) && (forall x :: x in kids ==> inDegree[x] == 1) ==>
              && released == kids
              && forall x :: x in inDegree ==> inDegree'[x] == if x in kids then 0 else inDegree[x]
  {
    inDegree', released := inDegree, [];
    ghost var simple := Distinct(kids) && forall x :: x in kids ==> inDegree[x] == 1;
    for i := 0 to |kids|
      invariant inDegree'.Keys == inDegree.Keys
      invariant forall x :: x in released ==> x in inDegree
      invariant |released| + |Positive(inDegree')| <= |Positive(inDegree)|
      invariant simple ==> released == kids[..i]
      invariant simple ==> forall x :: x in inDegree ==> inDegree'[x] == if x in kids[..i] then 0 else inDegree[x]
    {
      var child := kids[i];
      ghost var was := inDegree';
      assert kids[..i + 1] == kids[..i] + [child];
      assert simple ==> child !in kids[..i];
      inDegree' := inDegree'[child := inDegree'[child] - 1];
      if inDegree'[child] == 0 {
        released := released + [child];
        assert Positive(inDegree') == Positive(was) - {child};
      } else {
        assert Positive(inDegree') <= Positive(was);
        SubsetSize(Positive(inDegree'), Positive(was));
      }
    }
    assert kids[..|kids|] == kids;
  }

  lemma StillPending(p: seq<PipelineStep>, names: seq<string>, curr: string, before: map<string, int>,
    after: map<string, int>)
    requires CleanSteps(p) && curr != "" && curr !in names && Pending(p, names, before)
    requires after.Keys == before.Keys
    requires forall x :: x in before ==> after[x] == if x in ChildrenOf(p, curr) then 0 else before[x]
    ensures Pending(p, names + [curr], after)
  {
    forall i | 0 <= i < |p|
      ensures p[i].step in after
      ensures after[p[i].step] == if p[i].dependsOn == "" || p[i].dependsOn in names + [curr] then 0 else 1
    {
      ChildOf(p, curr, p[i].step);
      if p[i].step in ChildrenOf(p, curr) {
        OneParent(p, p[i].step, p[i].dependsOn, curr);
      }
    }
  }

  lemma ChildrenWait(p: seq<PipelineStep>, names: seq<string>, curr: string, inDegree: map<string, int>)
    requires CleanSteps(p) && curr != "" && curr !in names && Pending(p, names, inDegree)
    ensures Distinct(ChildrenOf(p, curr))
    ensures forall x :: x in ChildrenOf(p, curr) ==> x in inDegree && inDegree[x] == 1
  {
    ChildrenDistinct(p, curr);
    forall x | x in ChildrenOf(p, curr) ensures x in inDegree && inDegree[x] == 1 {
      ChildOf(p, curr, x);
      var i :| 0 <= i < |p| && p[i].step == x && p[i].dependsOn == curr;
    }
  }

  /** The search loop. It ends for every pipeline, and for a clean one it visits breadth first. */
  method Search(p: seq<PipelineStep>, children: map<string, seq<string>>, inDegree: map<string, int>,
    start: seq<string>)
    returns (names: seq<string>)
    requires ChildrenListed(p, children) && KnownKids(children, inDegree)
    requires forall x :: x in start ==> x in inDegree
    requires CleanSteps(p) ==> Searched(p, [], start) && Pending(p, [], inDegree)
    ensures CleanSteps(p) ==> Searched(p, names, [])
    ensures forall x :: x in names ==> x in inDegree
  {
    names := [];
    var queue, degrees := start, inDegree;
    while queue != []
      invariant degrees.Keys == inDegree.Keys
      invariant forall x :: x in queue ==> x in inDegree
      invariant forall x :: x in names ==> x in inDegree
      invariant CleanSteps(p) ==> Searched(p, names, queue) && Pending(p, names, degrees)
      decreases |queue| + |Positive(degrees)|
    {
      var curr := queue[0];
      ghost var was := degrees;
      if CleanSteps(p) {
        HeadIsNew(p, names, queue);
        TakeOne(p, names, queue);
        ChildrenWait(p, names, curr, degrees);
      }
      var released;
      degrees, released := Decrement(Kids(children, curr), degrees);
      if CleanSteps(p) { StillPending(p, names, curr, was, degrees); }
      names := names + [curr];
      queue := queue[1..] + released;
    }
  }

  function StepIndex(p: seq<PipelineStep>): map<string, nat> {
    if p == [] then map[] else StepIndex(p[..|p| - 1])[p[|p| - 1].step := |p| - 1]
  }

  lemma {:induction false} StepIndexHas(p: seq<PipelineStep>, x: string)
    ensures x in StepIndex(p) <==> HasStep(p, x)
    ensures x in StepIndex(p) ==> StepIndex(p)[x] < |p| && p[StepIndex(p)[x]].step == x
  {
    if p != [] {
      var front := p[..|p| - 1];
      StepIndexHas(front, x);
      if x == p[|p| - 1].step {
        assert HasStep(p, x);
      } else if HasStep(front, x) {
        var i :| 0 <= i < |front| && front[i].step == x;
        assert p[i].step == x;
      }
    }
  }

  /** The steps of the pipeline in breadth-first order: `r` is the sequence the search names. */
  ghost predicate BreadthFirst(p: seq<PipelineStep>, r: seq<PipelineStep>) {
    && |r| == |p|
    && (forall i :: 0 <= i < |r| ==> r[i] in p)
    && Searched(p, Names(r), [])
  }

  ghost function Names(r: seq<PipelineStep>): (s: seq<string>)
    ensures |s| == |r| && forall i :: 0 <= i < |r| ==> s[i] == r[i].step
  {
    seq(|r|, i requires 0 <= i < |r| => r[i].step)
  }

  /** Orders the pipeline so that every step follows its dependency, or reports a cycle. For a
      pipeline with clean steps the cycle report is exact and the order is the breadth-first one. */
  method OrderedPipeline(m: RouterManifest) returns (r: Result<seq<PipelineStep>, ManifestError>)
    ensures r.Err? ==> r.error == CycleDetected
    ensures r.Ok? ==> |r.value| == |m.pipeline| && forall s :: s in r.value ==> s in m.pipeline
    ensures CleanSteps(m.pipeline) ==> (r.Err? <==> HasCycle(PipelineDeps(m.pipeline)))
    ensures CleanSteps(m.pipeline) && r.Ok? ==> BreadthFirst(m.pipeline, r.value)
  {
    var p := m.pipeline;
    var stepIndex := StepIndex(p);
    var inDegree, children := Index(p);
    var start := Start(p, inDegree);
    if CleanSteps(p) {
      assert [] + start == ChildrenOf(p, "") + AllChildren(p, []);
      ChildrenDistinct(p, "");
    }
    var names := Search(p, children, inDegree, start);
    if CleanSteps(p) { SearchDecides(p, names); }
    if |names| != |p| {
      return Err(CycleDetected);
    }
    var ordered: seq<PipelineStep> := [];
    for k := 0 to |names|
      invariant |ordered| == k
      invariant forall a :: 0 <= a < k ==> ordered[a] in p && ordered[a].step == names[a]
    {
      assert names[k] in inDegree;
      StepIndexHas(p, names[k]);
      ordered := ordered + [p[stepIndex[names[k]]]];
    }
    assert Names(ordered) == names;
    return Ok(ordered);
  }

  /** A finished search named every step exactly when there is no cycle. */
  lemma SearchDecides(p: seq<PipelineStep>, names: seq<string>)
    requires CleanSteps(p) && Searched(p, names, [])
    ensures |names| != |p| <==> HasCycle(PipelineDeps(p))
  {
    var g := PipelineDeps(p);
    PipelineClosed(p);
    NamesSettled(p, names);
    assert names + [] == names;
    DistinctCardinality(names);
    KeyCount(p);
    assert Elems(names) <= g.Keys by {
      forall x | x in names ensures x in g {
        QueuedParent(p, names, [], x);
        PipelineDepsHas(p, x);
      }
    }
    if |names| == |p| {
      SameSizeSubset(Elems(names), g.Keys);
      if HasCycle(g) {
        var c :| Cycle(g, c);
        CycleNotNamed(p, names, c);
      }
    } else {
      assert Layer(g, Elems(names)) == {};
      assert Elems(names) != g.Keys;
      StuckMeansCycle(g, Elems(names));
    }
  }

  lemma PipelineClosed(p: seq<PipelineStep>)
    requires CleanSteps(p)
    ensures DepsClosed(PipelineDeps(p))
  {
    var g := PipelineDeps(p);
    forall n, d | n in g && d in g[n] ensures d in g {
      PipelineDepsHas(p, n);
      var i :| 0 <= i < |p| && p[i].step == n;
      PipelineDepsAt(p, i);
      assert KnownDependency(p, p[i]);
      PipelineDepsHas(p, d);
    }
  }

  lemma {:induction false} KeyCount(p: seq<PipelineStep>)
    requires DistinctSteps(p)
    ensures |PipelineDeps(p).Keys| == |p|
  {
    if p != [] {
      var front, last := p[..|p| - 1], p[|p| - 1];
      KeyCount(front);
      PipelineDepsHas(front, last.step);
      assert PipelineDeps(p).Keys == PipelineDeps(front).Keys + {last.step};
    }
  }

  /** When the queue is empty no unnamed step is ready. */
  lemma NamesSettled(p: seq<PipelineStep>, names: seq<string>)
    requires CleanSteps(p) && Searched(p, names, [])
    ensures Layer(PipelineDeps(p), Elems(names)) == {}
  {
    var g := PipelineDeps(p);
    assert names + [] == names;
    forall n | n in g && forall d :: d in g[n] ==> d in Elems(names) ensures n in names {
      PipelineDepsHas(p, n);
      var i :| 0 <= i < |p| && p[i].step == n;
      PipelineDepsAt(p, i);
      if p[i].dependsOn == "" {
        ChildOf(p, "", n);
        assert n in ChildrenOf(p, "");
      } else {
        assert p[i].dependsOn in g[n];
        var k :| 0 <= k < |names| && names[k] == p[i].dependsOn;
        assert DependsOn(p, n, names[k]);
        AllChildrenOf(p, names, n);
        assert n in AllChildren(p, names);
      }
    }
  }

  /** A step at position `i` of a finished search is a root, or its dependency is at an earlier position. */
  lemma ParentEarlier(p: seq<PipelineStep>, names: seq<string>, i: int) returns (y: string, k: int)
    requires CleanSteps(p) && Searched(p, names, []) && 0 <= i < |names|
    ensures DependsOn(p, names[i], y)
    ensures y == "" <==> i < |ChildrenOf(p, "")|
    ensures y == "" ==> k == -1
    ensures y != "" ==> 0 <= k < i && names[k] == y
    ensures y != "" ==> |ChildrenOf(p, "")| + |AllChildren(p, names[..k])| <= i
                        < |ChildrenOf(p, "")| + |AllChildren(p, names[..k + 1])|
  {
    var roots := ChildrenOf(p, "");
    assert names + [] == names == roots + AllChildren(p, names);
    if i < |roots| {
      assert names[i] == roots[i];
      ChildOf(p, "", names[i]);
      y, k := "", -1;
    } else {
      var t;
      k, t := FindBlock(p, names, i - |roots|);
      y := names[k];
      assert names[i] == AllChildren(p, names)[i - |roots|];
      ChildOf(p, y, names[i]);
      QueuedParent(p, names, [], y);
      assert y != "" by {
        var j :| 0 <= j < |p| && p[j].step == y;
      }
      assert k < |roots| + |AllChildren(p, names[..k])|;
    }
  }

  /** Position `t` of all children falls in the children of exactly one of `names`. */
  lemma {:induction false} FindBlock(p: seq<PipelineStep>, names: seq<string>, t: int) returns (k: int, u: int)
    requires 0 <= t < |AllChildren(p, names)|
    ensures 0 <= k < |names| && 0 <= u < |ChildrenOf(p, names[k])|
    ensures t == |AllChildren(p, names[..k])| + u
    ensures AllChildren(p, names)[t] == ChildrenOf(p, names[k])[u]
    ensures |AllChildren(p, names[..k + 1])| == |AllChildren(p, names[..k])| + |ChildrenOf(p, names[k])|
    decreases |names|
  {
    var n := |names| - 1;
    var front := names[..n];
    assert names[..n + 1] == names;
    if t < |AllChildren(p, front)| {
      k, u := FindBlock(p, front, t);
      assert front[..k] == names[..k] && front[..k + 1] == names[..k + 1];
    } else {
      k, u := n, t - |AllChildren(p, front)|;
    }
  }

  lemma {:induction false} AllChildrenGrow(p: seq<PipelineStep>, names: seq<string>, j: int, k: int)
    requires 0 <= j <= k <= |names|
    ensures |AllChildren(p, names[..j])| <= |AllChildren(p, names[..k])|
    decreases k - j
  {
    if j < k {
      assert names[..k][..k - 1] == names[..k - 1];
      AllChildrenGrow(p, names, j, k - 1);
    }
  }

  /** Earlier steps have earlier dependencies. */
  lemma ParentsInOrder(p: seq<PipelineStep>, names: seq<string>, i: int, j: int)
    returns (y: string, k: int, y': string, k': int)
    requires CleanSteps(p) && Searched(p, names, []) && 0 <= i < j < |names|
    ensures DependsOn(p, names[i], y) && DependsOn(p, names[j], y')
    ensures y != "" ==> y' != "" && 0 <= k < i && names[k] == y && k <= k' < j && names[k'] == y'
  {
    y, k := ParentEarlier(p, names, i);
    y', k' := ParentEarlier(p, names, j);
    if y != "" && k' < k {
      AllChildrenGrow(p, names, k' + 1, k);
    }
  }

  /** No step of a cycle is ever named: its first named step would need an earlier one. */
  lemma CycleNotNamed(p: seq<PipelineStep>, names: seq<string>, c: seq<string>)
    requires CleanSteps(p) && Searched(p, names, [])
    requires Cycle(PipelineDeps(p), c)
    ensures exists x :: x in PipelineDeps(p) && x !in names
  {
    assert names + [] == names;
    if c[0] in names {
      var i :| 0 <= i < |names| && names[i] == c[0];
      var j := DescendCycle(p, names, c, |c| - 1, i);
    }
  }

  /** Going back along a path of dependencies goes back in the names. */
  lemma {:induction false} DescendCycle(p: seq<PipelineStep>, names: seq<string>, c: seq<string>, t: int, i: int)
    returns (j: int)
    requires CleanSteps(p) && Searched(p, names, []) && Path(PipelineDeps(p), c)
    requires 0 <= t < |c| && 0 <= i < |names| && names[i] == c[t]
    ensures 0 <= j <= i - t && names[j] == c[0]
    decreases t
  {
    if t == 0 {
      j := i;
    } else {
      var y, k := ParentEarlier(p, names, i);
      var a :| 0 <= a < |p| && p[a].step == names[i] && p[a].dependsOn == y;
      PipelineDepsAt(p, a);
      assert c[t - 1] in PipelineDeps(p)[c[t]];
      j := DescendCycle(p, names, c, t - 1, k);
    }
  }

  // ---------------------------------------------------------------------
  // ValidateManifest
  // ---------------------------------------------------------------------

  ghost predicate ValidAgent(agents: seq<AgentBinding>, i: int)
    requires 0 <= i < |agents|
  {
    && agents[i].id != ""
    && (forall j :: 0 <= j < i ==> agents[j].id != agents[i].id)
    && agents[i].breaker.threshold >= 0
    && !agents[i].breaker.resetTimeout.Malformed?
    && !agents[i].breaker.probeTimeout.Malformed?
  }

  ghost predicate HasAgent(agents: seq<AgentBinding>, id: string) {
    exists i :: 0 <= i < |agents| && agents[i].id == id
  }

  /** The structural checks: agents, steps and dependencies, and no cycle. */
  ghost predicate ValidManifest(m: RouterManifest) {
    && m.agents != [] && m.pipeline != []
    && (forall i :: 0 <= i < |m.agents| ==> ValidAgent(m.agents, i))
    && CleanSteps(m.pipeline)
    && (forall i :: 0 <= i < |m.pipeline| ==> HasAgent(m.agents, m.pipeline[i].step))
    && !HasCycle(PipelineDeps(m.pipeline))
  }

  ghost predicate AgentFault(agents: seq<AgentBinding>, i: int, e: ManifestError)
    requires 0 <= i < |agents|
  {
    var a := agents[i];
    if a.id == "" then e == AgentIdEmpty
    else if exists j :: 0 <= j < i && agents[j].id == a.id then e == DuplicateAgent(a.id)
    else if a.breaker.threshold < 0 then e == NegativeThreshold(a.id)
    else if a.breaker.resetTimeout.Malformed? then e == BadResetTimeout(a.id)
    else a.breaker.probeTimeout.Malformed? && e == BadProbeTimeout(a.id)
  }

  /** Agent `i` is the first invalid one, and `e` is what it is reported as. */
  ghost predicate FirstAgentFault(agents: seq<AgentBinding>, i: int, e: ManifestError) {
    0 <= i < |agents| && AgentFault(agents, i, e) && forall j :: 0 <= j < i ==> ValidAgent(agents, j)
  }

  method CheckAgents(agents: seq<AgentBinding>) returns (fault: Option<ManifestError>, ids: set<string>)
    ensures fault.None? <==> forall i :: 0 <= i < |agents| ==> ValidAgent(agents, i)
    ensures fault.Some? ==> exists i :: FirstAgentFault(agents, i, fault.value)
    ensures fault.None? ==> forall x :: x in ids <==> HasAgent(agents, x)
  {
    ids, fault := {}, None;
    for i := 0 to |agents|
      invariant forall x :: x in ids <==> exists j :: 0 <= j < i && agents[j].id == x
      invariant forall j :: 0 <= j < i ==> ValidAgent(agents, j)
    {
      var a := agents[i];
      if a.id == "" {
        fault := Some(AgentIdEmpty);
      } else if a.id in ids {
        fault := Some(DuplicateAgent(a.id));
      } else if a.breaker.threshold < 0 {
        fault := Some(NegativeThreshold(a.id));
      } else if a.breaker.resetTimeout.Malformed? {
        fault := Some(BadResetTimeout(a.id));
      } else if a.breaker.probeTimeout.Malformed? {
        fault := Some(BadProbeTimeout(a.id));
      } else {
        fault := None;
      }
      if fault.Some? {
        assert FirstAgentFault(agents, i, fault.value) && !ValidAgent(agents, i);
        return;
      }
      ids := ids + {a.id};
    }
    fault := None;
  }

  ghost predicate StepFault(m: RouterManifest, i: int, e: ManifestError)
    requires 0 <= i < |m.pipeline|
  {
    var s := m.pipeline[i].step;
    if s == "" then e == StepEmpty
    else if exists j :: 0 <= j < i && m.pipeline[j].step == s then e == DuplicateStep(s)
    else !HasAgent(m.agents, s) && e == NoMatchingAgent(s)
  }

  ghost predicate StepsNamed(m: RouterManifest, n: int)
    requires 0 <= n <= |m.pipeline|
  {
    && DistinctSteps(m.pipeline[..n])
    && forall i :: 0 <= i < n ==> HasAgent(m.agents, m.pipeline[i].step)
  }

  /** Step `i` is the first bad one, and `e` is what it is reported as. */
  ghost predicate FirstStepFault(m: RouterManifest, i: int, e: ManifestError) {
    0 <= i < |m.pipeline| && StepFault(m, i, e) && StepsNamed(m, i)
  }

  lemma NameOne(m: RouterManifest, i: int, names: set<string>)
    requires 0 <= i < |m.pipeline| && StepsNamed(m, i)
    requires forall x :: x in names <==> exists j :: 0 <= j < i && m.pipeline[j].step == x
    ensures StepsNamed(m, i + 1) <==>
              m.pipeline[i].step != "" && m.pipeline[i].step !in names && HasAgent(m.agents, m.pipeline[i].step)
  {
    var upTo := m.pipeline[..i + 1];
    assert forall j :: 0 <= j < i ==> upTo[j] == m.pipeline[j] == m.pipeline[..i][j];
    assert upTo[i] == m.pipeline[i];
    if m.pipeline[i].step in names {
      var j :| 0 <= j < i && m.pipeline[j].step == m.pipeline[i].step;
      assert upTo[j].step == upTo[i].step;
    }
  }

  lemma NamedPrefix(m: RouterManifest, i: int)
    requires 0 <= i <= |m.pipeline| && StepsNamed(m, |m.pipeline|)
    ensures StepsNamed(m, i)
  {
    assert m.pipeline[..|m.pipeline|] == m.pipeline;
  }

  method CheckSteps(m: RouterManifest, agents: set<string>) returns (fault: Option<ManifestError>, names: set<string>)
    requires forall x :: x in agents <==> HasAgent(m.agents, x)
    ensures fault.None? <==> StepsNamed(m, |m.pipeline|)
    ensures fault.Some? ==> exists i :: FirstStepFault(m, i, fault.value)
    ensures fault.None? ==> forall x :: x in names <==> HasStep(m.pipeline, x)
  {
    names, fault := {}, None;
    for i := 0 to |m.pipeline|
      invariant forall x :: x in names <==> exists j :: 0 <= j < i && m.pipeline[j].step == x
      invariant StepsNamed(m, i)
    {
      var s := m.pipeline[i].step;
      NameOne(m, i, names);
      if s == "" {
        fault := Some(StepEmpty);
      } else if s in names {
        fault := Some(DuplicateStep(s));
      } else if s !in agents {
        fault := Some(NoMatchingAgent(s));
      } else {
        fault := None;
      }
      if fault.Some? {
        assert FirstStepFault(m, i, fault.value);
        if StepsNamed(m, |m.pipeline|) { NamedPrefix(m, i + 1); }
        return;
      }
      names := names + {s};
    }
    fault := None;
  }

  ghost predicate DependencyFault(p: seq<PipelineStep>, i: int, e: ManifestError)
    requires 0 <= i < |p|
  {
    && p[i].dependsOn != ""
    && if p[i].dependsOn == p[i].step then e == DependsOnItself(p[i].step)
       else !HasStep(p, p[i].dependsOn) && e == UnknownStep(p[i].step, p[i].dependsOn)
  }

  /** The dependency of step `i` is the first bad one, and `e` is what it is reported as. */
  ghost predicate FirstDependencyFault(p: seq<PipelineStep>, i: int, e: ManifestError) {
    0 <= i < |p| && DependencyFault(p, i, e) && forall j :: 0 <= j < i ==> KnownDependency(p, p[j])
  }

  method CheckDependencies(p: seq<PipelineStep>, names: set<string>) returns (fault: Option<ManifestError>)
    requires forall x :: x in names <==> HasStep(p, x)
    ensures fault.None? <==> forall i :: 0 <= i < |p| ==> KnownDependency(p, p[i])
    ensures fault.Some? ==> exists i :: FirstDependencyFault(p, i, fault.value)
  {
    for i := 0 to |p|
      invariant forall j :: 0 <= j < i ==> KnownDependency(p, p[j])
    {
      if p[i].dependsOn == "" { continue; }
      if p[i].dependsOn == p[i].step {
        assert FirstDependencyFault(p, i, DependsOnItself(p[i].step)) && !KnownDependency(p, p[i]);
        return Some(DependsOnItself(p[i].step));
      }
      if p[i].dependsOn !in names {
        assert FirstDependencyFault(p, i, UnknownStep(p[i].step, p[i].dependsOn)) && !KnownDependency(p, p[i]);
        return Some(UnknownStep(p[i].step, p[i].dependsOn));
      }
    }
    return None;
  }

  ghost predicate KnownRoles(rbac: seq<seq<string>>, roleOk: string -> bool, g: int)
    requires 0 <= g < |rbac|
  {
    forall i :: 0 <= i < |rbac[g]| ==> roleOk(rbac[g][i])
  }

  /** Role `i` of list `g` is the first unknown one. */
  ghost predicate FirstBadRole(rbac: seq<seq<string>>, roleOk: string -> bool, g: int, i: int) {
    && 0 <= g < |rbac| && 0 <= i < |rbac[g]| && !roleOk(rbac[g][i])
    && (forall j :: 0 <= j < i ==> roleOk(rbac[g][j]))
    && (forall h :: 0 <= h < g ==> KnownRoles(rbac, roleOk, h))
  }

  method CheckRoles(rbac: seq<seq<string>>, roleOk: string -> bool) returns (fault: Option<ManifestError>)
    ensures fault.None? <==> forall g :: 0 <= g < |rbac| ==> KnownRoles(rbac, roleOk, g)
    ensures fault.Some? ==> exists g, i :: FirstBadRole(rbac, roleOk, g, i) && fault.value == BadRole(rbac[g][i])
  {
    for g := 0 to |rbac|
      invariant forall h :: 0 <= h < g ==> KnownRoles(rbac, roleOk, h)
    {
      for i := 0 to |rbac[g]|
        invariant forall j :: 0 <= j < i ==> roleOk(rbac[g][j])
      {
        if !roleOk(rbac[g][i]) {
          assert FirstBadRole(rbac, roleOk, g, i) && !KnownRoles(rbac, roleOk, g);
          return Some(BadRole(rbac[g][i]));
        }
      }
    }
    return None;
  }

  /** The namespace, if given, and the roles are in order. */
  ghost predicate ValidSettings(r: RouterSettings, namespaceOk: string -> bool, roleOk: string -> bool) {
    && (r.namespace == "" || namespaceOk(r.namespace))
    && (forall g :: 0 <= g < |r.rbac| ==> KnownRoles(r.rbac, roleOk, g))
  }

  /** The error of a manifest that is refused: the first fault of the first check that fails. */
  ghost predicate Reported(
    m: RouterManifest, r: RouterSettings, namespaceOk: string -> bool, roleOk: string -> bool, e: ManifestError)
  {
    if m.agents == [] then e == EmptyAgents
    else if m.pipeline == [] then e == EmptyPipeline
    else if r.namespace != "" && !namespaceOk(r.namespace) then e == BadNamespace
    else if !ValidSettings(r, namespaceOk, roleOk) then
      exists g, i :: FirstBadRole(r.rbac, roleOk, g, i) && e == BadRole(r.rbac[g][i])
    else Misstructured(m, e)
  }

  /** The first fault among the agents, else among the steps, else among the dependencies, else a cycle. */
  ghost predicate Misstructured(m: RouterManifest, e: ManifestError) {
    if exists i :: 0 <= i < |m.agents| && !ValidAgent(m.agents, i) then
      exists i :: FirstAgentFault(m.agents, i, e)
    else if !StepsNamed(m, |m.pipeline|) then
      exists i :: FirstStepFault(m, i, e)
    else if exists i :: 0 <= i < |m.pipeline| && !KnownDependency(m.pipeline, m.pipeline[i]) then
      exists i :: FirstDependencyFault(m.pipeline, i, e)
    else e == CycleDetected && HasCycle(PipelineDeps(m.pipeline))
  }

  /** Accepts exactly the valid manifests; otherwise reports the first fault of the first failing check. */
  method ValidateManifest(m: RouterManifest, r: RouterSettings, namespaceOk: string -> bool, roleOk: string -> bool)
    returns (fault: Option<ManifestError>)
    ensures fault.None? <==> ValidSettings(r, namespaceOk, roleOk) && ValidManifest(m)
    ensures fault.Some? ==> Reported(m, r, namespaceOk, roleOk, fault.value)
  {
    if |m.agents| == 0 { return Some(EmptyAgents); }
    if |m.pipeline| == 0 { return Some(EmptyPipeline); }
    if r.namespace != "" && !namespaceOk(r.namespace) { return Some(BadNamespace); }
    fault := CheckRoles(r.rbac, roleOk);
    if fault.Some? { return; }
    fault := CheckStructure(m);
  }

  /** The checks of agents, steps and dependencies. */
  method CheckStructure(m: RouterManifest) returns (fault: Option<ManifestError>)
    requires m.agents != [] && m.pipeline != []
    ensures fault.None? <==> ValidManifest(m)
    ensures fault.Some? ==> Misstructured(m, fault.value)
  {
    var agents, names;
    fault, agents := CheckAgents(m.agents);
    if fault.Some? { return; }
    fault, names := CheckSteps(m, agents);
    assert m.pipeline[..|m.pipeline|] == m.pipeline;
    if fault.Some? { return; }
    fault := CheckDependencies(m.pipeline, names);
    if fault.Some? { return; }
    var order := OrderedPipeline(m);
    if order.Err? { return Some(order.error); }
    return None;
  }
}
