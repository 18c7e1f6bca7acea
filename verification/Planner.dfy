/** `buildGraph`: checks a plan and sorts its nodes into dependency levels (Kahn's algorithm by level). */
module Planner {
  import opened Basics
  import opened Types
  import opened Graph

  datatype PlanError =
    | NoNodes
    | EmptyId
    | DuplicateId(id: string)
    | UnknownDependency(node: string, dep: string)
    | SelfDependency(node: string)
    | CycleFound

  datatype PlanGraph = PlanGraph(
    nodes: seq<PlanNode>, nodesById: map<string, PlanNode>, levels: seq<seq<string>>)

  function Id(n: PlanNode): string { n.invocation.id }

  function NodesById(nodes: seq<PlanNode>): map<string, PlanNode> {
    if nodes == [] then map[]
    else NodesById(nodes[..|nodes| - 1])[Id(nodes[|nodes| - 1]) := nodes[|nodes| - 1]]
  }

  ghost function DepsOf(byId: map<string, PlanNode>): Deps {
    map n | n in byId :: byId[n].dependsOn
  }

  /** The dependency graph of a node list. */
  ghost function GraphOf(nodes: seq<PlanNode>): Deps {
    DepsOf(NodesById(nodes))
  }

  ghost predicate CleanIds(nodes: seq<PlanNode>) {
    && (forall i :: 0 <= i < |nodes| ==> Id(nodes[i]) != "")
    && (forall i, j :: 0 <= i < j < |nodes| ==> Id(nodes[i]) != Id(nodes[j]))
  }

  ghost predicate SoundDep(nodes: seq<PlanNode>, i: int, j: int)
    requires 0 <= i < |nodes| && 0 <= j < |nodes[i].dependsOn|
  {
    nodes[i].dependsOn[j] in NodesById(nodes) && nodes[i].dependsOn[j] != Id(nodes[i])
  }

  ghost predicate SoundDeps(nodes: seq<PlanNode>, i: int)
    requires 0 <= i < |nodes|
  {
    forall j :: 0 <= j < |nodes[i].dependsOn| ==> SoundDep(nodes, i, j)
  }

  /** Everything `buildGraph` asks of a plan except acyclicity. Repeated dependencies are fine. */
  ghost predicate WellFormed(nodes: seq<PlanNode>) {
    nodes != [] && CleanIds(nodes) && forall i :: 0 <= i < |nodes| ==> SoundDeps(nodes, i)
  }

  /** `e` is what the first node with an empty or repeated ID, node `i`, is reported as. */
  ghost predicate IdFault(nodes: seq<PlanNode>, i: int, e: PlanError) {
    && 0 <= i < |nodes| && CleanIds(nodes[..i])
    && if Id(nodes[i]) == "" then e == EmptyId
       else e == DuplicateId(Id(nodes[i])) && exists j :: 0 <= j < i && Id(nodes[j]) == Id(nodes[i])
  }

  /** `e` is what the first unsound dependency of node `i`, its number `j`, is reported as. */
  ghost predicate FaultyDep(nodes: seq<PlanNode>, i: int, j: int, e: PlanError) {
    && 0 <= i < |nodes| && 0 <= j < |nodes[i].dependsOn|
    && (forall b :: 0 <= b < j ==> SoundDep(nodes, i, b))
    && var dep := nodes[i].dependsOn[j];
       if dep !in NodesById(nodes) then e == UnknownDependency(Id(nodes[i]), dep)
       else dep == Id(nodes[i]) && e == SelfDependency(dep)
  }

  /** `e` is what the first unsound dependency of the plan is reported as. */
  ghost predicate DepFault(nodes: seq<PlanNode>, i: int, j: int, e: PlanError) {
    && CleanIds(nodes) && FaultyDep(nodes, i, j, e)
    && forall a :: 0 <= a < i ==> SoundDeps(nodes, a)
  }

  lemma {:induction false} NodesByIdHas(nodes: seq<PlanNode>, x: string)
    ensures x in NodesById(nodes) <==> exists i :: 0 <= i < |nodes| && Id(nodes[i]) == x
  {
    if nodes != [] {
      var front, last := nodes[..|nodes| - 1], nodes[|nodes| - 1];
      NodesByIdHas(front, x);
      if x == Id(last) {
        assert Id(nodes[|nodes| - 1]) == x;
      } else if x in NodesById(front) {
        var i :| 0 <= i < |front| && Id(front[i]) == x;
        assert Id(nodes[i]) == x;
      }
    }
  }

  lemma {:induction false} NodesByIdAt(nodes: seq<PlanNode>, i: int)
    requires CleanIds(nodes) && 0 <= i < |nodes|
    ensures Id(nodes[i]) in NodesById(nodes) && NodesById(nodes)[Id(nodes[i])] == nodes[i]
  {
    if i < |nodes| - 1 { NodesByIdAt(nodes[..|nodes| - 1], i); }
  }

  lemma {:induction false} NodesByIdSize(nodes: seq<PlanNode>)
    requires CleanIds(nodes)
    ensures |NodesById(nodes)| == |nodes|
  {
    if nodes != [] {
      var front, last := nodes[..|nodes| - 1], nodes[|nodes| - 1];
      NodesByIdSize(front);
      NodesByIdHas(front, Id(last));
      assert NodesById(nodes).Keys == NodesById(front).Keys + {Id(last)};
    }
  }

  lemma NodesByIdOf(nodes: seq<PlanNode>)
    requires CleanIds(nodes)
    ensures forall i :: 0 <= i < |nodes| ==>
              Id(nodes[i]) in NodesById(nodes) && NodesById(nodes)[Id(nodes[i])] == nodes[i]
    ensures forall x :: x in NodesById(nodes) ==> exists i :: 0 <= i < |nodes| && Id(nodes[i]) == x
  {
    forall i | 0 <= i < |nodes|
      ensures Id(nodes[i]) in NodesById(nodes) && NodesById(nodes)[Id(nodes[i])] == nodes[i]
    {
      NodesByIdAt(nodes, i);
    }
    forall x | x in NodesById(nodes) ensures exists i :: 0 <= i < |nodes| && Id(nodes[i]) == x {
      NodesByIdHas(nodes, x);
    }
  }

  lemma WellFormedClosed(nodes: seq<PlanNode>)
    requires WellFormed(nodes)
    ensures DepsClosed(GraphOf(nodes))
  {
    NodesByIdOf(nodes);
    var g := GraphOf(nodes);
    forall n, d | n in g && d in g[n] ensures d in g {
      var i :| 0 <= i < |nodes| && Id(nodes[i]) == n;
      var j :| 0 <= j < |nodes[i].dependsOn| && nodes[i].dependsOn[j] == d;
      assert SoundDeps(nodes, i) && SoundDep(nodes, i, j);
    }
  }

  // ---------------------------------------------------------------------
  // In-degrees
  // ---------------------------------------------------------------------

  /** How many entries of a dependency list, repeats included, are not done. */
  ghost function Left(deps: seq<string>, done: set<string>): nat {
    if deps == [] then 0
    else Left(deps[..|deps| - 1], done) + if deps[|deps| - 1] in done then 0 else 1
  }

  lemma {:induction false} LeftZero(deps: seq<string>, done: set<string>)
    ensures Left(deps, done) == 0 <==> forall d :: d in deps ==> d in done
  {
    if deps != [] {
      LeftZero(deps[..|deps| - 1], done);
      assert deps == deps[..|deps| - 1] + [deps[|deps| - 1]];
      assert deps[|deps| - 1] in deps;
    }
  }

  lemma {:induction false} LeftNone(deps: seq<string>)
    ensures Left(deps, {}) == |deps|
  {
    if deps != [] { LeftNone(deps[..|deps| - 1]); }
  }

  /** Finishing one more node takes away exactly its occurrences. */
  lemma {:induction false} LeftDone(deps: seq<string>, done: set<string>, x: string)
    requires x !in done
    ensures Left(deps, done + {x}) == Left(deps, done) - multiset(deps)[x]
  {
    if deps != [] {
      LeftDone(deps[..|deps| - 1], done, x);
      assert deps == deps[..|deps| - 1] + [deps[|deps| - 1]];
    }
  }

  /** `children` lists `n` under `d` as often as `n` lists `d`. */
  ghost predicate Mirrors(g: Deps, children: map<string, seq<string>>) {
    && (forall d, n :: n in Kids(children, d) ==> n in g)
    && (forall d, n :: n in g ==> multiset(Kids(children, d))[n] == multiset(g[n])[d])
  }

  ghost predicate Counts(g: Deps, inDegree: map<string, int>, done: set<string>) {
    forall n :: n in g ==> n in inDegree && inDegree[n] == Left(g[n], done)
  }

  // ---------------------------------------------------------------------
  // The algorithm
  // ---------------------------------------------------------------------

  lemma IndexOne(nodes: seq<PlanNode>, i: int)
    requires 0 <= i < |nodes| && CleanIds(nodes[..i])
    ensures NodesById(nodes[..i + 1]) == NodesById(nodes[..i])[Id(nodes[i]) := nodes[i]]
    ensures CleanIds(nodes[..i + 1]) <==> Id(nodes[i]) != "" && Id(nodes[i]) !in NodesById(nodes[..i])
    ensures Id(nodes[i]) in NodesById(nodes[..i]) <==> exists j :: 0 <= j < i && Id(nodes[j]) == Id(nodes[i])
  {
    var front, upTo := nodes[..i], nodes[..i + 1];
    assert upTo[..i] == front;
    NodesByIdHas(front, Id(nodes[i]));
    assert forall j :: 0 <= j < i ==> front[j] == nodes[j] == upTo[j];
    assert upTo[i] == nodes[i];
    if Id(nodes[i]) in NodesById(front) {
      var j :| 0 <= j < i && Id(front[j]) == Id(nodes[i]);
      assert Id(upTo[j]) == Id(upTo[i]);
    }
  }

  method IndexNodes(nodes: seq<PlanNode>)
    returns (fault: Option<PlanError>, byId: map<string, PlanNode>, inDegree: map<string, int>)
    ensures fault.Some? ==> exists i :: IdFault(nodes, i, fault.value)
    ensures fault.None? <==> CleanIds(nodes)
    ensures fault.None? ==> byId == NodesById(nodes) && Counts(DepsOf(byId), inDegree, {})
  {
    byId, inDegree, fault := map[], map[], None;
    for i := 0 to |nodes|
      invariant CleanIds(nodes[..i])
      invariant byId == NodesById(nodes[..i])
      invariant forall n :: n in byId ==> n in inDegree && inDegree[n] == |byId[n].dependsOn|
    {
      var n := nodes[i];
      IndexOne(nodes, i);
      if Id(n) == "" {
        assert IdFault(nodes, i, EmptyId);
        return Some(EmptyId), byId, inDegree;
      }
      if Id(n) in byId {
        assert IdFault(nodes, i, DuplicateId(Id(n)));
        return Some(DuplicateId(Id(n))), byId, inDegree;
      }
      byId := byId[Id(n) := n];
      inDegree := inDegree[Id(n) := |n.dependsOn|];
    }
    assert nodes[..|nodes|] == nodes;
    forall n | n in byId ensures inDegree[n] == Left(byId[n].dependsOn, {}) {
      LeftNone(byId[n].dependsOn);
    }
  }

  /** `children[d]` after the dependencies of `nodes[..i]` and the first `j` of node `i` were entered. */
  ghost predicate Linked(nodes: seq<PlanNode>, i: int, j: int, children: map<string, seq<string>>)
    requires 0 <= i <= |nodes|
    requires i < |nodes| ==> 0 <= j <= |nodes[i].dependsOn|
  {
    forall d, a :: 0 <= a < |nodes| ==>
      multiset(Kids(children, d))[Id(nodes[a])] ==
        if a < i then multiset(nodes[a].dependsOn)[d]
        else if a == i then multiset(nodes[a].dependsOn[..j])[d]
        else 0
  }

  lemma LinkOne(nodes: seq<PlanNode>, i: int, j: int, children: map<string, seq<string>>)
    requires CleanIds(nodes) && 0 <= i < |nodes| && 0 <= j < |nodes[i].dependsOn|
    requires Linked(nodes, i, j, children)
    ensures var dep := nodes[i].dependsOn[j];
            Linked(nodes, i, j + 1, children[dep := Kids(children, dep) + [Id(nodes[i])]])
  {
    var dep := nodes[i].dependsOn[j];
    var more := children[dep := Kids(children, dep) + [Id(nodes[i])]];
    assert nodes[i].dependsOn[..j + 1] == nodes[i].dependsOn[..j] + [dep];
    forall d, a | 0 <= a < |nodes|
      ensures multiset(Kids(more, d))[Id(nodes[a])] ==
        if a < i then multiset(nodes[a].dependsOn)[d]
        else if a == i then multiset(nodes[a].dependsOn[..j + 1])[d]
        else 0
    {
      assert a != i ==> Id(nodes[a]) != Id(nodes[i]);
      assert multiset(Kids(children, d))[Id(nodes[a])] ==
        if a < i then multiset(nodes[a].dependsOn)[d]
        else if a == i then multiset(nodes[a].dependsOn[..j])[d]
        else 0;
      assert multiset(Kids(more, d)) ==
        if d == dep then multiset(Kids(children, d)) + multiset{Id(nodes[i])} else multiset(Kids(children, d));
    }
  }

  ghost predicate KnownKids(byId: map<string, PlanNode>, children: map<string, seq<string>>) {
    forall d, n :: n in Kids(children, d) ==> n in byId
  }

  lemma KnownKidsAdd(byId: map<string, PlanNode>, children: map<string, seq<string>>, dep: string, id: string)
    requires KnownKids(byId, children) && id in byId
    ensures KnownKids(byId, children[dep := Kids(children, dep) + [id]])
  {
    var more := children[dep := Kids(children, dep) + [id]];
    forall d, n | n in Kids(more, d) ensures n in byId {
      assert d != dep ==> n in Kids(children, d);
      assert d == dep ==> n in Kids(children, dep) || n == id;
    }
  }

  method LinkNode(nodes: seq<PlanNode>, byId: map<string, PlanNode>, i: nat, before: map<string, seq<string>>)
    returns (fault: Option<PlanError>, children: map<string, seq<string>>)
    requires CleanIds(nodes) && byId == NodesById(nodes) && i < |nodes| && Id(nodes[i]) in byId
    requires Linked(nodes, i, 0, before) && KnownKids(byId, before)
    ensures fault.Some? ==> exists j :: FaultyDep(nodes, i, j, fault.value)
    ensures fault.None? ==> SoundDeps(nodes, i) && Linked(nodes, i + 1, 0, children) && KnownKids(byId, children)
  {
    var n := nodes[i];
    children, fault := before, None;
    for j := 0 to |n.dependsOn|
      invariant forall b :: 0 <= b < j ==> SoundDep(nodes, i, b)
      invariant Linked(nodes, i, j, children)
      invariant KnownKids(byId, children)
    {
      var dep := n.dependsOn[j];
      if dep !in byId {
        assert FaultyDep(nodes, i, j, UnknownDependency(Id(n), dep));
        return Some(UnknownDependency(Id(n), dep)), children;
      }
      if dep == Id(n) {
        assert FaultyDep(nodes, i, j, SelfDependency(Id(n)));
        return Some(SelfDependency(Id(n))), children;
      }
      LinkOne(nodes, i, j, children);
      KnownKidsAdd(byId, children, dep, Id(n));
      children := children[dep := Kids(children, dep) + [Id(n)]];
    }
    LinkedAll(nodes, i, children);
  }

  lemma LinkedAll(nodes: seq<PlanNode>, i: int, children: map<string, seq<string>>)
    requires 0 <= i < |nodes| && Linked(nodes, i, |nodes[i].dependsOn|, children)
    ensures Linked(nodes, i + 1, 0, children)
  {
    assert nodes[i].dependsOn[..|nodes[i].dependsOn|] == nodes[i].dependsOn;
    assert i + 1 < |nodes| ==> nodes[i + 1].dependsOn[..0] == [];
  }

  method LinkChildren(nodes: seq<PlanNode>, byId: map<string, PlanNode>)
    returns (fault: Option<PlanError>, children: map<string, seq<string>>)
    requires CleanIds(nodes) && byId == NodesById(nodes)
    ensures fault.Some? ==> exists i, j :: DepFault(nodes, i, j, fault.value)
    ensures fault.None? <==> forall i :: 0 <= i < |nodes| ==> SoundDeps(nodes, i)
    ensures fault.None? ==> Mirrors(DepsOf(byId), children)
  {
    children, fault := map[], None;
    NodesByIdOf(nodes);
    assert nodes != [] ==> nodes[0].dependsOn[..0] == [];
    for i := 0 to |nodes|
      invariant forall a :: 0 <= a < i ==> SoundDeps(nodes, a)
      invariant Linked(nodes, i, 0, children) && KnownKids(byId, children)
      invariant fault == None
    {
      fault, children := LinkNode(nodes, byId, i, children);
      if fault.Some? {
        ghost var j :| FaultyDep(nodes, i, j, fault.value);
        assert DepFault(nodes, i, j, fault.value);
        assert !SoundDep(nodes, i, j);
        assert !SoundDeps(nodes, i);
        return;
      }
    }
    LinkedMirrors(nodes, children);
  }

  lemma LinkedMirrors(nodes: seq<PlanNode>, children: map<string, seq<string>>)
    requires CleanIds(nodes) && Linked(nodes, |nodes|, 0, children)
    requires KnownKids(NodesById(nodes), children)
    ensures Mirrors(GraphOf(nodes), children)
  {
    var g := GraphOf(nodes);
    NodesByIdOf(nodes);
    forall d, n | n in g ensures multiset(Kids(children, d))[n] == multiset(g[n])[d] {
      var a :| 0 <= a < |nodes| && Id(nodes[a]) == n;
    }
  }

  method Roots(nodes: seq<PlanNode>, byId: map<string, PlanNode>, inDegree: map<string, int>)
    returns (queue: seq<string>)
    requires CleanIds(nodes) && byId == NodesById(nodes) && Counts(DepsOf(byId), inDegree, {})
    ensures StrictlyOrdered(queue, Less)
    ensures forall x :: x in queue <==> x in Layer(DepsOf(byId), {})
  {
    ghost var g := DepsOf(byId);
    NodesByIdOf(nodes);
    queue := [];
    for i := 0 to |nodes|
      invariant RootsUpTo(nodes, inDegree, i, queue)
    {
      var id := Id(nodes[i]);
      assert id in g;
      NextRoot(nodes, inDegree, i, queue);
      if inDegree[id] == 0 { queue := queue + [id]; }
    }
    RootsAreLayer(nodes, inDegree, queue);
    queue := SortStrings(queue);
  }

  /** `queue` lists the nodes among the first `i` that have no dependency. */
  ghost predicate RootsUpTo(nodes: seq<PlanNode>, inDegree: map<string, int>, i: int, queue: seq<string>)
    requires 0 <= i <= |nodes|
  {
    && Distinct(queue)
    && forall x :: x in queue <==> exists a :: 0 <= a < i && Id(nodes[a]) == x && x in inDegree && inDegree[x] == 0
  }

  lemma NextRoot(nodes: seq<PlanNode>, inDegree: map<string, int>, i: int, queue: seq<string>)
    requires CleanIds(nodes) && 0 <= i < |nodes| && Id(nodes[i]) in inDegree && RootsUpTo(nodes, inDegree, i, queue)
    ensures RootsUpTo(nodes, inDegree, i + 1, if inDegree[Id(nodes[i])] == 0 then queue + [Id(nodes[i])] else queue)
  {
    assert forall a :: 0 <= a < i ==> Id(nodes[a]) != Id(nodes[i]);
    assert Id(nodes[i]) !in queue;
  }

  lemma RootsAreLayer(nodes: seq<PlanNode>, inDegree: map<string, int>, queue: seq<string>)
    requires CleanIds(nodes) && Counts(GraphOf(nodes), inDegree, {}) && RootsUpTo(nodes, inDegree, |nodes|, queue)
    ensures forall x :: x in queue <==> x in Layer(GraphOf(nodes), {})
  {
    var g := GraphOf(nodes);
    NodesByIdOf(nodes);
    forall x ensures x in queue <==> x in Layer(g, {}) {
      if x in g {
        LeftZero(g[x], {});
        var a :| 0 <= a < |nodes| && Id(nodes[a]) == x;
      }
    }
  }

  /** The nodes whose last unfinished dependency went away between `before` and the counts in `inDegree`. */
  ghost predicate Released(g: Deps, before: set<string>, inDegree: map<string, int>, next: seq<string>) {
    && Distinct(next)
    && (forall n :: n in g ==> n in inDegree)
    && (forall x :: x in next <==> x in g && Left(g[x], before) > 0 && inDegree[x] == 0)
  }

  /** The counts after the first `i` children of `curr` were decremented. */
  ghost predicate PartlyCounted(g: Deps, inDegree: map<string, int>, done: set<string>, kids: seq<string>, i: int)
    requires 0 <= i <= |kids|
  {
    forall n :: n in g ==> n in inDegree && inDegree[n] == Left(g[n], done) - multiset(kids[..i])[n]
  }

  lemma PrefixCount(s: seq<string>, i: int)
    requires 0 <= i < |s|
    ensures forall x :: multiset(s[..i + 1])[x] == multiset(s[..i])[x] + if x == s[i] then 1 else 0
    ensures forall x :: multiset(s[..i + 1])[x] <= multiset(s)[x]
  {
    assert s[..i + 1] == s[..i] + [s[i]];
    assert s == s[..i + 1] + s[i + 1..];
  }

  lemma {:induction false} LeftAntitone(deps: seq<string>, a: set<string>, b: set<string>)
    requires a <= b
    ensures Left(deps, b) <= Left(deps, a)
  {
    if deps != [] { LeftAntitone(deps[..|deps| - 1], a, b); }
  }

  lemma ReleaseOne(
    g: Deps, children: map<string, seq<string>>, inDegree: map<string, int>, before: set<string>, done: set<string>,
    curr: string, kids: seq<string>, i: int, next: seq<string>)
    requires Mirrors(g, children) && kids == Kids(children, curr)
    requires curr !in done && before <= done && 0 <= i < |kids|
    requires PartlyCounted(g, inDegree, done, kids, i) && Released(g, before, inDegree, next)
    ensures kids[i] in inDegree
    ensures var after := inDegree[kids[i] := inDegree[kids[i]] - 1];
            && PartlyCounted(g, after, done, kids, i + 1)
            && Released(g, before, after, if after[kids[i]] == 0 then next + [kids[i]] else next)
  {
    var child := kids[i];
    assert child in g;
    PrefixCount(kids, i);
    LeftDone(g[child], done, curr);
    LeftAntitone(g[child], before, done);
    assert inDegree[child] == Left(g[child], done) - multiset(kids[..i])[child] > 0;
    assert child !in next;
  }

  /** Decrements the in-degree of one child. */
  method ReleaseChild(
    ghost g: Deps, ghost children: map<string, seq<string>>, inDegree: map<string, int>,
    ghost before: set<string>, ghost done: set<string>, ghost curr: string, kids: seq<string>, i: nat,
        next: seq<string>)
    returns (inDegree': map<string, int>, next': seq<string>)
    requires Mirrors(g, children) && kids == Kids(children, curr)
    requires curr !in done && before <= done && i < |kids|
    requires PartlyCounted(g, inDegree, done, kids, i) && Released(g, before, inDegree, next)
    ensures PartlyCounted(g, inDegree', done, kids, i + 1) && Released(g, before, inDegree', next')
  {
    ReleaseOne(g, children, inDegree, before, done, curr, kids, i, next);
    var child := kids[i];
    inDegree', next' := inDegree[child := inDegree[child] - 1], next;
    if inDegree'[child] == 0 { next' := next + [child]; }
  }

  /** Decrements the children of one finished node and collects those that reach zero. */
  method ReleaseChildren(
    ghost g: Deps, children: map<string, seq<string>>, curr: string, inDegree: map<string, int>,
    ghost before: set<string>, ghost done: set<string>, next: seq<string>)
    returns (inDegree': map<string, int>, next': seq<string>)
    requires Mirrors(g, children) && curr !in done && before <= done
    requires Counts(g, inDegree, done) && Released(g, before, inDegree, next)
    ensures Counts(g, inDegree', done + {curr}) && Released(g, before, inDegree', next')
  {
    inDegree', next' := inDegree, next;
    var kids := Kids(children, curr);
    NoneCounted(g, inDegree, done, kids);
    for i := 0 to |kids|
      invariant PartlyCounted(g, inDegree', done, kids, i)
      invariant Released(g, before, inDegree', next')
    {
      inDegree', next' := ReleaseChild(g, children, inDegree', before, done, curr, kids, i, next');
    }
    AllCounted(g, children, inDegree', done, curr, kids);
  }

  lemma NoneCounted(g: Deps, inDegree: map<string, int>, done: set<string>, kids: seq<string>)
    requires Counts(g, inDegree, done)
    ensures PartlyCounted(g, inDegree, done, kids, 0)
  {
    assert kids[..0] == [];
  }

  lemma AllCounted(
    g: Deps, children: map<string, seq<string>>, inDegree: map<string, int>, done: set<string>,
    curr: string, kids: seq<string>)
    requires Mirrors(g, children) && kids == Kids(children, curr)
    requires curr !in done && PartlyCounted(g, inDegree, done, kids, |kids|)
    ensures Counts(g, inDegree, done + {curr})
  {
    assert kids[..|kids|] == kids;
    forall n | n in g ensures inDegree[n] == Left(g[n], done + {curr}) {
      LeftDone(g[n], done, curr);
    }
  }

  /** Nothing in `done` waits for something outside it. */
  ghost predicate Settled(g: Deps, done: set<string>) {
    done <= g.Keys && forall n, d :: n in done && n in g && d in g[n] ==> d in done
  }

  /** Once a layer is finished, exactly the released nodes form the next layer. */
  lemma ReleasedIsLayer(g: Deps, before: set<string>, level: seq<string>, inDegree: map<string, int>, next: seq<string>)
    requires Settled(g, before)
    requires forall x :: x in level <==> x in Layer(g, before)
    requires Counts(g, inDegree, before + Elems(level)) && Released(g, before, inDegree, next)
    ensures forall x :: x in next <==> x in Layer(g, before + Elems(level))
    ensures Settled(g, before + Elems(level))
  {
    var after := before + Elems(level);
    forall x ensures x in next <==> x in Layer(g, after) {
      if x in g {
        LeftZero(g[x], before);
        LeftZero(g[x], after);
        assert x in level <==> x in Layer(g, before);
      }
    }
  }

  lemma LevelPrefix(g: Deps, before: set<string>, level: seq<string>, p: int)
    requires Distinct(level) && 0 <= p < |level|
    requires forall x :: x in level ==> x in Layer(g, before)
    ensures level[p] !in before + Elems(level[..p])
    ensures before + Elems(level[..p + 1]) == before + Elems(level[..p]) + {level[p]}
  {
    assert level[p] in level;
    assert level[..p + 1] == level[..p] + [level[p]];
    ElemsSnoc(level[..p], level[p]);
  }

  lemma InitiallyNoneReleased(g: Deps, before: set<string>, inDegree: map<string, int>)
    requires Counts(g, inDegree, before)
    ensures Released(g, before, inDegree, [])
  {}

  /** Sorting a list of distinct strings. */
  method SortStrings(s: seq<string>) returns (r: seq<string>)
    requires Distinct(s)
    ensures StrictlyOrdered(r, Less) && forall x :: x in r <==> x in s
  {
    LessIsStrictOrder();
    r := SortSlice(s, Less);
    PermutationOfDistinct(s, r);
    OrderedDistinctStrings(r);
  }

  /** Decrements the children of every node of a level. */
  method ReleaseLevel(
    ghost g: Deps, children: map<string, seq<string>>, level: seq<string>, inDegree: map<string, int>,
    ghost before: set<string>)
    returns (inDegree': map<string, int>, next: seq<string>)
    requires Mirrors(g, children) && Counts(g, inDegree, before)
    requires Distinct(level) && forall x :: x in level ==> x in Layer(g, before)
    ensures Counts(g, inDegree', before + Elems(level)) && Released(g, before, inDegree', next)
  {
    inDegree', next := inDegree, [];
    assert before + Elems(level[..0]) == before;
    InitiallyNoneReleased(g, before, inDegree);
    for p := 0 to |level|
      invariant Counts(g, inDegree', before + Elems(level[..p]))
      invariant Released(g, before, inDegree', next)
    {
      LevelPrefix(g, before, level, p);
      inDegree', next := ReleaseChildren(g, children, level[p], inDegree', before, before + Elems(level[..p]), next);
    }
    assert level[..|level|] == level;
  }

  /** One turn of the level loop. */
  method NextLevel(
    ghost g: Deps, children: map<string, seq<string>>, level: seq<string>, inDegree: map<string, int>,
    ghost before: set<string>)
    returns (inDegree': map<string, int>, next: seq<string>)
    requires Mirrors(g, children) && Settled(g, before) && Counts(g, inDegree, before)
    requires StrictlyOrdered(level, Less)
    requires forall x :: x in level <==> x in Layer(g, before)
    ensures Counts(g, inDegree', before + Elems(level)) && Settled(g, before + Elems(level))
    ensures StrictlyOrdered(next, Less)
    ensures forall x :: x in next <==> x in Layer(g, before + Elems(level))
  {
    StrictlyOrderedDistinct(level);
    inDegree', next := ReleaseLevel(g, children, level, inDegree, before);
    ReleasedIsLayer(g, before, level, inDegree', next);
    next := SortStrings(next);
  }

  /** The level loop: every node that can be placed is placed, level by level. */
  method LevelLoop(
    ghost g: Deps, children: map<string, seq<string>>, inDegree: map<string, int>, roots: seq<string>)
    returns (visited: nat, levels: seq<seq<string>>)
    requires Mirrors(g, children) && Counts(g, inDegree, {})
    requires StrictlyOrdered(roots, Less)
    requires forall x :: x in roots <==> x in Layer(g, {})
    ensures Levelled(g, levels) && Members(levels) <= g.Keys
    ensures Layer(g, Members(levels)) == {}
    ensures visited == |Members(levels)|
  {
    var queue, degrees := roots, inDegree;
    visited, levels := 0, [];
    while queue != []
      invariant Levelled(g, levels) && Settled(g, Members(levels))
      invariant StrictlyOrdered(queue, Less)
      invariant forall x :: x in queue <==> x in Layer(g, Members(levels))
      invariant Counts(g, degrees, Members(levels))
      invariant visited == |Members(levels)|
      decreases |g.Keys - Members(levels)|
    {
      ghost var before := Members(levels);
      var level := queue;
      AddLevel(g, levels, level);
      levels := levels + [level];
      visited := visited + |level|;
      degrees, queue := NextLevel(g, children, level, degrees, before);
    }
    assert forall x :: x in Layer(g, Members(levels)) ==> x in queue;
  }

  lemma AddLevel(g: Deps, levels: seq<seq<string>>, level: seq<string>)
    requires Levelled(g, levels) && Members(levels) <= g.Keys
    requires level != [] && StrictlyOrdered(level, Less)
    requires forall x :: x in level <==> x in Layer(g, Members(levels))
    ensures Levelled(g, levels + [level])
    ensures Members(levels + [level]) == Members(levels) + Elems(level)
    ensures |Members(levels + [level])| == |Members(levels)| + |level|
    ensures |g.Keys - Members(levels + [level])| < |g.Keys - Members(levels)|
  {
    LevelledSnoc(g, levels, level);
    MembersSnoc(levels, level);
    StrictlyOrderedDistinct(level);
    DistinctCardinality(level);
    assert forall x :: x in Elems(level) ==> x in level;
    assert Members(levels) !! Elems(level);
    assert level[0] in level;
    StrictSubsetSize(g.Keys - Members(levels + [level]), g.Keys - Members(levels), level[0]);
  }

  lemma StrictSubsetSize<T>(a: set<T>, b: set<T>, x: T)
    requires a <= b && x in b && x !in a
    ensures |a| < |b|
  {
    SubsetSize(a, b - {x});
  }

  /** Every node is in exactly one level, and that level is its depth. */
  ghost predicate CompleteLevels(nodes: seq<PlanNode>, levels: seq<seq<string>>) {
    Levelled(GraphOf(nodes), levels) && Members(levels) == GraphOf(nodes).Keys
  }

  /** A levelled plan in which no two nodes share an agent, as the plans of manifests are. */
  ghost predicate OwnAgents(graph: PlanGraph) {
    && WellFormed(graph.nodes) && graph.nodesById == NodesById(graph.nodes)
    && CompleteLevels(graph.nodes, graph.levels)
    && forall i, j :: 0 <= i < j < |graph.nodes| ==>
         graph.nodes[i].invocation.agentId != graph.nodes[j].invocation.agentId
  }

  /** Checks a plan and levels it. A cycle is reported exactly when there is one. */
  method BuildGraph(plan: ExecutionPlan) returns (r: Result<PlanGraph, PlanError>)
    ensures r == Err(NoNodes) <==> plan.nodes == []
    ensures r.Err? && (r.error.EmptyId? || r.error.DuplicateId?) ==> exists i :: IdFault(plan.nodes, i, r.error)
    ensures r.Err? && (r.error.UnknownDependency? || r.error.SelfDependency?) ==>
              exists i, j :: DepFault(plan.nodes, i, j, r.error)
    ensures r == Err(CycleFound) <==> WellFormed(plan.nodes) && HasCycle(GraphOf(plan.nodes))
    ensures r.Ok? <==> WellFormed(plan.nodes) && !HasCycle(GraphOf(plan.nodes))
    ensures r.Ok? ==>
              && r.value.nodes == plan.nodes
              && r.value.nodesById == NodesById(plan.nodes)
              && CompleteLevels(plan.nodes, r.value.levels)
  {
    if |plan.nodes| == 0 { return Err(NoNodes); }
    var fault, byId, inDegree := IndexNodes(plan.nodes);
    if fault.Some? {
      return Err(fault.value);
    }
    var depFault, children := LinkChildren(plan.nodes, byId);
    if depFault.Some? {
      return Err(depFault.value);
    }
    var roots := Roots(plan.nodes, byId, inDegree);
    var visited, levels := LevelLoop(GraphOf(plan.nodes), children, inDegree, roots);
    AllVisited(plan.nodes, levels);
    if visited != |plan.nodes| {
      return Err(CycleFound);
    }
    return Ok(PlanGraph(plan.nodes, byId, levels));
  }

  /** When no more nodes can be placed, the placed ones are all there are exactly when there is no cycle. */
  lemma AllVisited(nodes: seq<PlanNode>, levels: seq<seq<string>>)
    requires WellFormed(nodes) && Levelled(GraphOf(nodes), levels) && Members(levels) <= GraphOf(nodes).Keys
    requires Layer(GraphOf(nodes), Members(levels)) == {}
    ensures |Members(levels)| == |nodes| <==> !HasCycle(GraphOf(nodes))
    ensures |Members(levels)| == |nodes| <==> CompleteLevels(nodes, levels)
  {
    var g := GraphOf(nodes);
    WellFormedClosed(nodes);
    NodesByIdSize(nodes);
    assert g.Keys == NodesById(nodes).Keys;
    assert |g.Keys| == |nodes|;
    if |Members(levels)| == |nodes| {
      SameSizeSubset(Members(levels), g.Keys);
      PlacedMeansAcyclic(g, levels);
    } else {
      assert Members(levels) != g.Keys;
      StuckMeansCycle(g, Members(levels));
    }
  }

  // ---------------------------------------------------------------------
  // The order in which a plan lists its nodes does not matter
  // ---------------------------------------------------------------------

  lemma PermutedCleanIds(a: seq<PlanNode>, b: seq<PlanNode>)
    requires multiset(a) == multiset(b) && CleanIds(a)
    ensures CleanIds(b)
  {
    assert Distinct(a);
    PermutationOfDistinct(a, b);
    forall i | 0 <= i < |b| ensures Id(b[i]) != "" {
      assert b[i] in a;
    }
    forall i, j | 0 <= i < j < |b| ensures Id(b[i]) != Id(b[j]) {
      assert b[i] in a && b[j] in a && b[i] != b[j];
      var x :| 0 <= x < |a| && a[x] == b[i];
      var y :| 0 <= y < |a| && a[y] == b[j];
      assert if x < y then Id(a[x]) != Id(a[y]) else Id(a[y]) != Id(a[x]);
    }
  }

  lemma PermutedIndex(a: seq<PlanNode>, b: seq<PlanNode>)
    requires multiset(a) == multiset(b) && CleanIds(a) && CleanIds(b)
    ensures NodesById(a) == NodesById(b)
  {
    forall x | x in NodesById(a) ensures x in NodesById(b) && NodesById(b)[x] == NodesById(a)[x] {
      NodesByIdIncludes(a, b, x);
    }
    forall x | x in NodesById(b) ensures x in NodesById(a) {
      NodesByIdIncludes(b, a, x);
    }
  }

  lemma NodesByIdIncludes(a: seq<PlanNode>, b: seq<PlanNode>, x: string)
    requires multiset(a) == multiset(b) && CleanIds(a) && CleanIds(b) && x in NodesById(a)
    ensures x in NodesById(b) && NodesById(b)[x] == NodesById(a)[x]
  {
    NodesByIdHas(a, x);
    var i :| 0 <= i < |a| && Id(a[i]) == x;
    NodesByIdAt(a, i);
    assert a[i] in multiset(b);
    var j :| 0 <= j < |b| && b[j] == a[i];
    NodesByIdAt(b, j);
  }

  lemma PermutedWellFormed(a: seq<PlanNode>, b: seq<PlanNode>)
    requires multiset(a) == multiset(b) && WellFormed(a)
    ensures WellFormed(b) && GraphOf(a) == GraphOf(b)
  {
    PermutedCleanIds(a, b);
    PermutedIndex(a, b);
    assert a[0] in multiset(b);
    forall i | 0 <= i < |b| ensures SoundDeps(b, i) {
      assert b[i] in multiset(a);
      var k :| 0 <= k < |a| && a[k] == b[i];
      assert SoundDeps(a, k);
      forall j | 0 <= j < |b[i].dependsOn| ensures SoundDep(b, i, j) {
        assert SoundDep(a, k, j);
      }
    }
  }

  /** Reordering the nodes of a plan changes neither whether it is accepted nor its levels. */
  lemma NodeOrderIrrelevant(a: seq<PlanNode>, b: seq<PlanNode>)
    requires multiset(a) == multiset(b)
    ensures WellFormed(a) && !HasCycle(GraphOf(a)) <==> WellFormed(b) && !HasCycle(GraphOf(b))
    ensures WellFormed(a) ==>
              forall la, lb :: CompleteLevels(a, la) && CompleteLevels(b, lb) ==> la == lb
  {
    if WellFormed(b) { PermutedWellFormed(b, a); }
    if WellFormed(a) {
      PermutedWellFormed(a, b);
      forall la, lb | CompleteLevels(a, la) && CompleteLevels(b, lb)
        ensures la == lb
      {
        CompleteLevellingUnique(GraphOf(a), la, lb);
      }
    }
  }
}
