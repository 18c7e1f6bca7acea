/** Dependency graphs: layers, paths, cycles and depth. A graph maps an ID to the IDs it depends on. */
module Graph {
  import opened Basics

  type Deps = map<string, seq<string>>

  ghost predicate DepsClosed(g: Deps) {
    forall n, d :: n in g && d in g[n] ==> d in g
  }

  /** The nodes that become ready once `done` is finished. */
  ghost function Layer(g: Deps, done: set<string>): set<string> {
    set n | n in g && n !in done && forall d :: d in g[n] ==> d in done
  }

  ghost function Members(levels: seq<seq<string>>): set<string> {
    if levels == [] then {}
    else Members(levels[..|levels| - 1]) + Elems(levels[|levels| - 1])
  }

  lemma {:induction false} MembersOf(levels: seq<seq<string>>, x: string)
    ensures x in Members(levels) <==> exists k :: 0 <= k < |levels| && x in levels[k]
  {
    if levels != [] {
      MembersOf(levels[..|levels| - 1], x);
      assert forall k :: 0 <= k < |levels| - 1 ==> levels[..|levels| - 1][k] == levels[k];
    }
  }

  lemma MembersSnoc(levels: seq<seq<string>>, level: seq<string>)
    ensures Members(levels + [level]) == Members(levels) + Elems(level)
  {
    assert (levels + [level])[..|levels|] == levels;
  }

  /** Level `k` lists, in strictly increasing order, exactly the nodes whose dependencies
      all lie in earlier levels and that no earlier level holds. */
  ghost predicate LevelAt(g: Deps, levels: seq<seq<string>>, k: int)
    requires 0 <= k < |levels|
  {
    && levels[k] != []
    && StrictlyOrdered(levels[k], Less)
    && forall x :: x in levels[k] <==> x in Layer(g, Members(levels[..k]))
  }

  ghost predicate Levelled(g: Deps, levels: seq<seq<string>>) {
    forall k {:trigger LevelAt(g, levels, k)} :: 0 <= k < |levels| ==> LevelAt(g, levels, k)
  }

  lemma LevelledSnoc(g: Deps, levels: seq<seq<string>>, level: seq<string>)
    requires Levelled(g, levels)
    requires level != [] && StrictlyOrdered(level, Less)
    requires forall x :: x in level <==> x in Layer(g, Members(levels))
    ensures Levelled(g, levels + [level])
  {
    var more := levels + [level];
    forall k | 0 <= k < |more| ensures LevelAt(g, more, k) {
      if k < |levels| {
        assert more[..k] == levels[..k];
        assert LevelAt(g, levels, k);
      } else {
        assert more[..k] == levels;
      }
    }
  }

  // ---------------------------------------------------------------------
  // Paths
  // ---------------------------------------------------------------------

  /** Each element but the last is a dependency of the next. */
  ghost predicate Path(g: Deps, p: seq<string>) {
    && |p| > 0
    && (forall i :: 0 <= i < |p| ==> p[i] in g)
    && (forall i :: 0 < i < |p| ==> p[i - 1] in g[p[i]])
  }

  ghost predicate Cycle(g: Deps, p: seq<string>) {
    Path(g, p) && |p| >= 2 && p[0] == p[|p| - 1]
  }

  ghost predicate HasCycle(g: Deps) {
    exists p :: Cycle(g, p)
  }

  /** A node of level `k` has all its dependencies in levels below `k`. */
  lemma DependencyBelow(g: Deps, levels: seq<seq<string>>, k: int, n: string, d: string) returns (j: int)
    requires Levelled(g, levels) && 0 <= k < |levels| && n in levels[k]
    requires n in g && d in g[n]
    ensures 0 <= j < k && d in levels[j]
  {
    assert LevelAt(g, levels, k);
    assert d in Members(levels[..k]);
    MembersOf(levels[..k], d);
    j :| 0 <= j < k && d in levels[..k][j];
  }

  lemma InEarlierLevel(levels: seq<seq<string>>, j: int, k: int, n: string)
    requires 0 <= j < k <= |levels| && n in levels[j]
    ensures n in Members(levels[..k])
  {
    MembersOf(levels[..k], n);
    assert levels[..k][j] == levels[j];
  }

  /** No node is in two levels. */
  lemma LevelsDisjoint(g: Deps, levels: seq<seq<string>>, j: int, k: int, n: string)
    requires Levelled(g, levels) && 0 <= j < |levels| && 0 <= k < |levels|
    requires n in levels[j] && n in levels[k]
    ensures j == k
  {
    var lo, hi := if j < k then j else k, if j < k then k else j;
    assert LevelAt(g, levels, hi);
    if lo < hi { InEarlierLevel(levels, lo, hi, n); }
  }

  /** Along a path the levels rise by at least one at each step. */
  lemma {:induction false} PathClimbs(g: Deps, levels: seq<seq<string>>, p: seq<string>, k: int) returns (j: int)
    requires Levelled(g, levels) && Path(g, p)
    requires 0 <= k < |levels| && p[|p| - 1] in levels[k]
    ensures 0 <= j && j + |p| - 1 <= k && p[0] in levels[j]
    decreases |p|
  {
    if |p| == 1 {
      j := k;
    } else {
      var front := p[..|p| - 1];
      assert p[|p| - 2] in g[p[|p| - 1]];
      var below := DependencyBelow(g, levels, k, p[|p| - 1], p[|p| - 2]);
      j := PathClimbs(g, levels, front, below);
    }
  }

  /** A node of level `k` ends a path of `k + 1` nodes. */
  lemma {:induction false} LongestPathTo(g: Deps, levels: seq<seq<string>>, k: int, n: string) returns (p: seq<string>)
    requires DepsClosed(g) && Levelled(g, levels) && 0 <= k < |levels| && n in levels[k]
    ensures Path(g, p) && |p| == k + 1 && p[k] == n
    decreases k
  {
    assert LevelAt(g, levels, k);
    if k == 0 {
      p := [n];
    } else {
      var d := DependencyJustBelow(g, levels, k, n);
      var q := LongestPathTo(g, levels, k - 1, d);
      p := q + [n];
    }
  }

  /** A node above level 0 has a dependency in the level just below. */
  lemma DependencyJustBelow(g: Deps, levels: seq<seq<string>>, k: int, n: string) returns (d: string)
    requires Levelled(g, levels) && 0 < k < |levels| && n in levels[k]
    ensures n in g && d in g[n] && d in levels[k - 1]
  {
    assert LevelAt(g, levels, k) && LevelAt(g, levels, k - 1);
    assert levels[..k] == levels[..k - 1] + [levels[k - 1]];
    MembersSnoc(levels[..k - 1], levels[k - 1]);
    d :| d in g[n] && d !in Members(levels[..k - 1]);
  }

  /** `k` is the depth of `n`: the longest path that ends in `n` has `k` edges. */
  ghost predicate IsDepth(g: Deps, n: string, k: int) {
    && (exists p :: Path(g, p) && p[|p| - 1] == n && |p| == k + 1)
    && (forall p :: Path(g, p) && p[|p| - 1] == n ==> |p| <= k + 1)
  }

  /** A node's level is its longest-path depth, and no other number is. */
  lemma LevelIsDepth(g: Deps, levels: seq<seq<string>>, k: int, n: string)
    requires DepsClosed(g) && Levelled(g, levels) && 0 <= k < |levels| && n in levels[k]
    ensures forall m :: IsDepth(g, n, m) <==> m == k
  {
    var p := LongestPathTo(g, levels, k, n);
    forall q | Path(g, q) && q[|q| - 1] == n ensures |q| <= k + 1 {
      var j := PathClimbs(g, levels, q, k);
    }
    assert IsDepth(g, n, k);
  }

  /** Level 0 is the nodes without dependencies; above it a level is one more than the
      highest level of a dependency. */
  lemma LevelEquation(g: Deps, levels: seq<seq<string>>, k: int, n: string)
    requires DepsClosed(g) && Levelled(g, levels) && 0 <= k < |levels| && n in levels[k] && n in g
    ensures k == 0 <==> g[n] == []
    ensures forall d :: d in g[n] ==> exists j :: 0 <= j < k && d in levels[j]
    ensures k > 0 ==> exists d :: d in g[n] && d in levels[k - 1]
  {
    assert g[n] != [] ==> g[n][0] in g[n];
    forall d | d in g[n] ensures exists j :: 0 <= j < k && d in levels[j] {
      var j := DependencyBelow(g, levels, k, n, d);
    }
    if k > 0 {
      var d := DependencyJustBelow(g, levels, k, n);
    }
  }

  // ---------------------------------------------------------------------
  // Cycle detection
  // ---------------------------------------------------------------------

  /** If everything was placed there is no cycle. */
  lemma PlacedMeansAcyclic(g: Deps, levels: seq<seq<string>>)
    requires Levelled(g, levels) && Members(levels) == g.Keys
    ensures !HasCycle(g)
  {
    forall p ensures !Cycle(g, p) {
      if Cycle(g, p) {
        var last := p[|p| - 1];
        MembersOf(levels, last);
        var k :| 0 <= k < |levels| && last in levels[k];
        var j := PathClimbs(g, levels, p, k);
        LevelsDisjoint(g, levels, j, k, last);
      }
    }
  }

  /** A numbering that rises along every dependency rules out cycles. */
  lemma {:induction false} RankClimbs(g: Deps, rank: map<string, int>, p: seq<string>)
    requires g.Keys <= rank.Keys && Path(g, p)
    requires forall n, d :: n in g && d in g[n] && d in g ==> rank[d] < rank[n]
    ensures rank[p[0]] + |p| - 1 <= rank[p[|p| - 1]]
    decreases |p|
  {
    if |p| > 1 {
      assert p[|p| - 2] in g[p[|p| - 1]];
      RankClimbs(g, rank, p[..|p| - 1]);
    }
  }

  lemma RankedAcyclic(g: Deps, rank: map<string, int>)
    requires g.Keys <= rank.Keys
    requires forall n, d :: n in g && d in g[n] && d in g ==> rank[d] < rank[n]
    ensures !HasCycle(g)
  {
    forall p ensures !Cycle(g, p) {
      if Cycle(g, p) { RankClimbs(g, rank, p); }
    }
  }

  /** The levels one after the other. */
  ghost function Flatten(levels: seq<seq<string>>): seq<string> {
    if levels == [] then [] else Flatten(levels[..|levels| - 1]) + levels[|levels| - 1]
  }

  lemma {:induction false} FlattenMembers(levels: seq<seq<string>>, x: string)
    ensures x in Flatten(levels) <==> x in Members(levels)
  {
    if levels != [] { FlattenMembers(levels[..|levels| - 1], x); }
  }

  /** If moreover everything in a lower level precedes everything in a higher one, the flattened levels are sorted. */
  lemma {:induction false} FlattenSorted(levels: seq<seq<string>>)
    requires forall k :: 0 <= k < |levels| ==> StrictlyOrdered(levels[k], Less)
    requires forall j, k, x, y :: 0 <= j < k < |levels| && x in levels[j] && y in levels[k] ==> Less(x, y)
    ensures StrictlyOrdered(Flatten(levels), Less)
  {
    if levels != [] {
      var front, last := levels[..|levels| - 1], levels[|levels| - 1];
      FlattenSorted(front);
      var low, all := Flatten(front), Flatten(levels);
      forall i, j | 0 <= i < j < |all| ensures Less(all[i], all[j]) {
        if i < |low| <= j {
          FlattenMembers(front, all[i]);
          MembersOf(front, all[i]);
          var k :| 0 <= k < |front| && all[i] in front[k];
          assert all[i] in levels[k] && all[j] in last;
        }
      }
    }
  }

  /** Walking back along unfinished dependencies never gets stuck when no layer is left. */
  lemma {:induction false} WalkBack(g: Deps, done: set<string>, n: string, length: nat) returns (p: seq<string>)
    requires DepsClosed(g) && Layer(g, done) == {} && n in g && n !in done && length > 0
    ensures Path(g, p) && |p| == length && p[length - 1] == n
    ensures forall i :: 0 <= i < |p| ==> p[i] !in done
    decreases length
  {
    if length == 1 {
      p := [n];
    } else {
      assert n !in Layer(g, done);
      var d :| d in g[n] && d !in done;
      var q := WalkBack(g, done, d, length - 1);
      p := q + [n];
    }
  }

  /** If no layer is left but some node is not placed, there is a cycle. */
  lemma StuckMeansCycle(g: Deps, done: set<string>)
    requires DepsClosed(g) && Layer(g, done) == {} && exists n :: n in g && n !in done
    ensures HasCycle(g)
  {
    var n :| n in g && n !in done;
    var p := WalkBack(g, done, n, |g.Keys| + 1);
    SubsetSize(Elems(p), g.Keys);
    if Distinct(p) { DistinctCardinality(p); }
    var i, j :| 0 <= i < j < |p| && p[i] == p[j];
    var c := p[i..j + 1];
    assert Cycle(g, c);
  }

  /** Levels are determined by the graph: the same graph is never levelled in two ways. */
  lemma {:induction false} LevellingUnique(g: Deps, a: seq<seq<string>>, b: seq<seq<string>>, k: nat)
    requires Levelled(g, a) && Levelled(g, b) && k <= |a| && k <= |b|
    ensures a[..k] == b[..k]
    decreases k
  {
    if k > 0 {
      LevellingUnique(g, a, b, k - 1);
      assert LevelAt(g, a, k - 1) && LevelAt(g, b, k - 1);
      SortedSetUnique(a[k - 1], b[k - 1]);
      assert a[..k] == a[..k - 1] + [a[k - 1]];
      assert b[..k] == b[..k - 1] + [b[k - 1]];
    }
  }

  lemma LayersNotEmpty(g: Deps, levels: seq<seq<string>>, k: int)
    requires Levelled(g, levels) && 0 <= k < |levels|
    ensures Layer(g, Members(levels[..k])) != {}
  {
    assert LevelAt(g, levels, k);
    assert levels[k][0] in levels[k];
  }

  lemma CompleteLevellingUnique(g: Deps, a: seq<seq<string>>, b: seq<seq<string>>)
    requires Levelled(g, a) && Members(a) == g.Keys
    requires Levelled(g, b) && Members(b) == g.Keys
    ensures a == b
  {
    var k := if |a| <= |b| then |a| else |b|;
    LevellingUnique(g, a, b, k);
    assert a[..|a|] == a && b[..|b|] == b;
    assert Layer(g, g.Keys) == {};
    if |a| < |b| {
      LayersNotEmpty(g, b, k);
    } else if |b| < |a| {
      LayersNotEmpty(g, a, k);
    }
  }
}
