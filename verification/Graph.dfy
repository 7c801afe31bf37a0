/** Reachability and cycles in the dependency graph of a plan. */
module Graph {
  import opened Common

  type Id = string

  /** Node to the nodes it depends on; a node that is no key depends on nothing. */
  type Digraph = map<Id, seq<Id>>

  predicate Edge(g: Digraph, a: Id, b: Id) {
    a in g && b in g[a]
  }

  ghost predicate IsPath(g: Digraph, p: seq<Id>) {
    forall i :: 0 <= i < |p| - 1 ==> Edge(g, p[i], p[i + 1])
  }

  ghost predicate PathBetween(g: Digraph, p: seq<Id>, a: Id, b: Id) {
    |p| >= 2 && p[0] == a && p[|p| - 1] == b && IsPath(g, p)
  }

  /** At least one edge leads from `a` towards `b`. */
  ghost predicate Reaches(g: Digraph, a: Id, b: Id) {
    exists p :: PathBetween(g, p, a, b)
  }

  ghost predicate Acyclic(g: Digraph) {
    forall n :: !Reaches(g, n, n)
  }

  lemma EdgeReaches(g: Digraph, a: Id, b: Id)
    requires Edge(g, a, b)
    ensures Reaches(g, a, b)
  {
    assert PathBetween(g, [a, b], a, b);
  }

  lemma ReachesTransitive(g: Digraph, a: Id, b: Id, c: Id)
    requires Reaches(g, a, b) && Reaches(g, b, c)
    ensures Reaches(g, a, c)
  {
    var p :| PathBetween(g, p, a, b);
    var q :| PathBetween(g, q, b, c);
    var r := p + q[1..];
    forall i | 0 <= i < |r| - 1 ensures Edge(g, r[i], r[i + 1]) {
      if i >= |p| - 1 {
        assert r[i] == q[i - (|p| - 1)] && r[i + 1] == q[i + 1 - (|p| - 1)];
      }
    }
    assert PathBetween(g, r, a, c);
  }

  /** The first edge of a path, and what is left of it. */
  lemma FirstEdge(g: Digraph, a: Id, c: Id) returns (b: Id)
    requires Reaches(g, a, c)
    ensures Edge(g, a, b) && (b == c || Reaches(g, b, c))
  {
    var p :| PathBetween(g, p, a, c);
    b := p[1];
    if |p| > 2 {
      assert PathBetween(g, p[1..], b, c);
    }
  }

  /** Successors of members are members. */
  ghost predicate Closed(g: Digraph, s: set<Id>) {
    forall a, b :: a in s && Edge(g, a, b) ==> b in s
  }

  lemma {:induction false} ClosedPath(g: Digraph, s: set<Id>, p: seq<Id>)
    requires Closed(g, s) && IsPath(g, p) && |p| > 0 && p[0] in s
    ensures p[|p| - 1] in s
    decreases |p|
  {
    if |p| > 1 {
      assert Edge(g, p[0], p[1]);
      ClosedPath(g, s, p[1..]);
    }
  }

  lemma ClosedReaches(g: Digraph, s: set<Id>, a: Id, b: Id)
    requires Closed(g, s) && a in s && Reaches(g, a, b)
    ensures b in s
  {
    var p :| PathBetween(g, p, a, b);
    ClosedPath(g, s, p);
  }

  ghost predicate LeadsInto(g: Digraph, x: Id, u: set<Id>) {
    exists y :: y in u && Edge(g, x, y)
  }

  /** Inside a set without sinks there are paths of any length. */
  lemma {:induction false} EndlessPath(g: Digraph, u: set<Id>, a: Id, k: nat) returns (p: seq<Id>)
    requires a in u
    requires forall x :: x in u ==> LeadsInto(g, x, u)
    ensures |p| == k + 1 && p[0] == a && IsPath(g, p)
    ensures forall i :: 0 <= i < |p| ==> p[i] in u
    decreases k
  {
    if k == 0 {
      p := [a];
    } else {
      assert LeadsInto(g, a, u);
      var b :| b in u && Edge(g, a, b);
      var q := EndlessPath(g, u, b, k - 1);
      p := [a] + q;
    }
  }

  lemma {:induction false} Pigeonhole(p: seq<Id>, u: set<Id>) returns (i: nat, j: nat)
    requires forall k :: 0 <= k < |p| ==> p[k] in u
    requires |p| > |u|
    ensures i < j < |p| && p[i] == p[j]
    decreases |p|
  {
    var last := p[|p| - 1];
    if k :| 0 <= k < |p| - 1 && p[k] == last {
      return k, |p| - 1;
    }
    i, j := Pigeonhole(p[..|p| - 1], u - {last});
  }

  lemma RepeatIsCycle(g: Digraph, p: seq<Id>, i: nat, j: nat)
    requires IsPath(g, p) && i < j < |p| && p[i] == p[j]
    ensures Reaches(g, p[i], p[i])
  {
    assert PathBetween(g, p[i..j + 1], p[i], p[i]);
  }

  /** A non-empty set of nodes of an acyclic graph has a member with no edge into the set. */
  lemma SinkExists(g: Digraph, u: set<Id>) returns (s: Id)
    requires Acyclic(g) && u != {}
    ensures s in u && !LeadsInto(g, s, u)
  {
    var a :| a in u;
    if forall x :: x in u ==> LeadsInto(g, x, u) {
      var p := EndlessPath(g, u, a, |u|);
      var i, j := Pigeonhole(p, u);
      RepeatIsCycle(g, p, i, j);
    } else {
      s :| s in u && !LeadsInto(g, s, u);
    }
  }

  /** The depth-first search of apps/daemon/src/agent/planner.ts: `visiting` is the current path,
      `visited` the nodes known not to lead to a cycle. */
  class CycleSearch {
    const graph: Digraph
    ghost const nodes: set<Id>
    var visiting: set<Id>
    var visited: set<Id>

    ghost predicate Valid()
      reads this
    {
      && Closed(graph, nodes)
      && visiting <= nodes
      && visiting !! visited
      && Closed(graph, visited)
      && forall v :: v in visited ==> !Reaches(graph, v, v)
    }

    constructor (graph: Digraph, ghost nodes: set<Id>)
      requires Closed(graph, nodes)
      ensures Valid() && this.graph == graph && this.nodes == nodes && visiting == {} && visited == {}
    {
      this.graph := graph;
      this.nodes := nodes;
      visiting, visited := {}, {};
    }

    method Visit(n: Id) returns (cyclic: bool)
      requires Valid() && n in nodes
      requires forall v :: v in visiting ==> Reaches(graph, v, n)
      modifies this
      ensures cyclic ==> exists m :: Reaches(graph, m, m)
      ensures !cyclic ==> Valid() && visiting == old(visiting) && old(visited) <= visited && n in visited
      decreases nodes - visiting
    {
      if n in visited {
        return false;
      }
      if n in visiting {
        return true;
      }
      visiting := visiting + {n};
      var dependsOn := if n in graph then graph[n] else [];
      for i := 0 to |dependsOn|
        invariant Valid() && visiting == old(visiting) + {n}
        invariant old(visited) <= visited
        invariant forall k :: 0 <= k < i ==> dependsOn[k] in visited
      {
        var dependency := dependsOn[i];
        assert Edge(graph, n, dependency);
        EdgeReaches(graph, n, dependency);
        forall v | v in visiting ensures Reaches(graph, v, dependency) {
          if v != n { ReachesTransitive(graph, v, n, dependency); }
        }
        cyclic := Visit(dependency);
        if cyclic {
          return true;
        }
      }
      NoReturn(graph, visited, n);
      visiting := visiting - {n};
      visited := visited + {n};
      return false;
    }
  }

  lemma NoReturn(g: Digraph, visited: set<Id>, n: Id)
    requires Closed(g, visited) && n !in visited
    requires n in g ==> forall k :: 0 <= k < |g[n]| ==> g[n][k] in visited
    ensures !Reaches(g, n, n)
  {
    if Reaches(g, n, n) {
      var b := FirstEdge(g, n, n);
      if b != n { ClosedReaches(g, visited, b, n); }
    }
  }

  function AllNodes(g: Digraph): set<Id> {
    g.Keys + set a, b | a in g && b in g[a] :: b
  }

  /** `roots.some(visit)`: true exactly when the graph has a cycle, provided every key is a root. */
  method FindCycle(g: Digraph, roots: seq<Id>) returns (cyclic: bool)
    requires ToSet(roots) == g.Keys
    ensures cyclic <==> !Acyclic(g)
  {
    var search := new CycleSearch(g, AllNodes(g));
    var i := 0;
    while i < |roots|
      invariant 0 <= i <= |roots|
      invariant search.Valid() && search.visiting == {} && search.graph == g && search.nodes == AllNodes(g)
      invariant forall k :: 0 <= k < i ==> roots[k] in search.visited
      invariant fresh(search)
    {
      assert roots[i] in ToSet(roots);
      cyclic := search.Visit(roots[i]);
      if cyclic {
        return true;
      }
      i := i + 1;
    }
    forall n ensures !Reaches(g, n, n) {
      if n in g {
        assert n in ToSet(roots);
      } else if Reaches(g, n, n) {
        var b := FirstEdge(g, n, n);
      }
    }
    return false;
  }
}
