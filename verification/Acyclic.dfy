/** The dependency-graph check of the schema builder: depth-first search with a path set. */
module Acyclic {
  import opened Graphs

  datatype Link = Link(from: Name, to: Name)

  predicate SameEdges(g: Graph, edges: seq<Link>) {
    && (forall i :: 0 <= i < |edges| ==> Edge(g, edges[i].from, edges[i].to))
    && (forall a, j :: a in g && 0 <= j < |g[a]| ==> Link(a, g[a][j]) in edges)
  }

  function Endpoints(edges: seq<Link>): set<Name> {
    (set i | 0 <= i < |edges| :: edges[i].from) + (set i | 0 <= i < |edges| :: edges[i].to)
  }

  /** The adjacency map and the node set, in insertion order. */
  method BuildAdjacency(edges: seq<Link>) returns (adj: Graph, nodes: seq<Name>)
    ensures SameEdges(adj, edges)
    ensures forall n :: n in nodes <==> n in Endpoints(edges)
  {
    adj, nodes := map[], [];
    for k := 0 to |edges|
      invariant SameEdges(adj, edges[..k])
      invariant forall n :: n in nodes <==> n in Endpoints(edges[..k])
    {
      var from, to := edges[k].from, edges[k].to;
      AddEdge(adj, edges, k);
      nodes := Insert(Insert(nodes, from), to);
      adj := adj[from := (if from in adj then adj[from] else []) + [to]];
    }
    assert edges[..|edges|] == edges;
  }

  /** Insertion into an ordered set. */
  function Insert(nodes: seq<Name>, n: Name): (r: seq<Name>)
    ensures forall m :: m in r <==> m in nodes || m == n
  {
    if n in nodes then nodes else nodes + [n]
  }

  lemma {:induction false} AddEdge(g: Graph, edges: seq<Link>, k: nat)
    requires k < |edges| && SameEdges(g, edges[..k])
    ensures var e := edges[k];
            SameEdges(g[e.from := (if e.from in g then g[e.from] else []) + [e.to]], edges[..k + 1])
  {
    var e := edges[k];
    var prior := if e.from in g then g[e.from] else [];
    var h := g[e.from := prior + [e.to]];
    var more, less := edges[..k + 1], edges[..k];
    forall i | 0 <= i < |more| ensures Edge(h, more[i].from, more[i].to) {
      if i < k {
        assert less[i] == more[i];
      } else {
        assert h[e.from][|prior|] == e.to;
      }
    }
    forall a, j | a in h && 0 <= j < |h[a]| ensures Link(a, h[a][j]) in more {
      if a == e.from && j == |prior| {
        assert more[k] == e;
      } else {
        assert h[a][j] == g[a][j] && Link(a, g[a][j]) in less;
        var i :| 0 <= i < k && less[i] == Link(a, g[a][j]);
        assert more[i] == less[i];
      }
    }
  }

  predicate ClosedUnder(g: Graph, nodes: set<Name>) {
    forall a, j :: a in g && 0 <= j < |g[a]| ==> g[a][j] in nodes
  }

  ghost predicate Same(s: set<Name>, q: seq<Name>) {
    forall x :: x in s <==> x in q
  }

  /** The search. `stack` is the path being explored, `order` the names finished so far. */
  class Search {
    const adj: Graph
    const nodes: set<Name>
    var visiting: set<Name>
    var visited: set<Name>
    ghost var stack: seq<Name>
    ghost var order: seq<Name>

    ghost predicate Valid()
      reads this
    {
      && ClosedUnder(adj, nodes)
      && visiting <= nodes && visited <= nodes && visiting !! visited
      && Same(visiting, stack) && Walk(adj, stack)
      && Same(visited, order) && SinksFirst(adj, order)
    }

    constructor (g: Graph, ns: set<Name>)
      requires ClosedUnder(g, ns)
      ensures Valid() && adj == g && nodes == ns && stack == [] && visited == {}
    {
      adj, nodes, visiting, visited, stack, order := g, ns, {}, {}, [], [];
    }

    /** `visit`: finishes `n` and everything it reaches, or finds a cycle. */
    method Visit(n: Name) returns (ok: bool)
      requires Valid() && n in nodes && (stack != [] ==> Edge(adj, stack[|stack| - 1], n))
      modifies this
      ensures ok ==> Valid() && stack == old(stack) && visiting == old(visiting)
      ensures ok ==> old(visited) <= visited && n in visited
      ensures !ok ==> Cyclic(adj)
      decreases |nodes - visiting - visited|, 0
    {
      hide Cyclic, SinksFirst, Walk, Same, ClosedUnder;
      if n in visited {
        return true;
      }
      if n in visiting {
        BackEdge(adj, visiting, stack, n);
        return false;
      }
      ghost var before := |nodes - visiting - visited|;
      NotOnPath(visiting, stack, n);
      Push(n);
      assert |nodes - visiting - visited| < before by {
        Shrinks(nodes, old(visiting), old(visited), visiting, visited, n);
      }
      ok := VisitSuccessors(n);
      if ok {
        Finish(n);
      }
    }

    /** The loop over the successors of the name on top of the path. */
    method VisitSuccessors(n: Name) returns (ok: bool)
      requires Valid() && stack != [] && stack[|stack| - 1] == n
      modifies this
      ensures ok ==> Valid() && stack == old(stack) && visiting == old(visiting)
      ensures ok ==> old(visited) <= visited && (n in adj ==> forall j :: 0 <= j < |adj[n]| ==> adj[n][j] in visited)
      ensures !ok ==> Cyclic(adj)
      decreases |nodes - visiting - visited|, 1
    {
      hide Cyclic, SinksFirst, Walk;
      var next := if n in adj then adj[n] else [];
      for i := 0 to |next|
        invariant Valid() && stack == old(stack) && visiting == old(visiting)
        invariant old(visited) <= visited && forall j :: 0 <= j < i ==> next[j] in visited
      {
        Smaller(nodes - visiting - visited, nodes - old(visiting) - old(visited));
        var deeper := Visit(next[i]);
        if !deeper {
          return false;
        }
      }
      return true;
    }

    method Push(n: Name)
      requires Valid() && n in nodes && n !in visited && n !in visiting
      requires stack != [] ==> Edge(adj, stack[|stack| - 1], n)
      modifies this`stack, this`visiting
      ensures Valid() && stack == old(stack) + [n] && visiting == old(visiting) + {n}
    {
      if stack != [] {
        WalkSnoc(adj, stack, n);
      }
      visiting := visiting + {n};
      stack := stack + [n];
    }

    method Finish(n: Name)
      requires Valid() && stack != [] && n == stack[|stack| - 1] && n !in stack[..|stack| - 1]
      requires n in adj ==> forall j :: 0 <= j < |adj[n]| ==> adj[n][j] in visited
      modifies this
      ensures Valid() && stack == old(stack)[..|old(stack)| - 1]
      ensures visiting == old(visiting) - {n} && visited == old(visited) + {n}
    {
      visiting := visiting - {n};
      visited := visited + {n};
      LastSinks(adj, order, n);
      stack := stack[..|stack| - 1];
      order := order + [n];
    }
  }

  lemma {:induction false} LastSinks(g: Graph, order: seq<Name>, n: Name)
    requires SinksFirst(g, order) && (n in g ==> forall j :: 0 <= j < |g[n]| ==> g[n][j] in order)
    ensures SinksFirst(g, order + [n])
  {
    var more := order + [n];
    forall i | 0 <= i < |more| ensures SuccessorsBefore(g, more, i) {
      if i < |order| {
        assert SuccessorsBefore(g, order, i) && more[..i] == order[..i];
      } else {
        assert more[..i] == order;
      }
    }
  }

  lemma {:induction false} NotOnPath(visiting: set<Name>, stack: seq<Name>, n: Name)
    requires Same(visiting, stack)
    ensures n in visiting <==> n in stack
  {
  }

  /** Reaching a name on the path again closes a cycle. */
  lemma {:induction false} BackEdge(g: Graph, visiting: set<Name>, stack: seq<Name>, n: Name)
    requires Walk(g, stack) && Same(visiting, stack) && n in visiting
    requires stack != [] ==> Edge(g, stack[|stack| - 1], n)
    ensures Cyclic(g)
  {
    assert n in stack;
    var i :| 0 <= i < |stack| && stack[i] == n;
    var q := stack[i..];
    forall k {:trigger q[k]} | 0 <= k < |q| - 1 ensures Edge(g, q[k], q[k + 1]) {
      assert q[k] == stack[i + k];
    }
    WalkSnoc(g, q, n);
    assert Joins(g, q + [n], n, n);
    assert Reaches(g, n, n);
  }

  lemma {:induction false} Shrinks(all: set<Name>, p: set<Name>, v: set<Name>, p2: set<Name>, v2: set<Name>, n: Name)
    requires n in all && n !in p && n !in v && p2 == p + {n} && v <= v2
    ensures |all - p2 - v2| < |all - p - v|
  {
    var before, after := all - p - v, all - p2 - v2;
    assert after <= before - {n};
    Smaller(after, before - {n});
    assert |before - {n}| == |before| - 1;
  }

  /** The graph of an edge list. */
  ghost predicate HasCycle(edges: seq<Link>) {
    exists a, p :: Circuit(edges, a, p)
  }

  predicate Circuit(edges: seq<Link>, a: Name, p: seq<Name>) {
    && |p| >= 2 && p[0] == a && p[|p| - 1] == a
    && forall i {:trigger p[i]} :: 0 <= i < |p| - 1 ==> Link(p[i], p[i + 1]) in edges
  }

  lemma {:induction false} SameCycles(g: Graph, edges: seq<Link>)
    requires SameEdges(g, edges)
    ensures Cyclic(g) <==> HasCycle(edges)
  {
    if Cyclic(g) {
      var a :| Reaches(g, a, a);
      var p :| Joins(g, p, a, a);
      forall i {:trigger p[i]} | 0 <= i < |p| - 1 ensures Link(p[i], p[i + 1]) in edges {
        assert Edge(g, p[i], p[i + 1]);
        var j :| 0 <= j < |g[p[i]]| && g[p[i]][j] == p[i + 1];
      }
      assert Circuit(edges, a, p);
    }
    if HasCycle(edges) {
      var a, p :| Circuit(edges, a, p);
      forall i {:trigger p[i]} | 0 <= i < |p| - 1 ensures Edge(g, p[i], p[i + 1]) {
        var j :| 0 <= j < |edges| && edges[j] == Link(p[i], p[i + 1]);
      }
      assert Joins(g, p, a, a);
      assert Reaches(g, a, a);
    }
  }

  /** `isAcyclic`: true iff the edge list has no directed cycle, loops included. */
  method IsAcyclic(edges: seq<Link>) returns (r: bool)
    ensures r <==> !HasCycle(edges)
  {
    hide Cyclic, HasCycle, SinksFirst;
    var adj, nodes := BuildAdjacency(edges);
    SameCycles(adj, edges);
    AllNodes(adj, edges);
    var search := new Search(adj, Endpoints(edges));
    for i := 0 to |nodes|
      invariant search.Valid() && search.stack == [] && fresh(search)
      invariant search.adj == adj && search.nodes == Endpoints(edges)
      invariant forall j :: 0 <= j < i ==> nodes[j] in search.visited
    {
      var ok := search.Visit(nodes[i]);
      if !ok {
        return false;
      }
    }
    SinksFirstAcyclic(adj, search.order);
    return true;
  }

  lemma {:induction false} AllNodes(g: Graph, edges: seq<Link>)
    requires SameEdges(g, edges)
    ensures ClosedUnder(g, Endpoints(edges))
    ensures forall a :: a in g && g[a] != [] ==> a in Endpoints(edges)
  {
    forall a, j | a in g && 0 <= j < |g[a]| ensures a in Endpoints(edges) && g[a][j] in Endpoints(edges) {
      var i :| 0 <= i < |edges| && edges[i] == Link(a, g[a][j]);
    }
    forall a | a in g && g[a] != [] ensures a in Endpoints(edges) {
      assert Link(a, g[a][0]) in edges;
    }
  }
}
