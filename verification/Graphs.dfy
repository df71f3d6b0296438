/** Directed graphs over names, as adjacency lists. */
module Graphs {
  type Name = string
  type Graph = map<Name, seq<Name>>

  predicate Edge(g: Graph, a: Name, b: Name) {
    a in g && b in g[a]
  }

  /** A walk along edges; a single name is one. */
  predicate Walk(g: Graph, p: seq<Name>) {
    forall i {:trigger p[i]} :: 0 <= i < |p| - 1 ==> Edge(g, p[i], p[i + 1])
  }

  /** A walk of at least one edge from `a` to `b`. */
  predicate Joins(g: Graph, p: seq<Name>, a: Name, b: Name) {
    |p| >= 2 && Walk(g, p) && p[0] == a && p[|p| - 1] == b
  }

  ghost predicate Reaches(g: Graph, a: Name, b: Name) {
    exists p :: Joins(g, p, a, b)
  }

  /** Some name reaches itself; an edge from a name to itself is enough. */
  ghost predicate Cyclic(g: Graph) {
    exists a :: Reaches(g, a, a)
  }

  lemma {:induction false} WalkSnoc(g: Graph, p: seq<Name>, b: Name)
    requires p != [] && Walk(g, p) && Edge(g, p[|p| - 1], b)
    ensures Walk(g, p + [b])
  {
    var q := p + [b];
    forall i {:trigger q[i]} | 0 <= i < |q| - 1 ensures Edge(g, q[i], q[i + 1]) {
      if i < |p| - 1 {
        assert Edge(g, p[i], p[i + 1]);
      }
    }
  }

  lemma {:induction false} ReachesByEdge(g: Graph, a: Name, b: Name)
    requires Edge(g, a, b)
    ensures Reaches(g, a, b)
  {
    assert Joins(g, [a, b], a, b);
  }

  lemma {:induction false} ReachesThenEdge(g: Graph, a: Name, b: Name, c: Name)
    requires Reaches(g, a, b) && Edge(g, b, c)
    ensures Reaches(g, a, c)
  {
    var p :| Joins(g, p, a, b);
    WalkSnoc(g, p, c);
    assert Joins(g, p + [c], a, c);
  }

  /** First position of `x`. */
  function Position(order: seq<Name>, x: Name): (i: nat)
    requires x in order
    ensures i < |order| && order[i] == x && x !in order[..i]
  {
    if order[0] == x then 0 else 1 + Position(order[1..], x)
  }

  /** Every name comes after all its successors. */
  predicate SinksFirst(g: Graph, order: seq<Name>) {
    forall i :: 0 <= i < |order| ==> SuccessorsBefore(g, order, i)
  }

  predicate SuccessorsBefore(g: Graph, order: seq<Name>, i: nat)
    requires i < |order|
  {
    order[i] in g ==> forall j :: 0 <= j < |g[order[i]]| ==> g[order[i]][j] in order[..i]
  }

  lemma {:induction false} EdgeGoesBack(g: Graph, order: seq<Name>, a: Name, b: Name)
    requires SinksFirst(g, order) && a in order && Edge(g, a, b)
    ensures b in order && Position(order, b) < Position(order, a)
  {
    var i := Position(order, a);
    assert SuccessorsBefore(g, order, i);
    var j :| 0 <= j < |g[a]| && g[a][j] == b;
    var k :| 0 <= k < i && order[k] == b;
  }

  lemma {:induction false} WalkGoesBack(g: Graph, order: seq<Name>, p: seq<Name>, k: nat)
    requires SinksFirst(g, order) && Walk(g, p) && k < |p| && p[0] in order
    ensures p[k] in order && (k > 0 ==> Position(order, p[k]) < Position(order, p[0]))
    decreases k
  {
    if k > 0 {
      WalkGoesBack(g, order, p, k - 1);
      assert Edge(g, p[k - 1], p[k]);
      EdgeGoesBack(g, order, p[k - 1], p[k]);
    }
  }

  /** An order with sinks first that covers every name with a successor leaves no cycle. */
  lemma {:induction false} SinksFirstAcyclic(g: Graph, order: seq<Name>)
    requires SinksFirst(g, order) && forall a :: a in g && g[a] != [] ==> a in order
    ensures !Cyclic(g)
  {
    if Cyclic(g) {
      var a :| Reaches(g, a, a);
      var p :| Joins(g, p, a, a);
      assert Edge(g, p[0], p[1]);
      WalkGoesBack(g, order, p, |p| - 1);
      assert false;
    }
  }

  lemma {:induction false} Smaller(a: set<Name>, b: set<Name>)
    requires a <= b
    ensures |a| <= |b|
    decreases |a|
  {
    if a != {} {
      var x :| x in a;
      Smaller(a - {x}, b - {x});
    }
  }
}
