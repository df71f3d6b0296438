/** Emission order of generated classes: post-order depth-first search in name order. */
module TopoSort {
  import opened Graphs

  /** A class to emit; `body` stands for everything but its name and dependencies. */
  datatype IrClass = IrClass(className: Name, dependsOn: seq<Name>, body: int)

  type Classes = map<Name, IrClass>

  // ---------------------------------------------------------------- name order

  predicate Below(a: Name, b: Name) {
    a == [] || (b != [] && (a[0] < b[0] || (a[0] == b[0] && Below(a[1..], b[1..]))))
  }

  lemma {:induction false} BelowOrder(a: Name, b: Name, c: Name)
    ensures Below(a, b) || Below(b, a)
    ensures Below(a, b) && Below(b, a) ==> a == b
    ensures Below(a, b) && Below(b, c) ==> Below(a, c)
    decreases |a| + |b| + |c|
  {
    if a != [] && b != [] {
      BelowOrder(a[1..], b[1..], if c == [] then [] else c[1..]);
      assert a == [a[0]] + a[1..] && b == [b[0]] + b[1..];
    }
  }

  predicate Sorted(s: seq<Name>) {
    forall i, j :: 0 <= i < j < |s| ==> Below(s[i], s[j])
  }

  function InsertName(s: seq<Name>, n: Name): (r: seq<Name>)
    ensures multiset(r) == multiset(s) + multiset{n}
  {
    if s == [] then [n]
    else if Below(n, s[0]) then [n] + s
    else
      assert s == [s[0]] + s[1..];
      [s[0]] + InsertName(s[1..], n)
  }

  /** `.sort()`. */
  function SortNames(s: seq<Name>): (r: seq<Name>)
    ensures multiset(r) == multiset(s)
  {
    if s == [] then []
    else
      assert s == [s[0]] + s[1..];
      InsertName(SortNames(s[1..]), s[0])
  }

  lemma {:induction false} InsertSorted(s: seq<Name>, n: Name)
    requires Sorted(s)
    ensures Sorted(InsertName(s, n))
  {
    hide Below;
    var r := InsertName(s, n);
    if s != [] {
      BelowOrder(n, s[0], []);
      if Below(n, s[0]) {
        forall j | 0 < j < |r| ensures Below(n, r[j]) {
          BelowOrder(n, s[0], r[j]);
          assert r[j] == s[j - 1];
        }
        forall i, j | 0 <= i < j < |r| ensures Below(r[i], r[j]) {
          assert i > 0 ==> r[i] == s[i - 1] && r[j] == s[j - 1];
        }
      } else {
        InsertSorted(s[1..], n);
        InsertedAbove(s, n);
        assert r == [s[0]] + InsertName(s[1..], n);
      }
    }
  }

  lemma {:induction false} InsertedAbove(s: seq<Name>, n: Name)
    requires s != [] && Sorted(s) && Below(s[0], n)
    ensures var rest := InsertName(s[1..], n);
            forall j :: 0 <= j < |rest| ==> Below(s[0], rest[j])
  {
    hide Below, InsertName;
    var rest := InsertName(s[1..], n);
    forall j | 0 <= j < |rest| ensures Below(s[0], rest[j]) {
      assert rest[j] in multiset(rest);
      if rest[j] != n {
        var k :| 0 <= k < |s[1..]| && s[1..][k] == rest[j];
        assert Below(s[0], s[k + 1]);
      }
    }
  }

  lemma {:induction false} SortSorted(s: seq<Name>)
    ensures Sorted(SortNames(s))
  {
    hide Below;
    if s != [] {
      SortSorted(s[1..]);
      InsertSorted(SortNames(s[1..]), s[0]);
    }
  }

  /** Sorting forgets the order of its input. */
  lemma {:induction false} SortedUnique(a: seq<Name>, b: seq<Name>)
    requires Sorted(a) && Sorted(b) && multiset(a) == multiset(b)
    ensures a == b
    decreases |a|
  {
    hide Below;
    assert |a| == |multiset(a)| == |multiset(b)| == |b|;
    if a != [] {
      LeastFirst(a, b);
      LeastFirst(b, a);
      BelowOrder(a[0], b[0], []);
      assert a == [a[0]] + a[1..] && b == [b[0]] + b[1..];
      assert multiset(a[1..]) == multiset(a) - multiset{a[0]} == multiset(b[1..]);
      SortedUnique(a[1..], b[1..]);
    }
  }

  lemma {:induction false} LeastFirst(a: seq<Name>, b: seq<Name>)
    requires Sorted(a) && multiset(a) == multiset(b) && b != []
    ensures a != [] && Below(a[0], b[0])
  {
    hide Below;
    assert b[0] in multiset(a);
    var j :| 0 <= j < |a| && a[j] == b[0];
    BelowOrder(a[0], b[0], []);
  }

  // ---------------------------------------------------------------- the search as a function

  /** `new Map(classes.map(...))`: the last class of a name wins. */
  function ByName(classes: seq<IrClass>): (m: Classes)
    ensures forall n :: n in m ==> m[n].className == n && m[n] in classes
    ensures forall i :: 0 <= i < |classes| ==> classes[i].className in m
  {
    if classes == [] then map[]
    else ByName(classes[..|classes| - 1])[classes[|classes| - 1].className := classes[|classes| - 1]]
  }

  /** The map's keys, in insertion order. */
  function Keys(classes: seq<IrClass>): (r: seq<Name>)
    ensures forall n :: n in r <==> n in ByName(classes)
    ensures forall i, j :: 0 <= i < j < |r| ==> r[i] != r[j]
  {
    if classes == [] then []
    else
      var init, n := Keys(classes[..|classes| - 1]), classes[|classes| - 1].className;
      if n in init then init else init + [n]
  }

  function Names(m: Classes): set<Name> {
    m.Keys + (set n, i | n in m && 0 <= i < |m[n].dependsOn| :: m[n].dependsOn[i])
  }

  datatype State = State(visiting: set<Name>, visited: set<Name>, out: seq<IrClass>)

  predicate Grows(all: set<Name>, s: State, t: State) {
    s.visiting == t.visiting && s.visited <= t.visited <= all
  }

  /** Names the search may still start on. */
  function Left(all: set<Name>, s: State): nat {
    |all - s.visiting - s.visited|
  }

  lemma {:induction false} LeftShrinks(all: set<Name>, s: State, n: Name)
    requires n in all && n !in s.visiting && n !in s.visited
    ensures Left(all, Opening(s, n)) < Left(all, s)
  {
    var before := all - s.visiting - s.visited;
    assert all - (s.visiting + {n}) - s.visited == before - {n};
  }

  lemma {:induction false} LeftFalls(all: set<Name>, s: State, t: State)
    requires Grows(all, s, t)
    ensures Left(all, t) <= Left(all, s)
  {
    Smaller(all - t.visiting - t.visited, all - s.visiting - s.visited);
  }

  function Opening(s: State, n: Name): State {
    s.(visiting := s.visiting + {n})
  }

  function Closing(s: State, n: Name): State {
    State(s.visiting - {n}, s.visited + {n}, s.out)
  }

  /** `all` holds every name the search can meet. */
  predicate Covers(m: Classes, all: set<Name>) {
    forall n :: n in m ==> forall i :: 0 <= i < |m[n].dependsOn| ==> m[n].dependsOn[i] in all
  }

  predicate Within(ns: seq<Name>, all: set<Name>) {
    forall i :: 0 <= i < |ns| ==> ns[i] in all
  }

  function Visit(m: Classes, all: set<Name>, s: State, n: Name): (t: State)
    requires Covers(m, all) && n in all && s.visited <= all
    ensures Grows(all, s, t)
    decreases Left(all, s), 0
  {
    hide Covers, Left, SortNames;
    if n in s.visited || n in s.visiting then s
    else
      LeftShrinks(all, s, n);
      Closing(VisitClass(m, all, Opening(s, n), n), n)
  }

  /** The dependencies of a known class, then the class; nothing for an unknown name. */
  function VisitClass(m: Classes, all: set<Name>, s: State, n: Name): (t: State)
    requires Covers(m, all) && s.visited <= all
    ensures Grows(all, s, t)
    decreases Left(all, s), |SortNames(if n in m then m[n].dependsOn else [])| + 2
  {
    hide Covers, Left;
    if n in m then
      DependenciesCovered(m, all, n);
      var t := VisitAll(m, all, s, SortNames(m[n].dependsOn));
      t.(out := t.out + [m[n]])
    else s
  }

  function VisitAll(m: Classes, all: set<Name>, s: State, ns: seq<Name>): (t: State)
    requires Covers(m, all) && s.visited <= all && Within(ns, all)
    ensures Grows(all, s, t)
    decreases Left(all, s), 1 + |ns|
  {
    hide Covers, Left, SortNames;
    if ns == [] then s
    else
      var t := Visit(m, all, s, ns[0]);
      LeftFalls(all, s, t);
      VisitAll(m, all, t, ns[1..])
  }

  lemma {:induction false} SortWithin(ns: seq<Name>, all: set<Name>)
    requires Within(ns, all)
    ensures Within(SortNames(ns), all)
  {
    var sorted := SortNames(ns);
    forall i | 0 <= i < |sorted| ensures sorted[i] in all {
      assert sorted[i] in multiset(ns);
    }
  }

  lemma {:induction false} DependenciesCovered(m: Classes, all: set<Name>, n: Name)
    requires n in m && Covers(m, all)
    ensures Within(SortNames(m[n].dependsOn), all)
  {
    SortWithin(m[n].dependsOn, all);
  }

  lemma {:induction false} KeysCovered(classes: seq<IrClass>)
    ensures Covers(ByName(classes), Names(ByName(classes)))
    ensures Within(SortNames(Keys(classes)), Names(ByName(classes)))
  {
    SortWithin(Keys(classes), Names(ByName(classes)));
  }

  const START := State({}, {}, [])

  /** What `topoSortClasses` returns. */
  function Sort(classes: seq<IrClass>): seq<IrClass> {
    hide Names, Covers, SortNames, Keys, ByName, Within;
    KeysCovered(classes);
    VisitAll(ByName(classes), Names(ByName(classes)), START, SortNames(Keys(classes))).out
  }

  // ---------------------------------------------------------------- every class exactly once

  function NamesOf(out: seq<IrClass>): (ns: seq<Name>)
    ensures |ns| == |out|
  {
    seq(|out|, i requires 0 <= i < |out| => out[i].className)
  }

  predicate Distinct(ns: seq<Name>) {
    forall i, j :: 0 <= i < j < |ns| ==> ns[i] != ns[j]
  }

  /** The output lists the known names in `done`, each once, each with its own class. */
  ghost predicate Lists(m: Classes, out: seq<IrClass>, done: set<Name>) {
    && Distinct(NamesOf(out))
    && (forall n :: n in NamesOf(out) <==> n in done && n in m)
    && (forall i :: 0 <= i < |out| ==> out[i].className in m && m[out[i].className] == out[i])
  }

  ghost predicate Tidy(m: Classes, s: State) {
    s.visiting !! s.visited && Lists(m, s.out, s.visited)
  }

  predicate Keyed(m: Classes) {
    forall n :: n in m ==> m[n].className == n
  }

  lemma {:induction false} ListsMore(m: Classes, out: seq<IrClass>, done: set<Name>, n: Name)
    requires Keyed(m) && Lists(m, out, done) && n !in done
    ensures n in m ==> Lists(m, out + [m[n]], done + {n})
    ensures n !in m ==> Lists(m, out, done + {n})
  {
    if n in m {
      var more := out + [m[n]];
      assert NamesOf(more) == NamesOf(out) + [n];
    }
  }

  lemma {:induction false} VisitTidy(m: Classes, all: set<Name>, s: State, n: Name)
    requires Keyed(m) && Covers(m, all) && n in all && s.visited <= all && Tidy(m, s)
    ensures var t := Visit(m, all, s, n);
            Tidy(m, t) && n in t.visited + t.visiting
    decreases Left(all, s), 0
  {
    hide Covers, Left, SortNames, Lists, VisitClass;
    if n !in s.visited && n !in s.visiting {
      LeftShrinks(all, s, n);
      VisitClassTidy(m, all, Opening(s, n), n);
    }
  }

  lemma {:induction false} VisitClassTidy(m: Classes, all: set<Name>, s: State, n: Name)
    requires Keyed(m) && Covers(m, all) && s.visited <= all && Tidy(m, s) && n in s.visiting
    ensures var t := VisitClass(m, all, s, n);
            t.visited !! t.visiting && Lists(m, t.out, t.visited + {n})
    decreases Left(all, s), |SortNames(if n in m then m[n].dependsOn else [])| + 2
  {
    hide Covers, Left, Lists, VisitAll;
    if n in m {
      DependenciesCovered(m, all, n);
      var deps := SortNames(m[n].dependsOn);
      VisitAllTidy(m, all, s, deps);
      ListsMore(m, VisitAll(m, all, s, deps).out, VisitAll(m, all, s, deps).visited, n);
    } else {
      ListsMore(m, s.out, s.visited, n);
    }
  }

  lemma {:induction false} VisitAllTidy(m: Classes, all: set<Name>, s: State, ns: seq<Name>)
    requires Keyed(m) && Covers(m, all) && s.visited <= all && Within(ns, all) && Tidy(m, s)
    ensures var t := VisitAll(m, all, s, ns);
            Tidy(m, t) && forall i :: 0 <= i < |ns| ==> ns[i] in t.visited + t.visiting
    decreases Left(all, s), 1 + |ns|
  {
    hide Covers, Left, Lists, Visit;
    if ns != [] {
      var t := Visit(m, all, s, ns[0]);
      VisitTidy(m, all, s, ns[0]);
      LeftFalls(all, s, t);
      VisitAllTidy(m, all, t, ns[1..]);
    }
  }

  /** On any input, cyclic or not: one class per distinct name, the last one given for it. */
  lemma {:induction false} EveryClassOnce(classes: seq<IrClass>)
    ensures Lists(ByName(classes), Sort(classes), ByName(classes).Keys)
  {
    hide Names, Covers, SortNames, Keys, ByName, VisitAll, Lists;
    var m := ByName(classes);
    var names := SortNames(Keys(classes));
    KeysCovered(classes);
    NothingListed(m);
    VisitAllTidy(m, Names(m), START, names);
    var t := VisitAll(m, Names(m), START, names);
    forall n | n in m ensures n in t.visited {
      assert n in Keys(classes) && n in multiset(names);
    }
    ListsSame(m, t.out, t.visited, m.Keys);
  }

  lemma {:induction false} NothingListed(m: Classes)
    ensures Lists(m, [], {})
  {
  }

  lemma {:induction false} ListsSame(m: Classes, out: seq<IrClass>, done: set<Name>, same: set<Name>)
    requires Lists(m, out, done) && forall n :: n in m ==> (n in done <==> n in same)
    ensures Lists(m, out, same)
  {
  }

  // ---------------------------------------------------------------- dependencies first

  /** Who depends on whom, by name. */
  function Dependence(m: Classes): Graph {
    map n | n in m :: m[n].dependsOn
  }

  /** Every known dependency of class `i` is listed before it. */
  predicate DepsBefore(m: Classes, out: seq<IrClass>, i: nat)
    requires i < |out|
  {
    forall j :: 0 <= j < |out[i].dependsOn| && out[i].dependsOn[j] in m ==> out[i].dependsOn[j] in NamesOf(out[..i])
  }

  predicate DepsFirst(m: Classes, out: seq<IrClass>) {
    forall i :: 0 <= i < |out| ==> DepsBefore(m, out, i)
  }

  /** Everything on the path leads to `n`. */
  ghost predicate Leads(m: Classes, path: set<Name>, n: Name) {
    forall v :: v in path ==> Reaches(Dependence(m), v, n)
  }

  lemma {:induction false} DepsFirstMore(m: Classes, out: seq<IrClass>, c: IrClass)
    requires DepsFirst(m, out)
    requires forall j :: 0 <= j < |c.dependsOn| && c.dependsOn[j] in m ==> c.dependsOn[j] in NamesOf(out)
    ensures DepsFirst(m, out + [c])
  {
    var more := out + [c];
    forall i | 0 <= i < |more| ensures DepsBefore(m, more, i) {
      if i < |out| {
        assert DepsBefore(m, out, i) && more[..i] == out[..i];
      } else {
        assert more[..i] == out;
      }
    }
  }

  lemma {:induction false} VisitOrders(m: Classes, all: set<Name>, s: State, n: Name)
    requires Keyed(m) && Covers(m, all) && n in all && s.visited <= all && Tidy(m, s)
    requires !Cyclic(Dependence(m)) && Leads(m, s.visiting, n) && DepsFirst(m, s.out)
    ensures DepsFirst(m, Visit(m, all, s, n).out) && n in Visit(m, all, s, n).visited
    decreases Left(all, s), 0
  {
    hide Covers, Left, SortNames, Lists, DepsFirst, VisitClass, Reaches;
    if n !in s.visited {
      LeftShrinks(all, s, n);
      VisitClassOrders(m, all, Opening(s, n), n);
    }
  }

  lemma {:induction false} VisitClassOrders(m: Classes, all: set<Name>, s: State, n: Name)
    requires Keyed(m) && Covers(m, all) && s.visited <= all && Tidy(m, s) && n in s.visiting
    requires !Cyclic(Dependence(m)) && Leads(m, s.visiting - {n}, n) && DepsFirst(m, s.out)
    ensures DepsFirst(m, VisitClass(m, all, s, n).out)
    decreases Left(all, s), |SortNames(if n in m then m[n].dependsOn else [])| + 2
  {
    hide Covers, Left, Cyclic, DepsFirst, VisitAll, Reaches;
    if n in m {
      DependenciesCovered(m, all, n);
      var deps := SortNames(m[n].dependsOn);
      forall i | 0 <= i < |deps| ensures Leads(m, s.visiting, deps[i]) {
        LeadsOn(m, s.visiting, n, deps, i);
      }
      VisitAllOrders(m, all, s, deps);
      VisitAllTidy(m, all, s, deps);
      var t := VisitAll(m, all, s, deps);
      forall j | 0 <= j < |m[n].dependsOn| && m[n].dependsOn[j] in m ensures m[n].dependsOn[j] in NamesOf(t.out) {
        assert m[n].dependsOn[j] in multiset(deps);
      }
      DepsFirstMore(m, t.out, m[n]);
    }
  }

  lemma {:induction false} LeadsOn(m: Classes, path: set<Name>, n: Name, deps: seq<Name>, i: nat)
    requires n in m && i < |deps| && multiset(deps) == multiset(m[n].dependsOn) && Leads(m, path - {n}, n)
    ensures Leads(m, path, deps[i])
  {
    hide Reaches;
    var g := Dependence(m);
    assert deps[i] in multiset(m[n].dependsOn);
    ReachesByEdge(g, n, deps[i]);
    forall v | v in path ensures Reaches(g, v, deps[i]) {
      if v != n {
        ReachesThenEdge(g, v, n, deps[i]);
      }
    }
  }

  lemma {:induction false} VisitAllOrders(m: Classes, all: set<Name>, s: State, ns: seq<Name>)
    requires Keyed(m) && Covers(m, all) && s.visited <= all && Within(ns, all) && Tidy(m, s)
    requires !Cyclic(Dependence(m)) && DepsFirst(m, s.out) && forall i :: 0 <= i < |ns| ==> Leads(m, s.visiting, ns[i])
    ensures var t := VisitAll(m, all, s, ns);
            DepsFirst(m, t.out) && forall i :: 0 <= i < |ns| ==> ns[i] in t.visited
    decreases Left(all, s), 1 + |ns|
  {
    hide Covers, Left, Cyclic, Lists, DepsFirst, Visit, Leads;
    if ns != [] {
      var t := Visit(m, all, s, ns[0]);
      VisitTidy(m, all, s, ns[0]);
      VisitOrders(m, all, s, ns[0]);
      LeftFalls(all, s, t);
      VisitAllOrders(m, all, t, ns[1..]);
    }
  }

  /** In such a listing of all classes a known dependency is listed earlier. */
  lemma {:induction false} DependencyIsEarlier(m: Classes, out: seq<IrClass>, a: Name, b: Name)
    requires Lists(m, out, m.Keys) && DepsFirst(m, out) && b in m && Edge(Dependence(m), a, b)
    ensures a in NamesOf(out) && b in NamesOf(out)
    ensures Position(NamesOf(out), b) < Position(NamesOf(out), a)
  {
    var order := NamesOf(out);
    var i := Position(order, a);
    assert out[i] == m[a] && DepsBefore(m, out, i);
    assert b in NamesOf(out[..i]);
    var k :| 0 <= k < i && NamesOf(out[..i])[k] == b;
    assert order[k] == b;
  }

  lemma {:induction false} WalkIsEarlier(m: Classes, out: seq<IrClass>, p: seq<Name>, k: nat)
    requires Lists(m, out, m.Keys) && DepsFirst(m, out) && Walk(Dependence(m), p) && k < |p|
    requires forall i :: 0 <= i < |p| ==> p[i] in m && p[i] in NamesOf(out)
    ensures k > 0 ==> Position(NamesOf(out), p[k]) < Position(NamesOf(out), p[0])
    decreases k
  {
    hide Lists, DepsFirst, Position;
    if k > 0 {
      WalkIsEarlier(m, out, p, k - 1);
      assert Edge(Dependence(m), p[k - 1], p[k]);
      DependencyIsEarlier(m, out, p[k - 1], p[k]);
    }
  }

  /** Everything on a cycle has a dependency, so it is known. */
  lemma {:induction false} CycleIsKnown(m: Classes, p: seq<Name>, a: Name)
    requires Joins(Dependence(m), p, a, a)
    ensures forall i :: 0 <= i < |p| ==> p[i] in m
  {
    forall i | 0 <= i < |p| ensures p[i] in m {
      var j := if i < |p| - 1 then i else 0;
      assert p[j] == p[i] && Edge(Dependence(m), p[j], p[j + 1]);
    }
  }

  lemma {:induction false} OrderLeavesNoCycle(m: Classes, out: seq<IrClass>)
    requires Lists(m, out, m.Keys) && DepsFirst(m, out)
    ensures !Cyclic(Dependence(m))
  {
    hide DepsFirst, Position, Distinct;
    if Cyclic(Dependence(m)) {
      var a :| Reaches(Dependence(m), a, a);
      var p :| Joins(Dependence(m), p, a, a);
      CycleIsKnown(m, p, a);
      assert forall i :: 0 <= i < |p| ==> p[i] in NamesOf(out);
      WalkIsEarlier(m, out, p, |p| - 1);
      assert false;
    }
  }

  /** Every class comes after all its known dependencies exactly when no class depends on
      itself, directly or through others. */
  lemma {:induction false} DependenciesComeFirst(classes: seq<IrClass>)
    ensures DepsFirst(ByName(classes), Sort(classes)) <==> !Cyclic(Dependence(ByName(classes)))
  {
    hide Names, Covers, SortNames, Keys, ByName, VisitAll, Lists, Cyclic, DepsBefore;
    var m := ByName(classes);
    if !Cyclic(Dependence(m)) {
      KeysCovered(classes);
      NothingListed(m);
      VisitAllOrders(m, Names(m), START, SortNames(Keys(classes)));
    } else if DepsFirst(m, Sort(classes)) {
      EveryClassOnce(classes);
      OrderLeavesNoCycle(m, Sort(classes));
      assert false;
    }
  }

  // ---------------------------------------------------------------- order independence

  lemma {:induction false} DistinctCount(ns: seq<Name>, n: Name)
    requires Distinct(ns)
    ensures multiset(ns)[n] == if n in ns then 1 else 0
  {
    if ns != [] {
      assert ns == [ns[0]] + ns[1..];
      DistinctCount(ns[1..], n);
    }
  }

  /** The same names with the same dependencies, listed in any order. */
  ghost predicate Alike(m: Classes, w: Classes) {
    && Keyed(m) && Keyed(w) && m.Keys == w.Keys
    && forall n :: n in m ==> multiset(m[n].dependsOn) == multiset(w[n].dependsOn)
  }

  predicate InStep(s: State, t: State) {
    s.visiting == t.visiting && s.visited == t.visited && NamesOf(s.out) == NamesOf(t.out)
  }

  lemma {:induction false} SameSort(a: seq<Name>, b: seq<Name>)
    requires multiset(a) == multiset(b)
    ensures SortNames(a) == SortNames(b)
  {
    SortSorted(a);
    SortSorted(b);
    SortedUnique(SortNames(a), SortNames(b));
  }

  lemma {:induction false} VisitInStep(m: Classes, w: Classes, all: set<Name>, s: State, t: State, n: Name)
    requires Alike(m, w) && Covers(m, all) && Covers(w, all) && n in all && s.visited <= all && InStep(s, t)
    ensures InStep(Visit(m, all, s, n), Visit(w, all, t, n))
    decreases Left(all, s), 0
  {
    hide Covers, Left, SortNames, VisitClass, Alike, NamesOf;
    if n !in s.visited && n !in s.visiting {
      LeftShrinks(all, s, n);
      VisitClassInStep(m, w, all, Opening(s, n), Opening(t, n), n);
    }
  }

  lemma {:induction false} VisitClassInStep(m: Classes, w: Classes, all: set<Name>, s: State, t: State, n: Name)
    requires Alike(m, w) && Covers(m, all) && Covers(w, all) && s.visited <= all && InStep(s, t)
    ensures InStep(VisitClass(m, all, s, n), VisitClass(w, all, t, n))
    decreases Left(all, s), |SortNames(if n in m then m[n].dependsOn else [])| + 2
  {
    hide Covers, Left, VisitAll, SortNames;
    if n in m {
      DependenciesCovered(m, all, n);
      DependenciesCovered(w, all, n);
      SameSort(m[n].dependsOn, w[n].dependsOn);
      var deps := SortNames(m[n].dependsOn);
      VisitAllInStep(m, w, all, s, t, deps);
      assert NamesOf(VisitAll(m, all, s, deps).out + [m[n]]) == NamesOf(VisitAll(m, all, s, deps).out) + [n];
      assert NamesOf(VisitAll(w, all, t, deps).out + [w[n]]) == NamesOf(VisitAll(w, all, t, deps).out) + [n];
    }
  }

  lemma {:induction false} VisitAllInStep(m: Classes, w: Classes, all: set<Name>, s: State, t: State, ns: seq<Name>)
    requires Alike(m, w) && Covers(m, all) && Covers(w, all) && s.visited <= all && Within(ns, all) && InStep(s, t)
    ensures InStep(VisitAll(m, all, s, ns), VisitAll(w, all, t, ns))
    decreases Left(all, s), 1 + |ns|
  {
    hide Covers, Left, Visit, Alike, NamesOf;
    if ns != [] {
      VisitInStep(m, w, all, s, t, ns[0]);
      LeftFalls(all, s, Visit(m, all, s, ns[0]));
      LeftFalls(all, t, Visit(w, all, t, ns[0]));
      VisitAllInStep(m, w, all, Visit(m, all, s, ns[0]), Visit(w, all, t, ns[0]), ns[1..]);
    }
  }

  lemma {:induction false} AlikeNames(m: Classes, w: Classes)
    requires Alike(m, w)
    ensures Names(m) <= Names(w)
  {
    forall n, i | n in m && 0 <= i < |m[n].dependsOn| ensures m[n].dependsOn[i] in Names(w) {
      assert m[n].dependsOn[i] in multiset(w[n].dependsOn);
      var j :| 0 <= j < |w[n].dependsOn| && w[n].dependsOn[j] == m[n].dependsOn[i];
    }
  }

  /** The order of the output depends on the names and on who depends on whom, not on the
      order in which classes or their dependencies are given. */
  lemma {:induction false} OrderOfInputIsIrrelevant(a: seq<IrClass>, b: seq<IrClass>)
    requires Alike(ByName(a), ByName(b))
    ensures NamesOf(Sort(a)) == NamesOf(Sort(b))
    ensures ByName(a) == ByName(b) ==> Sort(a) == Sort(b)
  {
    hide Names, Covers, SortNames, Keys, ByName, VisitAll, NamesOf;
    AlikeNames(ByName(a), ByName(b));
    AlikeNames(ByName(b), ByName(a));
    assert Names(ByName(a)) == Names(ByName(b));
    SameKeys(a, b);
    SameSort(Keys(a), Keys(b));
    KeysCovered(a);
    KeysCovered(b);
    VisitAllInStep(ByName(a), ByName(b), Names(ByName(a)), START, START, SortNames(Keys(a)));
  }

  lemma {:induction false} SameKeys(a: seq<IrClass>, b: seq<IrClass>)
    requires ByName(a).Keys == ByName(b).Keys
    ensures multiset(Keys(a)) == multiset(Keys(b))
  {
    hide Keys, ByName;
    forall n ensures multiset(Keys(a))[n] == multiset(Keys(b))[n] {
      DistinctCount(Keys(a), n);
      DistinctCount(Keys(b), n);
      assert n in ByName(a) <==> n in ByName(a).Keys;
      assert n in ByName(b) <==> n in ByName(b).Keys;
    }
  }

  // ---------------------------------------------------------------- name order of the output

  /** The two names first differ at `i`, where `a` is smaller. */
  predicate SmallerAt(a: Name, b: Name, i: nat) {
    i < |a| && i < |b| && a[..i] == b[..i] && a[i] < b[i]
  }

  lemma {:induction false} SmallerInTails(a: Name, b: Name, i: nat)
    requires a != [] && b != [] && a[0] == b[0]
    ensures SmallerAt(a[1..], b[1..], i) <==> SmallerAt(a, b, i + 1)
  {
    if i < |a| - 1 && i < |b| - 1 {
      assert a[..i + 1] == [a[0]] + a[1..][..i] && b[..i + 1] == [b[0]] + b[1..][..i];
      assert a[..i + 1][1..] == a[1..][..i] && b[..i + 1][1..] == b[1..][..i];
    }
  }

  lemma {:induction false} SmallerAtFirst(a: Name, b: Name, i: nat)
    ensures SmallerAt(a, b, i) && i > 0 ==> a[0] == b[0]
  {
    if 0 < i < |a| && i < |b| {
      assert a[..i][0] == a[0] && b[..i][0] == b[0];
    }
  }

  /** `Below` is the lexicographic order: a prefix, or smaller where the two first differ. */
  lemma {:induction false} BelowIsLexicographic(a: Name, b: Name)
    ensures Below(a, b) <==> a <= b || exists i :: SmallerAt(a, b, i)
    decreases |a|
  {
    hide SmallerAt;
    if a == [] || b == [] {
      NoneSmaller(a, b);
    } else if a[0] == b[0] {
      var c, d := a[1..], b[1..];
      BelowIsLexicographic(c, d);
      assert a == [a[0]] + c && b == [b[0]] + d;
      assert a <= b <==> c <= d;
      forall i: nat ensures SmallerAt(c, d, i) <==> SmallerAt(a, b, i + 1) {
        SmallerInTails(a, b, i);
      }
      assert !SmallerAt(a, b, 0) by {
        NotAtFirst(a, b);
      }
      forall i: nat | SmallerAt(a, b, i) ensures i > 0 && SmallerAt(c, d, i - 1) {
      }
    } else {
      forall i: nat | SmallerAt(a, b, i) ensures i == 0 {
        SmallerAtFirst(a, b, i);
      }
      DecidedAtFirst(a, b);
    }
  }

  lemma {:induction false} NoneSmaller(a: Name, b: Name)
    requires a == [] || b == []
    ensures forall i :: !SmallerAt(a, b, i)
  {
  }

  lemma {:induction false} NotAtFirst(a: Name, b: Name)
    requires a != [] && b != [] && a[0] == b[0]
    ensures !SmallerAt(a, b, 0)
  {
  }

  lemma {:induction false} DecidedAtFirst(a: Name, b: Name)
    requires a != [] && b != [] && a[0] != b[0]
    ensures SmallerAt(a, b, 0) <==> a[0] < b[0]
    ensures !(a <= b)
  {
    assert a[..0] == b[..0];
  }

  /** The search gets from `r` to `n` along dependencies, or `r` is `n`. */
  ghost predicate Finds(m: Classes, r: Name, n: Name) {
    r == n || Reaches(Dependence(m), r, n)
  }

  /** Whatever a visit adds to the output is found from its root. */
  ghost predicate Adds(m: Classes, root: Name, s: State, t: State) {
    s.out <= t.out && forall i :: |s.out| <= i < |t.out| ==> Finds(m, root, t.out[i].className)
  }

  lemma {:induction false} VisitFinds(m: Classes, all: set<Name>, s: State, n: Name, root: Name)
    requires Keyed(m) && Covers(m, all) && n in all && s.visited <= all && Finds(m, root, n)
    ensures Adds(m, root, s, Visit(m, all, s, n))
    decreases Left(all, s), 0
  {
    hide Covers, Left, SortNames, VisitClass, Finds;
    if n !in s.visited && n !in s.visiting {
      LeftShrinks(all, s, n);
      VisitClassFinds(m, all, Opening(s, n), n, root);
    }
  }

  lemma {:induction false} VisitClassFinds(m: Classes, all: set<Name>, s: State, n: Name, root: Name)
    requires Keyed(m) && Covers(m, all) && s.visited <= all && Finds(m, root, n)
    ensures Adds(m, root, s, VisitClass(m, all, s, n))
    decreases Left(all, s), |SortNames(if n in m then m[n].dependsOn else [])| + 2
  {
    hide Covers, Left, VisitAll, Finds;
    if n in m {
      DependenciesCovered(m, all, n);
      var deps := SortNames(m[n].dependsOn);
      forall i | 0 <= i < |deps| ensures Finds(m, root, deps[i]) {
        assert deps[i] in multiset(m[n].dependsOn);
        FindsOn(m, root, n, deps[i]);
      }
      VisitAllFinds(m, all, s, deps, root);
    }
  }

  lemma {:induction false} FindsOn(m: Classes, root: Name, n: Name, d: Name)
    requires n in m && Finds(m, root, n) && d in m[n].dependsOn
    ensures Finds(m, root, d)
  {
    hide Reaches;
    if root == n {
      ReachesByEdge(Dependence(m), n, d);
    } else {
      ReachesThenEdge(Dependence(m), root, n, d);
    }
  }

  lemma {:induction false} VisitAllFinds(m: Classes, all: set<Name>, s: State, ns: seq<Name>, root: Name)
    requires Keyed(m) && Covers(m, all) && s.visited <= all && Within(ns, all)
    requires forall i :: 0 <= i < |ns| ==> Finds(m, root, ns[i])
    ensures Adds(m, root, s, VisitAll(m, all, s, ns))
    decreases Left(all, s), 1 + |ns|
  {
    hide Covers, Left, Visit, Finds;
    if ns != [] {
      var t := Visit(m, all, s, ns[0]);
      VisitFinds(m, all, s, ns[0], root);
      LeftFalls(all, s, t);
      VisitAllFinds(m, all, t, ns[1..], root);
    }
  }

  /** Some known class from which the search finds `a` is not above `b`. */
  ghost predicate Ahead(m: Classes, a: Name, b: Name) {
    exists r :: r in m && Finds(m, r, a) && Below(r, b)
  }

  ghost predicate InOrder(m: Classes, out: seq<IrClass>) {
    forall i, j :: 0 <= i < j < |out| ==> Ahead(m, out[i].className, out[j].className)
  }

  ghost predicate FoundFrom(m: Classes, roots: seq<Name>, n: Name) {
    exists k :: 0 <= k < |roots| && Finds(m, roots[k], n)
  }

  /** Everything listed was found from one of the roots visited so far. */
  ghost predicate Rooted(m: Classes, out: seq<IrClass>, roots: seq<Name>) {
    forall i :: 0 <= i < |out| ==> FoundFrom(m, roots, out[i].className)
  }

  lemma {:induction false} RootsInOrder(m: Classes, all: set<Name>, s: State, before: seq<Name>, ns: seq<Name>)
    requires Keyed(m) && Covers(m, all) && s.visited <= all && Within(ns, all) && Tidy(m, s) && s.visiting == {}
    requires Sorted(before + ns) && (forall n :: n in m <==> n in before + ns)
    requires (forall n :: n in before ==> n in s.visited) && Rooted(m, s.out, before) && InOrder(m, s.out)
    ensures InOrder(m, VisitAll(m, all, s, ns).out)
    decreases |ns|
  {
    hide Covers, Visit, Finds, Below, Lists, Ahead, Sorted, Rooted, InOrder;
    if ns != [] {
      var t := Visit(m, all, s, ns[0]);
      VisitTidy(m, all, s, ns[0]);
      FoundFromItself(m, ns[0]);
      VisitFinds(m, all, s, ns[0], ns[0]);
      OneRootMore(m, s, t, before, ns);
      assert before + ns == (before + [ns[0]]) + ns[1..];
      RootsInOrder(m, all, t, before + [ns[0]], ns[1..]);
    }
  }

  lemma {:induction false} FoundFromItself(m: Classes, n: Name)
    ensures Finds(m, n, n)
  {
  }

  lemma {:induction false} RootedMore(m: Classes, s: State, t: State, before: seq<Name>, root: Name)
    requires Adds(m, root, s, t) && Rooted(m, s.out, before)
    ensures Rooted(m, t.out, before + [root])
  {
    hide Finds;
    var roots := before + [root];
    forall i | 0 <= i < |t.out| ensures FoundFrom(m, roots, t.out[i].className) {
      if i < |s.out| {
        assert FoundFrom(m, before, s.out[i].className);
        var k :| 0 <= k < |before| && Finds(m, before[k], s.out[i].className);
        assert t.out[i] == s.out[i] && roots[k] == before[k];
      } else {
        assert roots[|before|] == root;
      }
    }
  }

  lemma {:induction false} OneRootMore(m: Classes, s: State, t: State, before: seq<Name>, ns: seq<Name>)
    requires ns != [] && Lists(m, s.out, s.visited) && Lists(m, t.out, t.visited) && Adds(m, ns[0], s, t)
    requires Sorted(before + ns) && (forall n :: n in m <==> n in before + ns)
    requires (forall n :: n in before ==> n in s.visited) && Rooted(m, s.out, before) && InOrder(m, s.out)
    ensures Rooted(m, t.out, before + [ns[0]]) && InOrder(m, t.out)
  {
    hide Finds, Below, Ahead, Lists;
    var roots := before + [ns[0]];
    RootedMore(m, s, t, before, ns[0]);
    forall i, j | 0 <= i < j < |t.out| ensures Ahead(m, t.out[i].className, t.out[j].className) {
      if j < |s.out| {
        assert t.out[i] == s.out[i] && t.out[j] == s.out[j];
      } else {
        var p := StillWaiting(m, s, t, before, ns, j);
        assert FoundFrom(m, roots, t.out[i].className);
        var k :| 0 <= k < |roots| && Finds(m, roots[k], t.out[i].className);
        assert (before + ns)[k] == roots[k] && roots[k] in before + ns;
        BelowOrder(roots[k], roots[k], []);
        assert Below(roots[k], t.out[j].className);
        AheadBy(m, roots[k], t.out[i].className, t.out[j].className);
      }
    }
  }

  lemma {:induction false} AheadBy(m: Classes, r: Name, a: Name, b: Name)
    requires r in m && Finds(m, r, a) && Below(r, b)
    ensures Ahead(m, a, b)
  {
  }

  lemma {:induction false} NotListedTwice(m: Classes, s: State, t: State, j: nat)
    requires Lists(m, s.out, s.visited) && Lists(m, t.out, t.visited) && s.out <= t.out && |s.out| <= j < |t.out|
    ensures t.out[j].className !in s.visited
  {
    var c := t.out[j].className;
    forall i | 0 <= i < |s.out| ensures NamesOf(s.out)[i] != c {
      assert s.out[i] == t.out[i] && NamesOf(t.out)[i] != NamesOf(t.out)[j];
    }
  }

  /** A class listed only now is at or after the root being visited. */
  lemma {:induction false} StillWaiting(m: Classes, s: State, t: State, before: seq<Name>, ns: seq<Name>, j: nat) returns (p: nat)
    requires ns != [] && Lists(m, s.out, s.visited) && Lists(m, t.out, t.visited) && s.out <= t.out && |s.out| <= j < |t.out|
    requires (forall n :: n in m <==> n in before + ns) && (forall n :: n in before ==> n in s.visited)
    ensures |before| <= p < |before + ns| && (before + ns)[p] == t.out[j].className
  {
    var c := t.out[j].className;
    assert c in m && c in before + ns;
    p :| 0 <= p < |before + ns| && (before + ns)[p] == c;
    if p < |before| {
      assert before[p] == c && c in s.visited;
      NotListedTwice(m, s, t, j);
      assert false;
    }
  }

  /** Classes come in name order except for what a dependency pulls forward: ahead of a class
      there are only classes found from names not above it. */
  lemma {:induction false} NameOrder(classes: seq<IrClass>)
    ensures InOrder(ByName(classes), Sort(classes))
  {
    hide Names, Covers, SortNames, Keys, ByName, VisitAll, Lists, Below, Ahead, Sorted;
    var m := ByName(classes);
    var names := SortNames(Keys(classes));
    KeysCovered(classes);
    NothingListed(m);
    SortSorted(Keys(classes));
    forall n ensures n in m <==> n in [] + names {
      assert n in multiset(names) <==> n in multiset(Keys(classes));
    }
    assert [] + names == names;
    RootsInOrder(m, Names(m), START, [], names);
  }

  /** A class no known class depends on is not above anything listed after it; so classes
      without known dependencies come out ascending. */
  lemma {:induction false} IndependentAscend(classes: seq<IrClass>, i: nat, j: nat)
    requires i < j < |Sort(classes)|
    requires forall n :: n in ByName(classes) ==> Sort(classes)[i].className !in ByName(classes)[n].dependsOn
    ensures Below(Sort(classes)[i].className, Sort(classes)[j].className)
  {
    hide ByName, Sort, Below, Reaches;
    var m, a, b := ByName(classes), Sort(classes)[i].className, Sort(classes)[j].className;
    NameOrder(classes);
    assert Ahead(m, a, b);
    var r :| r in m && Finds(m, r, a) && Below(r, b);
    if r != a {
      NobodyReaches(m, r, a);
      assert false;
    }
  }

  lemma {:induction false} NobodyReaches(m: Classes, r: Name, a: Name)
    requires forall n :: n in m ==> a !in m[n].dependsOn
    ensures !Reaches(Dependence(m), r, a)
  {
    forall p | |p| >= 2 && p[0] == r && p[|p| - 1] == a ensures !Walk(Dependence(m), p) {
      assert !Edge(Dependence(m), p[|p| - 2], p[|p| - 1]);
    }
  }

  // ---------------------------------------------------------------- the program

  class Sorter {
    const byName: Classes
    const all: set<Name>
    var visiting: set<Name>
    var visited: set<Name>
    var out: seq<IrClass>

    function Now(): State
      reads this
    {
      State(visiting, visited, out)
    }

    constructor (m: Classes)
      ensures byName == m && all == Names(m) && Now() == START
    {
      byName, all, visiting, visited, out := m, Names(m), {}, {}, [];
    }

    method Explore(name: Name)
      requires Covers(byName, all) && name in all && visited <= all
      modifies this
      ensures Now() == Visit(byName, all, old(Now()), name)
      decreases Left(all, Now()), 0
    {
      hide Covers, Left, SortNames, VisitClass;
      if name in visited {
        return;
      }
      if name in visiting {
        return;
      }
      LeftShrinks(all, Now(), name);
      visiting := visiting + {name};
      assert Now() == Opening(old(Now()), name);
      ExploreClass(name);
      visiting := visiting - {name};
      visited := visited + {name};
    }

    method ExploreClass(name: Name)
      requires Covers(byName, all) && visited <= all
      modifies this
      ensures Now() == VisitClass(byName, all, old(Now()), name)
      decreases Left(all, Now()), |SortNames(if name in byName then byName[name].dependsOn else [])| + 2
    {
      hide Covers, Left, VisitAll;
      if name in byName {
        DependenciesCovered(byName, all, name);
        ExploreAll(SortNames(byName[name].dependsOn));
        out := out + [byName[name]];
      }
    }

    method ExploreAll(names: seq<Name>)
      requires Covers(byName, all) && visited <= all && Within(names, all)
      modifies this
      ensures Now() == VisitAll(byName, all, old(Now()), names)
      decreases Left(all, Now()), 1 + |names|
    {
      hide Covers, Left, Visit;
      assert names[0..] == names;
      for i := 0 to |names|
        invariant Grows(all, old(Now()), Now())
        invariant VisitAll(byName, all, old(Now()), names) == VisitAll(byName, all, Now(), names[i..])
      {
        LeftFalls(all, old(Now()), Now());
        assert names[i..][0] == names[i] && names[i..][1..] == names[i + 1..];
        Explore(names[i]);
      }
    }
  }

  /** `topoSortClasses`. */
  method TopoSortClasses(classes: seq<IrClass>) returns (out: seq<IrClass>)
    ensures out == Sort(classes)
    ensures Lists(ByName(classes), out, ByName(classes).Keys)
    ensures DepsFirst(ByName(classes), out) <==> !Cyclic(Dependence(ByName(classes)))
  {
    hide Covers, SortNames, Keys, ByName, VisitAll, Lists, DepsFirst, Cyclic, Dependence, Names;
    var sorter := new Sorter(ByName(classes));
    KeysCovered(classes);
    sorter.ExploreAll(SortNames(Keys(classes)));
    out := sorter.out;
    EveryClassOnce(classes);
    DependenciesComeFirst(classes);
  }
}
