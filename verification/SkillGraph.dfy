/**
 The Skill dependency graph (agent/brain_skills.go:229-273, 470-528): the depth-first search
 that accepts a catalog, the one that orders a selection, and the one that closes a request
 under its dependencies.
 */
module SkillGraph {
  import opened Domain
  import opened Sequences
  import opened Sorting

  datatype Skill = Skill(requires_: seq<string>, conflicts: seq<string>, mandatory: bool, phases: seq<Phase>)

  type Catalog = map<string, Skill>

  // ---------------------------------------------------------------- graphs, paths, cycles

  /** For each node, the nodes a search follows from it, in the order in which it follows them. */
  type Graph = map<string, seq<string>>

  predicate Closed(g: Graph) {
    forall id, d :: id in g && d in g[id] ==> d in g
  }

  /** A walk along the edges. */
  predicate Path(g: Graph, p: seq<string>) {
    && p != [] && (forall i :: 0 <= i < |p| ==> p[i] in g)
    && (forall i :: 0 <= i < |p| - 1 ==> p[i + 1] in g[p[i]])
  }

  predicate Cycle(g: Graph, p: seq<string>) {
    Path(g, p) && |p| >= 2 && p[0] == p[|p| - 1]
  }

  ghost predicate Acyclic(g: Graph) {
    forall p :: !Cycle(g, p)
  }

  ghost predicate Reaches(g: Graph, a: string, b: string) {
    exists p :: Path(g, p) && p[0] == a && p[|p| - 1] == b
  }

  /** Every element comes after all of its dependencies and none comes twice. */
  predicate DependencyOrder(g: Graph, order: seq<string>) {
    && Distinct(order) && (forall i :: 0 <= i < |order| ==> order[i] in g)
    && (forall i, d :: 0 <= i < |order| && d in g[order[i]] ==> d in order[..i])
  }

  // ---------------------------------------------------------------- the search as a function

  /** Visit one node; `stack` holds the nodes being visited, None reports a cycle. */
  function Visit(g: Graph, stack: seq<string>, order: seq<string>, id: string): Option<seq<string>>
    requires Closed(g) && id in g
    decreases |g.Keys - Elements(stack)|, 0
  {
    if id in stack then None
    else if id in order then Some(order)
    else
      Shrinks(g, stack, id);
      var before := VisitAll(g, stack + [id], order, g[id]);
      if before.None? then None else Some(before.value + [id])
  }

  function VisitAll(g: Graph, stack: seq<string>, order: seq<string>, ids: seq<string>): Option<seq<string>>
    requires Closed(g) && forall x :: x in ids ==> x in g
    decreases |g.Keys - Elements(stack)|, |ids|
  {
    if ids == [] then Some(order)
    else
      var first := Visit(g, stack, order, ids[0]);
      if first.None? then None else VisitAll(g, stack, first.value, ids[1..])
  }

  lemma Shrinks(g: Graph, stack: seq<string>, id: string)
    requires id in g && id !in stack
    ensures |g.Keys - Elements(stack + [id])| < |g.Keys - Elements(stack)|
  {
    assert g.Keys - Elements(stack + [id]) == g.Keys - Elements(stack) - {id};
    assert id in g.Keys - Elements(stack);
  }

  /** The search over a whole graph, its nodes taken in any order. */
  function Search(g: Graph, names: seq<string>): Option<seq<string>>
    requires Closed(g) && Elements(names) == g.Keys
  {
    VisitAll(g, [], [], names)
  }

  // ---------------------------------------------------------------- soundness: an answer is a dependency order

  ghost predicate Open(stack: seq<string>, order: seq<string>) {
    forall x :: x in order ==> x !in stack
  }

  /** The answer extends the order by `id` and by nodes that are not being visited. */
  ghost predicate Extends(g: Graph, stack: seq<string>, order: seq<string>, result: seq<string>) {
    order <= result && DependencyOrder(g, result) && Open(stack, result)
  }

  lemma {:induction false} VisitSound(g: Graph, stack: seq<string>, order: seq<string>, id: string)
    requires Closed(g) && id in g && DependencyOrder(g, order) && Open(stack, order)
    requires Visit(g, stack, order, id).Some?
    ensures Extends(g, stack, order, Visit(g, stack, order, id).value)
    ensures id in Visit(g, stack, order, id).value
    decreases |g.Keys - Elements(stack)|, 0
  {
    if id !in order {
      Shrinks(g, stack, id);
      var ids := g[id];
      VisitAllSound(g, stack + [id], order, ids);
      var before := VisitAll(g, stack + [id], order, ids).value;
      assert id in stack + [id];
      assert (before + [id])[..|before|] == before;
      forall i, d | 0 <= i < |before| + 1 && d in g[(before + [id])[i]]
        ensures d in (before + [id])[..i]
      {
        if i < |before| {
          assert (before + [id])[..i] == before[..i];
        }
      }
    }
  }

  lemma {:induction false} VisitAllSound(g: Graph, stack: seq<string>, order: seq<string>, ids: seq<string>)
    requires Closed(g) && (forall x :: x in ids ==> x in g)
    requires (forall x :: x in order ==> x !in stack) && DependencyOrder(g, order)
    requires VisitAll(g, stack, order, ids).Some?
    ensures Extends(g, stack, order, VisitAll(g, stack, order, ids).value)
    ensures forall x :: x in ids ==> x in VisitAll(g, stack, order, ids).value
    decreases |g.Keys - Elements(stack)|, |ids|
  {
    if ids != [] {
      VisitSound(g, stack, order, ids[0]);
      VisitAllSound(g, stack, Visit(g, stack, order, ids[0]).value, ids[1..]);
    }
  }

  // ---------------------------------------------------------------- completeness: no answer means a cycle

  lemma {:induction false} VisitFindsCycle(g: Graph, stack: seq<string>, order: seq<string>, id: string)
    returns (p: seq<string>)
    requires Closed(g) && id in g && Visit(g, stack, order, id).None?
    requires Path(g, stack + [id])
    ensures Cycle(g, p)
    decreases |g.Keys - Elements(stack)|, 0
  {
    if id in stack {
      var i :| 0 <= i < |stack| && stack[i] == id;
      p := (stack + [id])[i..];
    } else {
      Shrinks(g, stack, id);
      p := VisitAllFindsCycle(g, stack + [id], order, g[id]);
    }
  }

  lemma {:induction false} VisitAllFindsCycle(g: Graph, stack: seq<string>, order: seq<string>, ids: seq<string>)
    returns (p: seq<string>)
    requires Closed(g) && (forall x :: x in ids ==> x in g && Path(g, stack + [x]))
    requires VisitAll(g, stack, order, ids).None?
    ensures Cycle(g, p)
    decreases |g.Keys - Elements(stack)|, |ids|
  {
    var first := Visit(g, stack, order, ids[0]);
    if first.None? {
      p := VisitFindsCycle(g, stack, order, ids[0]);
    } else {
      p := VisitAllFindsCycle(g, stack, first.value, ids[1..]);
    }
  }

  // ---------------------------------------------------------------- a dependency order excludes cycles

  function PositionOf(order: seq<string>, x: string): (i: nat)
    requires x in order
    ensures i < |order| && order[i] == x
  {
    if order[0] == x then 0 else PositionOf(order[1..], x) + 1
  }

  /** Along a walk positions only fall. */
  lemma {:induction false} WalkFalls(g: Graph, order: seq<string>, p: seq<string>)
    requires DependencyOrder(g, order) && Elements(order) == g.Keys && Path(g, p)
    ensures p[0] in order && p[|p| - 1] in order
    ensures PositionOf(order, p[|p| - 1]) + |p| - 1 <= PositionOf(order, p[0])
    decreases |p|
  {
    assert forall x :: x in g ==> x in order;
    if |p| > 1 {
      WalkFalls(g, order, p[1..]);
      var i, j := PositionOf(order, p[0]), PositionOf(order, p[1]);
      assert p[1] in g[order[i]];
      assert p[1] in order[..i];
      var k :| 0 <= k < i && order[k] == p[1];
      assert j == k;
    }
  }

  lemma OrderExcludesCycles(g: Graph, order: seq<string>)
    requires DependencyOrder(g, order) && Elements(order) == g.Keys
    ensures Acyclic(g)
  {
    forall p
      ensures !Cycle(g, p)
    {
      if Cycle(g, p) {
        WalkFalls(g, order, p);
      }
    }
  }

  /**
   The search succeeds exactly when the graph has no cycle, whatever the order of its nodes,
   and its answer is then a permutation of the nodes with every dependency earlier.
   */
  lemma SearchIff(g: Graph, names: seq<string>)
    requires Closed(g) && Elements(names) == g.Keys
    ensures var r := Search(g, names);
            && (r.Some? <==> Acyclic(g))
            && (r.Some? ==> DependencyOrder(g, r.value) && Elements(r.value) == g.Keys && |r.value| == |g.Keys|)
  {
    var r := Search(g, names);
    if r.Some? {
      VisitAllSound(g, [], [], names);
      assert Elements(r.value) == g.Keys;
      DistinctIffSize(r.value);
      OrderExcludesCycles(g, r.value);
    } else {
      forall x | x in names
        ensures Path(g, [] + [x])
      {
        assert [] + [x] == [x];
      }
      var p := VisitAllFindsCycle(g, [], [], names);
    }
  }

  // ---------------------------------------------------------------- the search that updates maps

  /** The closures' shared state: what is being visited, what has been visited, and in which order it was finished. */
  class Visitor {
    const g: Graph
    var visiting: set<string>
    var visited: set<string>
    var out: seq<string>
    ghost var stack: seq<string>

    constructor (g: Graph)
      requires Closed(g)
      ensures this.g == g && Valid() && stack == [] && out == []
    {
      this.g := g;
      visiting, visited := {}, {};
      out, stack := [], [];
    }

    ghost predicate Valid()
      reads this
    {
      Closed(g) && visiting == Elements(stack) && visited == Elements(out)
    }

    method VisitNode(id: string) returns (ok: bool)
      requires Valid() && id in g
      modifies this`visiting, this`visited, this`out, this`stack
      ensures ok == Visit(g, old(stack), old(out), id).Some?
      ensures ok ==> Valid() && stack == old(stack) && out == Visit(g, old(stack), old(out), id).value
      decreases |g.Keys - Elements(stack)|
    {
      if id in visiting {
        return false;
      }
      if id in visited {
        return true;
      }
      Shrinks(g, stack, id);
      visiting := visiting + {id};
      stack := stack + [id];
      var k := 0;
      while k < |g[id]|
        invariant 0 <= k <= |g[id]| && Valid() && stack == old(stack) + [id]
        invariant VisitAll(g, stack, old(out), g[id]) == VisitAll(g, stack, out, g[id][k..])
      {
        assert g[id][k..][1..] == g[id][k + 1..];
        var accepted := VisitNode(g[id][k]);
        if !accepted {
          return false;
        }
        k := k + 1;
      }
      stack := stack[..|stack| - 1];
      visiting := visiting - {id};
      assert visiting == Elements(stack);
      visited := visited + {id};
      out := out + [id];
      ok := true;
    }

    /** The outer loop over all nodes; for a catalog the order is whatever the map iteration gives. */
    method VisitEach(names: seq<string>) returns (ok: bool)
      requires Valid() && stack == [] && out == [] && Elements(names) == g.Keys
      modifies this`visiting, this`visited, this`out, this`stack
      ensures ok == Search(g, names).Some?
      ensures ok ==> out == Search(g, names).value
    {
      var k := 0;
      while k < |names|
        invariant 0 <= k <= |names| && Valid() && stack == []
        invariant Search(g, names) == VisitAll(g, [], out, names[k..])
      {
        assert names[k..][1..] == names[k + 1..];
        assert names[k] in Elements(names);
        var accepted := VisitNode(names[k]);
        if !accepted {
          return false;
        }
        k := k + 1;
      }
      ok := true;
    }
  }

  // ---------------------------------------------------------------- catalogs

  /** Every Skill a package requires or conflicts with exists. */
  ghost predicate ReferencesKnown(c: Catalog) {
    forall id, d :: id in c && (d in c[id].requires_ || d in c[id].conflicts) ==> d in c
  }

  /** The dependencies as declared. */
  function Declared(c: Catalog): Graph {
    map id | id in c :: c[id].requires_
  }

  ghost predicate ValidCatalog(c: Catalog) {
    "brain-kernel" in c && ReferencesKnown(c) && Acyclic(Declared(c))
  }

  /** Accepts exactly the catalogs whose references all exist and whose requirements have no cycle, in any map order. */
  method ValidateCatalog(c: Catalog, maxSameToolRepeat: int, maxNoInformationStreak: int, names: seq<string>) returns (ok: bool)
    requires Elements(names) == c.Keys
    ensures ok <==> maxSameToolRepeat > 0 && maxNoInformationStreak > 0 && ValidCatalog(c)
  {
    if maxSameToolRepeat <= 0 || maxNoInformationStreak <= 0 || "brain-kernel" !in c {
      return false;
    }
    var k := 0;
    while k < |names|
      invariant 0 <= k <= |names|
      invariant forall i, d :: 0 <= i < k && (d in c[names[i]].requires_ || d in c[names[i]].conflicts) ==> d in c
    {
      assert names[k] in Elements(names);
      var pkg := c[names[k]];
      var j := 0;
      while j < |pkg.requires_|
        invariant 0 <= j <= |pkg.requires_|
        invariant forall i :: 0 <= i < j ==> pkg.requires_[i] in c
      {
        if pkg.requires_[j] !in c {
          return false;
        }
        j := j + 1;
      }
      j := 0;
      while j < |pkg.conflicts|
        invariant 0 <= j <= |pkg.conflicts|
        invariant forall i :: 0 <= i < j ==> pkg.conflicts[i] in c
      {
        if pkg.conflicts[j] !in c {
          return false;
        }
        j := j + 1;
      }
      k := k + 1;
    }
    assert forall id :: id in c ==> id in names;
    var visitor := new Visitor(Declared(c));
    ok := visitor.VisitEach(names);
    SearchIff(Declared(c), names);
  }

  // ---------------------------------------------------------------- ordering a selection

  function InScope(ids: seq<string>, scope: set<string>): (kept: seq<string>)
    ensures forall x :: x in kept <==> x in ids && x in scope
  {
    if ids == [] then []
    else if ids[0] in scope then [ids[0]] + InScope(ids[1..], scope) else InScope(ids[1..], scope)
  }

  /** The dependencies among the selected Skills, each list sorted. */
  function Selected(c: Catalog, scope: set<string>): Graph
    requires scope <= c.Keys
  {
    map id | id in scope :: InScope(SortStrings(c[id].requires_), scope)
  }

  lemma SelectedEdges(c: Catalog, scope: set<string>, a: string, b: string)
    requires scope <= c.Keys && a in scope
    ensures b in Selected(c, scope)[a] <==> b in c[a].requires_ && b in scope
  {
    SortStringsFacts(c[a].requires_);
  }

  lemma SelectedClosed(c: Catalog, scope: set<string>)
    requires scope <= c.Keys
    ensures Closed(Selected(c, scope))
  {
  }

  /** A selection from a valid catalog inherits that there is no cycle. */
  lemma SelectedAcyclic(c: Catalog, scope: set<string>)
    requires scope <= c.Keys && Acyclic(Declared(c))
    ensures Acyclic(Selected(c, scope))
  {
    forall p
      ensures !Cycle(Selected(c, scope), p)
    {
      if Cycle(Selected(c, scope), p) {
        forall i | 0 <= i < |p| - 1
          ensures p[i + 1] in Declared(c)[p[i]]
        {
          SelectedEdges(c, scope, p[i], p[i + 1]);
        }
        assert Cycle(Declared(c), p);
      }
    }
  }

  /** The order of a selection; None when its dependencies form a cycle. */
  function TopologicalOrder(c: Catalog, scope: set<string>, names: seq<string>): Option<seq<string>>
    requires scope <= c.Keys && Elements(names) == scope
  {
    SelectedClosed(c, scope);
    SortStringsFacts(names);
    assert Elements(SortStrings(names)) == scope;
    Search(Selected(c, scope), SortStrings(names))
  }

  method OrderSelection(c: Catalog, scope: set<string>, names: seq<string>) returns (r: Option<seq<string>>)
    requires scope <= c.Keys && Elements(names) == scope
    ensures r == TopologicalOrder(c, scope, names)
  {
    SelectedClosed(c, scope);
    SortStringsFacts(names);
    var sorted := SortStrings(names);
    assert Elements(sorted) == scope;
    var visitor := new Visitor(Selected(c, scope));
    var ok := visitor.VisitEach(sorted);
    r := if ok then Some(visitor.out) else None;
  }

  /** Every selected direct dependency comes earlier, every selected Skill comes exactly once. */
  ghost predicate Ordering(c: Catalog, scope: set<string>, order: seq<string>)
    requires scope <= c.Keys
  {
    && Distinct(order) && Elements(order) == scope
    && forall i, d :: 0 <= i < |order| && order[i] in scope && d in c[order[i]].requires_ && d in scope ==> d in order[..i]
  }

  lemma TopologicalOrderIff(c: Catalog, scope: set<string>, names: seq<string>)
    requires scope <= c.Keys && Elements(names) == scope
    ensures TopologicalOrder(c, scope, names).Some? <==> Acyclic(Selected(c, scope))
    ensures TopologicalOrder(c, scope, names).Some? ==> Ordering(c, scope, TopologicalOrder(c, scope, names).value)
    ensures Acyclic(Declared(c)) ==> TopologicalOrder(c, scope, names).Some?
  {
    SelectedClosed(c, scope);
    SortStringsFacts(names);
    assert Elements(SortStrings(names)) == scope;
    SearchIff(Selected(c, scope), SortStrings(names));
    if Acyclic(Declared(c)) {
      SelectedAcyclic(c, scope);
    }
    var r := TopologicalOrder(c, scope, names);
    if r.Some? {
      forall i, d | 0 <= i < |r.value| && r.value[i] in scope && d in c[r.value[i]].requires_ && d in scope
        ensures d in r.value[..i]
      {
        SelectedEdges(c, scope, r.value[i], d);
      }
    }
  }

  /** The answer does not depend on the order in which the selection was enumerated. */
  lemma OrderIsDeterministic(c: Catalog, scope: set<string>, names: seq<string>, others: seq<string>)
    requires scope <= c.Keys && Elements(names) == scope == Elements(others) && Distinct(names) && Distinct(others)
    ensures TopologicalOrder(c, scope, names) == TopologicalOrder(c, scope, others)
  {
    StringOrder();
    SameElements(names, others);
    SortIsCanonical(StringLeq, names, others);
  }

  // ---------------------------------------------------------------- closing a request under its dependencies

  /** The closure's shared state: everything seen so far. */
  class Collector {
    const g: Graph
    var seen: set<string>

    constructor (g: Graph)
      requires Closed(g)
      ensures this.g == g && seen == {}
    {
      this.g := g;
      seen := {};
    }

    method Collect(id: string)
      requires Closed(g) && id in g && seen <= g.Keys
      modifies this
      ensures old(seen) + {id} <= seen <= g.Keys
      ensures forall x, d :: x in seen - old(seen) && d in g[x] ==> d in seen
      ensures forall x :: x in seen - old(seen) ==> Reaches(g, id, x)
      decreases |g.Keys - seen|
    {
      if id in seen {
        return;
      }
      seen := seen + {id};
      assert g.Keys - seen == g.Keys - old(seen) - {id};
      SelfReaches(g, id);
      var k := 0;
      while k < |g[id]|
        invariant 0 <= k <= |g[id]| && old(seen) + {id} <= seen <= g.Keys
        invariant forall i :: 0 <= i < k ==> g[id][i] in seen
        invariant forall x, d :: x in seen - old(seen) - {id} && d in g[x] ==> d in seen
        invariant forall x :: x in seen - old(seen) ==> Reaches(g, id, x)
      {
        ghost var before := seen;
        SmallerRemainder(g.Keys, old(seen), seen, id);
        Collect(g[id][k]);
        forall x | x in seen - before
          ensures Reaches(g, id, x)
        {
          EdgeReaches(g, id, g[id][k], x);
        }
        k := k + 1;
      }
    }
  }

  lemma SmallerRemainder(all: set<string>, old_: set<string>, now: set<string>, id: string)
    requires old_ + {id} <= now <= all && id !in old_
    ensures |all - now| < |all - old_|
  {
    assert all - now <= all - old_ - {id};
    SubsetSize(all - now, all - old_ - {id});
  }

  lemma SelfReaches(g: Graph, id: string)
    requires id in g
    ensures Reaches(g, id, id)
  {
    assert Path(g, [id]);
  }

  lemma EdgeReaches(g: Graph, a: string, b: string, x: string)
    requires a in g && b in g[a] && Reaches(g, b, x)
    ensures Reaches(g, a, x)
  {
    var p :| Path(g, p) && p[0] == b && p[|p| - 1] == x;
    assert Path(g, [a] + p);
  }

  /** Whatever contains a node and all edges out of its members contains all that the node reaches. */
  lemma {:induction false} ClosedUnderReach(g: Graph, seen: set<string>, p: seq<string>)
    requires Path(g, p) && p[0] in seen && seen <= g.Keys
    requires forall x, d :: x in seen && d in g[x] ==> d in seen
    ensures p[|p| - 1] in seen
    decreases |p|
  {
    if |p| > 1 {
      ClosedUnderReach(g, seen, p[1..]);
    }
  }

  /** The closure of a request: what it reaches, dependencies first, the requested Skill last. */
  method DependencyClosure(c: Catalog, id: string) returns (order: seq<string>)
    requires ValidCatalog(c) && id in c
    ensures forall x :: x in order <==> Reaches(Declared(c), id, x)
    ensures Distinct(order) && order != [] && order[|order| - 1] == id
    ensures DependenciesFirst(c, order)
  {
    var collector := new Collector(Declared(c));
    collector.Collect(id);
    var seen := collector.seen;
    forall x
      ensures x in seen <==> Reaches(Declared(c), id, x)
    {
      if Reaches(Declared(c), id, x) {
        var p :| Path(Declared(c), p) && p[0] == id && p[|p| - 1] == x;
        ClosedUnderReach(Declared(c), seen, p);
      }
    }
    var names := Iterate(seen);
    var r := OrderSelection(c, seen, names);
    TopologicalOrderIff(c, seen, names);
    order := r.value;
    assert forall x :: x in order <==> x in Elements(order);
    SelfReaches(Declared(c), id);
    ClosureIsComplete(c, seen, order, id);
    ClosureEndsWith(c, order, id);
  }

  /** Every direct dependency is listed, and listed earlier. */
  ghost predicate DependenciesFirst(c: Catalog, order: seq<string>) {
    forall i, d :: 0 <= i < |order| && order[i] in c && d in c[order[i]].requires_ ==> d in order[..i]
  }

  lemma ClosureIsComplete(c: Catalog, seen: set<string>, order: seq<string>, id: string)
    requires ReferencesKnown(c) && seen <= c.Keys && Ordering(c, seen, order)
    requires forall x :: x in seen <==> Reaches(Declared(c), id, x)
    ensures DependenciesFirst(c, order)
  {
    forall i, d | 0 <= i < |order| && order[i] in c && d in c[order[i]].requires_
      ensures d in order[..i]
    {
      assert order[i] in Elements(order);
      ReachesFurther(Declared(c), id, order[i], d);
    }
  }

  /** A dependency order of everything one Skill reaches ends with that Skill. */
  lemma ClosureEndsWith(c: Catalog, order: seq<string>, id: string)
    requires DependenciesFirst(c, order) && Distinct(order) && id in order
    requires forall x :: x in order ==> Reaches(Declared(c), id, x)
    ensures order[|order| - 1] == id
  {
    var last := order[|order| - 1];
    assert last in order;
    var p :| Path(Declared(c), p) && p[0] == id && p[|p| - 1] == last;
    PathFalls(c, order, p);
  }

  lemma ReachesFurther(g: Graph, a: string, b: string, d: string)
    requires Closed(g) && Reaches(g, a, b) && b in g && d in g[b]
    ensures Reaches(g, a, d)
  {
    var p :| Path(g, p) && p[0] == a && p[|p| - 1] == b;
    assert Path(g, p + [d]);
  }

  lemma {:induction false} PathFalls(c: Catalog, order: seq<string>, p: seq<string>)
    requires DependenciesFirst(c, order) && Distinct(order) && Path(Declared(c), p) && p[0] in order
    ensures p[|p| - 1] in order && PositionOf(order, p[|p| - 1]) + |p| - 1 <= PositionOf(order, p[0])
    decreases |p|
  {
    if |p| > 1 {
      var i := PositionOf(order, p[0]);
      assert p[1] in c[p[0]].requires_;
      assert p[1] in order[..i];
      var k :| 0 <= k < i && order[k] == p[1];
      PathFalls(c, order, p[1..]);
    }
  }

  // ---------------------------------------------------------------- Skills that need nothing of each other

  lemma {:induction false} VisitAllFlat(g: Graph, order: seq<string>, ids: seq<string>)
    requires Closed(g) && (forall x :: x in ids ==> x in g && g[x] == []) && Distinct(ids) && forall x :: x in ids ==> x !in order
    ensures VisitAll(g, [], order, ids) == Some(order + ids)
    decreases |ids|
  {
    if ids != [] {
      assert ids[0] in ids;
      assert VisitAll(g, [ids[0]], order, []) == Some(order);
      assert [] + [ids[0]] == [ids[0]];
      assert Visit(g, [], order, ids[0]) == Some(order + [ids[0]]);
      assert forall x :: x in ids[1..] ==> x in ids && x != ids[0];
      VisitAllFlat(g, order + [ids[0]], ids[1..]);
      assert order + [ids[0]] + ids[1..] == order + ids;
    } else {
      assert order + ids == order;
    }
  }

  /** Selected Skills without dependencies among them come in the order of their IDs. */
  lemma IndependentSkillsAreSorted(c: Catalog, scope: set<string>, names: seq<string>)
    requires scope <= c.Keys && Elements(names) == scope && Distinct(names)
    requires forall id, d :: id in scope && d in c[id].requires_ ==> d !in scope
    ensures TopologicalOrder(c, scope, names).Some?
    ensures var order := TopologicalOrder(c, scope, names).value;
            && multiset(order) == multiset(names)
            && forall i, j :: 0 <= i < j < |order| ==> Precedes(order[i], order[j])
  {
    hide StringLeq, Precedes;
    var sorted, g := SortStrings(names), Selected(c, scope);
    SelectedClosed(c, scope);
    SortStringsFacts(names);
    assert Elements(sorted) == scope;
    StringOrder();
    SortOrders(StringLeq, names);
    DistinctIffSize(names);
    DistinctIffSize(sorted);
    assert |sorted| == |multiset(sorted)| == |multiset(names)| == |names|;
    forall x | x in sorted
      ensures x in g && g[x] == []
    {
      SortStringsFacts(c[x].requires_);
      assert x in Elements(sorted);
      assert Elements(g[x]) == {};
      NoElements(g[x]);
    }
    VisitAllFlat(g, [], sorted);
    assert [] + sorted == sorted;
    forall i, j | 0 <= i < j < |sorted|
      ensures Precedes(sorted[i], sorted[j])
    {
      StringLeqIff(sorted[i], sorted[j]);
    }
  }
}
