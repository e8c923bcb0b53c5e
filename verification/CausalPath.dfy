/**
 The strongest observed causal path of a pattern (reasoning/candidates.go:566-638): every
 non-extendable simple path of observed nodes from an admission node, and the best of them.
 The search works on any graph, cyclic ones included.
 */
module CausalPath {
  import opened Domain
  import opened Text
  import opened Sequences
  import opened Sorting
  import opened CausalModel

  /** What the walk sees: the observed nodes and the sorted children of each node. */
  datatype Graph = Graph(observed: set<string>, next: map<string, seq<string>>)

  function Next(g: Graph, id: string): seq<string> {
    if id in g.next then g.next[id] else []
  }

  function GraphOf(pattern: Pattern, evidence: seq<Item>): Graph {
    Graph(Observed(pattern, evidence), map id | id in Observed(pattern, evidence) :: Children(pattern, id))
  }

  // ---------------------------------------------------------------- the walk

  /** The children still to be expanded once `seen` holds the path so far. */
  function Open(g: Graph, seen: set<string>, ids: seq<string>): (kept: seq<string>)
    ensures forall x :: x in kept <==> x in ids && x in g.observed && x !in seen
    ensures kept == [] <==> forall x :: x in ids && x in g.observed ==> x in seen
  {
    if ids == [] then []
    else if ids[0] in g.observed && ids[0] !in seen then [ids[0]] + Open(g, seen, ids[1..])
    else Open(g, seen, ids[1..])
  }

  lemma Shrinks(g: Graph, seen: set<string>, id: string)
    requires id in g.observed && id !in seen
    ensures |g.observed - (seen + {id})| < |g.observed - seen|
  {
    assert g.observed - (seen + {id}) == g.observed - seen - {id};
  }

  lemma OpenStep(g: Graph, seen: set<string>, ids: seq<string>, k: nat)
    requires k < |ids|
    ensures Open(g, seen, ids[k..])
         == (if ids[k] in g.observed && ids[k] !in seen then [ids[k]] else []) + Open(g, seen, ids[k + 1..])
  {
    assert ids[k..][1..] == ids[k + 1..];
  }

  lemma WalkAllStep(g: Graph, path: seq<string>, seen: set<string>, id: string, rest: seq<string>)
    ensures WalkAll(g, path, seen, [id] + rest) == Walk(g, path, seen, id) + WalkAll(g, path, seen, rest)
  {
    assert ([id] + rest)[1..] == rest;
  }

  function Walk(g: Graph, path: seq<string>, seen: set<string>, id: string): seq<seq<string>>
    decreases |g.observed - seen|, 0
  {
    if id in seen || id !in g.observed then []
    else
      Shrinks(g, seen, id);
      var kids := Open(g, seen + {id}, Next(g, id));
      if kids == [] then (if |path| + 1 >= 2 then [path + [id]] else [])
      else WalkAll(g, path + [id], seen + {id}, kids)
  }

  function WalkAll(g: Graph, path: seq<string>, seen: set<string>, ids: seq<string>): seq<seq<string>>
    decreases |g.observed - seen|, |ids| + 1
  {
    if ids == [] then [] else Walk(g, path, seen, ids[0]) + WalkAll(g, path, seen, ids[1..])
  }

  /** The recursive closure of the source, appending to the shared list of paths. */
  class PathCollector {
    const g: Graph
    var paths: seq<seq<string>>

    constructor (g: Graph)
      ensures this.g == g && paths == []
    {
      this.g := g;
      paths := [];
    }

    method Visit(id: string, path: seq<string>, seen: set<string>)
      modifies this
      ensures paths == old(paths) + Walk(g, path, seen, id)
      decreases |g.observed - seen|, 0
    {
      if id in seen || id !in g.observed {
        return;
      }
      Shrinks(g, seen, id);
      var expanded := VisitChildren(path + [id], seen + {id}, Next(g, id));
      if !expanded && |path| + 1 >= 2 {
        paths := paths + [path + [id]];
      }
    }

    /** The loop over the children; true if any of them was walked into. */
    method VisitChildren(path: seq<string>, seen: set<string>, children: seq<string>) returns (expanded: bool)
      modifies this
      ensures paths == old(paths) + WalkAll(g, path, seen, Open(g, seen, children))
      ensures expanded <==> Open(g, seen, children) != []
      decreases |g.observed - seen|, 1
    {
      hide Walk, WalkAll, Open;
      expanded := false;
      var k := 0;
      ghost var all := old(paths) + WalkAll(g, path, seen, Open(g, seen, children));
      assert children[0..] == children;
      while k < |children|
        invariant 0 <= k <= |children|
        invariant expanded || Open(g, seen, children) == Open(g, seen, children[k..])
        invariant expanded ==> Open(g, seen, children) != []
        invariant paths + WalkAll(g, path, seen, Open(g, seen, children[k..])) == all
      {
        ghost var rest := Open(g, seen, children[k + 1..]);
        OpenStep(g, seen, children, k);
        if children[k] in g.observed && children[k] !in seen {
          WalkAllStep(g, path, seen, children[k], rest);
          Regroup(paths, Walk(g, path, seen, children[k]), WalkAll(g, path, seen, rest));
          expanded := true;
          Visit(children[k], path, seen);
        } else {
          assert [] + rest == rest;
        }
        k := k + 1;
      }
      assert children[k..] == [];
      NothingLeft(g, path, seen);
    }
  }

  lemma Regroup(a: seq<seq<string>>, b: seq<seq<string>>, c: seq<seq<string>>)
    ensures (a + b) + c == a + (b + c)
  {
  }

  lemma NothingLeft(g: Graph, path: seq<string>, seen: set<string>)
    ensures Open(g, seen, []) == [] && WalkAll(g, path, seen, []) == []
  {
  }

  // ---------------------------------------------------------------- exactly the maximal simple observed paths

  /** A walk without repetition over observed nodes along the graph's edges. */
  ghost predicate Simple(g: Graph, p: seq<string>) {
    && Distinct(p) && (forall i :: 0 <= i < |p| ==> p[i] in g.observed)
    && (forall i :: 0 <= i < |p| - 1 ==> p[i + 1] in Next(g, p[i]))
  }

  /** No observed child could be added at the end. */
  ghost predicate Stuck(g: Graph, p: seq<string>)
    requires p != []
  {
    forall x :: x in Next(g, p[|p| - 1]) && x in g.observed ==> x in p
  }

  ghost predicate Maximal(g: Graph, p: seq<string>) {
    |p| >= 2 && Simple(g, p) && Stuck(g, p)
  }

  lemma SimpleGrows(g: Graph, path: seq<string>, id: string)
    requires Simple(g, path) && (path != [] ==> id in Next(g, path[|path| - 1])) && id in g.observed && id !in path
    ensures Simple(g, path + [id])
  {
  }

  lemma MaximalIs(g: Graph, p: seq<string>)
    requires p != [] && Simple(g, p) && Stuck(g, p)
    ensures Maximal(g, p) <==> |p| >= 2
  {
  }

  lemma StuckWithoutKids(g: Graph, path: seq<string>)
    requires path != [] && Open(g, Elements(path), Next(g, path[|path| - 1])) == []
    ensures Stuck(g, path)
  {
  }

  lemma {:induction false} WalkSound(g: Graph, path: seq<string>, seen: set<string>, id: string, p: seq<string>)
    requires seen == Elements(path) && p in Walk(g, path, seen, id)
    requires Simple(g, path) && (path != [] ==> id in Next(g, path[|path| - 1]))
    ensures Maximal(g, p) && path + [id] <= p
    decreases |g.observed - seen|, 0
  {
    hide Simple, Stuck, Maximal;
    Shrinks(g, seen, id);
    var grown := path + [id];
    assert Elements(grown) == seen + {id};
    SimpleGrows(g, path, id);
    var kids := Open(g, seen + {id}, Next(g, id));
    if kids == [] {
      StuckWithoutKids(g, grown);
      MaximalIs(g, grown);
    } else {
      WalkAllSound(g, grown, seen + {id}, kids, p);
    }
  }

  lemma {:induction false} WalkAllSound(g: Graph, path: seq<string>, seen: set<string>, ids: seq<string>, p: seq<string>)
    requires seen == Elements(path) && p in WalkAll(g, path, seen, ids) && path != []
    requires Simple(g, path) && (forall x :: x in ids ==> x in Next(g, path[|path| - 1]))
    ensures Maximal(g, p) && path <= p
    decreases |g.observed - seen|, |ids| + 1
  {
    assert ids[0] in ids && forall x :: x in ids[1..] ==> x in ids;
    if p in Walk(g, path, seen, ids[0]) {
      WalkSound(g, path, seen, ids[0], p);
    } else {
      WalkAllSound(g, path, seen, ids[1..], p);
    }
  }

  lemma {:induction false} WalkComplete(g: Graph, path: seq<string>, seen: set<string>, id: string, p: seq<string>)
    requires seen == Elements(path) && Maximal(g, p) && path + [id] <= p
    ensures p in Walk(g, path, seen, id)
    decreases |g.observed - seen|, 0
  {
    var n := |path|;
    assert p[n] == id && p[..n] == path;
    assert id !in seen;
    Shrinks(g, seen, id);
    var grown := path + [id];
    assert Elements(grown) == seen + {id};
    var kids := Open(g, seen + {id}, Next(g, id));
    if |p| == n + 1 {
      assert p == grown;
      assert kids == [];
    } else {
      assert p[n + 1] in Next(g, p[n]);
      assert p[n + 1] !in grown;
      assert p[n + 1] in kids;
      WalkAllComplete(g, grown, seen + {id}, kids, p);
    }
  }

  lemma {:induction false} WalkAllComplete(g: Graph, path: seq<string>, seen: set<string>, ids: seq<string>, p: seq<string>)
    requires seen == Elements(path) && Maximal(g, p) && path <= p && |p| > |path| && p[|path|] in ids
    ensures p in WalkAll(g, path, seen, ids)
    decreases |g.observed - seen|, |ids| + 1
  {
    if p[|path|] == ids[0] {
      assert path + [ids[0]] <= p;
      WalkComplete(g, path, seen, ids[0], p);
    } else {
      WalkAllComplete(g, path, seen, ids[1..], p);
    }
  }

  /** The walks from the roots, in whatever order the roots come. */
  function Candidates(g: Graph, roots: seq<string>): seq<seq<string>> {
    if roots == [] then [] else Candidates(g, roots[..|roots| - 1]) + Walk(g, [], {}, roots[|roots| - 1])
  }

  /** The collected paths are exactly the maximal simple observed paths that start at a root. */
  lemma {:induction false} CandidatesAreMaximalPaths(g: Graph, roots: seq<string>, p: seq<string>)
    ensures p in Candidates(g, roots) <==> Maximal(g, p) && p[0] in roots
    decreases |roots|
  {
    if roots != [] {
      var last := roots[|roots| - 1];
      CandidatesAreMaximalPaths(g, roots[..|roots| - 1], p);
      if p in Walk(g, [], {}, last) {
        WalkSound(g, [], {}, last, p);
      }
      if Maximal(g, p) && p[0] == last {
        assert [] + [last] <= p;
        WalkComplete(g, [], {}, last, p);
      }
      assert roots == roots[..|roots| - 1] + [last];
    }
  }

  // ---------------------------------------------------------------- the best of them

  const NUL := '\U{0000}'

  function Join(p: seq<string>): string {
    if p == [] then "" else if |p| == 1 then p[0] else p[0] + [NUL] + Join(p[1..])
  }

  predicate EndsInSymptom(pattern: Pattern, p: seq<string>)
    requires p != []
  {
    var table := Table(pattern.nodes);
    p[|p| - 1] in table && EqualFold(table[p[|p| - 1]].kind, "symptom")
  }

  /** Symptom-ended before others, then the longer, then the one whose joined text comes first. */
  predicate Better(pattern: Pattern, p: seq<string>, q: seq<string>)
    requires p != [] && q != []
  {
    if EndsInSymptom(pattern, p) != EndsInSymptom(pattern, q) then EndsInSymptom(pattern, p)
    else if |p| != |q| then |p| > |q|
    else !StringLeq(Join(q), Join(p))
  }

  /** The head of a stable sort: the earliest path than which none is better. */
  function Best(pattern: Pattern, paths: seq<seq<string>>): (best: seq<string>)
    requires paths != [] && forall k :: 0 <= k < |paths| ==> paths[k] != []
    ensures best in paths && best != []
  {
    var last := paths[|paths| - 1];
    if |paths| == 1 then last
    else
      var before := Best(pattern, paths[..|paths| - 1]);
      if Better(pattern, last, before) then last else before
  }

  lemma BetterTransitive(pattern: Pattern, p: seq<string>, q: seq<string>, r: seq<string>)
    requires p != [] && q != [] && r != []
    ensures !Better(pattern, p, q) && !Better(pattern, q, r) ==> !Better(pattern, p, r)
    ensures Better(pattern, p, q) ==> !Better(pattern, q, p)
  {
    StringLeqTotal(Join(p), Join(q));
    if StringLeq(Join(r), Join(q)) && StringLeq(Join(q), Join(p)) {
      StringLeqTransitive(Join(r), Join(q), Join(p));
    }
  }

  /** Position k holds the newest node of this ID. */
  ghost predicate NewestNode(nodes: seq<CausalNode>, id: string, k: int) {
    0 <= k < |nodes| && nodes[k].id == id && forall j :: k < j < |nodes| ==> nodes[j].id != id
  }

  lemma {:induction false} TableIsNewest(nodes: seq<CausalNode>, id: string)
    ensures id in Table(nodes) <==> exists k :: NewestNode(nodes, id, k)
    ensures forall k :: NewestNode(nodes, id, k) ==> Table(nodes)[id] == nodes[k]
  {
    if nodes != [] {
      var n := |nodes| - 1;
      TableIsNewest(nodes[..n], id);
      if nodes[n].id == id {
        assert NewestNode(nodes, id, n);
      } else {
        forall k
          ensures NewestNode(nodes, id, k) <==> NewestNode(nodes[..n], id, k)
        {
        }
      }
    }
  }

  /** The path ends in a node of kind symptom. */
  ghost predicate SymptomAtEnd(pattern: Pattern, p: seq<string>)
    requires p != []
  {
    exists k :: NewestNode(pattern.nodes, p[|p| - 1], k) && EqualFold(pattern.nodes[k].kind, "symptom")
  }

  /** Nothing speaks for q over p: not the symptom at its end, then not its length, then not its text. */
  ghost predicate Leads(pattern: Pattern, p: seq<string>, q: seq<string>)
    requires p != [] && q != []
  {
    && (SymptomAtEnd(pattern, q) ==> SymptomAtEnd(pattern, p))
    && (SymptomAtEnd(pattern, q) == SymptomAtEnd(pattern, p) ==> |q| <= |p|)
    && (SymptomAtEnd(pattern, q) == SymptomAtEnd(pattern, p) && |q| == |p| ==> Precedes(Join(p), Join(q)))
  }

  lemma EndIsSymptom(pattern: Pattern, p: seq<string>)
    requires p != []
    ensures EndsInSymptom(pattern, p) <==> SymptomAtEnd(pattern, p)
  {
    hide Table, NewestNode;
    TableIsNewest(pattern.nodes, p[|p| - 1]);
  }

  /** Not being beaten, read off the paths. */
  lemma LeadsIff(pattern: Pattern, p: seq<string>, q: seq<string>)
    requires p != [] && q != []
    ensures Leads(pattern, p, q) <==> !Better(pattern, q, p)
  {
    hide EndsInSymptom, SymptomAtEnd, Precedes, StringLeq, Join;
    EndIsSymptom(pattern, p);
    EndIsSymptom(pattern, q);
    StringLeqIff(Join(p), Join(q));
  }

  lemma {:induction false} NothingBeatsBest(pattern: Pattern, paths: seq<seq<string>>, k: nat)
    requires k < |paths| && forall i :: 0 <= i < |paths| ==> paths[i] != []
    ensures !Better(pattern, paths[k], Best(pattern, paths))
    decreases |paths|
  {
    hide Better;
    var n := |paths| - 1;
    var best := Best(pattern, paths);
    if n == 0 {
      BetterTransitive(pattern, paths[k], best, best);
    } else {
      var before := Best(pattern, paths[..n]);
      if k < n {
        NothingBeatsBest(pattern, paths[..n], k);
      }
      BetterTransitive(pattern, paths[n], paths[n], paths[n]);
      BetterTransitive(pattern, paths[n], before, before);
      BetterTransitive(pattern, paths[k], before, paths[n]);
    }
  }

  // ---------------------------------------------------------------- ties

  predicate NulFree(p: seq<string>) {
    forall i :: 0 <= i < |p| ==> NUL !in p[i]
  }

  /** Without NUL in the IDs the joined text determines the path. */
  lemma {:induction false} JoinInjective(p: seq<string>, q: seq<string>)
    requires |p| == |q| && NulFree(p) && NulFree(q) && Join(p) == Join(q)
    ensures p == q
    decreases |p|
  {
    if |p| > 1 {
      var a, b := p[0] + [NUL] + Join(p[1..]), q[0] + [NUL] + Join(q[1..]);
      FirstSeparator(p[0], Join(p[1..]), q[0], Join(q[1..]));
      assert p == [p[0]] + p[1..] && q == [q[0]] + q[1..];
      JoinInjective(p[1..], q[1..]);
    }
  }

  lemma FirstSeparator(a: string, x: string, b: string, y: string)
    requires NUL !in a && NUL !in b && a + [NUL] + x == b + [NUL] + y
    ensures a == b && x == y
  {
    var s := a + [NUL] + x;
    assert s[|a|] == NUL && s[|b|] == NUL;
    assert forall k :: 0 <= k < |a| ==> s[k] == a[k];
    assert forall k :: 0 <= k < |b| ==> s[k] == b[k];
    assert |a| == |b|;
    assert s[..|a|] == a && s[..|b|] == b;
    assert s[|a| + 1..] == x && s[|b| + 1..] == y;
  }

  lemma TiesAreEqual(pattern: Pattern, p: seq<string>, q: seq<string>)
    requires p != [] && q != [] && NulFree(p) && NulFree(q) && !Better(pattern, p, q) && !Better(pattern, q, p)
    ensures p == q
  {
    StringLeqTotal(Join(p), Join(q));
    JoinInjective(p, q);
  }

  // ---------------------------------------------------------------- the whole function

  /** A maximal simple observed path that starts at an admission node. */
  ghost predicate Eligible(pattern: Pattern, evidence: seq<Item>, p: seq<string>) {
    Maximal(GraphOf(pattern, evidence), p) && p[0] in AdmissionNodes(pattern)
  }

  /** One of the paths the search may return: maximal, and beaten by no other maximal path from an admission node. */
  ghost predicate Strongest(pattern: Pattern, evidence: seq<Item>, p: seq<string>) {
    && p != [] && Eligible(pattern, evidence, p)
    && forall q :: q != [] && Eligible(pattern, evidence, q) ==> !Better(pattern, q, p)
  }

  lemma CandidatesAreEligible(pattern: Pattern, evidence: seq<Item>, roots: seq<string>, p: seq<string>)
    requires Elements(roots) == AdmissionNodes(pattern)
    ensures p in Candidates(GraphOf(pattern, evidence), roots) <==> Eligible(pattern, evidence, p)
    ensures Eligible(pattern, evidence, p) ==> p != []
  {
    hide AdmissionNodes, Candidates;
    CandidatesAreMaximalPaths(GraphOf(pattern, evidence), roots, p);
    if p != [] {
      assert p[0] in roots <==> p[0] in Elements(roots);
    }
  }

  lemma BestCandidateIsStrongest(pattern: Pattern, evidence: seq<Item>, roots: seq<string>)
    requires Elements(roots) == AdmissionNodes(pattern)
    ensures var paths := Candidates(GraphOf(pattern, evidence), roots);
            && (forall k :: 0 <= k < |paths| ==> paths[k] != [])
            && (paths == [] <==> forall p :: !Eligible(pattern, evidence, p))
            && (paths != [] ==> Strongest(pattern, evidence, Best(pattern, paths)))
  {
    hide Eligible, AdmissionNodes, GraphOf, Candidates, Better, Best;
    var paths := Candidates(GraphOf(pattern, evidence), roots);
    forall p
      ensures p in paths <==> Eligible(pattern, evidence, p)
      ensures Eligible(pattern, evidence, p) ==> p != []
    {
      CandidatesAreEligible(pattern, evidence, roots, p);
    }
    forall k | 0 <= k < |paths|
      ensures paths[k] != []
    {
      assert paths[k] in paths;
    }
    if paths != [] {
      assert paths[0] in paths;
      forall q | Eligible(pattern, evidence, q)
        ensures q != [] && !Better(pattern, q, Best(pattern, paths))
      {
        var k :| 0 <= k < |paths| && paths[k] == q;
        NothingBeatsBest(pattern, paths, k);
      }
    }
  }

  /** The answer does not depend on the iteration order of the admission map when no node ID contains NUL. */
  lemma StrongestIsUnique(pattern: Pattern, evidence: seq<Item>, p: seq<string>, q: seq<string>)
    requires Strongest(pattern, evidence, p) && Strongest(pattern, evidence, q)
    requires forall node :: node in pattern.nodes ==> NUL !in node.id
    ensures p == q
  {
    ObservedAreNodes(pattern, evidence);
    TiesAreEqual(pattern, p, q);
  }

  lemma ObservedAreNodes(pattern: Pattern, evidence: seq<Item>)
    ensures forall id :: id in Observed(pattern, evidence) ==> exists node :: node in pattern.nodes && node.id == id
  {
  }

  function ObservedBy(nodes: seq<CausalNode>, item: Item): set<string> {
    set node | node in nodes && Observes(item, node) :: node.id
  }

  lemma ObservedStep(pattern: Pattern, evidence: seq<Item>, item: Item)
    ensures Observed(pattern, evidence + [item]) == Observed(pattern, evidence) + ObservedBy(pattern.nodes, item)
  {
  }

  lemma ObservedByStep(nodes: seq<CausalNode>, node: CausalNode, item: Item)
    ensures ObservedBy(nodes + [node], item) == ObservedBy(nodes, item) + if Observes(item, node) then {node.id} else {}
  {
  }

  method CollectObservedBy(nodes: seq<CausalNode>, item: Item) returns (observed: set<string>)
    ensures observed == ObservedBy(nodes, item)
  {
    hide Observes;
    observed := {};
    var j := 0;
    while j < |nodes|
      invariant 0 <= j <= |nodes|
      invariant observed == ObservedBy(nodes[..j], item)
    {
      assert nodes[..j + 1] == nodes[..j] + [nodes[j]];
      ObservedByStep(nodes[..j], nodes[j], item);
      if Observes(item, nodes[j]) {
        observed := observed + {nodes[j].id};
      }
      j := j + 1;
    }
    assert nodes[..j] == nodes;
  }

  /** The nodes any evidence item observes. */
  method CollectObserved(pattern: Pattern, evidence: seq<Item>) returns (observed: set<string>)
    ensures observed == Observed(pattern, evidence)
  {
    hide Observes, ObservedBy;
    observed := {};
    var i := 0;
    while i < |evidence|
      invariant 0 <= i <= |evidence|
      invariant observed == Observed(pattern, evidence[..i])
    {
      assert evidence[..i + 1] == evidence[..i] + [evidence[i]];
      ObservedStep(pattern, evidence[..i], evidence[i]);
      var found := CollectObservedBy(pattern.nodes, evidence[i]);
      observed := observed + found;
      i := i + 1;
    }
    assert evidence[..i] == evidence;
  }

  /** The strongest fully observed path of a pattern; empty when no observed edge leaves an observed admission node. */
  method ObservedPatternPath(pattern: Pattern, evidence: seq<Item>) returns (path: seq<string>)
    ensures path == [] <==> forall p :: !Eligible(pattern, evidence, p)
    ensures path != [] ==> Strongest(pattern, evidence, path)
    ensures path != [] ==> forall q :: q != [] && Eligible(pattern, evidence, q) ==> Leads(pattern, path, q)
  {
    var observed := CollectObserved(pattern, evidence);
    var g := GraphOf(pattern, evidence);
    assert g.observed == observed;
    var collector := new PathCollector(g);
    var roots := Iterate(AdmissionNodes(pattern));
    var k := 0;
    while k < |roots|
      invariant 0 <= k <= |roots|
      invariant collector.paths == Candidates(g, roots[..k])
    {
      assert roots[..k + 1][..k] == roots[..k];
      collector.Visit(roots[k], [], {});
      k := k + 1;
    }
    assert roots[..k] == roots;
    BestCandidateIsStrongest(pattern, evidence, roots);
    path := if collector.paths == [] then [] else Best(pattern, collector.paths);
    if path != [] {
      StrongestLeads(pattern, evidence, path);
    }
  }

  lemma StrongestLeads(pattern: Pattern, evidence: seq<Item>, p: seq<string>)
    requires Strongest(pattern, evidence, p)
    ensures p != [] && forall q :: q != [] && Eligible(pattern, evidence, q) ==> Leads(pattern, p, q)
  {
    hide Eligible, Better, Leads;
    forall q | q != [] && Eligible(pattern, evidence, q)
      ensures Leads(pattern, p, q)
    {
      LeadsIff(pattern, p, q);
    }
  }

  // ---------------------------------------------------------------- a tie that the order of enumeration breaks

  /** Two strongest paths compare as equal exactly because their joined texts are equal. */
  lemma StrongestShareText(pattern: Pattern, evidence: seq<Item>, p: seq<string>, q: seq<string>)
    requires Strongest(pattern, evidence, p) && q != [] && Eligible(pattern, evidence, q)
    ensures Strongest(pattern, evidence, q) <==>
              EndsInSymptom(pattern, q) == EndsInSymptom(pattern, p) && |q| == |p| && Join(q) == Join(p)
  {
    hide Eligible, EndsInSymptom;
    StringLeqTotal(Join(p), Join(q));
    if !Better(pattern, q, p) && !Better(pattern, p, q) {
      forall r | r != [] && Eligible(pattern, evidence, r)
        ensures !Better(pattern, r, q)
      {
        BetterTransitive(pattern, r, p, q);
      }
    }
  }

  const AB := "a" + [NUL] + "b"
  const BC := "b" + [NUL] + "c"

  /** Two causes with one effect each, whose names read the same when they are joined by NUL. */
  const TWINS := Pattern("p", "cpu", true,
    [CausalNode(AB, "cause", "", ["p"], []), CausalNode("c", "event", "", ["q"], []),
     CausalNode("a", "cause", "", ["r"], []), CausalNode(BC, "event", "", ["t"], [])],
    [CausalEdge(AB, "c"), CausalEdge("a", BC)])

  const ALL_SEEN := [Item("i", "kubernetes", [Abnormal("p"), Abnormal("q"), Abnormal("r"), Abnormal("t")], [])]

  lemma TwinNames()
    ensures |AB| == 3 && |BC| == 3 && AB != BC && AB != "c" && AB != "a" && BC != "a" && BC != "c" && "a" != "c"
  {
    assert AB[0] == 'a' && BC[0] == 'b' && "a"[0] == 'a' && "c"[0] == 'c';
  }

  lemma TwinsKnown(id: string)
    ensures Table(TWINS.nodes)
         == map[AB := TWINS.nodes[0], "c" := TWINS.nodes[1], "a" := TWINS.nodes[2], BC := TWINS.nodes[3]]
    ensures Known(TWINS, id) <==> id in {AB, "c", "a", BC}
  {
    hide Table;
    TwinNames();
    var n := TWINS.nodes;
    var none: seq<CausalNode> := [];
    NoTable();
    TableStep(none, n[0]);
    TableStep([n[0]], n[1]);
    TableStep([n[0], n[1]], n[2]);
    TableStep([n[0], n[1], n[2]], n[3]);
    assert none + [n[0]] == [n[0]] && [n[0]] + [n[1]] == [n[0], n[1]] && [n[0], n[1]] + [n[2]] == [n[0], n[1], n[2]];
    assert [n[0], n[1], n[2]] + [n[3]] == n;
  }

  lemma TwinsTargets(from: string)
    ensures Targets(TWINS, TWINS.edges, from) == if from == AB then ["c"] else if from == "a" then [BC] else []
  {
    hide Known, Targets;
    TwinNames();
    TwinsKnown(AB);
    TwinsKnown("a");
    TwinsKnown("c");
    TwinsKnown(BC);
    var e := TWINS.edges;
    var none: seq<CausalEdge> := [];
    NoTargets(TWINS, from);
    TargetsStep(TWINS, none, e[0], from);
    TargetsStep(TWINS, [e[0]], e[1], from);
    assert none + [e[0]] == [e[0]] && [e[0]] + [e[1]] == e;
  }

  lemma TwinsObserved()
    ensures Observed(TWINS, ALL_SEEN) == {AB, "c", "a", BC}
  {
    hide Observes;
    var n, i := TWINS.nodes, ALL_SEEN[0];
    assert n[0] in n && n[1] in n && n[2] in n && n[3] in n && i in ALL_SEEN;
    assert i.signals[0] == Abnormal("p") && i.signals[1] == Abnormal("q") && i.signals[2] == Abnormal("r") && i.signals[3] == Abnormal("t");
    forall node | node in n
      ensures Observes(i, node)
    {
      assert node == n[0] || node == n[1] || node == n[2] || node == n[3];
      ShownIsObserved(i, node);
    }
  }

  lemma OneTarget(x: string)
    ensures SortStrings([x]) == [x] && SortStrings([]) == []
  {
    var none: seq<string> := [];
    assert [x][1..] == none && [x] + none == [x];
    assert Sort(StringLeq, none) == none;
    assert Sort(StringLeq, [x]) == Insert(StringLeq, x, none);
  }

  lemma TwinsGraph()
    ensures var g := GraphOf(TWINS, ALL_SEEN);
            && g.observed == {AB, "c", "a", BC} && Next(g, AB) == ["c"] && Next(g, "a") == [BC]
            && Next(g, "c") == [] && Next(g, BC) == []
  {
    hide Observed, Targets, SortStrings;
    TwinNames();
    TwinsObserved();
    OneTarget("c");
    OneTarget(BC);
    TwinsTargets(AB);
    TwinsTargets("a");
    TwinsTargets("c");
    TwinsTargets(BC);
  }

  lemma TwinsAdmission()
    ensures AdmissionNodes(TWINS) == {AB, "a"}
  {
    hide Table, IsKind;
    TwinNames();
    var n := TWINS.nodes;
    TwinKinds();
    assert n[0] in n && n[2] in n;
    assert forall e :: e in TWINS.edges ==> e.to == "c" || e.to == BC;
    assert RootCause(TWINS, n[0]) && RootCause(TWINS, n[2]);
    assert forall node :: node in n ==> node == n[0] || node == n[1] || node == n[2] || node == n[3];
    assert DirectNodes(TWINS) == {AB, "a"};
  }

  lemma TwinKinds()
    ensures var n := TWINS.nodes;
            && IsKind(n[0], "cause") && IsKind(n[2], "cause") && !IsKind(n[1], "cause") && !IsKind(n[3], "cause")
            && forall k :: 0 <= k < 4 ==> !IsKind(n[k], "mechanism")
  {
    hide IsKind;
    assert "event"[0] == 'e' && "cause"[0] == 'c' && "mechanism"[0] == 'm';
    forall k | 0 <= k < 4
      ensures IsKind(TWINS.nodes[k], "cause") <==> TWINS.nodes[k].kind == "cause"
      ensures !IsKind(TWINS.nodes[k], "mechanism")
    {
      assert TWINS.nodes[k].kind == "cause" || TWINS.nodes[k].kind == "event";
      KindIs(TWINS.nodes[k], "cause");
      KindIs(TWINS.nodes[k], "mechanism");
    }
  }

  /** The walk from a root with one child that has none. */
  lemma PairWalk(g: Graph, x: string, y: string)
    requires x in g.observed && y in g.observed && x != y && Next(g, x) == [y] && Next(g, y) == []
    ensures Walk(g, [], {}, x) == [[x, y]]
  {
    assert Open(g, {x}, [y]) == [y] by {
      assert [y][1..] == [];
    }
    assert {} + {x} == {x} && [] + [x] == [x] && [x] + [y] == [x, y];
    assert Walk(g, [x], {x}, y) == [[x, y]];
    assert [y][1..] == [] && WalkAll(g, [x], {x}, []) == [] && [[x, y]] + [] == [[x, y]];
    assert WalkAll(g, [x], {x}, [y]) == [[x, y]];
  }

  lemma TwoRootCandidates(g: Graph, x: string, y: string, p: seq<string>, q: seq<string>)
    requires Walk(g, [], {}, x) == [p] && Walk(g, [], {}, y) == [q]
    ensures Candidates(g, [x, y]) == [p, q]
  {
    hide Walk;
    assert [x, y][..1] == [x] && [x][..0] == [];
    assert Candidates(g, []) == [] && [] + [p] == [p];
    assert Candidates(g, [x]) == [p];
  }

  lemma TwinsTie()
    ensures Join([AB, "c"]) == Join(["a", BC])
    ensures !Better(TWINS, [AB, "c"], ["a", BC]) && !Better(TWINS, ["a", BC], [AB, "c"])
  {
    hide Table;
    TwinsKnown("a");
    TwinNames();
    assert Join([AB, "c"]) == AB + [NUL] + "c";
    assert Join(["a", BC]) == "a" + [NUL] + BC;
    assert AB + [NUL] + "c" == "a" + [NUL] + BC;
    StringLeqTotal(Join([AB, "c"]), Join(["a", BC]));
  }

  lemma TwinsChoice(p: seq<string>, q: seq<string>)
    requires p != [] && q != [] && !Better(TWINS, p, q) && !Better(TWINS, q, p)
    ensures Best(TWINS, [p, q]) == p
  {
    assert [p, q][..1] == [p];
  }

  /** What is returned when the admission nodes come out of their map in the order `roots`. */
  predicate Returned(pattern: Pattern, evidence: seq<Item>, roots: seq<string>, path: seq<string>) {
    var paths := Candidates(GraphOf(pattern, evidence), roots);
    paths != [] && (forall k :: 0 <= k < |paths| ==> paths[k] != []) && Best(pattern, paths) == path
  }

  lemma TwinsReturn(p: seq<string>, q: seq<string>, roots: seq<string>)
    requires p != [] && q != [] && !Better(TWINS, p, q) && !Better(TWINS, q, p)
    requires Candidates(GraphOf(TWINS, ALL_SEEN), roots) == [p, q]
    ensures Returned(TWINS, ALL_SEEN, roots, p)
  {
    hide GraphOf, Better, Candidates;
    TwinsChoice(p, q);
  }

  const FIRST := [AB, "c"]
  const SECOND := ["a", BC]

  lemma TwinCandidates()
    ensures Candidates(GraphOf(TWINS, ALL_SEEN), [AB, "a"]) == [FIRST, SECOND]
    ensures Candidates(GraphOf(TWINS, ALL_SEEN), ["a", AB]) == [SECOND, FIRST]
  {
    hide GraphOf, Candidates, Walk;
    var g := GraphOf(TWINS, ALL_SEEN);
    TwinNames();
    TwinsGraph();
    PairWalk(g, AB, "c");
    PairWalk(g, "a", BC);
    TwoRootCandidates(g, AB, "a", FIRST, SECOND);
    TwoRootCandidates(g, "a", AB, SECOND, FIRST);
  }

  /**
   With NUL in an ID two different paths can both be strongest, and the order in which the
   admission nodes come out of their map decides which of them is returned.
   */
  lemma NulLetsOrderDecide()
    ensures FIRST != SECOND && Elements([AB, "a"]) == AdmissionNodes(TWINS) == Elements(["a", AB])
    ensures Eligible(TWINS, ALL_SEEN, FIRST) && Eligible(TWINS, ALL_SEEN, SECOND)
    ensures Returned(TWINS, ALL_SEEN, [AB, "a"], FIRST) && Returned(TWINS, ALL_SEEN, ["a", AB], SECOND)
  {
    hide GraphOf, AdmissionNodes, Best, Eligible, Candidates, Better, Returned;
    TwinNames();
    assert FIRST[0] == AB && SECOND[0] == "a";
    TwinsAdmission();
    TwinCandidates();
    TwinsTie();
    TwinsReturn(FIRST, SECOND, [AB, "a"]);
    TwinsReturn(SECOND, FIRST, ["a", AB]);
    TwinRoots();
    assert [FIRST, SECOND][0] == FIRST && [FIRST, SECOND][1] == SECOND;
    CandidatesAreEligible(TWINS, ALL_SEEN, [AB, "a"], FIRST);
    CandidatesAreEligible(TWINS, ALL_SEEN, [AB, "a"], SECOND);
  }

  lemma TwinRoots()
    ensures Elements([AB, "a"]) == {AB, "a"} == Elements(["a", AB])
  {
    var roots, other := [AB, "a"], ["a", AB];
    assert roots[0] == AB && roots[1] == "a" && other[0] == "a" && other[1] == AB;
  }
}
