/**
 What the shared arrays of the causal search mean downstream: on an ordinary pattern the path
 that is returned is not a path of the pattern at all, and the candidate made of it is
 accepted with its coverage gate on record as failed.
 */
module MixedPath {
  import opened Domain
  import opened Text
  import opened Sequences
  import opened Sorting
  import opened CausalModel
  import opened CausalPath
  import opened SharedPaths
  import Causal = CandidateVerification
  import Arbitration

  // ---------------------------------------------------------------- the pattern

  function Event(id: string): CausalNode {
    CausalNode(id, "event", "", [id], [])
  }

  const CAUSE := CausalNode("r", "cause", "", ["r"], [])
  const EFFECT := CausalNode("z", "symptom", "", ["z"], [])

  /** r leads through a, b and c to d; d leads to x and y, and x alone to the symptom z. */
  const BENT := Pattern("p", "cpu", true,
    [CAUSE, Event("a"), Event("b"), Event("c"), Event("d"), Event("x"), Event("y"), EFFECT],
    [CausalEdge("r", "a"), CausalEdge("a", "b"), CausalEdge("b", "c"), CausalEdge("c", "d"), CausalEdge("d", "x"),
     CausalEdge("d", "y"), CausalEdge("x", "z")])

  const NAMES := ["r", "a", "b", "c", "d", "x", "y", "z"]

  /** Two sources see the whole of it: one item shows the nodes up to d, the other one those below. */
  const SIGHTED := [
    Item("a", "kubernetes", [Abnormal("r"), Abnormal("a"), Abnormal("b"), Abnormal("c"), Abnormal("d")], []),
    Item("b", "prometheus", [Abnormal("x"), Abnormal("y"), Abnormal("z")], [])]

  /** The item that shows the node in place k. */
  function Witness(k: nat): Item {
    if k < 5 then SIGHTED[0] else SIGHTED[1]
  }

  /** The signal of the node in place k. */
  lemma BentSignals(k: nat)
    requires k < |NAMES|
    ensures BENT.nodes[k].signals == [NAMES[k]] && BENT.nodes[k].source == "" && Plain(NAMES[k])
  {
    assert k == 0 || k == 1 || k == 2 || k == 3 || k == 4 || k == 5 || k == 6 || k == 7;
  }

  lemma WitnessSignals(k: nat)
    requires k < |NAMES|
    ensures Witness(k) in SIGHTED && Abnormal(NAMES[k]) in Witness(k).signals
  {
    var a, b := SIGHTED[0], SIGHTED[1];
    assert a in SIGHTED && b in SIGHTED;
    if k < 5 {
      assert a.signals[k] == Abnormal(NAMES[k]);
    } else {
      assert b.signals[k - 5] == Abnormal(NAMES[k]);
    }
  }

  lemma WitnessShows(k: nat)
    requires k < |NAMES|
    ensures Witness(k) in SIGHTED && Shows(Witness(k), BENT.nodes[k])
    ensures HasSignalFor(Witness(k), BENT.nodes[k]) && Typed(BENT.nodes[k]) && Observes(Witness(k), BENT.nodes[k])
  {
    hide Observes, HasSignalFor, Typed, Plain, Witness;
    BentSignals(k);
    WitnessSignals(k);
    ShownIsObserved(Witness(k), BENT.nodes[k]);
  }

  lemma {:induction false} TableOf(nodes: seq<CausalNode>)
    requires forall i, j :: 0 <= i < j < |nodes| ==> nodes[i].id != nodes[j].id
    ensures forall k :: 0 <= k < |nodes| ==> nodes[k].id in Table(nodes) && Table(nodes)[nodes[k].id] == nodes[k]
    ensures forall id :: id in Table(nodes) ==> exists k :: 0 <= k < |nodes| && nodes[k].id == id
  {
    if nodes != [] {
      var n := |nodes| - 1;
      TableOf(nodes[..n]);
      forall k | 0 <= k < |nodes|
        ensures nodes[k].id in Table(nodes) && Table(nodes)[nodes[k].id] == nodes[k]
      {
        assert k < n ==> nodes[..n][k] == nodes[k];
      }
      forall id | id in Table(nodes)
        ensures exists k :: 0 <= k < |nodes| && nodes[k].id == id
      {
        if id != nodes[n].id {
          var k :| 0 <= k < |nodes[..n]| && nodes[..n][k].id == id;
          assert nodes[k].id == id;
        }
      }
    }
  }

  lemma BentNames()
    ensures |BENT.nodes| == |NAMES| && forall k :: 0 <= k < |NAMES| ==> BENT.nodes[k].id == NAMES[k]
    ensures forall i, j :: 0 <= i < j < |NAMES| ==> NAMES[i] != NAMES[j]
  {
    assert NAMES[0][0] == 'r' && NAMES[1][0] == 'a' && NAMES[2][0] == 'b' && NAMES[3][0] == 'c' && NAMES[4][0] == 'd';
    assert NAMES[5][0] == 'x' && NAMES[6][0] == 'y' && NAMES[7][0] == 'z';
  }

  lemma BentKnown(id: string)
    ensures Known(BENT, id) <==> id in NAMES
    ensures forall k :: 0 <= k < |NAMES| ==> NAMES[k] in Table(BENT.nodes) && Table(BENT.nodes)[NAMES[k]] == BENT.nodes[k]
  {
    hide Table;
    BentNames();
    TableOf(BENT.nodes);
    if id in Table(BENT.nodes) {
      var k :| 0 <= k < |BENT.nodes| && BENT.nodes[k].id == id;
      assert NAMES[k] == id;
    }
    if id in NAMES {
      var k :| 0 <= k < |NAMES| && NAMES[k] == id;
      assert BENT.nodes[k].id == id && |NAMES[k]| == 1;
    }
  }

  /** The next nodes of one node, one edge after the other. */
  lemma {:induction false} TargetsOfKnown(edges: seq<CausalEdge>, from: string)
    requires forall e :: e in edges ==> e.from in NAMES && e.to in NAMES
    ensures Targets(BENT, edges, from) == Heads(edges, from)
    decreases |edges|
  {
    hide Known;
    if edges != [] {
      var n := |edges| - 1;
      TargetsOfKnown(edges[..n], from);
      BentKnown(edges[n].from);
      BentKnown(edges[n].to);
      assert edges[n] in edges;
    }
  }

  function Heads(edges: seq<CausalEdge>, from: string): seq<string> {
    if edges == [] then []
    else Heads(edges[..|edges| - 1], from) + if edges[|edges| - 1].from == from then [edges[|edges| - 1].to] else []
  }

  function After(id: string): seq<string> {
    if id == "r" then ["a"] else if id == "a" then ["b"] else if id == "b" then ["c"] else if id == "c" then ["d"]
    else if id == "d" then ["x", "y"] else if id == "x" then ["z"] else []
  }

  lemma HeadsStep(edges: seq<CausalEdge>, e: CausalEdge, from: string)
    ensures Heads(edges + [e], from) == Heads(edges, from) + if e.from == from then [e.to] else []
  {
    assert (edges + [e])[..|edges|] == edges;
  }

  /** The positions in `NAMES` that the edges leave. */
  const LEAVES := [0, 1, 2, 3, 4, 4, 5]

  lemma EdgeLeaves(i: nat, k: nat)
    requires i < 7 && k < 8
    ensures BENT.edges[i].from == NAMES[k] <==> LEAVES[i] == k
  {
    BentNames();
    assert BENT.edges[i].from == NAMES[LEAVES[i]] by {
      if i < 3 {
        assert i == 0 || i == 1 || i == 2;
      } else {
        assert i == 3 || i == 4 || i == 5 || i == 6;
      }
    }
  }

  /** What the first n edges give the node in place k. */
  function Reached(edges: seq<CausalEdge>, n: nat, k: nat): seq<string>
    requires n <= 7 == |edges|
  {
    if n == 0 then [] else Reached(edges, n - 1, k) + if LEAVES[n - 1] == k then [edges[n - 1].to] else []
  }

  lemma {:induction false} HeadsAreReached(n: nat, k: nat)
    requires n <= 7 && k < 8
    ensures Heads(BENT.edges[..n], NAMES[k]) == Reached(BENT.edges, n, k)
  {
    hide Heads;
    if n == 0 {
      NoHeads(NAMES[k]);
    } else {
      HeadsAreReached(n - 1, k);
      HeadsStep(BENT.edges[..n - 1], BENT.edges[n - 1], NAMES[k]);
      assert BENT.edges[..n - 1] + [BENT.edges[n - 1]] == BENT.edges[..n];
      EdgeLeaves(n - 1, k);
    }
  }

  lemma ReachedIs(e: seq<CausalEdge>, k: nat)
    requires k < 8 && |e| == 7
    ensures Reached(e, 7, k) == if k < 4 then [e[k].to] else if k == 4 then [e[4].to, e[5].to] else if k == 5 then [e[6].to] else []
  {
    assert Reached(e, 1, k) == if k < 1 then [e[k].to] else [];
    assert Reached(e, 2, k) == if k < 2 then [e[k].to] else [];
    assert Reached(e, 3, k) == if k < 3 then [e[k].to] else [];
    assert Reached(e, 4, k) == if k < 4 then [e[k].to] else [];
    assert Reached(e, 5, k) == if k < 4 then [e[k].to] else if k == 4 then [e[4].to] else [];
    assert Reached(e, 6, k) == if k < 4 then [e[k].to] else if k == 4 then [e[4].to, e[5].to] else [];
  }

  lemma BentHeads(from: string)
    requires from in NAMES
    ensures Heads(BENT.edges, from) == After(from)
  {
    hide Heads, Reached;
    BentNames();
    var k :| 0 <= k < |NAMES| && NAMES[k] == from;
    HeadsAreReached(7, k);
    ReachedIs(BENT.edges, k);
    assert BENT.edges[..7] == BENT.edges;
    AfterIs(k);
  }

  lemma AfterIs(k: nat)
    requires k < 8
    ensures After(NAMES[k]) == (if k < 4 then [BENT.edges[k].to] else if k == 4 then [BENT.edges[4].to, BENT.edges[5].to]
                                else if k == 5 then [BENT.edges[6].to] else [])
  {
    BentNames();
    assert k == 0 || k == 1 || k == 2 || k == 3 || k == 4 || k == 5 || k == 6 || k == 7;
  }

  lemma NoHeads(from: string)
    ensures Heads([], from) == []
  {
  }

  lemma EdgesAreKnown()
    ensures forall e :: e in BENT.edges ==> e.from in NAMES && e.to in NAMES
  {
    var n := NAMES;
    assert n[0] == "r" && n[1] == "a" && n[2] == "b" && n[3] == "c" && n[4] == "d" && n[5] == "x" && n[6] == "y" && n[7] == "z";
  }

  lemma BentObserved()
    ensures Observed(BENT, SIGHTED) == Elements(NAMES)
  {
    hide Observes;
    BentNames();
    forall k | 0 <= k < |NAMES|
      ensures BENT.nodes[k] in BENT.nodes && Witness(k) in SIGHTED && Observes(Witness(k), BENT.nodes[k])
    {
      WitnessShows(k);
    }
    forall id | id in Observed(BENT, SIGHTED)
      ensures id in NAMES
    {
      var node :| node in BENT.nodes && node.id == id;
      var k :| 0 <= k < |BENT.nodes| && BENT.nodes[k] == node;
      assert NAMES[k] == id;
    }
    forall id | id in NAMES
      ensures id in Observed(BENT, SIGHTED)
    {
      var k :| 0 <= k < |NAMES| && NAMES[k] == id;
      assert BENT.nodes[k].id == id;
    }
  }

  lemma SortedAfter(id: string)
    ensures SortStrings(After(id)) == After(id)
  {
    hide SortStrings;
    if After(id) == ["x", "y"] {
      TwoSorted();
    } else if |After(id)| == 1 {
      OneTarget(After(id)[0]);
      assert After(id) == [After(id)[0]];
    } else {
      OneTarget("a");
    }
  }

  lemma TwoSorted()
    ensures SortStrings(["x", "y"]) == ["x", "y"]
  {
    OneTarget("y");
    assert ["x", "y"][1..] == ["y"];
    assert StringLeq("x", "y");
  }

  lemma BentNext(id: string)
    requires id in NAMES
    ensures id in GraphOf(BENT, SIGHTED).observed && Next(GraphOf(BENT, SIGHTED), id) == After(id)
    ensures GraphOf(BENT, SIGHTED).observed == Elements(NAMES)
  {
    hide Observed, Targets, SortStrings, Heads;
    BentObserved();
    EdgesAreKnown();
    TargetsOfKnown(BENT.edges, id);
    BentHeads(id);
    SortedAfter(id);
  }

  // ---------------------------------------------------------------- what the search stores

  const SPINE := ["r", "a", "b", "c", "d"]

  const SHORT: Heap := [["r"], ["r", "a"], ["r", "a", "b", "c"]]

  /** The array that is allocated at d and shared by everything below it. */
  function Eight(x: string, z: string): Heap {
    SHORT + [["r", "a", "b", "c", "d", x, z, ""]]
  }

  lemma Spine()
    ensures Grows(Doubling) && Append(Doubling, [], NIL, "r") == ([["r"]], Slice(0, 1))
    ensures Append(Doubling, [["r"]], Slice(0, 1), "a") == ([["r"], ["r", "a"]], Slice(1, 2))
    ensures Append(Doubling, [["r"], ["r", "a"]], Slice(1, 2), "b") == ([["r"], ["r", "a"], ["r", "a", "b", ""]], Slice(2, 3))
    ensures Append(Doubling, [["r"], ["r", "a"], ["r", "a", "b", ""]], Slice(2, 3), "c") == (SHORT, Slice(2, 4))
  {
    var none, one, two: Heap := [], [["r"]], [["r"], ["r", "a"]];
    assert Read(none, NIL) + ["r"] + Blank(0) == ["r"] && none + [["r"]] == one;
    assert Read(one, Slice(0, 1)) + ["a"] + Blank(0) == ["r", "a"] && one + [["r", "a"]] == two;
    assert Read(two, Slice(1, 2)) + ["b"] + Blank(1) == ["r", "a", "b", ""];
    var three: Heap := [["r"], ["r", "a"], ["r", "a", "b", ""]];
    assert two + [["r", "a", "b", ""]] == three;
    assert three[2][3 := "c"] == ["r", "a", "b", "c"];
    assert three[2 := three[2][3 := "c"]] == SHORT;
  }

  lemma NewEight()
    ensures Grows(Doubling) && Append(Doubling, SHORT, Slice(2, 4), "d") == (Eight("", ""), Slice(3, 5))
  {
    assert Read(SHORT, Slice(2, 4)) + ["d"] + Blank(3) == ["r", "a", "b", "c", "d", "", "", ""];
  }

  lemma WriteSixth(v: string, w: string, x: string)
    ensures Grows(Doubling) && Append(Doubling, Eight(v, w), Slice(3, 5), x) == (Eight(x, w), Slice(3, 6))
  {
    var h := Eight(v, w);
    assert h[3][5 := x] == ["r", "a", "b", "c", "d", x, w, ""];
    assert h[3 := h[3][5 := x]] == Eight(x, w);
  }

  lemma WriteSeventh(v: string, w: string, z: string)
    ensures Grows(Doubling) && Append(Doubling, Eight(v, w), Slice(3, 6), z) == (Eight(v, z), Slice(3, 7))
  {
    var h := Eight(v, w);
    assert h[3][6 := z] == ["r", "a", "b", "c", "d", v, z, ""];
    assert h[3 := h[3][6 := z]] == Eight(v, z);
  }

  /** The nodes before place n of the spine, as the search has seen them. */
  function Seen(n: nat): set<string>
    requires n <= 5
  {
    set k | 0 <= k < n :: SPINE[k]
  }

  lemma SeenStep(n: nat)
    requires n < 5
    ensures Seen(n) + {SPINE[n]} == Seen(n + 1)
  {
    forall x
      ensures x in Seen(n) + {SPINE[n]} <==> x in Seen(n + 1)
    {
      if x in Seen(n) {
        var k :| 0 <= k < n && SPINE[k] == x;
        assert 0 <= k < n + 1;
      }
      if x in Seen(n + 1) {
        var k :| 0 <= k < n + 1 && SPINE[k] == x;
        assert k < n || k == n;
      }
    }
  }

  lemma OpenAfter(g: Graph, seen: set<string>, id: string)
    requires g == GraphOf(BENT, SIGHTED) && id in NAMES
    requires forall x :: x in After(id) ==> x !in seen
    ensures Open(g, seen, Next(g, id)) == After(id)
  {
    hide GraphOf, Open;
    BentNext(id);
    AfterIsNamed(id);
    AllOpen(g, seen, After(id));
  }

  lemma AfterIsNamed(id: string)
    ensures forall x :: x in After(id) ==> x in NAMES
  {
    var n := NAMES;
    assert n[1] == "a" && n[2] == "b" && n[3] == "c" && n[4] == "d" && n[5] == "x" && n[6] == "y" && n[7] == "z";
  }

  lemma {:induction false} AllOpen(g: Graph, seen: set<string>, ids: seq<string>)
    requires forall x :: x in ids ==> x in g.observed && x !in seen
    ensures Open(g, seen, ids) == ids
  {
    if ids != [] {
      AllOpen(g, seen, ids[1..]);
      assert ids == [ids[0]] + ids[1..];
    }
  }

  lemma Letters()
    ensures forall k :: 0 <= k < 5 ==> SPINE[k] == NAMES[k]
    ensures "x" in NAMES && "y" in NAMES && "z" in NAMES && "x" != "y" && "x" != "z" && "y" != "z"
    ensures forall k :: 0 <= k < 5 ==> SPINE[k] in NAMES && SPINE[k] != "x" && SPINE[k] != "y" && SPINE[k] != "z"
  {
    BentNames();
    assert NAMES[5] == "x" && NAMES[6] == "y" && NAMES[7] == "z";
    forall k | 0 <= k < 5
      ensures SPINE[k] == NAMES[k]
    {
      assert k == 0 || k == 1 || k == 2 || k == 3 || k == 4;
    }
  }

  /** Below d: x and z fill the shared array, then y overwrites x. */
  lemma BelowD(g: Graph)
    requires g == GraphOf(BENT, SIGHTED)
    ensures Grows(Doubling)
    ensures SharedAll(Doubling, g, Eight("", ""), Slice(3, 5), Seen(5), ["x", "y"]) == (Eight("y", "z"), [Slice(3, 7), Slice(3, 6)])
  {
    hide GraphOf, Shared, SharedAll, Append, Open;
    Letters();
    BentNext("x");
    BentNext("y");
    BentNext("z");
    var d := Slice(3, 5);
    var seen := Seen(5);
    assert "x" !in seen && "y" !in seen && "z" !in seen + {"x"};
    WriteSixth("", "", "x");
    WriteSeventh("x", "", "z");
    WriteSixth("x", "z", "y");
    LeafStep(g, Eight("x", ""), Slice(3, 6), seen + {"x"}, "z", Eight("x", "z"), Slice(3, 7));
    OneChild(g, Eight("x", ""), Slice(3, 6), seen + {"x"}, "z");
    OpenAfter(g, seen + {"x"}, "x");
    InnerStep(g, Eight("", ""), d, seen, "x", Eight("x", ""), Slice(3, 6), ["z"]);
    LeafStep(g, Eight("x", "z"), d, seen, "y", Eight("y", "z"), Slice(3, 6));
    TwoChildren(g, Eight("", ""), d, seen, "x", "y", Eight("x", "z"), Eight("y", "z"), Slice(3, 7), Slice(3, 6));
  }

  /** One node of the spine before d. */
  lemma SpineStep(g: Graph, n: nat, h: Heap, s: Slice, k: Heap, t: Slice, end: (Heap, seq<Slice>))
    requires g == GraphOf(BENT, SIGHTED) && n < 4 && Grows(Doubling) && Valid(h, s)
    requires Append(Doubling, h, s, SPINE[n]) == (k, t)
    requires Shared(Doubling, g, k, t, Seen(n + 1), SPINE[n + 1]) == end
    ensures Shared(Doubling, g, h, s, Seen(n), SPINE[n]) == end
  {
    hide GraphOf, Shared, SharedAll, Append, Open;
    hide After, Seen;
    Letters();
    SeenStep(n);
    BentNext(SPINE[n]);
    AfterSpine(n);
    NotYetSeen(n);
    OpenAfter(g, Seen(n + 1), SPINE[n]);
    InnerStep(g, h, s, Seen(n), SPINE[n], k, t, [SPINE[n + 1]]);
    OneChild(g, k, t, Seen(n + 1), SPINE[n + 1]);
  }

  lemma AfterSpine(n: nat)
    requires n < 4
    ensures After(SPINE[n]) == [SPINE[n + 1]]
  {
    BentNames();
    assert n == 0 || n == 1 || n == 2 || n == 3;
  }

  lemma NotYetSeen(n: nat)
    requires n < 5
    ensures SPINE[n] !in Seen(n) && (n < 4 ==> SPINE[n + 1] !in Seen(n + 1))
  {
    Letters();
    BentNames();
  }

  lemma AtD(g: Graph)
    requires g == GraphOf(BENT, SIGHTED)
    ensures Grows(Doubling)
    ensures Shared(Doubling, g, SHORT, Slice(2, 4), Seen(4), "d") == (Eight("y", "z"), [Slice(3, 7), Slice(3, 6)])
  {
    hide GraphOf, Shared, SharedAll, Append, Open;
    Letters();
    NewEight();
    BelowD(g);
    SeenStep(4);
    NotYetSeen(4);
    BentNext("d");
    OpenAfter(g, Seen(5), "d");
    InnerStep(g, SHORT, Slice(2, 4), Seen(4), "d", Eight("", ""), Slice(3, 5), ["x", "y"]);
  }

  lemma BentWalk(g: Graph)
    requires g == GraphOf(BENT, SIGHTED)
    ensures Grows(Doubling)
    ensures Shared(Doubling, g, [], NIL, {}, "r") == (Eight("y", "z"), [Slice(3, 7), Slice(3, 6)])
  {
    hide GraphOf, Shared, Append;
    var end := (Eight("y", "z"), [Slice(3, 7), Slice(3, 6)]);
    Spine();
    AtD(g);
    SpineStep(g, 3, [["r"], ["r", "a"], ["r", "a", "b", ""]], Slice(2, 3), SHORT, Slice(2, 4), end);
    SpineStep(g, 2, [["r"], ["r", "a"]], Slice(1, 2), [["r"], ["r", "a"], ["r", "a", "b", ""]], Slice(2, 3), end);
    SpineStep(g, 1, [["r"]], Slice(0, 1), [["r"], ["r", "a"]], Slice(1, 2), end);
    SpineStep(g, 0, [], NIL, [["r"]], Slice(0, 1), end);
    assert Seen(0) == {};
  }

  const MIXED := ["r", "a", "b", "c", "d", "y", "z"]

  const OTHER := ["r", "a", "b", "c", "d", "y"]

  lemma BentStored(g: Graph)
    requires g == GraphOf(BENT, SIGHTED)
    ensures Grows(Doubling) && Stored(Doubling, g, ["r"]) == [MIXED, OTHER]
  {
    hide GraphOf, Shared;
    BentWalk(g);
    var roots := ["r"];
    assert roots[..0] == [];
    assert SharedCandidates(Doubling, g, roots[..0]) == ([], []);
    var slices := [Slice(3, 7), Slice(3, 6)];
    assert [] + slices == slices;
    assert SharedCandidates(Doubling, g, roots) == (Eight("y", "z"), slices);
    var last := ["r", "a", "b", "c", "d", "y", "z", ""];
    assert Eight("y", "z")[3] == last && last[..7] == MIXED && last[..6] == OTHER;
  }

  // ---------------------------------------------------------------- what is returned, and what becomes of it

  lemma BentKinds()
    ensures IsKind(CAUSE, "cause")
    ensures forall k :: 0 <= k < |NAMES| ==> !IsKind(BENT.nodes[k], "mechanism") && (k > 0 ==> !IsKind(BENT.nodes[k], "cause"))
  {
    hide IsKind;
    BentNames();
    PlainWords();
    DifferentWords();
    KindIs(CAUSE, "cause");
    forall k | 0 <= k < |NAMES|
      ensures !IsKind(BENT.nodes[k], "mechanism") && (k > 0 ==> !IsKind(BENT.nodes[k], "cause"))
    {
      assert k > 0 ==> BENT.nodes[k].kind == "event" || BENT.nodes[k].kind == "symptom" by {
        assert k == 0 || k == 1 || k == 2 || k == 3 || k == 4 || k == 5 || k == 6 || k == 7;
      }
      assert k == 0 ==> BENT.nodes[k].kind == "cause";
      KindIs(BENT.nodes[k], "cause");
      KindIs(BENT.nodes[k], "mechanism");
    }
  }

  lemma BentAdmission()
    ensures AdmissionNodes(BENT) == {"r"}
  {
    hide Table, IsKind;
    BentNames();
    BentKinds();
    assert BENT.nodes[0] == CAUSE && CAUSE in BENT.nodes;
    assert forall e :: e in BENT.edges ==> e.to != "r";
    assert RootCause(BENT, CAUSE);
    forall node | node in BENT.nodes && (RootCause(BENT, node) || DirectMechanism(BENT, node))
      ensures node == CAUSE
    {
      var k :| 0 <= k < |BENT.nodes| && BENT.nodes[k] == node;
    }
    assert DirectNodes(BENT) == {"r"};
  }

  lemma MixedIsBetter()
    ensures !Better(BENT, OTHER, MIXED)
  {
    hide Table;
    BentKnown("z");
    BentKnown("y");
    BentNames();
    assert NAMES[7] == "z" && NAMES[6] == "y" && BENT.nodes[7] == EFFECT;
  }

  /** The source returns a sequence of nodes whose last two the pattern does not join. */
  lemma ReturnedPathIsNoPath()
    ensures Grows(Doubling) && AdmissionNodes(BENT) == {"r"}
    ensures Chosen(Doubling, BENT, GraphOf(BENT, SIGHTED), ["r"]) == MIXED
    ensures CausalEdge("y", "z") !in BENT.edges && !Eligible(BENT, SIGHTED, MIXED)
  {
    hide GraphOf, Stored, AdmissionNodes, Eligible, Better, After;
    BentAdmission();
    BentStored(GraphOf(BENT, SIGHTED));
    MixedIsBetter();
    assert [MIXED, OTHER][..1] == [MIXED];
    NotJoined();
    MixedIsNotEligible();
  }

  lemma MixedIsNotEligible()
    ensures !Eligible(BENT, SIGHTED, MIXED)
  {
    hide GraphOf, AdmissionNodes;
    BentNext("y");
    assert NAMES[6] == "y" && MIXED[5] == "y" && MIXED[6] == "z" && "z" !in Next(GraphOf(BENT, SIGHTED), MIXED[5]);
  }

  lemma NotJoined()
    ensures CausalEdge("y", "z") !in BENT.edges
  {
    assert "y"[0] != "x"[0];
  }

  lemma PathSteps(k: nat)
    requires k < 6
    ensures Causal.EdgeKnown([BENT], MIXED[k], MIXED[k + 1]) <==> k < 5
  {
    var joined := MIXED[k] + [NUL] + MIXED[k + 1];
    var e := BENT.edges;
    assert BENT in [BENT];
    if k < 5 {
      assert k == 0 || k == 1 || k == 2 || k == 3 || k == 4;
      var i := if k < 4 then k else 5;
      assert e[i] in e && e[i].from == MIXED[k] && e[i].to == MIXED[k + 1];
    } else {
      forall edge | edge in e
        ensures edge.from + [NUL] + edge.to != joined
      {
        assert |edge.from| == 1 && |edge.to| == 1;
        assert (edge.from + [NUL] + edge.to)[0] == edge.from[0] && (edge.from + [NUL] + edge.to)[2] == edge.to[0];
        assert joined[0] == 'y' && joined[2] == 'z';
        assert edge.from[0] != 'y';
      }
    }
  }

  lemma {:induction false} MixedEdges(n: nat)
    requires 1 <= n <= 7
    ensures Causal.ValidEdges([BENT], MIXED[..n]) == if n < 7 then n - 1 else 5
  {
    hide Causal.EdgeKnown;
    if n > 1 {
      assert MIXED[..n][..n - 1] == MIXED[..n - 1];
      MixedEdges(n - 1);
      PathSteps(n - 2);
    }
  }

  lemma MixedObserved(annotated: seq<Item>, k: nat)
    requires Causal.Annotated(SIGHTED, annotated, [BENT]) && k < 7
    ensures Causal.NodeObserved(annotated, [BENT], MIXED[k]) && Causal.NodeAllowed(annotated, [BENT], MIXED[k])
  {
    hide Causal.AnnotatedIds;
    MixedNames(k);
    var j :| 0 <= j < |NAMES| && NAMES[j] == MIXED[k];
    BentNames();
    assert BENT.nodes[j] in BENT.nodes && BENT in [BENT];
    Causal.ActiveIsAllowed(annotated, [BENT], MIXED[k]);
    Causal.AttachedIff([BENT], SIGHTED, annotated, MIXED[k]);
    WitnessAnnotates(j);
    assert Causal.Attached(SIGHTED, [BENT], MIXED[k]);
  }

  lemma WitnessAnnotates(j: nat)
    requires j < |NAMES|
    ensures Witness(j) in SIGHTED && BENT.nodes[j].id in Causal.AnnotatedIds(Witness(j), [BENT])
  {
    hide HasSignalFor;
    WitnessShows(j);
    assert Causal.Annotates(Witness(j), BENT.nodes[j]) && BENT.nodes[j] in BENT.nodes && BENT in [BENT];
  }

  lemma MixedNames(k: nat)
    requires k < 7
    ensures MIXED[k] in NAMES
  {
    assert k == 0 || k == 1 || k == 2 || k == 3 || k == 4 || k == 5 || k == 6;
    assert NAMES[0] == "r" && NAMES[1] == "a" && NAMES[2] == "b" && NAMES[3] == "c" && NAMES[4] == "d" && NAMES[6] == "y" && NAMES[7] == "z";
  }

  /** The verifier sees every node and five of the six edges; the cause it asks for was observed. */
  lemma MixedCoverage(annotated: seq<Item>)
    requires Causal.Annotated(SIGHTED, annotated, [BENT])
    ensures Causal.VerifiedCoverage(annotated, [BENT], MIXED) == Some((5.0 / 6.0, {}))
  {
    hide Causal.NodeObserved, Causal.NodeAllowed, Causal.EdgeKnown, Causal.ValidEdges, Causal.Covered, Causal.Missing,
         Causal.MissingDecisive, Causal.Annotated;
    forall k | 0 <= k < |MIXED|
      ensures Causal.NodeObserved(annotated, [BENT], MIXED[k]) && Causal.NodeAllowed(annotated, [BENT], MIXED[k])
    {
      MixedObserved(annotated, k);
    }
    MixedEdges(7);
    assert MIXED[..7] == MIXED;
    CauseIsSeen(annotated);
    assert Elements<string>([]) + {} == {};
  }

  lemma CauseIsSeen(annotated: seq<Item>)
    requires Causal.Annotated(SIGHTED, annotated, [BENT])
    ensures Causal.MissingDecisive(annotated, [BENT], MIXED) == {}
  {
    hide AdmissionNodes, Observes, IsKind, Causal.Annotated, Causal.WillObserve;
    BentAdmission();
    BentKinds();
    BentNames();
    Causal.NothingMissingIff([BENT], SIGHTED, annotated, MIXED);
    var n := BENT.nodes;
    assert n[0] == CAUSE && CAUSE in n && BENT in [BENT] && SIGHTED[0] in SIGHTED && MIXED[0] == "r";
    assert Causal.DecisiveOfKind([BENT], MIXED, "mechanism") == {};
    assert "r" in Causal.DecisiveOfKind([BENT], MIXED, "cause");
    CauseWillBeObserved();
    assert "r" in Causal.WillBeObserved(SIGHTED, [BENT], MIXED);
  }

  lemma CauseWillBeObserved()
    ensures Causal.WillObserve(SIGHTED[0], CAUSE, [BENT])
  {
    hide HasSignalFor, Typed;
    WitnessShows(0);
    assert Witness(0) == SIGHTED[0] && BENT.nodes[0] == CAUSE;
  }

  /**
   The whole way, on two items from two sources: the search returns a sequence that is no path
   of the pattern, and the candidate measured on just this sequence and these items, with full
   support from both sources, is accepted while its own gate list says that the coverage failed.
   */
  lemma MixedPathIsAccepted(annotated: seq<Item>) returns (m: Arbitration.Measured)
    requires Causal.Annotated(SIGHTED, annotated, [BENT])
    ensures Grows(Doubling) && AdmissionNodes(BENT) == {"r"}
    ensures Chosen(Doubling, BENT, GraphOf(BENT, SIGHTED), ["r"]) == MIXED
    ensures Causal.VerifiedCoverage(annotated, [BENT], MIXED) == Some((m.coverage, m.missing))
    ensures Arbitration.MeasuredOn(m, annotated, [BENT], MIXED) && Arbitration.CitesAll(m, annotated)
    ensures m.coverage == 5.0 / 6.0 && m.missing == {} && m.contradicting == 0
    ensures var v, evidence := Arbitration.Verify(m), Arbitration.References(annotated);
            Arbitration.Arbitrate([v], evidence).accepted
            && Arbitration.GateList([v], evidence, 0) == [Arbitration.CausalCoverage]
  {
    hide GraphOf, Chosen, AdmissionNodes, Causal.Annotated, Causal.VerifiedCoverage, Causal.Coverage, Arbitration.CitesAll,
         Arbitration.References, Arbitration.Arbitrate, Arbitration.GateList, Arbitration.Verify;
    m := Arbitration.Measured("h", [1.0, 1.0], 2, 0, 5.0 / 6.0, {}, 1.0, ["a", "b"]);
    ReturnedPathIsNoPath();
    MixedCoverage(annotated);
    CoverageIsMeasured(annotated);
    BothAreCited(annotated, m);
    Arbitration.AcceptedDespiteFailedGates(5.0 / 6.0);
  }

  lemma BothAreCited(annotated: seq<Item>, m: Arbitration.Measured)
    requires Causal.Annotated(SIGHTED, annotated, [BENT])
    requires m.evidenceIds == ["a", "b"] && m.sources == 2 && |m.sourceScores| == 2
    ensures Arbitration.References(annotated) == Arbitration.CITED && Arbitration.CitesAll(m, annotated)
  {
    hide Causal.AnnotatedIds, Arbitration.Sources;
    Arbitration.TwoSources();
    assert annotated[0].id == "a" && annotated[0].source == "kubernetes" && annotated[1].id == "b" && annotated[1].source == "prometheus";
    assert Arbitration.References(annotated) == Arbitration.CITED;
  }

  lemma CoverageIsMeasured(annotated: seq<Item>)
    requires Causal.VerifiedCoverage(annotated, [BENT], MIXED).Some?
    ensures Causal.Coverage(annotated, [BENT], MIXED).Some?
  {
    hide Causal.Coverage, Causal.MissingDecisive;
  }
}
