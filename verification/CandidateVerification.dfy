/**
 Generate, then verify (reasoning/candidates.go:76-114; reasoning/engine.go:770-813, 1192-1212,
 1464-1580): the causal coverage the verifier gives to the path the generator chose, and the
 decisive nodes it asks for.
 */
module CandidateVerification {
  import opened Domain
  import opened Text
  import opened Sequences
  import opened CausalModel
  import opened CausalPath

  // ---------------------------------------------------------------- annotation

  /** The annotator compares sources without trimming them; the generator trims both sides. */
  predicate SameSource(node: CausalNode, source: string) {
    node.source == "" || EqualFold(node.source, source)
  }

  predicate Annotates(item: Item, node: CausalNode) {
    SameSource(node, item.source) && HasSignalFor(item, node)
  }

  function AnnotatedIds(item: Item, patterns: seq<Pattern>): set<string> {
    Elements(item.causalNodeIds)
    + set pattern, node | pattern in patterns && pattern.active && node in pattern.nodes && Annotates(item, node) :: node.id
  }

  /** The annotated copy of an item: the same observation with more node IDs. */
  ghost predicate AnnotatedItem(item: Item, annotated: Item, patterns: seq<Pattern>) {
    annotated == item.(causalNodeIds := annotated.causalNodeIds) && Elements(annotated.causalNodeIds) == AnnotatedIds(item, patterns)
  }

  ghost predicate Annotated(evidence: seq<Item>, annotated: seq<Item>, patterns: seq<Pattern>) {
    |annotated| == |evidence| && forall k :: 0 <= k < |evidence| ==> AnnotatedItem(evidence[k], annotated[k], patterns)
  }

  function AnnotatedBy(item: Item, nodes: seq<CausalNode>): set<string> {
    set node | node in nodes && Annotates(item, node) :: node.id
  }

  method MatchNodes(item: Item, nodes: seq<CausalNode>) returns (matched: set<string>)
    ensures matched == AnnotatedBy(item, nodes)
  {
    hide Annotates;
    matched := {};
    var j := 0;
    while j < |nodes|
      invariant 0 <= j <= |nodes| && matched == AnnotatedBy(item, nodes[..j])
    {
      assert nodes[..j + 1] == nodes[..j] + [nodes[j]];
      if Annotates(item, nodes[j]) {
        matched := matched + {nodes[j].id};
      }
      j := j + 1;
    }
    assert nodes[..j] == nodes;
  }

  lemma AnnotatedStep(item: Item, patterns: seq<Pattern>, pattern: Pattern)
    ensures AnnotatedIds(item, patterns + [pattern])
         == AnnotatedIds(item, patterns) + if pattern.active then AnnotatedBy(item, pattern.nodes) else {}
  {
    hide Annotates;
  }

  /** Every item keeps its IDs and gains those of the active nodes its signals match; the IDs come back as a sorted list of keys. */
  method AnnotateCausalNodes(evidence: seq<Item>, patterns: seq<Pattern>) returns (out: seq<Item>)
    ensures Annotated(evidence, out, patterns)
  {
    hide AnnotatedIds;
    out := [];
    var index := 0;
    while index < |evidence|
      invariant 0 <= index <= |evidence| && |out| == index
      invariant forall k :: 0 <= k < index ==> AnnotatedItem(evidence[k], out[k], patterns)
    {
      var matched := AnnotateItem(evidence[index], patterns);
      var ids := Iterate(matched);
      out := out + [evidence[index].(causalNodeIds := ids)];
      index := index + 1;
    }
  }

  method AnnotateItem(item: Item, patterns: seq<Pattern>) returns (matched: set<string>)
    ensures matched == AnnotatedIds(item, patterns)
  {
    hide AnnotatedBy;
    matched := Elements(item.causalNodeIds);
    var i := 0;
    assert AnnotatedIds(item, []) == matched;
    while i < |patterns|
      invariant 0 <= i <= |patterns| && matched == AnnotatedIds(item, patterns[..i])
    {
      assert patterns[..i + 1] == patterns[..i] + [patterns[i]];
      AnnotatedStep(item, patterns[..i], patterns[i]);
      if patterns[i].active {
        var found := MatchNodes(item, patterns[i].nodes);
        matched := matched + found;
      }
      i := i + 1;
    }
    assert patterns[..i] == patterns;
  }

  // ---------------------------------------------------------------- causal coverage

  function ActiveNodes(patterns: seq<Pattern>): set<string> {
    set pattern, node | pattern in patterns && pattern.active && node in pattern.nodes :: node.id
  }

  function ObservationId(item: Item): string {
    "obs:" + item.id
  }

  function ObservationIds(evidence: seq<Item>): set<string> {
    set item | item in evidence :: ObservationId(item)
  }

  /** Attached by an evidence item, or backed by a current evidence ID the pattern itself names. */
  predicate NodeObserved(evidence: seq<Item>, patterns: seq<Pattern>, id: string) {
    || id in ObservationIds(evidence)
    || (id in ActiveNodes(patterns) && exists item :: item in evidence && id in item.causalNodeIds)
    || exists pattern, node :: pattern in patterns && node in pattern.nodes && BackedNode(evidence, pattern, node, id)
  }

  predicate BackedNode(evidence: seq<Item>, pattern: Pattern, node: CausalNode, id: string) {
    pattern.active && node.id == id && exists source :: source in node.sourceEvidenceIds && "obs:" + source in ObservationIds(evidence)
  }

  predicate NodeAllowed(evidence: seq<Item>, patterns: seq<Pattern>, id: string) {
    id in ObservationIds(evidence) || id in ActiveNodes(patterns)
  }

  /** Edges are looked up by their joined text. */
  predicate EdgeKnown(patterns: seq<Pattern>, from: string, to: string) {
    exists pattern, edge :: pattern in patterns && pattern.active && edge in pattern.edges
                            && edge.from + [NUL] + edge.to == from + [NUL] + to
  }

  function Covered(evidence: seq<Item>, patterns: seq<Pattern>, expected: seq<string>): (n: nat)
    ensures n <= |expected|
    ensures n == |expected| <==> forall k :: 0 <= k < |expected| ==> NodeObserved(evidence, patterns, expected[k])
  {
    if expected == [] then 0
    else Covered(evidence, patterns, expected[..|expected| - 1]) + if NodeObserved(evidence, patterns, expected[|expected| - 1]) then 1 else 0
  }

  function Missing(evidence: seq<Item>, patterns: seq<Pattern>, expected: seq<string>): (missing: seq<string>)
    ensures missing == [] <==> forall k :: 0 <= k < |expected| ==> NodeObserved(evidence, patterns, expected[k])
  {
    if expected == [] then []
    else Missing(evidence, patterns, expected[..|expected| - 1])
         + if NodeObserved(evidence, patterns, expected[|expected| - 1]) then [] else [expected[|expected| - 1]]
  }

  function ValidEdges(patterns: seq<Pattern>, expected: seq<string>): (n: nat)
    ensures expected != [] ==> n <= |expected| - 1
    ensures expected != [] ==> (n == |expected| - 1 <==> forall k :: 0 <= k < |expected| - 1 ==> EdgeKnown(patterns, expected[k], expected[k + 1]))
  {
    if |expected| <= 1 then 0
    else
      var n := |expected| - 1;
      ValidEdges(patterns, expected[..n]) + if EdgeKnown(patterns, expected[n - 1], expected[n]) then 1 else 0
  }

  function Clamp(x: real): real {
    if x < 0.0 then 0.0 else if x > 1.0 then 1.0 else x
  }

  /** The share of observed nodes, times the share of known edges where there are any. */
  function Ratio(evidence: seq<Item>, patterns: seq<Pattern>, expected: seq<string>): real
    requires expected != []
  {
    Share(Covered(evidence, patterns, expected), ValidEdges(patterns, expected), |expected|)
  }

  function Share(covered: nat, valid: nat, length: nat): real
    requires length > 0
  {
    var nodes := covered as real / length as real;
    if length == 1 then nodes else Clamp(nodes * (valid as real / (length - 1) as real))
  }

  /** None stands for the error: no node at all, or one the server does not know. */
  function Coverage(evidence: seq<Item>, patterns: seq<Pattern>, expected: seq<string>): Option<(real, seq<string>)> {
    if expected == [] || exists k :: 0 <= k < |expected| && !NodeAllowed(evidence, patterns, expected[k]) then None
    else Some((Ratio(evidence, patterns, expected), Missing(evidence, patterns, expected)))
  }

  method CountCovered(evidence: seq<Item>, patterns: seq<Pattern>, expected: seq<string>)
    returns (known: bool, covered: nat, missing: seq<string>)
    ensures known <==> forall k :: 0 <= k < |expected| ==> NodeAllowed(evidence, patterns, expected[k])
    ensures known ==> covered == Covered(evidence, patterns, expected) && missing == Missing(evidence, patterns, expected)
  {
    hide NodeAllowed, NodeObserved;
    covered, missing := 0, [];
    var k := 0;
    while k < |expected|
      invariant 0 <= k <= |expected|
      invariant forall j :: 0 <= j < k ==> NodeAllowed(evidence, patterns, expected[j])
      invariant covered == Covered(evidence, patterns, expected[..k]) && missing == Missing(evidence, patterns, expected[..k])
    {
      if !NodeAllowed(evidence, patterns, expected[k]) {
        return false, covered, missing;
      }
      assert expected[..k + 1][..k] == expected[..k];
      if NodeObserved(evidence, patterns, expected[k]) {
        covered := covered + 1;
      } else {
        missing := missing + [expected[k]];
      }
      k := k + 1;
    }
    assert expected[..k] == expected;
    known := true;
  }

  method CountEdges(patterns: seq<Pattern>, expected: seq<string>) returns (valid: nat)
    requires expected != []
    ensures valid == ValidEdges(patterns, expected)
  {
    hide EdgeKnown;
    valid := 0;
    var k := 0;
    while k < |expected| - 1
      invariant 0 <= k <= |expected| - 1 && valid == ValidEdges(patterns, expected[..k + 1])
    {
      assert expected[..k + 2][..k + 1] == expected[..k + 1];
      if EdgeKnown(patterns, expected[k], expected[k + 1]) {
        valid := valid + 1;
      }
      k := k + 1;
    }
    assert expected[..k + 1] == expected;
  }

  method CanonicalCausalCoverage(expected: seq<string>, evidence: seq<Item>, patterns: seq<Pattern>)
    returns (r: Option<(real, seq<string>)>)
    ensures r == Coverage(evidence, patterns, expected)
  {
    hide Share, Covered, Missing, ValidEdges;
    if expected == [] {
      return None;
    }
    var known, covered, missing := CountCovered(evidence, patterns, expected);
    if !known {
      return None;
    }
    var valid := CountEdges(patterns, expected);
    r := Some((Share(covered, valid, |expected|), missing));
  }

  lemma ProductIsOne(a: nat, n: nat, b: nat, m: nat)
    requires a <= n && b <= m && n > 0 && m > 0
    ensures var x := (a as real / n as real) * (b as real / m as real);
            0.0 <= x <= 1.0 && (x == 1.0 <==> a == n && b == m)
  {
    Fraction(a, n);
    Fraction(b, m);
    var x, y := a as real / n as real, b as real / m as real;
    assert x * y <= x;
  }

  lemma Fraction(a: nat, n: nat)
    requires a <= n && n > 0
    ensures 0.0 <= a as real / n as real <= 1.0 && (a as real / n as real == 1.0 <==> a == n)
  {
    var q := a as real / n as real;
    assert q * n as real == a as real;
  }

  lemma RatioIsOneIff(evidence: seq<Item>, patterns: seq<Pattern>, expected: seq<string>)
    requires expected != []
    ensures 0.0 <= Ratio(evidence, patterns, expected) <= 1.0
    ensures Ratio(evidence, patterns, expected) == 1.0 <==>
              Covered(evidence, patterns, expected) == |expected| && ValidEdges(patterns, expected) == |expected| - 1
  {
    hide NodeObserved, EdgeKnown, Covered;
    Fraction(Covered(evidence, patterns, expected), |expected|);
    if |expected| > 1 {
      ProductIsOne(Covered(evidence, patterns, expected), |expected|, ValidEdges(patterns, expected), |expected| - 1);
    }
  }

  /** Full coverage means exactly: every node is observed and every two neighbours are joined by a known edge. */
  lemma CoverageIsOneIff(evidence: seq<Item>, patterns: seq<Pattern>, expected: seq<string>)
    requires Coverage(evidence, patterns, expected).Some?
    ensures var (coverage, missing) := Coverage(evidence, patterns, expected).value;
            && 0.0 <= coverage <= 1.0
            && (missing == [] <==> forall k :: 0 <= k < |expected| ==> NodeObserved(evidence, patterns, expected[k]))
            && (coverage == 1.0 <==>
                  && (forall k :: 0 <= k < |expected| ==> NodeObserved(evidence, patterns, expected[k]))
                  && (forall k :: 0 <= k < |expected| - 1 ==> EdgeKnown(patterns, expected[k], expected[k + 1])))
  {
    hide NodeObserved, EdgeKnown, NodeAllowed, Ratio, Covered, ValidEdges, Missing;
    RatioIsOneIff(evidence, patterns, expected);
  }

  /** The places of the path whose node is observed, and the places whose edge to the next is known. */
  ghost function ObservedPlaces(evidence: seq<Item>, patterns: seq<Pattern>, expected: seq<string>): set<nat> {
    set k: nat | 0 <= k < |expected| && NodeObserved(evidence, patterns, expected[k])
  }

  predicate StepKnown(patterns: seq<Pattern>, expected: seq<string>, k: nat) {
    k + 1 < |expected| && EdgeKnown(patterns, expected[k], expected[k + 1])
  }

  ghost function KnownSteps(patterns: seq<Pattern>, expected: seq<string>): set<nat> {
    set k: nat | 0 <= k < |expected| && StepKnown(patterns, expected, k)
  }

  lemma {:induction false} CoveredCounts(evidence: seq<Item>, patterns: seq<Pattern>, expected: seq<string>)
    ensures Covered(evidence, patterns, expected) == |ObservedPlaces(evidence, patterns, expected)|
  {
    hide NodeObserved;
    if expected == [] {
      assert ObservedPlaces(evidence, patterns, expected) == {};
    } else {
      var n := |expected| - 1;
      CoveredCounts(evidence, patterns, expected[..n]);
      var before := ObservedPlaces(evidence, patterns, expected[..n]);
      assert ObservedPlaces(evidence, patterns, expected)
          == before + if NodeObserved(evidence, patterns, expected[n]) then {n} else {};
    }
  }

  lemma StepsStep(patterns: seq<Pattern>, expected: seq<string>)
    requires |expected| > 1
    ensures var n := |expected| - 1;
            KnownSteps(patterns, expected)
            == KnownSteps(patterns, expected[..n]) + if EdgeKnown(patterns, expected[n - 1], expected[n]) then {n - 1} else {}
    ensures |expected| - 2 !in KnownSteps(patterns, expected[..|expected| - 1])
  {
    hide EdgeKnown;
    var n := |expected| - 1;
    var before, after := KnownSteps(patterns, expected[..n]), KnownSteps(patterns, expected);
    forall k: nat
      ensures k in after <==> k in before || (k == n - 1 && EdgeKnown(patterns, expected[n - 1], expected[n]))
    {
      assert k in before <==> k < n && StepKnown(patterns, expected[..n], k);
    }
  }

  lemma {:induction false} StepsCount(patterns: seq<Pattern>, expected: seq<string>)
    ensures ValidEdges(patterns, expected) == |KnownSteps(patterns, expected)|
  {
    if |expected| <= 1 {
      assert KnownSteps(patterns, expected) == {};
    } else {
      hide EdgeKnown, KnownSteps;
      var n := |expected| - 1;
      StepsCount(patterns, expected[..n]);
      StepsStep(patterns, expected);
    }
  }

  lemma {:induction false} MissingIs(evidence: seq<Item>, patterns: seq<Pattern>, expected: seq<string>)
    ensures forall id :: id in Missing(evidence, patterns, expected) <==> id in expected && !NodeObserved(evidence, patterns, id)
  {
    hide NodeObserved;
    if expected != [] {
      var n := |expected| - 1;
      MissingIs(evidence, patterns, expected[..n]);
      assert expected == expected[..n] + [expected[n]];
    }
  }

  /** The coverage of a path of this length: the observed share of its nodes, times the known share of its steps if it has any. */
  predicate Proportion(coverage: real, nodes: nat, steps: nat, length: nat) {
    && (length == 1 ==> coverage == nodes as real)
    && (length > 1 ==> coverage * length as real * (length - 1) as real == nodes as real * steps as real)
  }

  lemma ShareForm(covered: nat, valid: nat, length: nat)
    requires covered <= length && 0 < length && valid <= length - 1
    ensures Proportion(Share(covered, valid, length), covered, valid, length)
  {
    if length > 1 {
      ProductIsOne(covered, length, valid, length - 1);
      SharesMultiply(covered, length, valid, length - 1);
    }
  }

  /** Coverage in counted form, with exactly the unobserved nodes missing. */
  lemma CoverageIsCounted(evidence: seq<Item>, patterns: seq<Pattern>, expected: seq<string>)
    requires Coverage(evidence, patterns, expected).Some?
    ensures var (coverage, missing) := Coverage(evidence, patterns, expected).value;
            && expected != []
            && Proportion(coverage, |ObservedPlaces(evidence, patterns, expected)|, |KnownSteps(patterns, expected)|, |expected|)
            && forall id :: id in missing <==> id in expected && !NodeObserved(evidence, patterns, id)
  {
    CoveredCounts(evidence, patterns, expected);
    StepsCount(patterns, expected);
    MissingIs(evidence, patterns, expected);
    hide NodeObserved, NodeAllowed, ObservedPlaces, KnownSteps, Share, Proportion;
    ShareForm(Covered(evidence, patterns, expected), ValidEdges(patterns, expected), |expected|);
    hide Covered, ValidEdges, Missing;
  }

  lemma SharesMultiply(a: nat, n: nat, b: nat, m: nat)
    requires n > 0 && m > 0
    ensures (a as real / n as real) * (b as real / m as real) * n as real * m as real == a as real * b as real
  {
    var x, y := a as real / n as real, b as real / m as real;
    assert x * n as real == a as real && y * m as real == b as real;
    assert x * y * n as real * m as real == (x * n as real) * (y * m as real);
  }

  // ---------------------------------------------------------------- decisive nodes

  function DecisiveOfKind(patterns: seq<Pattern>, expected: seq<string>, kind: string): set<string> {
    set pattern, node | pattern in patterns && pattern.active && node in pattern.nodes && node.id in expected
                        && node.id in AdmissionNodes(pattern) && IsKind(node, kind) :: node.id
  }

  function DecisiveObserved(evidence: seq<Item>, patterns: seq<Pattern>, expected: seq<string>): set<string> {
    set pattern, node, item | pattern in patterns && node in pattern.nodes && item in evidence
                              && pattern.active && node.id in expected && node.id in AdmissionNodes(pattern)
                              && Observes(item, node) :: node.id
  }

  /** The decisive nodes of a path, a matter of the patterns alone: mechanisms, or causes where there are none. */
  function Required(patterns: seq<Pattern>, expected: seq<string>): set<string> {
    var mechanisms := DecisiveOfKind(patterns, expected, "mechanism");
    if mechanisms != {} then mechanisms else DecisiveOfKind(patterns, expected, "cause")
  }

  function MissingDecisive(evidence: seq<Item>, patterns: seq<Pattern>, expected: seq<string>): set<string> {
    var required := Required(patterns, expected);
    if exists id :: id in required && id in DecisiveObserved(evidence, patterns, expected) then {} else required
  }

  /** What a candidate that needs a causal mechanism is given. */
  function VerifiedCoverage(evidence: seq<Item>, patterns: seq<Pattern>, expected: seq<string>): Option<(real, set<string>)> {
    var coverage := Coverage(evidence, patterns, expected);
    if coverage.None? then None
    else
      var decisive := MissingDecisive(evidence, patterns, expected);
      Some((if decisive != {} then 0.0 else coverage.value.0, Elements(coverage.value.1) + decisive))
  }

  // ---------------------------------------------------------------- what the generator's path is worth

  ghost predicate TrimmedSources(evidence: seq<Item>, pattern: Pattern) {
    && (forall item :: item in evidence ==> Trim(item.source) == item.source)
    && (forall node :: node in pattern.nodes ==> Trim(node.source) == node.source)
  }

  /** No node ID is used by two active patterns. */
  ghost predicate DisjointIds(patterns: seq<Pattern>) {
    forall p, q, m, n :: p in patterns && q in patterns && p.active && q.active && m in p.nodes && n in q.nodes && m.id == n.id ==> p == q
  }

  lemma PathEdgesAreKnown(patterns: seq<Pattern>, pattern: Pattern, evidence: seq<Item>, path: seq<string>, k: nat)
    requires pattern in patterns && pattern.active && Eligible(pattern, evidence, path) && k < |path| - 1
    ensures EdgeKnown(patterns, path[k], path[k + 1])
  {
    hide AdmissionNodes, Observes;
    assert path[k + 1] in Next(GraphOf(pattern, evidence), path[k]);
    assert path[k] in Observed(pattern, evidence);
    ChildrenAreDeclared(pattern, path[k], path[k + 1]);
    assert CausalEdge(path[k], path[k + 1]) in pattern.edges;
  }

  /** With trimmed sources, what the generator saw is what the annotator attaches. */
  lemma ObservedIsAnnotated(patterns: seq<Pattern>, pattern: Pattern, item: Item, annotated: Item, node: CausalNode)
    requires pattern in patterns && pattern.active && node in pattern.nodes && Observes(item, node)
    requires Trim(item.source) == item.source && Trim(node.source) == node.source
    requires AnnotatedItem(item, annotated, patterns)
    ensures node.id in annotated.causalNodeIds
  {
    hide HasSignalFor, Typed;
    if node.id in item.causalNodeIds {
      assert node.id in Elements(annotated.causalNodeIds);
    } else {
      assert Annotates(item, node);
      assert node.id in AnnotatedIds(item, patterns);
    }
  }

  lemma PathNodesAreObserved(patterns: seq<Pattern>, pattern: Pattern, evidence: seq<Item>, annotated: seq<Item>, path: seq<string>, k: nat)
    requires pattern in patterns && pattern.active && Eligible(pattern, evidence, path) && k < |path|
    requires TrimmedSources(evidence, pattern) && Annotated(evidence, annotated, patterns)
    ensures NodeObserved(annotated, patterns, path[k]) && NodeAllowed(annotated, patterns, path[k])
  {
    hide Observes, AdmissionNodes, AnnotatedItem;
    assert path[k] in Observed(pattern, evidence);
    var node, item :| node in pattern.nodes && item in evidence && Observes(item, node) && node.id == path[k];
    var i :| 0 <= i < |evidence| && evidence[i] == item;
    ObservedIsAnnotated(patterns, pattern, item, annotated[i], node);
    assert annotated[i] in annotated && path[k] in ActiveNodes(patterns);
  }

  /** Annotation only adds: what was observed stays observed. */
  lemma AnnotationKeepsObservation(item: Item, annotated: Item, patterns: seq<Pattern>, node: CausalNode)
    requires AnnotatedItem(item, annotated, patterns) && Observes(item, node)
    ensures Observes(annotated, node)
  {
    hide HasSignalFor, Typed;
    assert annotated.signals == item.signals && annotated.source == item.source;
    assert HasSignalFor(annotated, node) == HasSignalFor(item, node) by {
      SameSignals(item, annotated, node);
    }
    if node.id in item.causalNodeIds {
      assert node.id in Elements(annotated.causalNodeIds);
    }
  }

  lemma SameSignals(item: Item, annotated: Item, node: CausalNode)
    requires annotated.signals == item.signals
    ensures HasSignalFor(annotated, node) == HasSignalFor(item, node)
  {
  }

  /** Whatever node of the path some pattern calls decisive, the generator's own pattern calls it so and observed it. */
  lemma DecisiveNodesAreObserved(patterns: seq<Pattern>, pattern: Pattern, evidence: seq<Item>, annotated: seq<Item>,
                                 path: seq<string>, kind: string, id: string)
    requires pattern in patterns && pattern.active && Eligible(pattern, evidence, path) && DisjointIds(patterns)
    requires Annotated(evidence, annotated, patterns) && id in DecisiveOfKind(patterns, path, kind)
    ensures id in DecisiveObserved(annotated, patterns, path)
  {
    hide Observes, AdmissionNodes, AnnotatedItem, IsKind;
    var q, m :| q in patterns && q.active && m in q.nodes && m.id in path && m.id in AdmissionNodes(q) && IsKind(m, kind) && m.id == id;
    var k :| 0 <= k < |path| && path[k] == id;
    assert path[k] in Observed(pattern, evidence);
    var node, item :| node in pattern.nodes && item in evidence && Observes(item, node) && node.id == id;
    assert q == pattern;
    var i :| 0 <= i < |evidence| && evidence[i] == item;
    AnnotationKeepsObservation(item, annotated[i], patterns, node);
    assert annotated[i] in annotated;
  }

  lemma NothingDecisiveIsMissing(patterns: seq<Pattern>, pattern: Pattern, evidence: seq<Item>, annotated: seq<Item>, path: seq<string>)
    requires pattern in patterns && pattern.active && Eligible(pattern, evidence, path) && DisjointIds(patterns)
    requires Annotated(evidence, annotated, patterns)
    ensures MissingDecisive(annotated, patterns, path) == {}
  {
    hide DecisiveOfKind, DecisiveObserved, Eligible, DisjointIds, Annotated;
    var mechanisms := DecisiveOfKind(patterns, path, "mechanism");
    var causes := DecisiveOfKind(patterns, path, "cause");
    if mechanisms != {} {
      var id :| id in mechanisms;
      DecisiveNodesAreObserved(patterns, pattern, evidence, annotated, path, "mechanism", id);
    } else if causes != {} {
      var id :| id in causes;
      DecisiveNodesAreObserved(patterns, pattern, evidence, annotated, path, "cause", id);
    }
  }

  lemma EligibleIsLong(pattern: Pattern, evidence: seq<Item>, path: seq<string>)
    requires Eligible(pattern, evidence, path)
    ensures |path| >= 2
  {
  }

  // ---------------------------------------------------------------- exactly when

  /** Does the annotated evidence show this node, judged by the evidence before annotation? */
  predicate Attached(evidence: seq<Item>, patterns: seq<Pattern>, id: string) {
    NodeObserved(evidence, patterns, id) || exists item :: item in evidence && id in AnnotatedIds(item, patterns)
  }

  lemma AttachedIff(patterns: seq<Pattern>, evidence: seq<Item>, annotated: seq<Item>, id: string)
    requires Annotated(evidence, annotated, patterns) && id in ActiveNodes(patterns)
    ensures NodeObserved(annotated, patterns, id) <==> Attached(evidence, patterns, id)
  {
    hide AnnotatedIds, ActiveNodes, BackedNode;
    SameObservationIds(patterns, evidence, annotated);
    forall k | 0 <= k < |evidence|
      ensures evidence[k] in evidence && annotated[k] in annotated
      ensures id in annotated[k].causalNodeIds <==> id in AnnotatedIds(evidence[k], patterns)
      ensures id in evidence[k].causalNodeIds ==> id in annotated[k].causalNodeIds
    {
      KeepsIds(evidence[k], annotated[k], patterns, id);
    }
    forall pattern, node | pattern in patterns && node in pattern.nodes
      ensures BackedNode(annotated, pattern, node, id) == BackedNode(evidence, pattern, node, id)
    {
      SameBacking(patterns, evidence, annotated, pattern, node, id);
    }
  }

  lemma KeepsIds(item: Item, annotated: Item, patterns: seq<Pattern>, id: string)
    requires AnnotatedItem(item, annotated, patterns)
    ensures id in annotated.causalNodeIds <==> id in AnnotatedIds(item, patterns)
    ensures id in item.causalNodeIds ==> id in annotated.causalNodeIds
  {
    hide Annotates;
    assert id in annotated.causalNodeIds <==> id in Elements(annotated.causalNodeIds);
    assert id in item.causalNodeIds <==> id in Elements(item.causalNodeIds);
  }

  lemma SameObservationIds(patterns: seq<Pattern>, evidence: seq<Item>, annotated: seq<Item>)
    requires Annotated(evidence, annotated, patterns)
    ensures ObservationIds(annotated) == ObservationIds(evidence)
  {
    hide AnnotatedIds;
    forall k | 0 <= k < |evidence|
      ensures ObservationId(evidence[k]) in ObservationIds(annotated) && ObservationId(annotated[k]) in ObservationIds(evidence)
    {
      assert evidence[k] in evidence && annotated[k] in annotated;
    }
  }

  lemma SameBacking(patterns: seq<Pattern>, evidence: seq<Item>, annotated: seq<Item>, pattern: Pattern, node: CausalNode, id: string)
    requires ObservationIds(annotated) == ObservationIds(evidence)
    ensures BackedNode(annotated, pattern, node, id) == BackedNode(evidence, pattern, node, id)
  {
  }

  /** Will the annotated item observe the node? Judged by the item as it was collected. */
  predicate WillObserve(item: Item, node: CausalNode, patterns: seq<Pattern>) {
    && SourceAccepted(node, item.source)
    && (if !Typed(node) then node.id in AnnotatedIds(item, patterns)
        else HasSignalFor(item, node) || (item.signals == [] && node.id in item.causalNodeIds))
  }

  function WillBeObserved(evidence: seq<Item>, patterns: seq<Pattern>, expected: seq<string>): set<string> {
    set pattern, node, item | pattern in patterns && node in pattern.nodes && item in evidence
                              && pattern.active && node.id in expected && node.id in AdmissionNodes(pattern)
                              && WillObserve(item, node, patterns) :: node.id
  }

  /** Nothing on the path is decisive, or some decisive node is observed in a pattern that admits it. */
  predicate DecisiveSeen(evidence: seq<Item>, patterns: seq<Pattern>, expected: seq<string>) {
    Required(patterns, expected) == {} || exists id :: id in Required(patterns, expected) && id in WillBeObserved(evidence, patterns, expected)
  }

  lemma NoSignalNoAnnotation(item: Item, patterns: seq<Pattern>)
    requires item.signals == []
    ensures AnnotatedIds(item, patterns) == Elements(item.causalNodeIds)
  {
  }

  lemma ObservesIff(item: Item, annotated: Item, patterns: seq<Pattern>, node: CausalNode)
    requires AnnotatedItem(item, annotated, patterns)
    ensures Observes(annotated, node) <==> WillObserve(item, node, patterns)
  {
    hide AnnotatedIds, HasSignalFor, Typed;
    SameSignals(item, annotated, node);
    KeepsIds(item, annotated, patterns, node.id);
    assert node.id in item.causalNodeIds <==> node.id in Elements(item.causalNodeIds);
    if item.signals == [] {
      NoSignalNoAnnotation(item, patterns);
    }
  }

  lemma DecisiveObservedIs(patterns: seq<Pattern>, evidence: seq<Item>, annotated: seq<Item>, expected: seq<string>)
    requires Annotated(evidence, annotated, patterns)
    ensures DecisiveObserved(annotated, patterns, expected) == WillBeObserved(evidence, patterns, expected)
  {
    hide Observes, WillObserve, AdmissionNodes, AnnotatedItem;
    forall k, node | 0 <= k < |evidence|
      ensures evidence[k] in evidence && annotated[k] in annotated
      ensures Observes(annotated[k], node) <==> WillObserve(evidence[k], node, patterns)
    {
      ObservesIff(evidence[k], annotated[k], patterns, node);
    }
    Indexed(evidence);
    Indexed(annotated);
  }

  lemma Indexed(items: seq<Item>)
    ensures forall item :: item in items ==> exists k :: 0 <= k < |items| && items[k] == item
  {
  }

  lemma NothingMissingIff(patterns: seq<Pattern>, evidence: seq<Item>, annotated: seq<Item>, expected: seq<string>)
    requires Annotated(evidence, annotated, patterns)
    ensures MissingDecisive(annotated, patterns, expected) == {} <==> DecisiveSeen(evidence, patterns, expected)
  {
    hide Required, DecisiveObserved, WillBeObserved, Annotated;
    DecisiveObservedIs(patterns, evidence, annotated, expected);
  }

  /**
   For any sources and any sharing of IDs: a generated path is fully verified if and only if
   every node of it is attached to the evidence under its source as written, and no node of it
   is decisive or some decisive one is observed in a pattern that admits it. Both are read off
   the evidence as it was collected. Trimmed sources give the first, disjoint IDs the second.
   */
  lemma FullyVerifiedIff(patterns: seq<Pattern>, pattern: Pattern, evidence: seq<Item>, annotated: seq<Item>, path: seq<string>)
    requires pattern in patterns && pattern.active && Eligible(pattern, evidence, path) && Annotated(evidence, annotated, patterns)
    ensures VerifiedCoverage(annotated, patterns, path) == Some((1.0, {})) <==>
              (forall k :: 0 <= k < |path| ==> Attached(evidence, patterns, path[k])) && DecisiveSeen(evidence, patterns, path)
    ensures TrimmedSources(evidence, pattern) ==> forall k :: 0 <= k < |path| ==> Attached(evidence, patterns, path[k])
    ensures DisjointIds(patterns) ==> DecisiveSeen(evidence, patterns, path)
  {
    hide NodeObserved, NodeAllowed, EdgeKnown, MissingDecisive, DecisiveSeen, TrimmedSources, DisjointIds, Annotated, Eligible, Attached, Ratio, Missing;
    forall k | 0 <= k < |path|
      ensures NodeAllowed(annotated, patterns, path[k])
      ensures NodeObserved(annotated, patterns, path[k]) <==> Attached(evidence, patterns, path[k])
      ensures TrimmedSources(evidence, pattern) ==> Attached(evidence, patterns, path[k])
    {
      PathNodesAreActive(patterns, pattern, evidence, path, k);
      ActiveIsAllowed(annotated, patterns, path[k]);
      AttachedIff(patterns, evidence, annotated, path[k]);
      if TrimmedSources(evidence, pattern) {
        PathNodesAreObserved(patterns, pattern, evidence, annotated, path, k);
      }
    }
    forall k | 0 <= k < |path| - 1
      ensures EdgeKnown(patterns, path[k], path[k + 1])
    {
      PathEdgesAreKnown(patterns, pattern, evidence, path, k);
    }
    EligibleIsLong(pattern, evidence, path);
    CoverageIsOneIff(annotated, patterns, path);
    NothingMissingIff(patterns, evidence, annotated, path);
    assert Elements<string>([]) + {} == {};
    if DisjointIds(patterns) {
      NothingDecisiveIsMissing(patterns, pattern, evidence, annotated, path);
    }
  }

  lemma PathNodesAreActive(patterns: seq<Pattern>, pattern: Pattern, evidence: seq<Item>, path: seq<string>, k: nat)
    requires pattern in patterns && pattern.active && Eligible(pattern, evidence, path) && k < |path|
    ensures path[k] in ActiveNodes(patterns)
  {
    hide Observes, AdmissionNodes;
    assert path[k] in Observed(pattern, evidence);
  }

  lemma ActiveIsAllowed(evidence: seq<Item>, patterns: seq<Pattern>, id: string)
    requires id in ActiveNodes(patterns)
    ensures NodeAllowed(evidence, patterns, id)
  {
  }

  /**
   Generate, then verify: with trimmed sources and node IDs that no two active patterns share,
   a candidate whose path was chosen from its pattern's observed paths is verified with causal
   coverage exactly one and with no missing node, decisive nodes included.
   */
  lemma GeneratedPathIsFullyVerified(patterns: seq<Pattern>, pattern: Pattern, evidence: seq<Item>, annotated: seq<Item>, path: seq<string>)
    requires pattern in patterns && pattern.active && Eligible(pattern, evidence, path)
    requires TrimmedSources(evidence, pattern) && DisjointIds(patterns) && Annotated(evidence, annotated, patterns)
    ensures VerifiedCoverage(annotated, patterns, path) == Some((1.0, {}))
  {
    FullyVerifiedIff(patterns, pattern, evidence, annotated, path);
  }

  // ---------------------------------------------------------------- where the two premises are needed

  const C := CausalNode("c", "cause", "k", ["s"], [])

  const PaddedC := CausalNode("c", "cause", "k ", ["s"], [])

  const Y := CausalNode("y", "symptom", "", ["t"], [])

  const Evidence := [Item("e", "k", [Signal("s", AbnormalSignal), Signal("t", AbnormalSignal)], [])]

  /** A cause and the symptom it leads to, both observed by one item. */
  predicate TwoNodePattern(pattern: Pattern, cause: CausalNode) {
    && pattern == Pattern("p", "cpu", true, [cause, Y], [CausalEdge("c", "y")])
    && (cause == C || cause == PaddedC)
  }

  lemma SignalsCount(cause: CausalNode)
    requires cause == C || cause == PaddedC
    ensures HasSignalFor(Evidence[0], cause) && HasSignalFor(Evidence[0], Y) && Typed(cause) && Typed(Y)
  {
    PlainIsNormal("s");
    PlainIsNormal("t");
    assert Normal(cause.signals[0]) == "s" && Normal(Y.signals[0]) == "t";
    assert Counts(Evidence[0].signals[0], cause) && AllowedSignal(cause, Normal(Evidence[0].signals[0].name));
    assert Counts(Evidence[0].signals[1], Y) && AllowedSignal(Y, Normal(Evidence[0].signals[1].name));
  }

  lemma BothObserved(pattern: Pattern, cause: CausalNode)
    requires TwoNodePattern(pattern, cause)
    ensures Observed(pattern, Evidence) == {"c", "y"}
  {
    hide HasSignalFor, Typed;
    SignalsCount(cause);
    PlainIsNormal("k");
    assert Trim("k ") == "k" by {
      assert TrimLeft("k ") == "k " && "k "[..1] == "k" && TrimRight("k ") == TrimRight("k");
    }
    assert Observes(Evidence[0], cause) && Observes(Evidence[0], Y);
    assert cause in pattern.nodes && Y in pattern.nodes && Evidence[0] in Evidence;
    assert "c" in Observed(pattern, Evidence) && "y" in Observed(pattern, Evidence);
  }

  lemma TwoNodeTable(pattern: Pattern, cause: CausalNode)
    requires TwoNodePattern(pattern, cause)
    ensures Table(pattern.nodes) == map["c" := cause, "y" := Y]
  {
    assert pattern.nodes[..1] == [cause] && [cause][..0] == [];
    assert Table([cause]) == map["c" := cause];
  }

  lemma TwoNodePathIsEligible(pattern: Pattern, cause: CausalNode)
    requires TwoNodePattern(pattern, cause)
    ensures Eligible(pattern, Evidence, ["c", "y"])
  {
    hide Observes, Observed, Table;
    var g := GraphOf(pattern, Evidence);
    var path := ["c", "y"];
    BothObserved(pattern, cause);
    TwoNodeTable(pattern, cause);
    assert CausalEdge("c", "y") in pattern.edges;
    ChildrenAreDeclared(pattern, "c", "y");
    forall x | x in Next(g, "y")
      ensures x in path
    {
      ChildrenAreDeclared(pattern, "y", x);
      assert CausalEdge("y", x) != CausalEdge("c", "y");
    }
    assert Simple(g, path) && Stuck(g, path);
    PlainIsNormal("cause");
    assert RootCause(pattern, cause) && cause in pattern.nodes;
    CauseIsAdmitted(pattern, cause);
  }

  lemma CauseIsAdmitted(pattern: Pattern, node: CausalNode)
    requires node in pattern.nodes && RootCause(pattern, node) && pattern.category != "dependency"
    ensures node.id in AdmissionNodes(pattern)
  {
    hide RootCause, DirectMechanism;
    assert node.id in DirectNodes(pattern);
  }

  lemma NotObserved(evidence: seq<Item>, patterns: seq<Pattern>, id: string)
    requires |evidence| == 1 && |id| < 4 && id !in evidence[0].causalNodeIds
    requires forall pattern, node :: pattern in patterns && node in pattern.nodes ==> node.sourceEvidenceIds == []
    ensures !NodeObserved(evidence, patterns, id)
  {
    assert |ObservationId(evidence[0])| >= 4;
    assert forall item :: item in evidence ==> item == evidence[0];
  }

  lemma PaddedIsNotAnnotated(patterns: seq<Pattern>, pattern: Pattern, annotated: Item)
    requires patterns == [pattern] && TwoNodePattern(pattern, PaddedC) && AnnotatedItem(Evidence[0], annotated, patterns)
    ensures "c" !in annotated.causalNodeIds
  {
    hide HasSignalFor;
    assert |Lower("k ")| == 2 && |Lower("k")| == 1;
    assert !Annotates(Evidence[0], PaddedC);
    assert forall node :: node in pattern.nodes ==> node == PaddedC || node == Y;
    assert "c" !in AnnotatedIds(Evidence[0], patterns);
    assert "c" !in Elements(annotated.causalNodeIds);
  }

  lemma TwoNodesAllowed(evidence: seq<Item>, patterns: seq<Pattern>, pattern: Pattern, cause: CausalNode)
    requires pattern in patterns && TwoNodePattern(pattern, cause)
    ensures NodeAllowed(evidence, patterns, "c") && NodeAllowed(evidence, patterns, "y")
  {
    assert cause in pattern.nodes && Y in pattern.nodes;
    assert "c" in ActiveNodes(patterns) && "y" in ActiveNodes(patterns);
  }

  /** A source name with a trailing blank: the generator observes the node, the annotator does not, and coverage is lost. */
  lemma PaddedSourceLosesCoverage(patterns: seq<Pattern>, pattern: Pattern, annotated: seq<Item>)
    requires patterns == [pattern] && TwoNodePattern(pattern, PaddedC) && Annotated(Evidence, annotated, patterns)
    ensures Eligible(pattern, Evidence, ["c", "y"]) && DisjointIds(patterns)
    ensures Coverage(annotated, patterns, ["c", "y"]).Some? && Coverage(annotated, patterns, ["c", "y"]).value.0 < 1.0
  {
    hide NodeObserved, NodeAllowed, EdgeKnown, Ratio, Missing, Eligible, AnnotatedItem;
    var expected := ["c", "y"];
    TwoNodePathIsEligible(pattern, PaddedC);
    PaddedIsNotAnnotated(patterns, pattern, annotated[0]);
    NotObserved(annotated, patterns, "c");
    TwoNodesAllowed(annotated, patterns, pattern, PaddedC);
    assert expected[0] == "c" && expected[1] == "y";
    CoverageIsOneIff(annotated, patterns, expected);
  }

  const Z := CausalNode("z", "cause", "", ["u"], [])

  const SharedY := CausalNode("y", "mechanism", "", ["u"], [])

  /** A second pattern that uses the ID "y" for an unobserved mechanism of its own. */
  const Other := Pattern("q", "net", true, [Z, SharedY], [CausalEdge("z", "y")])

  lemma SharedIsDecisive()
    ensures "y" in AdmissionNodes(Other) && IsKind(SharedY, "mechanism")
  {
    PlainIsNormal("cause");
    PlainIsNormal("mechanism");
    assert Other.nodes[..1] == [Z] && [Z][..0] == [];
    assert Table([Z]) == map["z" := Z];
    assert Table(Other.nodes) == map["z" := Z, "y" := SharedY];
    assert CausalEdge("z", "y") in Other.edges && Declared(Other, "z", "y");
    assert DirectMechanism(Other, SharedY) && SharedY in Other.nodes;
    assert "y" in DirectNodes(Other);
  }

  lemma OnlyCauseIsAdmitted(pattern: Pattern)
    requires TwoNodePattern(pattern, C)
    ensures AdmissionNodes(pattern) == {"c"}
  {
    hide Table;
    PlainIsNormal("cause");
    PlainIsNormal("symptom");
    assert RootCause(pattern, C) && C in pattern.nodes;
    assert !RootCause(pattern, Y) && !DirectMechanism(pattern, Y);
    assert DirectNodes(pattern) == {"c"};
  }

  lemma SharedIsNotObserved(annotated: Item)
    requires annotated.signals == Evidence[0].signals
    ensures !Observes(annotated, SharedY)
  {
    PlainIsNormal("s");
    PlainIsNormal("t");
    PlainIsNormal("u");
    assert Normal(SharedY.signals[0]) == "u" && Typed(SharedY);
    assert "s"[0] != "u"[0] && "t"[0] != "u"[0];
    assert !AllowedSignal(SharedY, "s") && !AllowedSignal(SharedY, "t");
    assert !HasSignalFor(annotated, SharedY);
  }

  predicate TwoPatterns(patterns: seq<Pattern>, pattern: Pattern) {
    patterns == [pattern, Other] && TwoNodePattern(pattern, C)
  }

  lemma WhereNodesAre(patterns: seq<Pattern>, pattern: Pattern, p: Pattern, node: CausalNode)
    requires TwoPatterns(patterns, pattern) && p in patterns && node in p.nodes
    ensures (p == pattern && (node == C || node == Y)) || (p == Other && (node == Z || node == SharedY))
  {
  }

  lemma FirstTwoAreNoMechanisms(node: CausalNode)
    requires node in {C, Y, Z}
    ensures !IsKind(node, "mechanism")
  {
    PlainIsNormal("cause");
    PlainIsNormal("symptom");
  }

  lemma OnlySharedIsMechanism(patterns: seq<Pattern>, pattern: Pattern)
    requires TwoPatterns(patterns, pattern)
    ensures DecisiveOfKind(patterns, ["c", "y"], "mechanism") == {"y"}
  {
    hide AdmissionNodes, IsKind;
    var expected := ["c", "y"];
    SharedIsDecisive();
    assert expected[1] == "y" && Other in patterns && SharedY in Other.nodes;
    forall id | id in DecisiveOfKind(patterns, expected, "mechanism")
      ensures id == "y"
    {
      var p, node :| p in patterns && p.active && node in p.nodes && node.id in expected && node.id in AdmissionNodes(p)
                     && IsKind(node, "mechanism") && node.id == id;
      WhereNodesAre(patterns, pattern, p, node);
      if node in {C, Y, Z} {
        FirstTwoAreNoMechanisms(node);
      }
    }
    assert "y" in DecisiveOfKind(patterns, expected, "mechanism");
  }

  lemma SharedIsNotDecisivelyObserved(patterns: seq<Pattern>, pattern: Pattern, annotated: seq<Item>)
    requires TwoPatterns(patterns, pattern) && |annotated| == 1 && annotated[0].signals == Evidence[0].signals
    ensures "y" !in DecisiveObserved(annotated, patterns, ["c", "y"])
  {
    hide AdmissionNodes, Observes;
    OnlyCauseIsAdmitted(pattern);
    SharedIsNotObserved(annotated[0]);
    forall p, node, item | p in patterns && node in p.nodes && item in annotated && node.id == "y" && node.id in AdmissionNodes(p)
      ensures !Observes(item, node)
    {
      WhereNodesAre(patterns, pattern, p, node);
    }
  }

  lemma SharedIsMissing(patterns: seq<Pattern>, pattern: Pattern, annotated: seq<Item>)
    requires TwoPatterns(patterns, pattern) && |annotated| == 1 && annotated[0].signals == Evidence[0].signals
    ensures MissingDecisive(annotated, patterns, ["c", "y"]) == {"y"}
  {
    hide DecisiveOfKind, DecisiveObserved;
    OnlySharedIsMechanism(patterns, pattern);
    SharedIsNotDecisivelyObserved(patterns, pattern, annotated);
  }

  /** An ID that two active patterns share: the other pattern's mechanism is demanded, and a fully observed path counts for nothing. */
  lemma SharedIdLosesCoverage(patterns: seq<Pattern>, pattern: Pattern, annotated: seq<Item>)
    requires TwoPatterns(patterns, pattern) && Annotated(Evidence, annotated, patterns)
    ensures Eligible(pattern, Evidence, ["c", "y"]) && VerifiedCoverage(annotated, patterns, ["c", "y"]).Some?
    ensures VerifiedCoverage(annotated, patterns, ["c", "y"]).value.0 == 0.0
  {
    hide NodeAllowed, Ratio, Missing, Eligible, MissingDecisive;
    TwoNodePathIsEligible(pattern, C);
    TwoNodesAllowed(annotated, patterns, pattern, C);
    SharedIsMissing(patterns, pattern, annotated);
    assert ["c", "y"][0] == "c" && ["c", "y"][1] == "y";
  }
}
