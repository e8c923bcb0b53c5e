/**
 Causal patterns and the evidence that is matched against them (reasoning/candidates.go:331-433): which pattern nodes an evidence item observes, and which nodes may
 establish a candidate.
 */
module CausalModel {
  import opened Domain
  import opened Sorting
  import opened Text

  // ---------------------------------------------------------------- patterns and evidence

  datatype CausalNode = CausalNode(id: string, kind: string, source: string, signals: seq<string>, sourceEvidenceIds: seq<string>)

  datatype CausalEdge = CausalEdge(from: string, to: string)

  datatype Pattern = Pattern(id: string, category: string, active: bool, nodes: seq<CausalNode>, edges: seq<CausalEdge>)

  datatype Direction = AbnormalSignal | ObservedSignal | OtherSignal

  datatype Signal = Signal(name: string, direction: Direction)

  datatype Item = Item(id: string, source: string, signals: seq<Signal>, causalNodeIds: seq<string>)

  predicate AllowedSignal(node: CausalNode, name: string) {
    exists k :: 0 <= k < |node.signals| && Normal(node.signals[k]) != "" && Normal(node.signals[k]) == name
  }

  predicate Typed(node: CausalNode) {
    exists k :: 0 <= k < |node.signals| && Normal(node.signals[k]) != ""
  }

  /** A signal that counts for a node: abnormal, or, for a cause, merely observed. */
  predicate Counts(signal: Signal, node: CausalNode) {
    signal.direction == AbnormalSignal || (signal.direction == ObservedSignal && EqualFold(Trim(node.kind), "cause"))
  }

  predicate SourceAccepted(node: CausalNode, source: string) {
    node.source == "" || EqualFold(Trim(node.source), Trim(source))
  }

  predicate HasSignalFor(item: Item, node: CausalNode) {
    exists k :: 0 <= k < |item.signals| && Counts(item.signals[k], node) && AllowedSignal(node, Normal(item.signals[k].name))
  }

  /** Does this evidence item observe this node? Node IDs count only where there is no signal to judge by. */
  predicate Observes(item: Item, node: CausalNode) {
    && SourceAccepted(node, item.source)
    && (if !Typed(node) then node.id in item.causalNodeIds
        else HasSignalFor(item, node) || (item.signals == [] && node.id in item.causalNodeIds))
  }

  function Observed(pattern: Pattern, evidence: seq<Item>): set<string> {
    set node, item | node in pattern.nodes && item in evidence && Observes(item, node) :: node.id
  }

  // ---------------------------------------------------------------- the graph of one pattern

  /** Later nodes with the same ID replace earlier ones. */
  function Table(nodes: seq<CausalNode>): map<string, CausalNode> {
    if nodes == [] then map[] else Table(nodes[..|nodes| - 1])[nodes[|nodes| - 1].id := nodes[|nodes| - 1]]
  }

  predicate Known(pattern: Pattern, id: string) {
    id != "" && id in Table(pattern.nodes)
  }

  function Targets(pattern: Pattern, edges: seq<CausalEdge>, from: string): seq<string> {
    if edges == [] then []
    else
      var last := edges[|edges| - 1];
      Targets(pattern, edges[..|edges| - 1], from)
      + if last.from == from && Known(pattern, last.from) && Known(pattern, last.to) then [last.to] else []
  }

  function Children(pattern: Pattern, id: string): seq<string> {
    SortStrings(Targets(pattern, pattern.edges, id))
  }

  /** A declared edge between nodes of the pattern. */
  predicate Declared(pattern: Pattern, from: string, to: string) {
    CausalEdge(from, to) in pattern.edges && Known(pattern, from) && Known(pattern, to)
  }

  lemma {:induction false} TargetsAreDeclared(pattern: Pattern, edges: seq<CausalEdge>, from: string, to: string)
    ensures to in Targets(pattern, edges, from) <==> CausalEdge(from, to) in edges && Known(pattern, from) && Known(pattern, to)
  {
    if edges != [] {
      TargetsAreDeclared(pattern, edges[..|edges| - 1], from, to);
      assert edges == edges[..|edges| - 1] + [edges[|edges| - 1]];
    }
  }

  lemma ChildrenAreDeclared(pattern: Pattern, from: string, to: string)
    ensures to in Children(pattern, from) <==> Declared(pattern, from, to)
  {
    SortStringsFacts(Targets(pattern, pattern.edges, from));
    TargetsAreDeclared(pattern, pattern.edges, from, to);
  }

  /** The targets come in the order of their text. */
  lemma ChildrenAreSorted(pattern: Pattern, from: string)
    ensures forall i, j :: 0 <= i < j < |Children(pattern, from)| ==> Precedes(Children(pattern, from)[i], Children(pattern, from)[j])
    ensures multiset(Children(pattern, from)) == multiset(Targets(pattern, pattern.edges, from))
  {
    hide Targets, StringLeq;
    var targets := Targets(pattern, pattern.edges, from);
    StringOrder();
    SortOrders(StringLeq, targets);
    SortPermutes(StringLeq, targets);
    forall i, j | 0 <= i < j < |Children(pattern, from)|
      ensures Precedes(Children(pattern, from)[i], Children(pattern, from)[j])
    {
      StringLeqIff(Children(pattern, from)[i], Children(pattern, from)[j]);
    }
  }

  // ---------------------------------------------------------------- which nodes may establish a candidate

  predicate IsKind(node: CausalNode, kind: string) {
    Normal(node.kind) == kind
  }

  predicate RootCause(pattern: Pattern, node: CausalNode) {
    IsKind(node, "cause") && forall e :: e in pattern.edges ==> !(e.to == node.id && Declared(pattern, e.from, node.id))
  }

  predicate DirectMechanism(pattern: Pattern, node: CausalNode) {
    IsKind(node, "mechanism")
    && exists e :: e in pattern.edges && e.to == node.id && Declared(pattern, e.from, node.id)
                   && EqualFold(Trim(Table(pattern.nodes)[e.from].kind), "cause")
  }

  function RootCauses(pattern: Pattern): set<string> {
    set node | node in pattern.nodes && RootCause(pattern, node) :: node.id
  }

  function Mechanisms(pattern: Pattern): set<string> {
    set node | node in pattern.nodes && IsKind(node, "mechanism") :: node.id
  }

  function DirectNodes(pattern: Pattern): set<string> {
    set node | node in pattern.nodes && (RootCause(pattern, node) || DirectMechanism(pattern, node)) :: node.id
  }

  /** Root causes and mechanisms they cause directly; only root causes for a remote dependency; any mechanism when there is neither. */
  function AdmissionNodes(pattern: Pattern): set<string> {
    if pattern.category == "dependency" && RootCauses(pattern) != {} then RootCauses(pattern)
    else if DirectNodes(pattern) == {} then Mechanisms(pattern)
    else DirectNodes(pattern)
  }

  // ---------------------------------------------------------------- reading a small pattern

  lemma TableStep(nodes: seq<CausalNode>, node: CausalNode)
    ensures Table(nodes + [node]) == Table(nodes)[node.id := node]
  {
    assert (nodes + [node])[..|nodes|] == nodes;
  }

  lemma TargetsStep(pattern: Pattern, edges: seq<CausalEdge>, edge: CausalEdge, from: string)
    ensures Targets(pattern, edges + [edge], from)
         == Targets(pattern, edges, from) + if edge.from == from && Known(pattern, from) && Known(pattern, edge.to) then [edge.to] else []
  {
    assert (edges + [edge])[..|edges|] == edges;
  }

  lemma NoTable()
    ensures Table([]) == map[]
  {
  }

  lemma NoTargets(pattern: Pattern, from: string)
    ensures Targets(pattern, [], from) == []
  {
  }

  lemma KindIs(node: CausalNode, kind: string)
    requires Plain(node.kind)
    ensures IsKind(node, kind) <==> node.kind == kind
  {
    PlainIsNormal(node.kind);
  }

  /** A signal of an evidence item that a collector found abnormal. */
  function Abnormal(name: string): Signal {
    Signal(name, AbnormalSignal)
  }

  /** The plain case: a node of any source with one signal, which the item shows as abnormal. */
  predicate Shows(item: Item, node: CausalNode) {
    node.source == "" && |node.signals| == 1 && Plain(node.signals[0]) && Abnormal(node.signals[0]) in item.signals
  }

  lemma ShownIsObserved(item: Item, node: CausalNode)
    requires Shows(item, node)
    ensures Typed(node) && HasSignalFor(item, node) && Observes(item, node)
  {
    PlainIsNormal(node.signals[0]);
    var k :| 0 <= k < |item.signals| && item.signals[k] == Abnormal(node.signals[0]);
    assert Counts(item.signals[k], node) && AllowedSignal(node, Normal(item.signals[k].name));
  }
}
