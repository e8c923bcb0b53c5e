/**
 The ledger of hypothesis revisions and belief deltas: revisions are only ever appended,
 confidence changes at the commit node alone, and the commit fails the whole graph exactly
 when one batch carried two deltas for the same revision
 (agent/brain_state.go:84-135, 346-393; agent/brain_tools.go:955-1007).
 */
module BeliefLedger {
  import opened Domain
  import opened WorkflowSpec
  import opened WorkflowGraph
  import opened NodeFrames
  import opened BrainLoop
  import opened BrainBudgets

  /** `b` is `a` with revisions appended; a revision of `a` keeps its identity and its confidence. */
  predicate Extends(a: seq<Hypothesis>, b: seq<Hypothesis>) {
    |a| <= |b| && forall i :: 0 <= i < |a| ==> b[i].id == a[i].id && b[i].confidence == a[i].confidence
  }

  predicate Pending(b: Belief, k: int) {
    b.beliefCursor <= k < |b.beliefDeltas|
  }

  /** The revision a delta names, or -1. */
  function TargetOf(b: Belief, k: nat): (i: int)
    requires k < |b.beliefDeltas|
    ensures -1 <= i < |b.hypotheses|
  {
    IndexOf(b.hypotheses, b.beliefDeltas[k].hypothesisId)
  }

  predicate Acceptable(b: Belief, k: nat)
    requires k < |b.beliefDeltas|
  {
    b.beliefDeltas[k].committed && TargetOf(b, k) >= 0 && CommitAccepted(b.hypotheses[TargetOf(b, k)], b.beliefDeltas[k])
  }

  /** Every delta still to be committed names a known revision and starts from its current confidence. */
  ghost predicate PendingAccepted(b: Belief) {
    forall k :: Pending(b, k) ==> Acceptable(b, k)
  }

  ghost predicate DistinctTargets(b: Belief) {
    forall k, m :: Pending(b, k) && Pending(b, m) && k < m ==> b.beliefDeltas[k].hypothesisId != b.beliefDeltas[m].hypothesisId
  }

  // ---------------------------------------------------------------- looking revisions up

  lemma {:induction false} IndexOfUnique(hypotheses: seq<Hypothesis>, i: nat)
    requires UniqueIds(hypotheses) && i < |hypotheses|
    ensures IndexOf(hypotheses, hypotheses[i].id) == i
  {
    if i > 0 {
      IndexOfUnique(hypotheses[1..], i - 1);
      assert hypotheses[1..][i - 1] == hypotheses[i];
    }
  }

  lemma {:induction false} IndexOfMissing(hypotheses: seq<Hypothesis>, id: string)
    requires forall h :: h in hypotheses ==> h.id != id
    ensures IndexOf(hypotheses, id) < 0
  {
    if hypotheses != [] {
      assert hypotheses[0] in hypotheses;
      IndexOfMissing(hypotheses[1..], id);
    }
  }

  /** Searching from the back finds the same revision while identifiers are unique. */
  lemma {:induction false} FindIsIndexOf(hypotheses: seq<Hypothesis>, id: string)
    requires UniqueIds(hypotheses)
    ensures var i := IndexOf(hypotheses, id);
            FindHypothesis(hypotheses, id) == (if i < 0 then None else Some(hypotheses[i]))
  {
    if hypotheses != [] {
      var last := |hypotheses| - 1;
      if hypotheses[last].id == id {
        IndexOfUnique(hypotheses, last);
      } else {
        FindIsIndexOf(hypotheses[..last], id);
        var i := IndexOf(hypotheses, id);
        var j := IndexOf(hypotheses[..last], id);
        if i >= 0 {
          assert hypotheses[..last][i] == hypotheses[i];
          IndexOfUnique(hypotheses[..last], i);
        } else if j >= 0 {
          assert hypotheses[j].id == id;
          IndexOfUnique(hypotheses, j);
        }
      }
    }
  }

  // ---------------------------------------------------------------- one commit

  /** A pending delta is either acceptable now or was overtaken by an earlier one for the same revision. */
  ghost predicate Ordered(b: Belief) {
    && (forall k :: Pending(b, k) ==> Acceptable(b, k) || Overtaken(b, k))
    && (forall k, m :: Pending(b, k) && Pending(b, m) && b.beliefDeltas[k].hypothesisId == b.beliefDeltas[m].hypothesisId ==>
          b.beliefDeltas[k].previous == b.beliefDeltas[m].previous)
  }

  predicate Overtaken(b: Belief, k: nat)
    requires k < |b.beliefDeltas|
  {
    b.beliefDeltas[k].committed && TargetOf(b, k) >= 0
    && b.hypotheses[TargetOf(b, k)].confidence != b.beliefDeltas[k].previous
  }

  /** Committing one delta moves exactly one revision's confidence. */
  lemma CommitOneSplits(b: Belief, i: nat, b': Belief)
    requires UniqueIds(b.hypotheses) && Ordered(b) && Pending(b, b.beliefCursor)
    requires i == IndexOf(b.hypotheses, b.beliefDeltas[b.beliefCursor].hypothesisId)
    requires CommitAccepted(b.hypotheses[i], b.beliefDeltas[b.beliefCursor])
    requires b' == b.(beliefCursor := b.beliefCursor + 1,
                      hypotheses := b.hypotheses[i := b.hypotheses[i].(confidence := b.beliefDeltas[b.beliefCursor].updated)])
    ensures UniqueIds(b'.hypotheses) && Ordered(b')
    ensures PendingAccepted(b') && DistinctTargets(b') <==> PendingAccepted(b) && DistinctTargets(b)
  {
    var d := b.beliefDeltas[b.beliefCursor];
    assert UniqueIds(b'.hypotheses);
    forall k | Pending(b', k)
      ensures IndexOf(b'.hypotheses, b.beliefDeltas[k].hypothesisId) == IndexOf(b.hypotheses, b.beliefDeltas[k].hypothesisId)
    {
      var j := IndexOf(b.hypotheses, b.beliefDeltas[k].hypothesisId);
      assert Pending(b, k) && j >= 0;
      assert b'.hypotheses[j].id == b.hypotheses[j].id;
      IndexOfUnique(b'.hypotheses, j);
    }
    assert forall k :: Pending(b', k) ==> Pending(b, k);
    assert forall k :: Pending(b, k) ==> k == b.beliefCursor || Pending(b', k);
    forall k | Pending(b', k) && b.beliefDeltas[k].hypothesisId == d.hypothesisId
      ensures b.beliefDeltas[k].previous == d.previous != b'.hypotheses[i].confidence
    {
      assert Pending(b, b.beliefCursor) && Pending(b, k);
    }
    if PendingAccepted(b') && DistinctTargets(b') {
      forall k | Pending(b, k)
        ensures Acceptable(b, k)
      {
        if k != b.beliefCursor {
          assert Pending(b', k);
        }
      }
    }
  }

  lemma {:induction false} CommitOutcome(s: State)
    requires UniqueIds(s.belief.hypotheses) && Ordered(s.belief)
    ensures BeliefCommit(s).Done? <==> PendingAccepted(s.belief) && DistinctTargets(s.belief)
    ensures BeliefCommit(s).Done? ==> BeliefCommit(s).state.belief.beliefCursor >= |BeliefCommit(s).state.belief.beliefDeltas|
    ensures UniqueIds(BeliefCommit(s).state.belief.hypotheses)
    decreases |s.belief.beliefDeltas| - s.belief.beliefCursor
  {
    var b := s.belief;
    if b.beliefCursor < |b.beliefDeltas| {
      var d := b.beliefDeltas[b.beliefCursor];
      assert Pending(b, b.beliefCursor);
      var i := IndexOf(b.hypotheses, d.hypothesisId);
      if CommitAccepted(b.hypotheses[i], d) {
        var b' := b.(beliefCursor := b.beliefCursor + 1, hypotheses := b.hypotheses[i := b.hypotheses[i].(confidence := d.updated)]);
        CommitOneSplits(b, i, b');
        CommitOutcome(s.(belief := b'));
      }
    }
  }

  // ---------------------------------------------------------------- what classification appends

  lemma {:induction false} AddExtends(hypotheses: seq<Hypothesis>, added: seq<Hypothesis>)
    ensures var r := AddHypotheses(hypotheses, added);
            Extends(hypotheses, r) && |r| == |hypotheses| + |added|
            && forall i :: 0 <= i < |added| ==> r[|hypotheses| + i].id == added[i].id
    decreases |added|
  {
    if added != [] {
      var grown := MarkParents(hypotheses, added[0]) + [added[0]];
      AddExtends(grown, added[1..]);
      var r := AddHypotheses(hypotheses, added);
      forall i | 0 <= i < |added|
        ensures r[|hypotheses| + i].id == added[i].id
      {
        if i > 0 {
          assert added[1..][i - 1] == added[i];
          assert r[|grown| + (i - 1)].id == added[i].id;
        } else {
          assert r[|hypotheses|].id == grown[|hypotheses|].id;
        }
      }
    }
  }

  lemma ApplyExtends(b: Belief, o: Output)
    ensures var r := ApplyBelief(b, o);
            Extends(b.hypotheses, r.hypotheses) && |r.hypotheses| == |b.hypotheses| + |o.hypotheses|
            && (forall i :: 0 <= i < |o.hypotheses| ==> r.hypotheses[|b.hypotheses| + i].id == o.hypotheses[i].id)
            && r.beliefCursor == b.beliefCursor
            && r.beliefDeltas == b.beliefDeltas + (if o.beliefDelta.Some? then [o.beliefDelta.value] else [])
  {
    AddExtends(b.hypotheses, o.hypotheses);
    hide AddHypotheses, WithoutGrounding;
  }

  /** The belief deltas a batch carries, in order. */
  function DeltasOf(outputs: seq<Output>): seq<BeliefDelta> {
    if outputs == [] then []
    else DeltasOf(outputs[..|outputs| - 1])
         + if outputs[|outputs| - 1].beliefDelta.Some? then [outputs[|outputs| - 1].beliefDelta.value] else []
  }

  lemma ClassifyLast(s: State, outputs: seq<Output>)
    requires outputs != []
    ensures ClassifyAll(s, outputs).belief == ApplyBelief(ClassifyAll(s, outputs[..|outputs| - 1]).belief, outputs[|outputs| - 1])
  {
  }

  lemma ExtendsTransitive(a: seq<Hypothesis>, b: seq<Hypothesis>, c: seq<Hypothesis>)
    requires Extends(a, b) && Extends(b, c)
    ensures Extends(a, c)
  {
  }

  lemma ExtendsIds(a: seq<Hypothesis>, b: seq<Hypothesis>, added: seq<Hypothesis>)
    requires Extends(a, b) && |b| == |a| + |added| && forall i :: 0 <= i < |added| ==> b[|a| + i].id == added[i].id
    ensures Ids(b) == Ids(a) + Ids(added)
  {
    forall i | 0 <= i < |b|
      ensures Ids(b)[i] == (Ids(a) + Ids(added))[i]
    {
      if i >= |a| {
        assert b[|a| + (i - |a|)].id == added[i - |a|].id;
      }
    }
  }

  lemma {:induction false} BatchAppends(s: State, outputs: seq<Output>)
    ensures var b, r := s.belief, ClassifyAll(s, outputs).belief;
            && Extends(b.hypotheses, r.hypotheses)
            && Ids(r.hypotheses) == Ids(b.hypotheses) + Ids(NewRevisions(outputs))
            && r.beliefCursor == b.beliefCursor && r.beliefDeltas == b.beliefDeltas + DeltasOf(outputs)
  {
    hide ApplyBelief, ClassifyOne;
    if outputs != [] {
      var prefix, o := outputs[..|outputs| - 1], outputs[|outputs| - 1];
      var before, r := ClassifyAll(s, prefix).belief, ClassifyAll(s, outputs).belief;
      BatchAppends(s, prefix);
      ClassifyLast(s, outputs);
      ApplyExtends(before, o);
      ExtendsTransitive(s.belief.hypotheses, before.hypotheses, r.hypotheses);
      ExtendsIds(before.hypotheses, r.hypotheses, o.hypotheses);
      assert Ids(NewRevisions(outputs)) == Ids(NewRevisions(prefix)) + Ids(o.hypotheses);
    }
  }

  lemma UniqueByIds(hypotheses: seq<Hypothesis>, known: seq<Hypothesis>, added: seq<Hypothesis>)
    requires UniqueIds(known) && UniqueIds(added) && Ids(hypotheses) == Ids(known) + Ids(added)
    requires forall g, h :: g in known && h in added ==> g.id != h.id
    ensures UniqueIds(hypotheses)
  {
    forall i, j | 0 <= i < j < |hypotheses|
      ensures hypotheses[i].id != hypotheses[j].id
    {
      assert Ids(hypotheses)[i] == hypotheses[i].id && Ids(hypotheses)[j] == hypotheses[j].id;
      assert |hypotheses| == |Ids(hypotheses)| == |known| + |added|;
      if i < |known| <= j {
        assert known[i] in known && added[j - |known|] in added;
      }
    }
  }

  lemma {:induction false} NewRevisionsAreFresh(s: State, outputs: seq<Output>)
    requires forall o :: o in outputs ==> FreshHypotheses(s, o.hypotheses)
    ensures forall g, h :: g in s.belief.hypotheses && h in NewRevisions(outputs) ==> g.id != h.id
  {
    if outputs != [] {
      NewRevisionsAreFresh(s, outputs[..|outputs| - 1]);
      assert outputs[|outputs| - 1] in outputs;
    }
  }

  lemma {:induction false} BatchDeltasAccepted(s: State, outputs: seq<Output>, k: nat)
    requires forall o :: o in outputs && o.beliefDelta.Some? ==> AcceptedDelta(s, o.beliefDelta.value)
    requires k < |DeltasOf(outputs)|
    ensures AcceptedDelta(s, DeltasOf(outputs)[k])
  {
    if k < |DeltasOf(outputs[..|outputs| - 1])| {
      BatchDeltasAccepted(s, outputs[..|outputs| - 1], k);
    } else {
      assert outputs[|outputs| - 1] in outputs;
    }
  }

  // ---------------------------------------------------------------- over runs

  predicate AfterTools(n: Node) {
    n in {ObservationNode, BeliefUpdateNode, BeliefCommitNode}
  }

  ghost predicate LedgerInvariant(c: Config) {
    && UniqueIds(c.state.belief.hypotheses)
    && c.state.belief.beliefCursor <= |c.state.belief.beliefDeltas|
    && (if AfterTools(c.node) then PendingAccepted(c.state.belief)
        else c.node != GraphFailure ==> c.state.belief.beliefCursor == |c.state.belief.beliefDeltas|)
  }

  /** What one permitted answer brings along is fresh, and its belief delta was checked against the old state. */
  lemma PermittedLedger(s: State, tool: Tool, o: Output)
    requires PermittedOutput(s, tool, o)
    ensures FreshHypotheses(s, o.hypotheses)
    ensures o.beliefDelta.Some? ==> AcceptedDelta(s, o.beliefDelta.value)
  {
    hide FindHypothesis;
  }

  lemma PermittedBatch(c: Config)
    requires c.node == ResultClassifier && BudgetInvariant(c)
    ensures forall o :: o in c.outputs ==>
              FreshHypotheses(c.state, o.hypotheses) && (o.beliefDelta.Some? ==> AcceptedDelta(c.state, o.beliefDelta.value))
    ensures UniqueIds(NewRevisions(c.outputs))
  {
    hide ToolAnswer, FreshHypotheses, AcceptedDelta;
    forall o | o in c.outputs
      ensures FreshHypotheses(c.state, o.hypotheses) && (o.beliefDelta.Some? ==> AcceptedDelta(c.state, o.beliefDelta.value))
    {
      var k :| 0 <= k < |c.outputs| && c.outputs[k] == o;
      PermittedLedger(c.state, c.calls[k].tool, o);
    }
  }

  /** A delta that was acceptable before the batch is acceptable for the revision's place after it. */
  lemma BatchDeltaIsAcceptable(s: State, outputs: seq<Output>, b: Belief, k: nat)
    requires s.belief.beliefCursor == |s.belief.beliefDeltas| && k < |DeltasOf(outputs)|
    requires forall o :: o in outputs ==> o.beliefDelta.Some? ==> AcceptedDelta(s, o.beliefDelta.value)
    requires Extends(s.belief.hypotheses, b.hypotheses) && UniqueIds(b.hypotheses) && UniqueIds(s.belief.hypotheses)
    requires b.beliefCursor == s.belief.beliefCursor && b.beliefDeltas == s.belief.beliefDeltas + DeltasOf(outputs)
    ensures Acceptable(b, b.beliefCursor + k)
  {
    hide ApplyOutput;
    var d := DeltasOf(outputs)[k];
    BatchDeltasAccepted(s, outputs, k);
    FindIsIndexOf(s.belief.hypotheses, d.hypothesisId);
    var i := IndexOf(s.belief.hypotheses, d.hypothesisId);
    assert b.hypotheses[i].id == d.hypothesisId && b.beliefDeltas[b.beliefCursor + k] == d;
    IndexOfUnique(b.hypotheses, i);
  }

  /** After classification the pending deltas are exactly the batch's, and each is acceptable on its own. */
  lemma ClassifierOpensLedger(c: Config)
    requires c.node == ResultClassifier && BudgetInvariant(c) && LedgerInvariant(c)
    ensures var b := ClassifyToolResults(c.state, c.outputs).belief;
            && UniqueIds(b.hypotheses) && PendingAccepted(b) && b.beliefCursor <= |b.beliefDeltas|
            && b.beliefDeltas[b.beliefCursor..] == DeltasOf(c.outputs)
  {
    hide BudgetInvariant, ClassifyOne, AcceptedDelta, Acceptable;
    var s := c.state;
    var b := ClassifyAll(s, c.outputs).belief;
    PermittedBatch(c);
    BatchAppends(s, c.outputs);
    NewRevisionsAreFresh(s, c.outputs);
    UniqueByIds(b.hypotheses, s.belief.hypotheses, NewRevisions(c.outputs));
    forall k | Pending(b, k)
      ensures Acceptable(b, k)
    {
      BatchDeltaIsAcceptable(s, c.outputs, b, k - b.beliefCursor);
    }
  }

  /** Statuses may change, identities and confidences do not. */
  lemma SameRevisionsKeepPending(b: Belief, b': Belief)
    requires UniqueIds(b.hypotheses) && PendingAccepted(b)
    requires |b'.hypotheses| == |b.hypotheses| && Extends(b.hypotheses, b'.hypotheses)
    requires b'.beliefDeltas == b.beliefDeltas && b'.beliefCursor == b.beliefCursor
    ensures UniqueIds(b'.hypotheses) && PendingAccepted(b')
    ensures DistinctTargets(b') <==> DistinctTargets(b)
  {
    assert UniqueIds(b'.hypotheses);
    forall k | Pending(b', k)
      ensures Acceptable(b', k)
    {
      assert Pending(b, k) && Acceptable(b, k);
      IndexOfUnique(b'.hypotheses, TargetOf(b, k));
    }
    assert forall k :: Pending(b', k) <==> Pending(b, k);
  }

  lemma ObservationKeepsLedger(s: State, ranked: Option<EvidenceStore>)
    ensures var b, b' := s.belief, ObserveUpdate(s, ranked).belief;
            |b'.hypotheses| == |b.hypotheses| && Extends(b.hypotheses, b'.hypotheses)
            && b'.beliefDeltas == b.beliefDeltas && b'.beliefCursor == b.beliefCursor
  {
  }

  lemma CommitIsOrdered(b: Belief)
    requires PendingAccepted(b)
    ensures Ordered(b)
  {
    forall k, m | Pending(b, k) && Pending(b, m) && b.beliefDeltas[k].hypothesisId == b.beliefDeltas[m].hypothesisId
      ensures b.beliefDeltas[k].previous == b.beliefDeltas[m].previous
    {
      assert Acceptable(b, k) && Acceptable(b, m);
    }
  }

  /** Which nodes leave the ledger of revisions and deltas exactly as it is. */
  lemma QuietNodes(c: Config, i: Input)
    requires InBrain(c.node) && c.node !in {ResultClassifier, ObservationNode, BeliefCommitNode}
    ensures Next(c, i).state.belief.hypotheses == c.state.belief.hypotheses
    ensures Next(c, i).state.belief.beliefDeltas == c.state.belief.beliefDeltas
    ensures Next(c, i).state.belief.beliefCursor == c.state.belief.beliefCursor
    ensures AfterTools(Next(c, i).node) ==> c.node == BeliefUpdateNode
  {
    hide OuterNext;
    var s := c.state;
    if i.fault {
    } else if c.node in {ContextBuilder, ReflectionContextBuilder} {
      assert BuildContext(s, c.node == ReflectionContextBuilder, i.turn).state.belief == s.belief;
    } else if c.node == ReflectionRouter {
      assert ReflectionRoute(s).0.belief == s.belief;
    } else if c.node in {BrainModel, ReflectionUpdate} {
      assert RecordAnswer(s, i.answer).state.belief == s.belief;
    }
  }

  lemma CommitStep(c: Config, i: Input)
    requires c.node == BeliefCommitNode && !i.fault && LedgerInvariant(c)
    ensures LedgerInvariant(Next(c, i))
    ensures Next(c, i).node == GraphFailure <==> !DistinctTargets(c.state.belief)
  {
    CommitIsOrdered(c.state.belief);
    CommitOutcome(c.state);
    CommitCursor(c.state);
  }

  lemma {:induction false} CommitCursor(s: State)
    requires s.belief.beliefCursor <= |s.belief.beliefDeltas|
    ensures var b := BeliefCommit(s).state.belief; b.beliefCursor <= |b.beliefDeltas|
    decreases |s.belief.beliefDeltas| - s.belief.beliefCursor
  {
    var b := s.belief;
    if b.beliefCursor < |b.beliefDeltas| {
      var d := b.beliefDeltas[b.beliefCursor];
      var next := s.(belief := b.(beliefCursor := b.beliefCursor + 1));
      var i := IndexOf(b.hypotheses, d.hypothesisId);
      if !d.committed {
        CommitCursor(next);
      } else if i >= 0 && CommitAccepted(b.hypotheses[i], d) {
        CommitCursor(next.(belief := next.belief.(hypotheses := b.hypotheses[i := b.hypotheses[i].(confidence := d.updated)])));
      }
    }
  }

  lemma StepKeepsLedger(c: Config, i: Input)
    requires !Terminal(c) && BudgetInvariant(c) && LedgerInvariant(c)
    ensures LedgerInvariant(Next(c, i))
  {
    hide OuterNext, BeliefCommit, ObserveUpdate, ClassifyToolResults;
    var s := c.state;
    if !InBrain(c.node) {
      OuterFrame(c, i);
    } else if i.fault {
    } else if c.node == ResultClassifier {
      ClassifierOpensLedger(c);
    } else if c.node == ObservationNode {
      ObservationKeepsLedger(s, i.ranked);
      SameRevisionsKeepPending(s.belief, ObserveUpdate(s, i.ranked).belief);
    } else if c.node == BeliefCommitNode {
      CommitStep(c, i);
    } else {
      QuietNodes(c, i);
      if AfterTools(c.node) {
        SameRevisionsKeepPending(s.belief, Next(c, i).state.belief);
      }
    }
  }

  lemma {:induction false} LedgerOverRuns(trace: seq<Config>, inputs: seq<Input>, k: nat)
    requires IsRun(trace, inputs) && Initial(trace[0]) && k < |trace|
    ensures BudgetInvariant(trace[k]) && LedgerInvariant(trace[k])
  {
    hide Next;
    if k == 0 {
      BudgetsOverRuns(trace, inputs, 0);
    } else {
      LedgerOverRuns(trace, inputs, k - 1);
      BudgetsOverRuns(trace, inputs, k);
      StepKeepsLedger(trace[k - 1], inputs[k - 1]);
    }
  }

  /** Between two points of a run a revision keeps its place and its identity. */
  lemma ConfidenceMovesOnlyAtCommit(c: Config, i: Input)
    requires !Terminal(c) && c.node != BeliefCommitNode
    ensures Extends(c.state.belief.hypotheses, Next(c, i).state.belief.hypotheses)
  {
    if !InBrain(c.node) {
      OuterFrame(c, i);
    } else if i.fault {
    } else if c.node == ResultClassifier {
      BatchAppends(c.state, c.outputs);
    } else if c.node == ObservationNode {
      ObservationKeepsLedger(c.state, i.ranked);
    } else {
      QuietNodes(c, i);
    }
  }

  predicate RepeatsRevision(outputs: seq<Output>) {
    exists i, j :: 0 <= i < j < |outputs| && SameTarget(outputs[i], outputs[j])
  }

  predicate SameTarget(o: Output, p: Output) {
    o.beliefDelta.Some? && p.beliefDelta.Some? && o.beliefDelta.value.hypothesisId == p.beliefDelta.value.hypothesisId
  }

  ghost predicate DistinctDeltas(deltas: seq<BeliefDelta>) {
    forall i, j :: 0 <= i < j < |deltas| ==> deltas[i].hypothesisId != deltas[j].hypothesisId
  }

  /** The delta of output `i` stands behind the deltas of the outputs before it. */
  lemma {:induction false} DeltaPosition(outputs: seq<Output>, i: nat)
    requires i < |outputs| && outputs[i].beliefDelta.Some?
    ensures var k := |DeltasOf(outputs[..i])|; k < |DeltasOf(outputs)| && DeltasOf(outputs)[k] == outputs[i].beliefDelta.value
  {
    var prefix := outputs[..|outputs| - 1];
    if i < |prefix| {
      assert prefix[..i] == outputs[..i];
      DeltaPosition(prefix, i);
    }
  }

  lemma {:induction false} DeltaSource(outputs: seq<Output>, k: nat) returns (i: nat)
    requires k < |DeltasOf(outputs)|
    ensures i < |outputs| && |DeltasOf(outputs[..i])| == k && outputs[i].beliefDelta == Some(DeltasOf(outputs)[k])
  {
    var prefix := outputs[..|outputs| - 1];
    if k < |DeltasOf(prefix)| {
      i := DeltaSource(prefix, k);
      assert prefix[..i] == outputs[..i];
    } else {
      i := |prefix|;
    }
  }

  lemma DistinctIffNotRepeated(outputs: seq<Output>)
    ensures DistinctDeltas(DeltasOf(outputs)) <==> !RepeatsRevision(outputs)
  {
    if RepeatsRevision(outputs) {
      var i, j :| 0 <= i < j < |outputs| && SameTarget(outputs[i], outputs[j]);
      DeltaPosition(outputs, i);
      DeltaPosition(outputs, j);
      DeltaPosition(outputs[..j], i);
      assert outputs[..j][..i] == outputs[..i];
    }
    if !DistinctDeltas(DeltasOf(outputs)) {
      var a, b :| 0 <= a < b < |DeltasOf(outputs)| && DeltasOf(outputs)[a].hypothesisId == DeltasOf(outputs)[b].hypothesisId;
      var i := DeltaSource(outputs, a);
      var j := DeltaSource(outputs, b);
      assert SameTarget(outputs[i], outputs[j]) && SameTarget(outputs[j], outputs[i]);
    }
  }

  lemma PendingIsBatch(b: Belief)
    requires b.beliefCursor <= |b.beliefDeltas|
    ensures DistinctTargets(b) <==> DistinctDeltas(b.beliefDeltas[b.beliefCursor..])
  {
    var pending := b.beliefDeltas[b.beliefCursor..];
    if DistinctDeltas(pending) {
      forall k, m | Pending(b, k) && Pending(b, m) && k < m
        ensures b.beliefDeltas[k].hypothesisId != b.beliefDeltas[m].hypothesisId
      {
        assert pending[k - b.beliefCursor] == b.beliefDeltas[k] && pending[m - b.beliefCursor] == b.beliefDeltas[m];
      }
    }
    if DistinctTargets(b) {
      forall i, j | 0 <= i < j < |pending|
        ensures pending[i].hypothesisId != pending[j].hypothesisId
      {
        assert Pending(b, i + b.beliefCursor) && Pending(b, j + b.beliefCursor);
      }
    }
  }

  lemma ToolResultSteps(c: Config, i: Input)
    requires !Terminal(c) && !i.fault
    ensures c.node == ResultClassifier ==> Next(c, i) == At(ObservationNode, ClassifyToolResults(c.state, c.outputs))
    ensures c.node == ObservationNode ==> Next(c, i) == At(BeliefUpdateNode, ObserveUpdate(c.state, i.ranked))
    ensures c.node == BeliefUpdateNode ==> Next(c, i) == At(BeliefCommitNode, BeliefUpdate(c.state))
  {
    hide OuterNext;
  }

  /** Between the tools and the commit no pending change is added, dropped or altered. */
  lemma PendingReachesCommit(trace: seq<Config>, inputs: seq<Input>, k: nat)
    requires IsRun(trace, inputs) && Initial(trace[0]) && k + 3 < |trace|
    requires trace[k].node == ResultClassifier && !inputs[k].fault && !inputs[k + 1].fault && !inputs[k + 2].fault
    ensures trace[k + 3].node == BeliefCommitNode && LedgerInvariant(trace[k + 3])
    ensures DistinctTargets(trace[k + 3].state.belief) <==> !RepeatsRevision(trace[k].outputs)
  {
    hide Next, ClassifyToolResults, ObserveUpdate, BeliefUpdate;
    LedgerOverRuns(trace, inputs, k);
    var c0, c1, c2, c3 := trace[k], trace[k + 1], trace[k + 2], trace[k + 3];
    ToolResultSteps(c0, inputs[k]);
    ClassifierOpensLedger(c0);
    LedgerOverRuns(trace, inputs, k + 1);
    ToolResultSteps(c1, inputs[k + 1]);
    ObservationKeepsLedger(c1.state, inputs[k + 1].ranked);
    SameRevisionsKeepPending(c1.state.belief, c2.state.belief);
    ToolResultSteps(c2, inputs[k + 2]);
    QuietNodes(c2, inputs[k + 2]);
    SameRevisionsKeepPending(c2.state.belief, c3.state.belief);
    PendingIsBatch(c1.state.belief);
    DistinctIffNotRepeated(c0.outputs);
    LedgerOverRuns(trace, inputs, k + 3);
  }

  /**
   Every belief change in a batch was checked when its tool ran, yet all of them ran against the
   state before the batch. So the commit that follows fails the graph if and only if two changes of
   the batch name the same revision.
   */
  lemma CommitFailsIffRevisionRepeated(trace: seq<Config>, inputs: seq<Input>, k: nat)
    requires IsRun(trace, inputs) && Initial(trace[0]) && k + 4 < |trace|
    requires trace[k].node == ResultClassifier && forall j :: k <= j < k + 4 ==> !inputs[j].fault
    ensures trace[k + 3].node == BeliefCommitNode
    ensures trace[k + 4].node == GraphFailure <==> RepeatsRevision(trace[k].outputs)
  {
    hide Next;
    PendingReachesCommit(trace, inputs, k);
    CommitStep(trace[k + 3], inputs[k + 3]);
  }
}
