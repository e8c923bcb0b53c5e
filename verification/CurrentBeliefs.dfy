/**
 What the beliefs of a run rest on: new evidence takes the support of every hypothesis that was
 validated on older evidence, each hypothesis has one grounding, and a commit moves confidences
 exactly as its changes say (agent/brain_state.go:84-135, 301-393; internal/brainruntime/runtime.go:419-459).
 */
module CurrentBeliefs {
  import opened Domain
  import opened WorkflowSpec
  import opened WorkflowGraph
  import opened NodeFrames
  import opened BrainLoop
  import opened BrainBudgets
  import opened BeliefLedger
  import opened RecoveryChain

  // ---------------------------------------------------------------- one observation

  /** A hypothesis keeps everything but the support it had from other evidence. */
  predicate DemotedIfStale(before: Hypothesis, after: Hypothesis, now: Option<EvidenceSnapshot>) {
    if before.status == Supported && before.validatedSnapshot != now then after == before.(status := Investigating)
    else after == before
  }

  /**
   An observation that changes a snapshot leaves no hypothesis supported by other evidence,
   touches no other hypothesis, and takes the plan from a diagnosis of other evidence.
   */
  lemma ObservationDemotesStale(s: State, ranked: Option<EvidenceStore>)
    ensures var t := ObserveUpdate(s, ranked);
            && t.chain.evidence == Some(SnapshotOf(t.incident.evidence))
            && |t.belief.hypotheses| == |s.belief.hypotheses|
            && (s.chain.evidence.Some? && s.chain.evidence != t.chain.evidence ==>
                  && (forall h :: h in t.belief.hypotheses && h.status == Supported ==> h.validatedSnapshot == t.chain.evidence)
                  && (forall i :: 0 <= i < |s.belief.hypotheses| ==>
                        DemotedIfStale(s.belief.hypotheses[i], t.belief.hypotheses[i], t.chain.evidence)))
            && (s.chain.evidence.None? || s.chain.evidence == t.chain.evidence ==> t.belief == s.belief)
            && t.belief == s.belief.(hypotheses := t.belief.hypotheses)
    ensures var t := ObserveUpdate(s, ranked);
            var outdated := s.chain.evidence.Some? && s.chain.evidence != t.chain.evidence
                            && s.chain.diagnosis.Some? && s.chain.diagnosis.value.evidence != t.chain.evidence;
            if outdated then
              t.chain.diagnosis == Some(s.chain.diagnosis.value.(provisional := true)) && t.chain.plan.None? && t.chain.dryRun.None?
              && t.incident.proposal.None? && t.incident.dryRun.None?
            else
              t.chain == s.chain.(evidence := t.chain.evidence) && t.incident.proposal == s.incident.proposal
              && t.incident.dryRun == s.incident.dryRun
  {
    hide SnapshotOf, MergeEvidence;
  }

  // ---------------------------------------------------------------- one batch

  /** A supported hypothesis was validated on exactly this evidence. */
  predicate SupportedOn(hypotheses: seq<Hypothesis>, evidence: Option<EvidenceSnapshot>) {
    forall h :: h in hypotheses && h.status == Supported ==> h.validatedSnapshot.Some? && h.validatedSnapshot == evidence
  }

  predicate OneGroundingEach(groundings: seq<Grounding>) {
    forall i, j :: 0 <= i < j < |groundings| ==> groundings[i].hypothesisId != groundings[j].hypothesisId
  }

  lemma ParentsKeepSupport(hypotheses: seq<Hypothesis>, child: Hypothesis, evidence: Option<EvidenceSnapshot>)
    requires SupportedOn(hypotheses, evidence)
    ensures SupportedOn(MarkParents(hypotheses, child), evidence)
  {
    forall h | h in MarkParents(hypotheses, child) && h.status == Supported
      ensures h in hypotheses
    {
      var i :| 0 <= i < |hypotheses| && MarkParents(hypotheses, child)[i] == h;
      assert hypotheses[i] == h;
    }
  }

  lemma {:induction false} AddKeepsSupport(hypotheses: seq<Hypothesis>, added: seq<Hypothesis>, evidence: Option<EvidenceSnapshot>)
    requires SupportedOn(hypotheses, evidence) && forall h :: h in added ==> h.status != Supported
    ensures SupportedOn(AddHypotheses(hypotheses, added), evidence)
    decreases |added|
  {
    hide MarkParents;
    if added != [] {
      ParentsKeepSupport(hypotheses, added[0], evidence);
      assert added[0] in added;
      AddKeepsSupport(MarkParents(hypotheses, added[0]) + [added[0]], added[1..], evidence);
    }
  }

  lemma MarkKeepsSupport(hypotheses: seq<Hypothesis>, g: Grounding, evidence: Option<EvidenceSnapshot>)
    requires SupportedOn(hypotheses, evidence) && g.snapshot.Some? && g.snapshot == evidence
    ensures SupportedOn(MarkGrounded(hypotheses, g), evidence)
  {
    forall h | h in MarkGrounded(hypotheses, g) && h.status == Supported
      ensures h.validatedSnapshot == evidence
    {
      var i :| 0 <= i < |hypotheses| && MarkGrounded(hypotheses, g)[i] == h;
      assert hypotheses[i] in hypotheses;
    }
  }

  /** The old grounding of a hypothesis is gone, all others stay in their order. */
  lemma {:induction false} WithoutIs(items: seq<Grounding>, hypothesisId: string)
    ensures forall g :: g in WithoutGrounding(items, hypothesisId) <==> g in items && g.hypothesisId != hypothesisId
    ensures OneGroundingEach(items) ==> OneGroundingEach(WithoutGrounding(items, hypothesisId))
  {
    if items != [] {
      WithoutIs(items[1..], hypothesisId);
      assert items == [items[0]] + items[1..];
      if OneGroundingEach(items) {
        assert forall i :: 0 <= i < |items[1..]| ==> items[1..][i] == items[i + 1];
        assert forall g :: g in items[1..] ==> g.hypothesisId != items[0].hypothesisId;
      }
    }
  }

  lemma ReplaceKeepsOneEach(items: seq<Grounding>, g: Grounding)
    requires OneGroundingEach(items)
    ensures OneGroundingEach(WithoutGrounding(items, g.hypothesisId) + [g])
  {
    WithoutIs(items, g.hypothesisId);
  }

  predicate GroundedOn(o: Output, evidence: Option<EvidenceSnapshot>) {
    && (o.grounding.Some? ==> o.grounding.value.snapshot.Some? && o.grounding.value.snapshot == evidence)
    && forall h :: h in o.hypotheses ==> h.status != Supported
  }

  lemma OutputKeepsSupport(b: Belief, o: Output, evidence: Option<EvidenceSnapshot>)
    requires SupportedOn(b.hypotheses, evidence) && OneGroundingEach(b.groundings) && GroundedOn(o, evidence)
    ensures SupportedOn(ApplyBelief(b, o).hypotheses, evidence) && OneGroundingEach(ApplyBelief(b, o).groundings)
  {
    hide SupportedOn, OneGroundingEach, AddHypotheses, MarkGrounded, WithoutGrounding;
    AddKeepsSupport(b.hypotheses, o.hypotheses, evidence);
    if o.grounding.Some? {
      MarkKeepsSupport(AddHypotheses(b.hypotheses, o.hypotheses), o.grounding.value, evidence);
      ReplaceKeepsOneEach(b.groundings, o.grounding.value);
    }
  }

  lemma {:induction false} BatchKeepsSupport(s: State, outputs: seq<Output>, evidence: Option<EvidenceSnapshot>)
    requires SupportedOn(s.belief.hypotheses, evidence) && OneGroundingEach(s.belief.groundings)
    requires forall o :: o in outputs ==> GroundedOn(o, evidence)
    ensures var b := ClassifyAll(s, outputs).belief; SupportedOn(b.hypotheses, evidence) && OneGroundingEach(b.groundings)
  {
    hide SupportedOn, OneGroundingEach, GroundedOn, ApplyBelief;
    if outputs != [] {
      var last := |outputs| - 1;
      BatchKeepsSupport(s, outputs[..last], evidence);
      assert outputs[last] in outputs;
      OutputKeepsSupport(ClassifyAll(s, outputs[..last]).belief, outputs[last], evidence);
      ClassifyLast(s, outputs);
    }
  }

  lemma BareHasNoGrounding(s: State, tool: Tool, o: Output)
    requires PermittedOutput(s, tool, o) && tool != ValidateHypothesis
    ensures o.grounding.None?
  {
    hide FindHypothesis, FreshHypotheses, AcceptedDelta, ValidatedDiagnosis, FinishReason, SnapshotOf;
  }

  lemma PermittedIsGrounded(s: State, tool: Tool, o: Output)
    requires PermittedOutput(s, tool, o)
    ensures GroundedOn(o, Some(SnapshotOf(s.incident.evidence)))
  {
    PermittedLedger(s, tool, o);
    if tool != ValidateHypothesis {
      BareHasNoGrounding(s, tool, o);
      hide PermittedOutput;
    } else {
      hide SnapshotOf;
    }
  }

  // ---------------------------------------------------------------- over runs

  predicate BeliefsCurrent(c: Config) {
    SupportedOn(c.state.belief.hypotheses, c.state.chain.evidence) && OneGroundingEach(c.state.belief.groundings)
  }

  lemma ClassifierKeepsCurrent(c: Config)
    requires c.node == ResultClassifier && BudgetInvariant(c) && ChainInvariant(c) && BeliefsCurrent(c)
    ensures BeliefsCurrent(At(ObservationNode, ClassifyToolResults(c.state, c.outputs)))
  {
    var s := c.state;
    assert s.chain.evidence == Some(SnapshotOf(s.incident.evidence));
    forall o | o in c.outputs
      ensures GroundedOn(o, s.chain.evidence)
    {
      var k :| 0 <= k < |c.outputs| && c.outputs[k] == o;
      PermittedIsGrounded(s, c.calls[k].tool, o);
    }
    hide SupportedOn, OneGroundingEach, GroundedOn, PermittedOutput;
    BatchKeepsSupport(s, c.outputs, s.chain.evidence);
    ClassifyKeepsChain(s, c.outputs);
  }

  lemma ObservationKeepsCurrent(c: Config, ranked: Option<EvidenceStore>)
    requires c.node == ObservationNode && BeliefsCurrent(c) && ChainInvariant(c)
    ensures BeliefsCurrent(At(BeliefUpdateNode, ObserveUpdate(c.state, ranked)))
  {
    assert c.state.chain.evidence.Some?;
    ObservationDemotesStale(c.state, ranked);
    hide ObserveUpdate;
  }

  lemma {:induction false} CommitKeepsSupport(s: State, evidence: Option<EvidenceSnapshot>)
    requires SupportedOn(s.belief.hypotheses, evidence)
    ensures SupportedOn(BeliefCommit(s).state.belief.hypotheses, evidence)
    ensures BeliefCommit(s).state.belief.groundings == s.belief.groundings
    decreases |s.belief.beliefDeltas| - s.belief.beliefCursor
  {
    var b := s.belief;
    if b.beliefCursor < |b.beliefDeltas| {
      var d := b.beliefDeltas[b.beliefCursor];
      var next := s.(belief := b.(beliefCursor := b.beliefCursor + 1));
      var i := IndexOf(b.hypotheses, d.hypothesisId);
      if !d.committed {
        CommitKeepsSupport(next, evidence);
      } else if i >= 0 && CommitAccepted(b.hypotheses[i], d) {
        assert b.hypotheses[i] in b.hypotheses;
        CommitKeepsSupport(next.(belief := next.belief.(hypotheses := b.hypotheses[i := b.hypotheses[i].(confidence := d.updated)])), evidence);
      }
    }
  }

  lemma CommitKeepsCurrent(c: Config)
    requires c.node == BeliefCommitNode && BeliefsCurrent(c)
    ensures BeliefsCurrent(Continue(BeliefCommit(c.state), ReflectionRouter))
  {
    hide SupportedOn, OneGroundingEach;
    CommitKeepsSupport(c.state, c.state.chain.evidence);
    CommitKeepsChain(c.state);
  }

  lemma ContextKeepsCurrent(c: Config, turn: TurnInput)
    requires c.node in {ContextBuilder, ReflectionContextBuilder} && ChainInvariant(c) && BeliefsCurrent(c)
    ensures BeliefsCurrent(Continue(BuildContext(c.state, c.node == ReflectionContextBuilder, turn),
                                    if c.node == ContextBuilder then BrainModel else ReflectionUpdate))
  {
    hide PrepareTurn, AllocateTurn, OneGroundingEach;
    var s := c.state;
    var t := BuildContext(s, c.node == ReflectionContextBuilder, turn).state;
    assert t.belief == s.belief;
    assert s.chain.evidence.Some? ==> t.chain.evidence == s.chain.evidence;
  }

  lemma OthersKeepCurrent(c: Config, i: Input)
    requires InBrain(c.node) && BeliefsCurrent(c)
    requires c.node !in {ResultClassifier, ObservationNode, ContextBuilder, ReflectionContextBuilder, BeliefCommitNode}
    ensures BeliefsCurrent(Next(c, i))
  {
    BrainLeavesChain(c, i);
    QuietNodes(c, i);
    OthersKeepGroundings(c, i);
    hide Next, SupportedOn, OneGroundingEach;
  }

  lemma OthersKeepGroundings(c: Config, i: Input)
    requires InBrain(c.node)
    requires c.node !in {ResultClassifier, ObservationNode, ContextBuilder, ReflectionContextBuilder, BeliefCommitNode}
    ensures Next(c, i).state.belief.groundings == c.state.belief.groundings
  {
    hide OuterNext;
    if !i.fault && c.node == ReflectionRouter {
      assert ReflectionRoute(c.state).0.belief == c.state.belief;
    }
  }

  lemma StepKeepsCurrent(c: Config, i: Input)
    requires !Terminal(c) && BudgetInvariant(c) && ChainInvariant(c) && BeliefsCurrent(c)
    ensures BeliefsCurrent(Next(c, i))
  {
    hide OuterNext, ChainInvariant, BudgetInvariant, SupportedOn, OneGroundingEach, BeliefCommit, ObserveUpdate,
         ClassifyToolResults, BuildContext;
    if !InBrain(c.node) {
      OuterFrame(c, i);
    } else if i.fault {
    } else if c.node == ResultClassifier {
      ClassifierKeepsCurrent(c);
    } else if c.node == ObservationNode {
      ObservationKeepsCurrent(c, i.ranked);
    } else if c.node in {ContextBuilder, ReflectionContextBuilder} {
      ContextKeepsCurrent(c, i.turn);
    } else if c.node == BeliefCommitNode {
      CommitKeepsCurrent(c);
    } else {
      OthersKeepCurrent(c, i);
    }
  }

  lemma {:induction false} CurrentOverRuns(trace: seq<Config>, inputs: seq<Input>, k: nat)
    requires IsRun(trace, inputs) && Initial(trace[0]) && k < |trace|
    ensures BeliefsCurrent(trace[k])
  {
    hide Next;
    if k > 0 {
      CurrentOverRuns(trace, inputs, k - 1);
      BudgetsOverRuns(trace, inputs, k - 1);
      ChainOverRuns(trace, inputs, k - 1);
      StepKeepsCurrent(trace[k - 1], inputs[k - 1]);
    }
  }

  /**
   In every state of every run a supported hypothesis was validated on the evidence snapshot the
   run holds, and no hypothesis has two groundings. Outside the absorption of new evidence that
   snapshot is the incident's own.
   */
  lemma SupportedIsCurrent(trace: seq<Config>, inputs: seq<Input>, k: nat)
    requires IsRun(trace, inputs) && Initial(trace[0]) && k < |trace|
    ensures var s := trace[k].state;
            && (forall h :: h in s.belief.hypotheses && h.status == Supported ==>
                  h.validatedSnapshot.Some? && h.validatedSnapshot == s.chain.evidence)
            && (forall i, j :: 0 <= i < j < |s.belief.groundings| ==>
                  s.belief.groundings[i].hypothesisId != s.belief.groundings[j].hypothesisId)
            && (trace[k].node !in {ObservationNode, GraphFailure} && s.chain.evidence.Some? ==>
                  s.chain.evidence == Some(SnapshotOf(s.incident.evidence)))
  {
    hide Next;
    CurrentOverRuns(trace, inputs, k);
    ChainOverRuns(trace, inputs, k);
  }

  // ---------------------------------------------------------------- what a commit does

  /** Every hypothesis that a pending change names has the confidence the change gives it, every other one is as before. */
  ghost predicate MovedBy(b: Belief, after: seq<Hypothesis>) {
    && |after| == |b.hypotheses|
    && (forall k, i :: Pending(b, k) && 0 <= i < |after| && b.hypotheses[i].id == b.beliefDeltas[k].hypothesisId ==>
          after[i] == b.hypotheses[i].(confidence := b.beliefDeltas[k].updated))
    && (forall i :: 0 <= i < |after| && (forall k :: Pending(b, k) ==> b.beliefDeltas[k].hypothesisId != b.hypotheses[i].id) ==>
          after[i] == b.hypotheses[i])
  }

  lemma MoveOneMore(b: Belief, i: nat, b': Belief, after: seq<Hypothesis>)
    requires UniqueIds(b.hypotheses) && DistinctTargets(b) && Pending(b, b.beliefCursor) && i < |b.hypotheses|
    requires b.hypotheses[i].id == b.beliefDeltas[b.beliefCursor].hypothesisId
    requires b' == b.(beliefCursor := b.beliefCursor + 1,
                      hypotheses := b.hypotheses[i := b.hypotheses[i].(confidence := b.beliefDeltas[b.beliefCursor].updated)])
    requires MovedBy(b', after)
    ensures MovedBy(b, after)
  {
    assert forall k :: Pending(b', k) ==> Pending(b, k);
    assert forall k :: Pending(b, k) ==> k == b.beliefCursor || Pending(b', k);
    assert forall k :: Pending(b', k) ==> b.beliefDeltas[k].hypothesisId != b.hypotheses[i].id;
    assert after[i] == b'.hypotheses[i];
  }

  lemma {:induction false} CommitMoves(s: State)
    requires UniqueIds(s.belief.hypotheses) && PendingAccepted(s.belief) && DistinctTargets(s.belief)
    ensures MovedBy(s.belief, BeliefCommit(s).state.belief.hypotheses)
    decreases |s.belief.beliefDeltas| - s.belief.beliefCursor
  {
    var b := s.belief;
    if b.beliefCursor < |b.beliefDeltas| {
      assert Pending(b, b.beliefCursor) && Acceptable(b, b.beliefCursor);
      var d, i := b.beliefDeltas[b.beliefCursor], TargetOf(b, b.beliefCursor);
      var b' := b.(beliefCursor := b.beliefCursor + 1, hypotheses := b.hypotheses[i := b.hypotheses[i].(confidence := d.updated)]);
      CommitIsOrdered(b);
      CommitOneSplits(b, i, b');
      CommitMoves(s.(belief := b'));
      MoveOneMore(b, i, b', BeliefCommit(s.(belief := b')).state.belief.hypotheses);
    }
  }

  /**
   Over every run: a commit that does not fail the graph gives each hypothesis that a pending
   change names the confidence of that change, in the unit interval and in the direction the
   change declares, and changes nothing else about any hypothesis.
   */
  lemma CommittedConfidences(trace: seq<Config>, inputs: seq<Input>, k: nat)
    requires IsRun(trace, inputs) && Initial(trace[0]) && k + 1 < |trace|
    requires trace[k].node == BeliefCommitNode && trace[k + 1].node != GraphFailure
    ensures MovedBy(trace[k].state.belief, trace[k + 1].state.belief.hypotheses)
    ensures var b := trace[k].state.belief;
            forall m, i :: Pending(b, m) && 0 <= i < |b.hypotheses| && b.hypotheses[i].id == b.beliefDeltas[m].hypothesisId ==>
              && 0.0 <= b.beliefDeltas[m].updated <= 1.0
              && (b.beliefDeltas[m].direction == Increase <==> b.beliefDeltas[m].updated > b.hypotheses[i].confidence)
              && (b.beliefDeltas[m].direction == Decrease <==> b.beliefDeltas[m].updated < b.hypotheses[i].confidence)
  {
    hide Next;
    LedgerOverRuns(trace, inputs, k);
    CommitNodeStep(trace[k], inputs[k]);
    CommitStep(trace[k], inputs[k]);
    CommitMoves(trace[k].state);
    var b := trace[k].state.belief;
    forall m, i | Pending(b, m) && 0 <= i < |b.hypotheses| && b.hypotheses[i].id == b.beliefDeltas[m].hypothesisId
      ensures TargetOf(b, m) == i && Acceptable(b, m)
    {
      IndexOfUnique(b.hypotheses, i);
    }
  }

  lemma CommitNodeStep(c: Config, i: Input)
    requires c.node == BeliefCommitNode
    ensures i.fault ==> Next(c, i).node == GraphFailure
    ensures !i.fault ==> Next(c, i) == Continue(BeliefCommit(c.state), ReflectionRouter)
  {
    hide OuterNext;
  }
}
