/**
 What the four Brain budgets guarantee in every reachable state, and what a spent tool
 budget closes for good (agent/brain_graph.go:303-351, 394-419, 446-486;
 agent/brain_state.go:51-55, 426-430, 503-521; agent/brain_tools.go:1409-1426).
 */
module BrainBudgets {
  import opened Domain
  import opened WorkflowSpec
  import opened WorkflowGraph
  import opened NodeFrames
  import opened BrainLoop

  // ---------------------------------------------------------------- the budget invariant

  function TotalCost(items: seq<Reflection>): nat {
    if items == [] then 0 else TotalCost(items[..|items| - 1]) + items[|items| - 1].cost
  }

  /** Nodes between the context builder and the end of result classification. */
  predicate MidTurn(n: Node) {
    n in {BrainModel, ReflectionUpdate, ActionGateway, CategoryRouter, ToolsNode, ArgumentGuard, StructuredGuard, ResultClassifier}
  }

  predicate BudgetsKept(k: Control) {
    var b := k.budget;
    && b.usage.turns == |k.turns| == |k.assistantTurns|
    && (if b.limits.maxTurns == 0 then b.usage.turns == 0 && !b.toolCallsExhausted else b.usage.turns <= b.limits.maxTurns)
    && b.usage.toolCalls <= b.limits.maxToolCalls
    && b.usage.structuredCorrections <= b.limits.maxStructuredCorrections
    && b.usage.reflectionCost == TotalCost(k.reflections) <= b.limits.maxReflectionCost
  }

  /** The calls in flight still fit, or the budget is already closed. */
  predicate BudgetInvariant(c: Config) {
    var b := c.state.control.budget;
    && BudgetsKept(c.state.control)
    && TurnAvailable(c)
    && (b.limits.maxTurns == 0 ==> !MidTurn(c.node) && b.limits == Limits(0, 0, 0, 0, 0))
    && (MidTurn(c.node) && ToolBudgetExhausted(b) ==> b.toolCallsExhausted)
    && (c.node in {CategoryRouter, ToolsNode, ArgumentGuard, ResultClassifier} ==>
          b.toolCallsExhausted || b.usage.toolCalls + |c.calls| <= b.limits.maxToolCalls)
    && (c.node == ResultClassifier ==>
          && |c.outputs| == |c.calls|
          && UniqueIds(NewRevisions(c.outputs))
          && (forall k :: 0 <= k < |c.calls| ==> PermittedOutput(c.state, c.calls[k].tool, c.outputs[k])))
  }

  lemma AcceptKeepsCost(items: seq<Reflection>)
    ensures TotalCost(AcceptLastReflection(items)) == TotalCost(items)
    ensures items == [] ==> AcceptLastReflection(items) == []
  {
    if items != [] {
      assert AcceptLastReflection(items)[..|items| - 1] == items[..|items| - 1];
    }
  }

  lemma MilestonesKeepReflections(c: Control, o: Output)
    ensures ApplyMilestones(c, o).reflections == c.reflections
  {
  }

  lemma SelectionsKeepReflections(c: Control, o: Output)
    ensures ApplySelections(c, o).reflections == c.reflections
  {
  }

  lemma TriggerKeepsReflections(c: Control, o: Output)
    ensures ApplyTrigger(c, o).reflections == c.reflections
  {
  }

  lemma ApplyKeepsCost(c: Control, o: Output)
    ensures TotalCost(ApplyControl(c, o).reflections) == TotalCost(c.reflections)
    ensures c.reflections == [] ==> ApplyControl(c, o).reflections == []
  {
    hide ApplyMilestones, ApplySelections, ApplyTrigger, AcceptLastReflection, TotalCost;
    MilestonesKeepReflections(c, o);
    SelectionsKeepReflections(ApplyMilestones(c, o), o);
    TriggerKeepsReflections(ApplyPhases(c, o), o);
    AcceptKeepsCost(c.reflections);
  }

  lemma {:induction false} ClassifyKeepsCost(s: State, outputs: seq<Output>)
    ensures TotalCost(ClassifyAll(s, outputs).control.reflections) == TotalCost(s.control.reflections)
  {
    if outputs != [] {
      var before := ClassifyAll(s, outputs[..|outputs| - 1]);
      ClassifyKeepsCost(s, outputs[..|outputs| - 1]);
      ApplyKeepsCost(before.control.(budget := CountCall(before.control.budget)), outputs[|outputs| - 1]);
    }
  }

  lemma PrepareKeepsBudgets(s: State, reflection: bool)
    requires BudgetsKept(s.control) && TurnsLeft(s.control.budget) > 0
    requires s.control.budget.limits.maxTurns == 0 ==> s.control.budget.limits == Limits(0, 0, 0, 0, 0)
    ensures var k := PrepareTurn(s, reflection);
            BudgetsKept(k) && k.budget.limits.maxTurns > 0 && TurnsLeft(k.budget) > 0
            && (ToolBudgetExhausted(k.budget) ==> k.budget.toolCallsExhausted)
  {
  }

  lemma ContextControl(s: State, reflection: bool, turn: TurnInput)
    ensures var k := BuildContext(s, reflection, turn).state.control;
            var prepared := PrepareTurn(s, reflection);
            if turn.resolved.None? then k == prepared && BuildContext(s, reflection, turn).Aborted?
            else OnlyTermination(AllocateTurn(prepared, turn.resolved.value, turn.turnId), k)
  {
  }

  lemma ContextKeepsBudgets(s: State, reflection: bool, turn: TurnInput)
    requires BudgetsKept(s.control) && TurnsLeft(s.control.budget) > 0
    requires s.control.budget.limits.maxTurns == 0 ==> s.control.budget.limits == Limits(0, 0, 0, 0, 0)
    ensures var k := BuildContext(s, reflection, turn).state.control;
            BudgetsKept(k) && k.budget.limits.maxTurns > 0 && (ToolBudgetExhausted(k.budget) ==> k.budget.toolCallsExhausted)
  {
    PrepareKeepsBudgets(s, reflection);
    ContextControl(s, reflection, turn);
  }

  lemma GateFits(c: Control, calls: seq<ToolCall>)
    ensures var b := GateBudget(c.budget);
            b.toolCallsExhausted || b.usage.toolCalls + |GateCalls(c, calls)| <= b.limits.maxToolCalls
    ensures ToolBudgetExhausted(c.budget) ==> GateBudget(c.budget).toolCallsExhausted && |GateCalls(c, calls)| <= 1
    ensures GateCalls(c, calls) <= calls && (calls != [] && c.budget.limits.maxParallelReadTools > 0 ==> GateCalls(c, calls) != [])
  {
  }

  lemma ModelKeepsBudgets(c: Config, answer: Option<Message>)
    requires c.node in {BrainModel, ReflectionUpdate} && BudgetInvariant(c)
    ensures BudgetInvariant(AfterModel(c.state, answer))
  {
    var r := RecordAnswer(c.state, answer);
    assert BudgetsKept(r.state.control) && r.state.control.budget == c.state.control.budget;
  }

  lemma GateKeepsBudgets(c: Config)
    requires c.node == ActionGateway && BudgetInvariant(c)
    ensures BudgetInvariant(Gate(c.state, c.calls))
  {
    GateFits(c.state.control, c.calls);
  }

  lemma ToolsKeepBudgets(c: Config, i: Input)
    requires c.node in {CategoryRouter, ToolsNode} && BudgetInvariant(c) && Admissible(c, i)
    ensures c.node == CategoryRouter ==> BudgetInvariant(RouteCalls(c.state, c.calls))
    ensures c.node == ToolsNode ==> BudgetInvariant(Config(ResultClassifier, c.state, c.calls, i.outputs))
  {
  }

  lemma ArgumentGuardKeepsBudgets(c: Config)
    requires c.node == ArgumentGuard && BudgetInvariant(c)
    ensures BudgetInvariant(At(ReflectionRouter, HandleInvalidArguments(c.state, c.calls)))
  {
    hide OuterNext, PermittedOutput, UniqueIds, NewRevisions;
    CountCallsKeepsTurns(c.state.control.budget, |c.calls|);
  }

  lemma StructuredGuardKeepsBudgets(c: Config)
    requires c.node == StructuredGuard && BudgetInvariant(c)
    ensures BudgetInvariant(At(ReflectionRouter, HandleUnstructured(c.state)))
  {
    hide OuterNext, PermittedOutput, UniqueIds, NewRevisions;
  }

  lemma ToolStageKeepsBudgets(c: Config, i: Input)
    requires c.node in {BrainModel, ReflectionUpdate, ActionGateway, CategoryRouter, ToolsNode, ArgumentGuard, StructuredGuard}
    requires !i.fault && BudgetInvariant(c) && Admissible(c, i)
    ensures BudgetInvariant(Next(c, i))
  {
    hide OuterNext, BudgetInvariant, ClassifyToolResults, BuildContext, BeliefCommit, ObserveUpdate;
    if c.node in {BrainModel, ReflectionUpdate} {
      ModelKeepsBudgets(c, i.answer);
    } else if c.node == ActionGateway {
      GateKeepsBudgets(c);
    } else if c.node in {CategoryRouter, ToolsNode} {
      ToolsKeepBudgets(c, i);
    } else if c.node == ArgumentGuard {
      ArgumentGuardKeepsBudgets(c);
    } else {
      StructuredGuardKeepsBudgets(c);
    }
  }

  lemma ClassifierKeepsBudgets(c: Config)
    requires c.node == ResultClassifier && BudgetInvariant(c)
    ensures BudgetInvariant(At(ObservationNode, ClassifyToolResults(c.state, c.outputs)))
  {
    hide PermittedOutput, UniqueIds, NewRevisions, ClassifyAll, TotalCost, CountCalls;
    ClassifyKeepsTurns(c.state, c.outputs);
    ClassifyKeepsCost(c.state, c.outputs);
    CountCallsKeepsTurns(c.state.control.budget, |c.outputs|);
  }

  lemma CommitKeepsBudgets(c: Config)
    requires c.node == BeliefCommitNode && BudgetInvariant(c)
    ensures BudgetInvariant(Continue(BeliefCommit(c.state), ReflectionRouter))
  {
    CommitKeepsControl(c.state);
  }

  lemma UpdateKeepsBudgets(c: Config, i: Input)
    requires c.node in {ResultClassifier, ObservationNode, BeliefUpdateNode, BeliefCommitNode} && !i.fault && BudgetInvariant(c)
    ensures BudgetInvariant(Next(c, i))
  {
    hide OuterNext, ClassifyToolResults, BeliefCommit, PermittedOutput, UniqueIds, NewRevisions, BuildContext;
    if c.node == ResultClassifier {
      ClassifierKeepsBudgets(c);
    } else if c.node == ObservationNode {
      assert BudgetInvariant(At(BeliefUpdateNode, ObserveUpdate(c.state, i.ranked)));
    } else if c.node == BeliefCommitNode {
      CommitKeepsBudgets(c);
    }
  }

  lemma RouteKeepsBudgets(c: Config)
    requires c.node == ReflectionRouter && BudgetInvariant(c)
    ensures BudgetInvariant(AfterReflectionRoute(ReflectionRoute(c.state).0, ReflectionRoute(c.state).1))
  {
    hide OuterNext;
    var before, after := c.state.control, ReflectionRoute(c.state).0.control;
    if |after.reflections| > |before.reflections| {
      assert after.reflections[..|after.reflections| - 1] == before.reflections;
      assert BudgetsKept(after);
    } else {
      assert after.budget.usage == before.budget.usage && after.reflections == before.reflections;
    }
  }

  /** Every step, whatever the outside answers, keeps every budget. */
  lemma StepKeepsBudgets(c: Config, i: Input)
    requires !Terminal(c) && BudgetInvariant(c) && Admissible(c, i)
    ensures BudgetInvariant(Next(c, i))
  {
    hide OuterNext, PermittedOutput, UniqueIds, NewRevisions, ClassifyToolResults, BuildContext, BeliefCommit;
    if i.fault {
    } else if c.node == ReflectionRouter {
      RouteKeepsBudgets(c);
    } else if c.node == TerminationRouterNode {
      assert BudgetInvariant(AfterTerminationRouter(TerminationRouter(c.state)));
    } else if c.node in {ContextBuilder, ReflectionContextBuilder} {
      ContextKeepsBudgets(c.state, c.node == ReflectionContextBuilder, i.turn);
    } else if c.node in {ResultClassifier, ObservationNode, BeliefUpdateNode, BeliefCommitNode} {
      UpdateKeepsBudgets(c, i);
    } else if InBrain(c.node) {
      ToolStageKeepsBudgets(c, i);
    } else {
      OuterFrame(c, i);
    }
  }

  /** Every configuration of every run of a workflow attempt satisfies the budget invariant. */
  lemma {:induction false} BudgetsOverRuns(trace: seq<Config>, inputs: seq<Input>, k: nat)
    requires IsRun(trace, inputs) && Initial(trace[0]) && k < |trace|
    ensures BudgetInvariant(trace[k])
  {
    hide Next;
    if k > 0 {
      BudgetsOverRuns(trace, inputs, k - 1);
      StepKeepsBudgets(trace[k - 1], inputs[k - 1]);
    }
  }

  // ---------------------------------------------------------------- a spent tool budget closes the investigation

  function Ids(hypotheses: seq<Hypothesis>): seq<string> {
    seq(|hypotheses|, i requires 0 <= i < |hypotheses| => hypotheses[i].id)
  }

  /** Nothing was added: same revisions, groundings and belief deltas, and no plan that was not there before. */
  predicate NothingAdded(a: State, b: State) {
    && Ids(b.belief.hypotheses) == Ids(a.belief.hypotheses)
    && b.belief.groundings == a.belief.groundings
    && b.belief.groundingDeltas == a.belief.groundingDeltas
    && b.belief.beliefDeltas == a.belief.beliefDeltas
    && (b.chain.plan.None? || b.chain.plan == a.chain.plan)
  }

  predicate Closed(b: BudgetState) {
    b.toolCallsExhausted || ToolBudgetExhausted(b)
  }

  predicate AddsNothing(o: Output) {
    o.hypotheses == [] && o.grounding.None? && o.groundingDelta.None? && o.beliefDelta.None? && o.recoveryPlan.None?
  }

  lemma ClosedBudgetSilencesTools(s: State, tool: Tool, o: Output)
    requires s.control.budget.toolCallsExhausted && PermittedOutput(s, tool, o)
    ensures AddsNothing(o) && o.evidence == map[] && o.requestedSkills == []
  {
  }

  lemma SilentOutputAddsNothing(s: State, o: Output)
    requires AddsNothing(o)
    ensures NothingAdded(s, ClassifyOne(s, o))
  {
    assert ApplyBelief(s.belief, o).hypotheses == s.belief.hypotheses;
    assert ApplyChain(s.chain, o).plan == s.chain.plan;
  }

  lemma {:induction false} SilentBatchAddsNothing(s: State, outputs: seq<Output>)
    requires forall o :: o in outputs ==> AddsNothing(o)
    ensures NothingAdded(s, ClassifyAll(s, outputs))
  {
    if outputs != [] {
      SilentBatchAddsNothing(s, outputs[..|outputs| - 1]);
      SilentOutputAddsNothing(ClassifyAll(s, outputs[..|outputs| - 1]), outputs[|outputs| - 1]);
    }
  }

  lemma {:induction false} CommitAddsNothing(s: State)
    ensures NothingAdded(s, BeliefCommit(s).state)
    decreases |s.belief.beliefDeltas| - s.belief.beliefCursor
  {
    var b := s.belief;
    if b.beliefCursor < |b.beliefDeltas| {
      var d := b.beliefDeltas[b.beliefCursor];
      var next := s.(belief := b.(beliefCursor := b.beliefCursor + 1));
      if !d.committed {
        CommitAddsNothing(next);
      } else {
        var i := IndexOf(b.hypotheses, d.hypothesisId);
        if i >= 0 && CommitAccepted(b.hypotheses[i], d) {
          CommitAddsNothing(next.(belief := next.belief.(hypotheses := b.hypotheses[i := b.hypotheses[i].(confidence := d.updated)])));
        }
      }
    }
  }

  lemma ClassifierAddsNothing(c: Config)
    requires c.node == ResultClassifier && BudgetInvariant(c) && Closed(c.state.control.budget)
    ensures NothingAdded(c.state, ClassifyToolResults(c.state, c.outputs))
  {
    forall o | o in c.outputs
      ensures AddsNothing(o)
    {
      var k :| 0 <= k < |c.outputs| && c.outputs[k] == o;
      ClosedBudgetSilencesTools(c.state, c.calls[k].tool, o);
    }
    SilentBatchAddsNothing(c.state, c.outputs);
  }

  lemma ContextAddsNothing(s: State, reflection: bool, turn: TurnInput)
    ensures NothingAdded(s, BuildContext(s, reflection, turn).state)
  {
  }

  lemma ObservationAddsNothing(s: State, ranked: Option<EvidenceStore>)
    ensures NothingAdded(s, ObserveUpdate(s, ranked))
  {
  }

  lemma BrainStepAddsNothing(c: Config, i: Input)
    requires InBrain(c.node) && BudgetInvariant(c) && Closed(c.state.control.budget)
    ensures NothingAdded(c.state, Next(c, i).state)
  {
    hide OuterNext;
    var s := c.state;
    if i.fault {
    } else if c.node == ResultClassifier {
      ClassifierAddsNothing(c);
    } else if c.node == BeliefCommitNode {
      CommitAddsNothing(s);
    } else if c.node == ObservationNode {
      ObservationAddsNothing(s, i.ranked);
    } else if c.node in {ContextBuilder, ReflectionContextBuilder} {
      ContextAddsNothing(s, c.node == ReflectionContextBuilder, i.turn);
    } else if c.node == ReflectionRouter {
      assert NothingAdded(s, ReflectionRoute(s).0);
    }
  }

  lemma ContextStaysClosed(s: State, reflection: bool, turn: TurnInput)
    requires Closed(s.control.budget) && s.control.budget.limits.maxTurns > 0
    ensures Closed(BuildContext(s, reflection, turn).state.control.budget)
  {
    assert Closed(PrepareTurn(s, reflection).budget);
    ContextControl(s, reflection, turn);
  }

  lemma BrainStaysClosed(c: Config, i: Input)
    requires InBrain(c.node) && !i.fault && BudgetInvariant(c) && Closed(c.state.control.budget)
    requires c.node !in {ContextBuilder, ReflectionContextBuilder}
    ensures Closed(Next(c, i).state.control.budget)
  {
    hide OuterNext, BuildContext;
    var s := c.state;
    if c.node == ResultClassifier {
      ClassifyKeepsTurns(s, c.outputs);
      CountCallsKeepsTurns(s.control.budget, |c.outputs|);
    } else if c.node == BeliefCommitNode {
      CommitKeepsControl(s);
    } else if c.node == ArgumentGuard {
      CountCallsKeepsTurns(s.control.budget, |c.calls|);
    } else if c.node == ReflectionRouter {
      assert Closed(ReflectionRoute(s).0.control.budget);
    }
  }

  lemma StepStaysClosed(c: Config, i: Input)
    requires !Terminal(c) && BudgetInvariant(c) && Closed(c.state.control.budget)
    ensures Closed(Next(c, i).state.control.budget)
  {
    hide OuterNext, BuildContext;
    if i.fault {
    } else if !InBrain(c.node) {
      OuterFrame(c, i);
    } else if c.node in {ContextBuilder, ReflectionContextBuilder} {
      hide BuildContext;
      ContextStaysClosed(c.state, c.node == ReflectionContextBuilder, i.turn);
    } else {
      BrainStaysClosed(c, i);
    }
  }

  lemma NothingAddedTransitive(a: State, b: State, c: State)
    requires NothingAdded(a, b) && NothingAdded(b, c)
    ensures NothingAdded(a, c)
  {
  }

  lemma StepAddsNothing(c: Config, i: Input)
    requires !Terminal(c) && BudgetInvariant(c) && Closed(c.state.control.budget)
    ensures NothingAdded(c.state, Next(c, i).state)
  {
    if InBrain(c.node) {
      BrainStepAddsNothing(c, i);
    } else {
      OuterFrame(c, i);
    }
  }

  /**
   Once the tool budget is spent, no later point of the run has a hypothesis, grounding, belief
   delta or recovery plan that was not there when it was spent.
   */
  lemma {:induction false} SpentToolBudgetIsFinal(trace: seq<Config>, inputs: seq<Input>, j: nat, k: nat)
    requires IsRun(trace, inputs) && Initial(trace[0]) && j <= k < |trace|
    requires Closed(trace[j].state.control.budget)
    ensures Closed(trace[k].state.control.budget) && NothingAdded(trace[j].state, trace[k].state)
    decreases k - j
  {
    hide Next;
    if j < k {
      SpentToolBudgetIsFinal(trace, inputs, j, k - 1);
      BudgetsOverRuns(trace, inputs, k - 1);
      StepStaysClosed(trace[k - 1], inputs[k - 1]);
      StepAddsNothing(trace[k - 1], inputs[k - 1]);
      NothingAddedTransitive(trace[j].state, trace[k - 1].state, trace[k].state);
    }
  }
}
