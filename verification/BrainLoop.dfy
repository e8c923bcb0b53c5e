/**
 The Brain loop is bounded by its own budgets, whatever the model and the tools answer
 (agent/brain_graph.go:22-33, 229-286, 421-466).
 */
module BrainLoop {
  import opened Domain
  import opened WorkflowSpec
  import opened WorkflowGraph

  // ---------------------------------------------------------------- turns bound node visits

  /** Turns the Brain may still take; an unset budget is replaced by the default one at the first turn. */
  function TurnsLeft(b: BudgetState): nat {
    if b.limits.maxTurns == 0 then DEFAULT_MAX_TURNS
    else if b.usage.turns >= b.limits.maxTurns then 0
    else b.limits.maxTurns - b.usage.turns
  }

  /** Nodes of the current turn that still have to run before the reflection router is left. */
  function StageOffset(n: Node): nat {
    match n
    case BrainModel | ReflectionUpdate => 10
    case ActionGateway => 9
    case CategoryRouter => 8
    case ToolsNode => 7
    case ResultClassifier => 6
    case ObservationNode => 5
    case BeliefUpdateNode => 4
    case BeliefCommitNode | ArgumentGuard | StructuredGuard => 3
    case ReflectionRouter => 2
    case _ => 0
  }

  /** An upper bound on the Brain nodes still to be visited, this one included. */
  function VisitBound(c: Config): nat {
    var k := c.state.control;
    var left := TurnsLeft(k.budget);
    if !InBrain(c.node) then 0
    else if c.node == TerminationRouterNode then
      if k.termination.Some? then 1 else 11 * left + (if k.pendingReflection.Some? then 3 else 1)
    else 11 * left + StageOffset(c.node)
  }

  /** A context is only built while a turn is left. */
  predicate TurnAvailable(c: Config) {
    c.node in {ContextBuilder, ReflectionContextBuilder} ==> TurnsLeft(c.state.control.budget) > 0
  }

  predicate SameTurns(c: Control, c': Control) {
    c'.turns == c.turns && c'.assistantTurns == c.assistantTurns && c'.budget == c.budget
  }

  lemma PhasesKeepBudget(c: Control, o: Output)
    ensures SameTurns(c, ApplyPhases(c, o))
  {
    hide ApplySelections;
    assert SameTurns(c, ApplyMilestones(c, o));
    SelectionsKeepBudget(ApplyMilestones(c, o), o);
  }

  lemma SelectionsKeepBudget(c: Control, o: Output)
    ensures SameTurns(c, ApplySelections(c, o))
  {
  }

  lemma ReflectionKeepsBudget(c: Control, o: Output)
    ensures SameTurns(c, ResolveReflection(ApplyTrigger(c, o), o))
  {
  }

  lemma ApplyKeepsBudget(c: Control, o: Output)
    ensures SameTurns(c, ApplyControl(c, o))
  {
    hide ApplyPhases, ApplyTrigger, ResolveReflection;
    PhasesKeepBudget(c, o);
    ReflectionKeepsBudget(ApplyPhases(c, o), o);
  }

  lemma {:induction false} ClassifyKeepsTurns(s: State, outputs: seq<Output>)
    ensures var k := ClassifyAll(s, outputs).control;
            k.turns == s.control.turns && k.assistantTurns == s.control.assistantTurns
            && k.budget == CountCalls(s.control.budget, |outputs|)
  {
    if outputs != [] {
      var before := ClassifyAll(s, outputs[..|outputs| - 1]);
      ClassifyKeepsTurns(s, outputs[..|outputs| - 1]);
      ApplyKeepsBudget(before.control.(budget := CountCall(before.control.budget)), outputs[|outputs| - 1]);
    }
  }

  lemma {:induction false} CountCallsKeepsTurns(b: BudgetState, n: nat)
    ensures CountCalls(b, n) == b.(usage := b.usage.(toolCalls := if b.toolCallsExhausted then b.usage.toolCalls else b.usage.toolCalls + n))
  {
    if n > 0 {
      CountCallsKeepsTurns(b, n - 1);
    }
  }

  lemma {:induction false} CommitKeepsControl(s: State)
    ensures BeliefCommit(s).state.control == s.control
    decreases |s.belief.beliefDeltas| - s.belief.beliefCursor
  {
    var b := s.belief;
    if b.beliefCursor < |b.beliefDeltas| {
      var d := b.beliefDeltas[b.beliefCursor];
      var next := s.(belief := b.(beliefCursor := b.beliefCursor + 1));
      if !d.committed {
        CommitKeepsControl(next);
      } else {
        var i := IndexOf(b.hypotheses, d.hypothesisId);
        if i >= 0 && CommitAccepted(b.hypotheses[i], d) {
          CommitKeepsControl(next.(belief := next.belief.(hypotheses := b.hypotheses[i := b.hypotheses[i].(confidence := d.updated)])));
        }
      }
    }
  }

  lemma RouterUsesVisit(c: Config, i: Input)
    requires c.node in {TerminationRouterNode, ReflectionRouter} && !i.fault
    ensures TurnAvailable(Next(c, i)) && VisitBound(Next(c, i)) < VisitBound(c)
  {
    hide OuterNext;
  }

  lemma ContextSpendsOneTurn(s: State, reflection: bool, turn: TurnInput)
    requires TurnsLeft(s.control.budget) > 0 && BuildContext(s, reflection, turn).Done?
    ensures TurnsLeft(BuildContext(s, reflection, turn).state.control.budget) == TurnsLeft(s.control.budget) - 1
  {
    var prepared := PrepareTurn(s, reflection);
    assert TurnsLeft(prepared.budget) == TurnsLeft(s.control.budget);
    assert BuildContext(s, reflection, turn).state.control == AllocateTurn(prepared, turn.resolved.value, turn.turnId);
  }

  lemma ContextUsesVisit(c: Config, i: Input)
    requires c.node in {ContextBuilder, ReflectionContextBuilder} && !i.fault && TurnAvailable(c)
    ensures TurnAvailable(Next(c, i)) && VisitBound(Next(c, i)) < VisitBound(c)
  {
    hide OuterNext, BuildContext;
    var reflection := c.node == ReflectionContextBuilder;
    if BuildContext(c.state, reflection, i.turn).Done? {
      ContextSpendsOneTurn(c.state, reflection, i.turn);
    }
  }

  lemma ToolStageUsesVisit(c: Config, i: Input)
    requires c.node in {BrainModel, ReflectionUpdate, ActionGateway, CategoryRouter, ToolsNode, ArgumentGuard, StructuredGuard}
    requires !i.fault
    ensures TurnAvailable(Next(c, i)) && VisitBound(Next(c, i)) < VisitBound(c)
  {
    hide OuterNext, ClassifyToolResults, BuildContext, BeliefCommit, ObserveUpdate;
    if c.node == ArgumentGuard {
      CountCallsKeepsTurns(c.state.control.budget, |c.calls|);
    }
  }

  lemma ClassifierKeepsTurnsLeft(s: State, outputs: seq<Output>)
    ensures TurnsLeft(ClassifyToolResults(s, outputs).control.budget) == TurnsLeft(s.control.budget)
  {
    ClassifyKeepsTurns(s, outputs);
    CountCallsKeepsTurns(s.control.budget, |outputs|);
  }

  lemma ClassifierUsesVisit(c: Config, i: Input)
    requires c.node == ResultClassifier && !i.fault
    ensures TurnAvailable(Next(c, i)) && VisitBound(Next(c, i)) < VisitBound(c)
  {
    hide OuterNext, ClassifyToolResults;
    ClassifierKeepsTurnsLeft(c.state, c.outputs);
  }

  lemma UpdateUsesVisit(c: Config, i: Input)
    requires c.node in {ObservationNode, BeliefUpdateNode, BeliefCommitNode} && !i.fault
    ensures TurnAvailable(Next(c, i)) && VisitBound(Next(c, i)) < VisitBound(c)
  {
    hide OuterNext, BeliefCommit;
    var s := c.state;
    if c.node == ObservationNode {
      assert ObserveUpdate(s, i.ranked).control == s.control;
    } else if c.node == BeliefCommitNode {
      CommitKeepsControl(s);
    }
  }

  /** Every Brain step uses up at least one of the visits the bound still grants. */
  lemma StepUsesVisit(c: Config, i: Input)
    requires InBrain(c.node) && TurnAvailable(c)
    ensures TurnAvailable(Next(c, i)) && VisitBound(Next(c, i)) < VisitBound(c)
  {
    hide OuterNext;
    if i.fault {
    } else if c.node in {TerminationRouterNode, ReflectionRouter} {
      RouterUsesVisit(c, i);
    } else if c.node in {ContextBuilder, ReflectionContextBuilder} {
      ContextUsesVisit(c, i);
    } else if c.node == ResultClassifier {
      ClassifierUsesVisit(c, i);
    } else if c.node in {ObservationNode, BeliefUpdateNode, BeliefCommitNode} {
      UpdateUsesVisit(c, i);
    } else {
      ToolStageUsesVisit(c, i);
    }
  }

  const STEPS_PER_TURN := 12

  const TAIL_STEPS := 16

  lemma {:induction false} VisitsSpent(trace: seq<Config>, inputs: seq<Input>, k: nat)
    requires IsRun(trace, inputs) && k <= |inputs|
    requires forall j :: 0 <= j < |inputs| ==> InBrain(trace[j].node)
    requires TurnAvailable(trace[0])
    ensures TurnAvailable(trace[k]) && VisitBound(trace[k]) + k <= VisitBound(trace[0])
  {
    hide Next;
    if k > 0 {
      VisitsSpent(trace, inputs, k - 1);
      StepUsesVisit(trace[k - 1], inputs[k - 1]);
    }
  }

  /**
   One stay in the Brain loop, entered at its termination router with `left` turns to go,
   makes at most 11 * left + 3 node visits; so it leaves the loop before the graph engine's
   own step limit, which is computed from the whole turn budget.
   */
  lemma BrainStayIsBounded(trace: seq<Config>, inputs: seq<Input>)
    requires IsRun(trace, inputs) && trace[0].node == TerminationRouterNode
    requires forall j :: 0 <= j < |inputs| ==> InBrain(trace[j].node)
    ensures |inputs| <= 11 * TurnsLeft(trace[0].state.control.budget) + 3
    ensures var limits := trace[0].state.control.budget.limits;
            |inputs| < STEPS_PER_TURN * (if limits.maxTurns == 0 then DEFAULT_MAX_TURNS else limits.maxTurns) + TAIL_STEPS
  {
    VisitsSpent(trace, inputs, |inputs|);
  }

  /**
   The reflection router hands a pending reflection back to the termination router only when
   the run is over; with the router's own branch this rules out a cycle of the two routers.
   */
  lemma RouterClearsPendingReflection(s: State)
    ensures var (after, route) := ReflectionRoute(s);
            route == ToTermination && after.control.termination.None? ==> after.control.pendingReflection.None?
    ensures var (after, route) := ReflectionRoute(s);
            route == ToReflection ==> after.control.termination.None? && TurnsLeft(after.control.budget) > 0
                                      && !ToolBudgetExhausted(after.control.budget)
  {
  }
}
