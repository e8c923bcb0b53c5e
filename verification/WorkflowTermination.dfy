/**
 A workflow attempt ends, whatever the model, the tools, the cluster and the operator answer:
 every return to the Brain after a refused dry run has cost a turn, and a return after an
 execution happens once (agent/brain_graph.go:22-33; agent/supervisor.go:314-386).
 */
module WorkflowTermination {
  import opened Domain
  import opened WorkflowSpec
  import opened WorkflowGraph
  import opened NodeFrames
  import opened BrainLoop
  import opened BrainBudgets
  import opened RecoveryChain
  import opened WorkflowSafety

  // ---------------------------------------------------------------- the measure

  function Left(c: Config): nat {
    TurnsLeft(c.state.control.budget)
  }

  /** Statuses from which an execution can still happen. */
  predicate BeforeExecution(s: Status) {
    s in {Received, Correlating, Collecting, Diagnosing, Proposing, AwaitingApproval}
  }

  function One(b: bool): nat {
    if b then 1 else 0
  }

  /** Credit for one more dry run: a plan in hand, a turn that may still bring one, or a turn left. */
  function PlanCredit(c: Config): nat {
    Left(c) + One(MidTurn(c.node)) + One(c.state.chain.plan.Some?)
  }

  /** Brain nodes the current stay may still visit; a closed loop counts as if it could be entered again. */
  function BrainPart(c: Config): nat {
    if c.node == TerminationRouterNode && c.state.control.termination.Some? then 11 * Left(c) + 1 else VisitBound(c)
  }

  /** Visits outside the Brain that need no further credit. */
  function OuterPart(n: Node): nat {
    match n
    case IntakeNode => 10
    case PermissionNode => 6
    case DryRunStage => 5
    case ProposalValidator => 4
    case ApprovalInterrupt => 3
    case ApprovalResume => 2
    case ActionExecutor => 11
    case VerificationController => 10
    case Finalizer => 1
    case _ => 0
  }

  /** An upper bound on all node visits still to come, this one included. */
  function Remaining(c: Config): nat {
    if Terminal(c) then 0
    else if c.node == Finalizer then 1
    else 5 * PlanCredit(c) + 10 * One(BeforeExecution(c.state.incident.status))
         + if InBrain(c.node) then BrainPart(c) + 6 else 11 * Left(c) + OuterPart(c.node)
  }

  /** Engine steps of the supervisor graph: its own nodes, and each stay in the Brain counts as one. */
  function OuterCost(c: Config, next: Config): nat {
    if InBrain(c.node) then 0 else 1 + One(InBrain(next.node))
  }

  function OuterCredit(n: Node): nat {
    match n
    case ProposalValidator => 8
    case ApprovalInterrupt => 7
    case ApprovalResume => 6
    case ActionExecutor => 5
    case IntakeNode | VerificationController => 4
    case DryRunStage => 1
    case _ => 2
  }

  /** An upper bound on the engine steps of the supervisor graph still to come. */
  function OuterRemaining(c: Config): nat {
    if Terminal(c) then 0
    else if c.node == Finalizer then 1
    else 3 * PlanCredit(c) + OuterCredit(c.node)
         + 8 * One(BeforeExecution(c.state.incident.status) && c.node !in {ProposalValidator, ApprovalInterrupt, ApprovalResume})
  }

  /** A step shortens what is left of the run, seen node by node and seen by the outer graph alone. */
  predicate Spends(c: Config, next: Config) {
    Remaining(next) < Remaining(c) && OuterRemaining(next) + OuterCost(c, next) <= OuterRemaining(c)
  }

  // ---------------------------------------------------------------- every step spends some of it

  lemma {:induction false} OnlyClassifierSetsPlan(c: Config, i: Input)
    requires InBrain(c.node) && c.node != ResultClassifier
    ensures var p, q := c.state.chain.plan, Next(c, i).state.chain.plan; q.None? || q == p
  {
    var s := c.state;
    if i.fault {
    } else if c.node == BeliefCommitNode {
      CommitKeepsChain(s);
    } else if c.node == ObservationNode {
      ObservationAddsNothing(s, i.ranked);
    } else if c.node in {ContextBuilder, ReflectionContextBuilder} {
      ContextAddsNothing(s, c.node == ReflectionContextBuilder, i.turn);
    } else {
      BrainLeavesChain(c, i);
    }
  }

  /** A turn is paid for when its context is built, and leaves the middle of the turn with at most one plan. */
  lemma TurnPaysForPlan(c: Config, i: Input)
    requires InBrain(c.node) && TurnAvailable(c) && !Terminal(Next(c, i))
    ensures PlanCredit(Next(c, i)) <= PlanCredit(c) && Left(Next(c, i)) <= Left(c)
  {
    if c.node == ResultClassifier {
      ClassifierPaysForPlan(c, i);
    } else {
      hide Next;
      OnlyClassifierSetsPlan(c, i);
      TurnsNeverGrow(c, i);
    }
  }

  lemma ClassifierPaysForPlan(c: Config, i: Input)
    requires c.node == ResultClassifier && !Terminal(Next(c, i))
    ensures PlanCredit(Next(c, i)) <= PlanCredit(c) && Left(Next(c, i)) <= Left(c)
  {
    hide OuterNext, ClassifyToolResults;
    ClassifierKeepsTurnsLeft(c.state, c.outputs);
  }

  lemma TurnsNeverGrow(c: Config, i: Input)
    requires InBrain(c.node) && c.node != ResultClassifier && TurnAvailable(c) && !Terminal(Next(c, i))
    ensures Left(Next(c, i)) <= Left(c) && Left(Next(c, i)) + One(MidTurn(Next(c, i).node)) <= Left(c) + One(MidTurn(c.node))
  {
    hide OuterNext, BuildContext, BeliefCommit, ClassifyToolResults;
    var s := c.state;
    if c.node == BeliefCommitNode {
      CommitKeepsControl(s);
    } else if c.node == ArgumentGuard {
      CountCallsKeepsTurns(s.control.budget, |c.calls|);
    } else if c.node == ObservationNode {
      assert ObserveUpdate(s, i.ranked).control == s.control;
    } else if c.node == ReflectionRouter {
      assert TurnsLeft(ReflectionRoute(s).0.control.budget) == TurnsLeft(s.control.budget);
    } else if c.node in {ContextBuilder, ReflectionContextBuilder} {
      if BuildContext(s, c.node == ReflectionContextBuilder, i.turn).Done? {
        ContextSpendsOneTurn(s, c.node == ReflectionContextBuilder, i.turn);
      }
    }
  }

  lemma BrainSpends(c: Config, i: Input)
    requires InBrain(c.node) && TurnAvailable(c)
    ensures Spends(c, Next(c, i))
  {
    hide OuterNext, BuildContext, BeliefCommit, ClassifyToolResults, ObserveUpdate, RecordAnswer, BrainNext;
    if !Terminal(Next(c, i)) {
      TurnPaysForPlan(c, i);
      BrainKeepsStatus(c, i);
      StepUsesVisit(c, i);
      RouterVisits(c, i);
    }
  }

  lemma RouterVisits(c: Config, i: Input)
    requires InBrain(c.node) && !i.fault
    ensures Next(c, i).node == TerminationRouterNode ==> c.node == ReflectionRouter
    ensures Next(c, i).node == PermissionNode ==> c.node == TerminationRouterNode
    ensures Next(c, i).node == Finalizer ==> false
  {
  }

  lemma DryRunSpends(c: Config, k: Cluster)
    requires c.node == DryRunStage && ChainInvariant(c)
    ensures Spends(c, AfterDryRun(DryRunNode(c.state, k)))
  {
    hide DryRunNode, GroundedDecision;
    DryRunFrame(c.state, k);
    DryRunBinds(c.state, k);
  }

  lemma PermissionSpends(c: Config, proposalId: string, now: int)
    requires c.node == PermissionNode && ChainInvariant(c)
    ensures Spends(c, AfterPermission(RecoveryPermission(c.state, proposalId, now)))
  {
    hide RecoveryPermission, GroundedDecision;
    PermissionFrame(c.state, proposalId, now);
    PermissionNeverReopens(c.state, proposalId, now);
  }

  lemma PermissionNeverReopens(s: State, proposalId: string, now: int)
    ensures BeforeExecution(RecoveryPermission(s, proposalId, now).state.incident.status) ==> BeforeExecution(s.incident.status)
  {
  }

  lemma ResumeSpends(c: Config, r: Resume)
    requires c.node == ApprovalResume && ChainInvariant(c)
    ensures Spends(c, AfterApproval(ResumeApproval(c.state, r)))
  {
    hide ResumeApproval, GroundedDecision;
    ResumeFrame(c.state, r);
    ResumeKeepsBinding(c.state, r);
  }

  /** After the executor only one more stay in the Brain is possible, and the credits are unchanged. */
  lemma PastExecutorSpends(c: Config, r: NodeResult)
    requires c.node == ActionExecutor && r.state.control.budget == c.state.control.budget
    requires r.state.chain.plan == c.state.chain.plan && !BeforeExecution(r.state.incident.status)
    requires !BeforeExecution(c.state.incident.status)
    ensures Spends(c, AfterExecutor(r))
  {
  }

  lemma PastVerificationSpends(c: Config, r: NodeResult)
    requires c.node == VerificationController && r.state.control.budget == c.state.control.budget
    requires r.state.chain.plan == c.state.chain.plan && !BeforeExecution(r.state.incident.status)
    requires !BeforeExecution(c.state.incident.status)
    ensures Spends(c, AfterVerification(r))
  {
  }

  lemma ExecutorSpends(c: Config, result: ExecuteResult, now: int, later: int)
    requires c.node == ActionExecutor && ChainInvariant(c)
    ensures Spends(c, AfterExecutor(ExecuteAction(c.state, result, now, later)))
  {
    ExecuteFrame(c.state, result, now, later);
    ExecutorLeavesRecovering(c.state, result, now, later);
    PastExecutorSpends(c, ExecuteAction(c.state, result, now, later));
  }

  lemma VerificationSpends(c: Config, rounds: seq<Round>)
    requires c.node == VerificationController && ChainInvariant(c)
    ensures Spends(c, AfterVerification(VerificationNode(c.state, rounds)))
  {
    VerificationFrame(c.state, rounds);
    VerificationStaysPast(c.state, rounds);
    PastVerificationSpends(c, VerificationNode(c.state, rounds));
  }

  lemma IntakeSpends(c: Config)
    requires c.node == IntakeNode
    ensures Spends(c, Continue(IncidentIntake(c.state), TerminationRouterNode))
  {
  }

  lemma ValidatorSpends(c: Config)
    requires c.node == ProposalValidator && ChainInvariant(c)
    ensures Spends(c, AfterValidator(ValidateProposal(c.state)))
  {
    ValidatorFrame(c.state);
    assert ValidateProposal(c.state) == Done(c.state);
  }

  lemma InterruptSpends(c: Config)
    requires c.node == ApprovalInterrupt && ChainInvariant(c)
    ensures Spends(c, Continue(RequestApproval(c.state), ApprovalResume))
  {
  }

  lemma OuterSpends(c: Config, i: Input)
    requires !Terminal(c) && !InBrain(c.node) && ChainInvariant(c)
    ensures Spends(c, OuterNext(c, i))
  {
    match c.node
    case PermissionNode => PermissionSpends(c, i.proposalId, i.now);
    case DryRunStage => DryRunSpends(c, i.cluster);
    case ApprovalResume => ResumeSpends(c, i.resume);
    case ActionExecutor => ExecutorSpends(c, i.result, i.now, i.later);
    case VerificationController => VerificationSpends(c, i.rounds);
    case IntakeNode => IntakeSpends(c);
    case ProposalValidator => ValidatorSpends(c);
    case ApprovalInterrupt => InterruptSpends(c);
    case Finalizer =>
  }

  lemma StepSpends(c: Config, i: Input)
    requires !Terminal(c) && ChainInvariant(c) && TurnAvailable(c)
    ensures Spends(c, Next(c, i))
  {
    if i.fault {
      assert Terminal(Next(c, i));
    } else if InBrain(c.node) {
      BrainSpends(c, i);
    } else {
      OuterSpends(c, i);
    }
  }

  /** Engine steps of the supervisor graph among the first `k` steps of a run. */
  function OuterSteps(trace: seq<Config>, k: nat): nat
    requires k < |trace|
  {
    if k == 0 then 0 else OuterSteps(trace, k - 1) + OuterCost(trace[k - 1], trace[k])
  }

  lemma {:induction false} SpentSoFar(trace: seq<Config>, inputs: seq<Input>, k: nat)
    requires IsRun(trace, inputs) && Initial(trace[0]) && k < |trace|
    ensures Remaining(trace[k]) + k <= Remaining(trace[0])
    ensures OuterRemaining(trace[k]) + OuterSteps(trace, k) <= OuterRemaining(trace[0])
  {
    hide Next;
    if k > 0 {
      SpentSoFar(trace, inputs, k - 1);
      ChainOverRuns(trace, inputs, k - 1);
      BudgetsOverRuns(trace, inputs, k - 1);
      StepSpends(trace[k - 1], inputs[k - 1]);
    }
  }

  /**
   Every run of a workflow attempt is over after at most 16 node visits per turn of the default
   budget and 20 more, and the supervisor graph by itself takes far fewer steps than its engine
   limit of 12 per turn and 16 more allows.
   */
  lemma WorkflowTerminates(trace: seq<Config>, inputs: seq<Input>)
    requires IsRun(trace, inputs) && Initial(trace[0])
    ensures |inputs| <= 16 * DEFAULT_MAX_TURNS + 20
    ensures OuterSteps(trace, |inputs|) <= 3 * DEFAULT_MAX_TURNS + 12 < STEPS_PER_TURN * DEFAULT_MAX_TURNS + TAIL_STEPS
  {
    hide Next;
    SpentSoFar(trace, inputs, |inputs|);
  }
}
