/**
 The supervisor graph with the Brain sub-graph unfolded into it (agent/supervisor.go:307-377,
 agent/brain_graph.go:118-287): nodes, edges and branches. What comes from outside (Skill
 resolution, model answers, tool outputs, cluster replies, the operator, the clock) is an
 `Input`; a run is the machine driven by any sequence of admissible inputs.
 */
module WorkflowGraph {
  import opened Domain
  import opened WorkflowSpec

  datatype Node =
    | IntakeNode
    | TerminationRouterNode | ContextBuilder | ReflectionContextBuilder | BrainModel | ReflectionUpdate | ActionGateway
    | CategoryRouter | ToolsNode | ArgumentGuard | StructuredGuard | ResultClassifier | ObservationNode | BeliefUpdateNode
    | BeliefCommitNode | ReflectionRouter
    | PermissionNode | DryRunStage | ProposalValidator | ApprovalInterrupt | ApprovalResume | ActionExecutor
    | VerificationController | Finalizer | Finished | GraphFailure

  /** The node about to run, the state it will see, and the message travelling between model, router and tools. */
  datatype Config = Config(node: Node, state: State, calls: seq<ToolCall>, outputs: seq<Output>)

  datatype Input = Input(
    fault: bool, turn: TurnInput, answer: Option<Message>, outputs: seq<Output>, ranked: Option<EvidenceStore>,
    proposalId: string, now: int, later: int, cluster: Cluster, resume: Resume, result: ExecuteResult, rounds: seq<Round>)

  // ---------------------------------------------------------------- what a Brain tool may answer

  predicate Bare(o: Output) {
    && o.evidence == map[] && o.hypotheses == [] && o.admissions == [] && o.grounding.None? && o.groundingDelta.None?
    && o.beliefDelta.None? && !o.understanding && !o.investigationPlan && o.diagnosis.None? && !o.diagnosisFinalized
    && o.validation.None? && o.recoveryPlan.None? && o.requestedSkills == [] && o.selectedCategory == NoCategory
    && o.nextPhase == NoPhase && o.termination.None?
  }

  predicate Denied(o: Output) {
    Bare(o) && o.kind in {ConstraintResult, ErrorResult}
  }

  predicate ClosingTool(tool: Tool) {
    tool in {SubmitDiagnosis, ValidateDiagnosis, FinishInvestigation}
  }

  predicate Reasoning(p: Phase) {
    p == Investigation || p == Reflecting
  }

  predicate FreshHypotheses(s: State, added: seq<Hypothesis>) {
    && (forall h :: h in added ==> h.status in {Proposed, Admitted} && h.validatedSnapshot.None?)
    && (forall h, g :: h in added && g in s.belief.hypotheses ==> h.id != g.id)
  }

  /** A finishing reason the runtime does not keep to itself (agent/brain_tools.go:1359-1390). */
  predicate FinishReason(s: State, reason: TerminationReason) {
    match reason
    case HumanEscalation | EvidenceSaturated => true
    case DiagnosisConfident => s.chain.diagnosis.Some? && !s.chain.diagnosis.value.provisional
    case DiagnosisProvisional => s.chain.diagnosis.Some? && s.chain.diagnosis.value.provisional
    case _ => false
  }

  /** A belief change is checked against the revision it names before it is accepted (agent/brain_tools.go:955-1007). */
  predicate AcceptedDelta(s: State, d: BeliefDelta) {
    var h := FindHypothesis(s.belief.hypotheses, d.hypothesisId);
    d.committed && h.Some? && CommitAccepted(h.value, d)
  }

  /** Validation touches only the provisional flag, and clears it only for a diagnosis over the current snapshots. */
  predicate ValidatedDiagnosis(s: State, d: AgentDiagnosis, valid: bool) {
    && s.chain.diagnosis.Some?
    && d == s.chain.diagnosis.value.(provisional := d.provisional)
    && (!d.provisional ==> valid && d.evidence == s.chain.evidence && d.execution == s.chain.execution)
  }

  /**
   The answer of one authorized tool: which payload fields it may set, in which phase.
   Every field that is not mentioned stays empty.
   */
  predicate ToolAnswer(s: State, tool: Tool, o: Output) {
    match tool
    case QueryMetrics | SearchLogs | QueryTraces | InspectKubernetes | DiscoverResources =>
      Bare(o.(evidence := map[])) && o.kind == (if o.evidence == map[] then ValidationResult else EvidenceResult)
    case RetrieveIncidents | RetrieveRunbooks | RetrievePatterns | ReadSkillReference =>
      Bare(o) && o.kind == ValidationResult
    case CompareHypotheses =>
      Reasoning(s.control.phase) && Bare(o) && o.kind == ValidationResult
    case SubmitUnderstanding =>
      s.control.phase == Intake && Bare(o.(understanding := false)) && o.kind == ValidationResult
    case SubmitPlan =>
      s.control.phase == Planning && Bare(o.(investigationPlan := false)) && o.kind == ValidationResult
    case RevisePlan =>
      Reasoning(s.control.phase) && Bare(o.(investigationPlan := false)) && o.kind == ValidationResult
    case SubmitHypotheses =>
      Reasoning(s.control.phase) && Bare(o.(hypotheses := [], admissions := [])) && o.kind == ValidationResult
      && FreshHypotheses(s, o.hypotheses) && (forall h :: h in o.hypotheses ==> h.relation == Root)
    case ReviseHypothesis =>
      Reasoning(s.control.phase) && Bare(o.(hypotheses := [], admissions := [])) && o.kind == ValidationResult
      && |o.hypotheses| == 1 && FreshHypotheses(s, o.hypotheses)
    case ValidateHypothesis =>
      Reasoning(s.control.phase) && Bare(o.(grounding := None, groundingDelta := None)) && o.kind == ValidationResult
      && o.grounding.Some? && o.groundingDelta.Some? && o.grounding.value.snapshot == Some(SnapshotOf(s.incident.evidence))
    case CommitBeliefDelta =>
      s.control.phase == Reflecting && Bare(o.(beliefDelta := None)) && o.kind == ValidationResult && o.beliefDelta.Some?
      && AcceptedDelta(s, o.beliefDelta.value)
    case SubmitDiagnosis =>
      s.control.phase == Diagnosis && Bare(o.(diagnosis := None)) && o.kind == ValidationResult && o.diagnosis.Some?
      && o.diagnosis.value.provisional && o.diagnosis.value.evidence == s.chain.evidence
      && o.diagnosis.value.execution == s.chain.execution
    case ValidateDiagnosis =>
      s.control.phase == Diagnosis && Bare(o.(diagnosis := None, diagnosisFinalized := false, validation := None))
      && o.kind == ValidationResult && o.validation == Some(o.diagnosisFinalized)
      && (o.diagnosis.None? ==> !o.diagnosisFinalized)
      && (o.diagnosis.Some? ==> ValidatedDiagnosis(s, o.diagnosis.value, o.diagnosisFinalized))
    case SubmitRecoveryPlan =>
      s.control.phase == Recovery && Bare(o.(recoveryPlan := None)) && o.kind == ValidationResult && o.recoveryPlan.Some?
      && s.chain.diagnosis.Some? && o.recoveryPlan.value.diagnosisVersion == s.chain.diagnosis.value.id
      && o.recoveryPlan.value.evidence == s.chain.evidence && o.recoveryPlan.value.execution == s.chain.execution
    case RequestSkills | SelectToolCategory =>
      Bare(o.(requestedSkills := [], selectedCategory := NoCategory)) && o.kind == ValidationResult && o.requestedSkills != []
    case AdvancePhase =>
      s.control.phase == Investigation && Bare(o.(nextPhase := NoPhase)) && o.kind == ValidationResult && o.nextPhase == Diagnosis
    case FinishInvestigation =>
      Bare(o.(termination := None)) && o.kind == ValidationResult && o.termination.Some?
      && FinishReason(s, o.termination.value)
    case UnknownTool => false
  }

  /** Every tool checks the budget flag before it does anything (agent/brain_tools.go:1409-1426). */
  predicate PermittedOutput(s: State, tool: Tool, o: Output) {
    Denied(o) || (!(s.control.budget.toolCallsExhausted && !ClosingTool(tool)) && ToolAnswer(s, tool, o))
  }

  function NewRevisions(outputs: seq<Output>): seq<Hypothesis> {
    if outputs == [] then [] else NewRevisions(outputs[..|outputs| - 1]) + outputs[|outputs| - 1].hypotheses
  }

  predicate UniqueIds(hypotheses: seq<Hypothesis>) {
    forall i, j :: 0 <= i < j < |hypotheses| ==> hypotheses[i].id != hypotheses[j].id
  }

  /** The tools all ran against the state before the batch, and each call has exactly one answer. */
  predicate Admissible(c: Config, i: Input) {
    c.node == ToolsNode ==>
      && |i.outputs| == |c.calls|
      && (forall k :: 0 <= k < |c.calls| ==> PermittedOutput(c.state, c.calls[k].tool, i.outputs[k]))
      && UniqueIds(NewRevisions(i.outputs))
  }

  // ---------------------------------------------------------------- one step

  /** agent/brain_state.go:584-613: a failed graph still gets a termination reason. */
  function FailGraph(s: State): Config {
    Config(GraphFailure, s.(control := s.control.(termination :=
      if s.control.termination.Some? then s.control.termination else Some(FatalInfrastructure))), [], [])
  }

  function At(node: Node, s: State): Config {
    Config(node, s, [], [])
  }

  function Continue(r: NodeResult, node: Node): Config {
    if r.Done? then At(node, r.state) else FailGraph(r.state)
  }

  function AfterTerminationRouter(s: State): Config {
    if s.control.termination.Some? then At(PermissionNode, s)
    else if s.control.pendingReflection.Some? then At(ReflectionRouter, s)
    else At(ContextBuilder, s)
  }

  function AfterReflectionRoute(s: State, r: Route): Config {
    if r == ToReflection then At(ReflectionContextBuilder, s) else At(TerminationRouterNode, s)
  }

  function AfterModel(s: State, answer: Option<Message>): Config {
    var r := RecordAnswer(s, answer);
    if r.Done? && answer.Some? then Config(ActionGateway, r.state, answer.value.calls, []) else FailGraph(r.state)
  }

  function Gate(s: State, calls: seq<ToolCall>): Config {
    Config(CategoryRouter, s.(control := s.control.(budget := GateBudget(s.control.budget))), GateCalls(s.control, calls), [])
  }

  function RouteCalls(s: State, calls: seq<ToolCall>): Config {
    if calls == [] then At(StructuredGuard, s)
    else if forall c :: c in calls ==> c.argumentsValid then Config(ToolsNode, s, calls, [])
    else Config(ArgumentGuard, s, calls, [])
  }

  function AfterPermission(r: NodeResult): Config {
    if r.Aborted? then FailGraph(r.state)
    else if r.state.incident.status == Proposing && r.state.incident.proposal.Some? then At(DryRunStage, r.state)
    else At(Finalizer, r.state)
  }

  function AfterDryRun(r: NodeResult): Config {
    if r.Aborted? then FailGraph(r.state)
    else if r.state.chain.dryRun.Some? && r.state.chain.dryRun.value.success && r.state.incident.proposal.Some?
    then At(ProposalValidator, r.state)
    else At(TerminationRouterNode, r.state)
  }

  function AfterValidator(r: NodeResult): Config {
    if r.Aborted? then FailGraph(r.state)
    else if r.state.incident.status == NeedsAttention then At(Finalizer, r.state)
    else At(ApprovalInterrupt, r.state)
  }

  function AfterApproval(r: NodeResult): Config {
    if r.Aborted? then FailGraph(r.state)
    else if r.state.incident.status in {Rejected, NeedsAttention} then At(Finalizer, r.state)
    else At(ActionExecutor, r.state)
  }

  function AfterExecutor(r: NodeResult): Config {
    if r.Aborted? then FailGraph(r.state)
    else if r.state.control.pendingReflection.Some? then At(TerminationRouterNode, r.state)
    else if r.state.incident.status != Verifying then At(Finalizer, r.state)
    else At(VerificationController, r.state)
  }

  function AfterVerification(r: NodeResult): Config {
    if r.Aborted? then FailGraph(r.state)
    else if r.state.control.pendingReflection.Some? then At(TerminationRouterNode, r.state)
    else At(Finalizer, r.state)
  }

  predicate Terminal(c: Config) {
    c.node in {Finished, GraphFailure}
  }

  /** The nodes of the Brain sub-graph. */
  predicate InBrain(n: Node) {
    n in {TerminationRouterNode, ContextBuilder, ReflectionContextBuilder, BrainModel, ReflectionUpdate, ActionGateway,
          CategoryRouter, ToolsNode, ArgumentGuard, StructuredGuard, ResultClassifier, ObservationNode, BeliefUpdateNode,
          BeliefCommitNode, ReflectionRouter}
  }

  /** One node of the Brain sub-graph; its end is the permission node of the outer graph. */
  function BrainNext(c: Config, i: Input): Config
    requires InBrain(c.node)
  {
    var s := c.state;
    match c.node
    case TerminationRouterNode => AfterTerminationRouter(TerminationRouter(s))
    case ContextBuilder => Continue(BuildContext(s, false, i.turn), BrainModel)
    case ReflectionContextBuilder => Continue(BuildContext(s, true, i.turn), ReflectionUpdate)
    case BrainModel | ReflectionUpdate => AfterModel(s, i.answer)
    case ActionGateway => Gate(s, c.calls)
    case CategoryRouter => RouteCalls(s, c.calls)
    case ToolsNode => Config(ResultClassifier, s, c.calls, i.outputs)
    case ArgumentGuard => At(ReflectionRouter, HandleInvalidArguments(s, c.calls))
    case StructuredGuard => At(ReflectionRouter, HandleUnstructured(s))
    case ResultClassifier => At(ObservationNode, ClassifyToolResults(s, c.outputs))
    case ObservationNode => At(BeliefUpdateNode, ObserveUpdate(s, i.ranked))
    case BeliefUpdateNode => At(BeliefCommitNode, BeliefUpdate(s))
    case BeliefCommitNode => Continue(BeliefCommit(s), ReflectionRouter)
    case ReflectionRouter => AfterReflectionRoute(ReflectionRoute(s).0, ReflectionRoute(s).1)
  }

  /** One node of the supervisor graph outside the Brain. */
  function OuterNext(c: Config, i: Input): Config
    requires !Terminal(c) && !InBrain(c.node)
  {
    var s := c.state;
    match c.node
    case IntakeNode => Continue(IncidentIntake(s), TerminationRouterNode)
    case PermissionNode => AfterPermission(RecoveryPermission(s, i.proposalId, i.now))
    case DryRunStage => AfterDryRun(DryRunNode(s, i.cluster))
    case ProposalValidator => AfterValidator(ValidateProposal(s))
    case ApprovalInterrupt => Continue(RequestApproval(s), ApprovalResume)
    case ApprovalResume => AfterApproval(ResumeApproval(s, i.resume))
    case ActionExecutor => AfterExecutor(ExecuteAction(s, i.result, i.now, i.later))
    case VerificationController => AfterVerification(VerificationNode(s, i.rounds))
    case Finalizer => At(Finished, s)
  }

  /** A fault (a cancelled context, an unavailable service) can fail the graph at any node. */
  function Next(c: Config, i: Input): Config
    requires !Terminal(c)
  {
    if i.fault then FailGraph(c.state) else if InBrain(c.node) then BrainNext(c, i) else OuterNext(c, i)
  }

  // ---------------------------------------------------------------- runs

  /** `trace` is a run: every step is the machine's answer to an admissible input. */
  ghost predicate IsRun(trace: seq<Config>, inputs: seq<Input>) {
    && |trace| == |inputs| + 1
    && (forall k :: 0 <= k < |inputs| ==>
          !Terminal(trace[k]) && Admissible(trace[k], inputs[k]) && trace[k + 1] == Next(trace[k], inputs[k]))
  }

  /** How a workflow attempt starts (agent/supervisor.go:822-836): received, nothing decided, no budget chosen yet. */
  predicate Initial(c: Config) {
    && c.node == IntakeNode && c.calls == [] && c.outputs == []
    && c.state.control == Control(NoPhase, NoPhase, NoCategory, {}, [], [], [],
                                  BudgetState(Limits(0, 0, 0, 0, 0), Usage(0, 0, 0, 0), false), [], None, None, None)
    && c.state.belief == Belief([], [], [], [], 0, [], 0)
    && c.state.chain == Chain(None, None, None, None, None, None, c.state.incident.execution)
    && c.state.incident.status == Received && c.state.incident.proposal.None? && c.state.incident.dryRun.None?
    && c.state.incident.context.None? && c.state.incident.audit.None?
    && c.state.verification == VerificationCount(0, 0)
  }
}
