/**
 What every node of the supervisor graph and of the Brain sub-graph does to the workflow
 state, as functions from the old state (and the node's outside input) to the new state.
 `Workflow.WorkflowState` performs the same nodes by updating its fields; `BrainLoop` and
 `RecoveryChain` prove properties of the machine these functions make up.
 */
module WorkflowSpec {
  import opened Domain
  import opened Text

  // ---------------------------------------------------------------- state

  datatype Control = Control(
    phase: Phase, resumePhase: Phase, category: Category, skillCategories: set<Category>, requestedSkills: seq<string>,
    turns: seq<string>, assistantTurns: seq<AssistantTurn>, budget: BudgetState, reflections: seq<Reflection>,
    pendingReflection: Option<Trigger>, pendingTermination: Option<TerminationReason>,
    termination: Option<TerminationReason>)

  datatype Belief = Belief(
    hypotheses: seq<Hypothesis>, admissions: seq<Admission>, groundings: seq<Grounding>,
    groundingDeltas: seq<GroundingDelta>, groundingCursor: nat, beliefDeltas: seq<BeliefDelta>, beliefCursor: nat)

  datatype Chain = Chain(
    diagnosis: Option<AgentDiagnosis>, plan: Option<RecoveryPlan>, permission: Option<bool>, dryRun: Option<DryRun>,
    context: Option<ExecutionContext>, evidence: Option<EvidenceSnapshot>, execution: Option<ExecutionSnapshot>)

  datatype Incident = Incident(
    id: string, namespace: string, resource: string, strategy: Strategy, status: Status, evidence: EvidenceStore,
    proposal: Option<Proposal>, dryRun: Option<DryRun>, context: Option<ExecutionContext>,
    execution: Option<ExecutionSnapshot>, audit: Option<InvestigationAudit>, recovery: RecoveryExecution)

  datatype VerificationCount = VerificationCount(consecutive: nat, attempts: nat)

  datatype State = State(control: Control, belief: Belief, chain: Chain, incident: Incident, verification: VerificationCount)

  /** A node either hands the state on or fails the whole graph. */
  datatype NodeResult = Done(state: State) | Aborted(state: State)

  // ---------------------------------------------------------------- budgets and routing helpers

  const DEFAULT_MAX_TURNS := 50

  const DEFAULT_LIMITS := Limits(DEFAULT_MAX_TURNS, 50, 4, 3, 16)

  predicate ToolBudgetExhausted(b: BudgetState) {
    b.limits.maxToolCalls > 0 && b.usage.toolCalls >= b.limits.maxToolCalls
  }

  predicate TurnBudgetExhausted(b: BudgetState) {
    b.limits.maxTurns > 0 && b.usage.turns >= b.limits.maxTurns
  }

  function ReflectionCost(t: Trigger): nat {
    match t
    case ToolFailure | ConstraintFailure => 1
    case RecoveryFailure | VerificationFailure => 3
    case _ => 2
  }

  function EffectiveCategory(c: Control): Category {
    match c.phase
    case Intake | Escalation | Verification => ControlTools
    case Planning | Diagnosis | Reflecting => ReasoningTools
    case Recovery => RecoveryTools
    case _ => if c.category == NoCategory then ReasoningTools else c.category
  }

  function DefaultCategory(p: Phase): Category {
    match p
    case Intake | Escalation | Verification => ControlTools
    case Recovery => RecoveryTools
    case _ => ReasoningTools
  }

  predicate CategoryAllowed(granted: set<Category>, wanted: Category) {
    wanted == ControlTools || wanted in granted
  }

  function EnterFinalization(c: Control, hasDiagnosis: bool): Control {
    var closed := c.(budget := c.budget.(toolCallsExhausted := true), pendingReflection := None, requestedSkills := []);
    if hasDiagnosis then closed.(phase := Escalation, category := ControlTools)
    else closed.(phase := Diagnosis, category := ReasoningTools)
  }

  /** The audit copies are refreshed only once an investigation exists. */
  function SyncAudit(s: State): State {
    if s.incident.audit.None? then s
    else s.(incident := s.incident.(audit := Some(InvestigationAudit(s.chain.diagnosis, s.chain.plan))))
  }

  // ---------------------------------------------------------------- tool calls and their outputs

  /** The registered Brain tools; any other name is answered by the unknown-tool handler. */
  datatype Tool =
    | QueryMetrics | SearchLogs | QueryTraces | InspectKubernetes | DiscoverResources
    | RetrieveIncidents | RetrieveRunbooks | RetrievePatterns
    | SubmitUnderstanding | SubmitPlan | RevisePlan | SubmitHypotheses | ReviseHypothesis | ValidateHypothesis
    | CompareHypotheses | CommitBeliefDelta | SubmitDiagnosis | ValidateDiagnosis | SubmitRecoveryPlan
    | RequestSkills | ReadSkillReference | SelectToolCategory | AdvancePhase | FinishInvestigation | UnknownTool

  datatype ToolCall = ToolCall(id: string, tool: Tool, argumentsValid: bool)

  datatype Message = Message(content: bool, calls: seq<ToolCall>)

  datatype Output = Output(
    kind: ResultClass, newInformation: bool, evidence: EvidenceStore, hypotheses: seq<Hypothesis>,
    admissions: seq<Admission>, grounding: Option<Grounding>, groundingDelta: Option<GroundingDelta>,
    beliefDelta: Option<BeliefDelta>, understanding: bool, investigationPlan: bool, diagnosis: Option<AgentDiagnosis>,
    diagnosisFinalized: bool, validation: Option<bool>, recoveryPlan: Option<RecoveryPlan>, requestedSkills: seq<string>,
    selectedCategory: Category, nextPhase: Phase, termination: Option<TerminationReason>)

  function MergeEvidence(left: EvidenceStore, right: EvidenceStore): EvidenceStore {
    (left + right) - {""}
  }

  function MarkParents(hypotheses: seq<Hypothesis>, child: Hypothesis): seq<Hypothesis> {
    if child.relation == Root then hypotheses
    else
      var retired := if child.relation == Merge then Merged else Replaced;
      seq(|hypotheses|, i requires 0 <= i < |hypotheses| =>
        if hypotheses[i].id in child.parents then hypotheses[i].(status := retired) else hypotheses[i])
  }

  function AddHypotheses(hypotheses: seq<Hypothesis>, added: seq<Hypothesis>): seq<Hypothesis>
    decreases |added|
  {
    if added == [] then hypotheses
    else AddHypotheses(MarkParents(hypotheses, added[0]) + [added[0]], added[1..])
  }

  function StatusForLevel(level: GroundingLevel): HypothesisStatus {
    match level
    case Grounded => Supported
    case RefutedLevel => Refuted
    case _ => Investigating
  }

  function MarkGrounded(hypotheses: seq<Hypothesis>, g: Grounding): seq<Hypothesis> {
    seq(|hypotheses|, i requires 0 <= i < |hypotheses| =>
      if hypotheses[i].id == g.hypothesisId
      then hypotheses[i].(status := StatusForLevel(g.level), validatedSnapshot := g.snapshot)
      else hypotheses[i])
  }

  function WithoutGrounding(items: seq<Grounding>, hypothesisId: string): seq<Grounding> {
    if items == [] then []
    else if items[0].hypothesisId == hypothesisId then WithoutGrounding(items[1..], hypothesisId)
    else [items[0]] + WithoutGrounding(items[1..], hypothesisId)
  }

  function ApplyBelief(b: Belief, o: Output): Belief {
    var hypotheses := AddHypotheses(b.hypotheses, o.hypotheses);
    b.(hypotheses := if o.grounding.Some? then MarkGrounded(hypotheses, o.grounding.value) else hypotheses,
       admissions := b.admissions + o.admissions,
       groundings := if o.grounding.Some?
                     then WithoutGrounding(b.groundings, o.grounding.value.hypothesisId) + [o.grounding.value]
                     else b.groundings,
       groundingDeltas := if o.groundingDelta.Some? then b.groundingDeltas + [o.groundingDelta.value] else b.groundingDeltas,
       beliefDeltas := if o.beliefDelta.Some? then b.beliefDeltas + [o.beliefDelta.value] else b.beliefDeltas)
  }

  /** A new recovery plan starts a new version chain: nothing of the old one survives it. */
  function ApplyChain(c: Chain, o: Output): Chain {
    var diagnosed := if o.diagnosis.Some? then c.(diagnosis := o.diagnosis) else c;
    if o.recoveryPlan.Some? then diagnosed.(permission := None, dryRun := None, plan := o.recoveryPlan) else diagnosed
  }

  function ApplyIncident(i: Incident, o: Output): Incident {
    var merged := if o.evidence != map[] then i.(evidence := MergeEvidence(i.evidence, o.evidence)) else i;
    if o.recoveryPlan.Some? then merged.(proposal := None, dryRun := None) else merged
  }

  function ApplyMilestones(c: Control, o: Output): Control {
    var c := if o.understanding then c.(phase := Planning, category := ReasoningTools) else c;
    var c := if o.investigationPlan then c.(phase := Investigation, category := ReasoningTools) else c;
    var c := if o.diagnosis.Some? && o.diagnosisFinalized
             then if o.diagnosis.value.provisional then c.(phase := Escalation, category := ControlTools)
                  else c.(phase := Recovery, category := RecoveryTools)
             else c;
    if o.validation == Some(false) then c.(pendingReflection := Some(GroundingFailure)) else c
  }

  function ApplySelections(c: Control, o: Output): Control {
    var c := if o.requestedSkills != [] then c.(requestedSkills := o.requestedSkills) else c;
    var c := if o.selectedCategory != NoCategory then c.(category := o.selectedCategory) else c;
    var c := if o.nextPhase != NoPhase then c.(phase := o.nextPhase, category := DefaultCategory(o.nextPhase)) else c;
    if o.termination.Some? then c.(termination := o.termination) else c
  }

  function ApplyPhases(c: Control, o: Output): Control {
    ApplySelections(ApplyMilestones(c, o), o)
  }

  function ApplyTrigger(c: Control, o: Output): Control {
    match o.kind
    case ConstraintResult => c.(pendingReflection := Some(ConstraintFailure))
    case ErrorResult => c.(pendingReflection := Some(ToolFailure))
    case EvidenceResult => if o.newInformation then c.(pendingReflection := Some(CriticalEvidence)) else c
    case ValidationResult =>
      if o.grounding.Some? && o.grounding.value.level == RefutedLevel
      then c.(pendingReflection := Some(HypothesisRefuted)) else c
    case StateChangeResult => c
  }

  function AcceptLastReflection(items: seq<Reflection>): seq<Reflection> {
    if items == [] then items else items[..|items| - 1] + [items[|items| - 1].(accepted := true)]
  }

  predicate ResolvesReflection(o: Output) {
    o.beliefDelta.Some? || o.hypotheses != [] || o.requestedSkills != []
  }

  function ResolveReflection(c: Control, o: Output): Control {
    if c.phase == Reflecting && ResolvesReflection(o) then
      c.(reflections := AcceptLastReflection(c.reflections), phase := c.resumePhase, resumePhase := NoPhase,
         pendingReflection := None,
         termination := if c.pendingTermination.Some? then c.pendingTermination else c.termination,
         pendingTermination := None)
    else c
  }

  function ApplyControl(c: Control, o: Output): Control {
    ResolveReflection(ApplyTrigger(ApplyPhases(c, o), o), o)
  }

  /** agent/brain_state.go:84-268 */
  function ApplyOutput(s: State, o: Output): State {
    s.(control := ApplyControl(s.control, o), belief := ApplyBelief(s.belief, o), chain := ApplyChain(s.chain, o),
       incident := ApplyIncident(s.incident, o))
  }

  function CountCall(b: BudgetState): BudgetState {
    if b.toolCallsExhausted then b else b.(usage := b.usage.(toolCalls := b.usage.toolCalls + 1))
  }

  /** One Tool message: count it, then apply it. */
  function ClassifyOne(s: State, o: Output): State {
    ApplyOutput(s.(control := s.control.(budget := CountCall(s.control.budget))), o)
  }

  function ClassifyAll(s: State, outputs: seq<Output>): State {
    if outputs == [] then s else ClassifyOne(ClassifyAll(s, outputs[..|outputs| - 1]), outputs[|outputs| - 1])
  }

  function ClassifyToolResults(s: State, outputs: seq<Output>): State {
    SyncAudit(ClassifyAll(s, outputs))
  }

  // ---------------------------------------------------------------- context, model and gateway

  /** What the context builder takes from outside: the resolved Skill bundle, a new turn ID, the live hashes. */
  datatype TurnInput = TurnInput(resolved: Option<set<Category>>, turnId: string, current: ExecutionSnapshot)

  function PrepareTurn(s: State, reflection: bool): Control {
    var c := s.control;
    var c := if c.budget.limits.maxTurns == 0 then c.(budget := BudgetState(DEFAULT_LIMITS, Usage(0, 0, 0, 0), false)) else c;
    var c := if c.phase == NoPhase then c.(phase := Intake, category := ControlTools) else c;
    var exhausted := ToolBudgetExhausted(c.budget);
    var c := if exhausted then EnterFinalization(c, s.chain.diagnosis.Some?) else c;
    if reflection && !exhausted then c.(resumePhase := if c.phase != Reflecting then c.phase else c.resumePhase, phase := Reflecting)
    else c
  }

  function AllocateTurn(c: Control, granted: set<Category>, turnId: string): Control {
    c.(skillCategories := granted,
       category := if CategoryAllowed(granted, c.category) then c.category else DefaultCategory(c.phase),
       turns := c.turns + [turnId],
       assistantTurns := c.assistantTurns + [AssistantTurn(turnId, false, false)],
       budget := c.budget.(usage := c.budget.usage.(turns := c.budget.usage.turns + 1)))
  }

  /** agent/brain_graph.go:289-391 */
  function BuildContext(s: State, reflection: bool, input: TurnInput): NodeResult {
    var s := if s.incident.audit.None?
             then s.(incident := s.incident.(audit := Some(InvestigationAudit(None, None)))) else s;
    var s := s.(control := PrepareTurn(s, reflection));
    if input.resolved.None? then Aborted(s)
    else
      var s := s.(control := AllocateTurn(s.control, input.resolved.value, input.turnId),
                  chain := s.chain.(evidence := Some(SnapshotOf(s.incident.evidence))));
      if s.chain.execution.Some? && s.chain.execution.value != input.current
      then Aborted(s.(control := s.control.(termination := Some(SafetyBlocked))))
      else Done(s.(chain := s.chain.(execution := Some(input.current)),
                   incident := s.incident.(execution := Some(input.current))))
  }

  /** The newest audit slot with the given turn ID, or -1. */
  function SlotOf(items: seq<AssistantTurn>, turnId: string): int
    ensures -1 <= SlotOf(items, turnId) < |items|
  {
    if items == [] then -1
    else if items[|items| - 1].turnId == turnId then |items| - 1
    else SlotOf(items[..|items| - 1], turnId)
  }

  function CurrentTurn(c: Control): string {
    if c.turns == [] then "" else c.turns[|c.turns| - 1]
  }

  /** A model answer only fills the audit slot the context builder allocated. */
  function RecordAnswer(s: State, answer: Option<Message>): NodeResult {
    var slot := SlotOf(s.control.assistantTurns, CurrentTurn(s.control));
    if answer.None? || slot < 0 then Aborted(s)
    else Done(s.(control := s.control.(assistantTurns :=
      s.control.assistantTurns[slot := AssistantTurn(CurrentTurn(s.control), answer.value.content, answer.value.calls != [])])))
  }

  function Truncate(calls: seq<ToolCall>, limit: nat): seq<ToolCall> {
    if |calls| > limit then calls[..limit] else calls
  }

  /** agent/brain_graph.go:394-419 */
  function GateCalls(c: Control, calls: seq<ToolCall>): seq<ToolCall> {
    var read := if EffectiveCategory(c) == EvidenceTools then Truncate(calls, c.budget.limits.maxParallelReadTools) else calls;
    if c.budget.usage.toolCalls < c.budget.limits.maxToolCalls
    then Truncate(read, c.budget.limits.maxToolCalls - c.budget.usage.toolCalls)
    else Truncate(read, 1)
  }

  function GateBudget(b: BudgetState): BudgetState {
    if b.usage.toolCalls < b.limits.maxToolCalls then b else b.(toolCallsExhausted := true)
  }

  // ---------------------------------------------------------------- after the tools

  function InvalidateStale(hypotheses: seq<Hypothesis>, snapshot: EvidenceSnapshot): seq<Hypothesis> {
    seq(|hypotheses|, i requires 0 <= i < |hypotheses| =>
      if hypotheses[i].status == Supported && hypotheses[i].validatedSnapshot != Some(snapshot)
      then hypotheses[i].(status := Investigating) else hypotheses[i])
  }

  /** agent/brain_state.go:301-344; `ranked` is the ranking service's answer, when it gives one. */
  function ObserveUpdate(s: State, ranked: Option<EvidenceStore>): State {
    var previous := s.chain.evidence;
    var s := if ranked.Some? && s.incident.evidence != map[]
             then s.(incident := s.incident.(evidence := MergeEvidence(s.incident.evidence, ranked.value))) else s;
    var current := SnapshotOf(s.incident.evidence);
    var s := s.(chain := s.chain.(evidence := Some(current)));
    if previous.None? || previous == Some(current) then SyncAudit(s)
    else
      var s := s.(belief := s.belief.(hypotheses := InvalidateStale(s.belief.hypotheses, current)));
      if s.chain.diagnosis.Some? && s.chain.diagnosis.value.evidence != Some(current) then
        SyncAudit(s.(chain := s.chain.(diagnosis := Some(s.chain.diagnosis.value.(provisional := true)), plan := None,
                                       dryRun := None),
                     incident := s.incident.(proposal := None, dryRun := None)))
      else SyncAudit(s)
  }

  function BeliefUpdate(s: State): State {
    if s.belief.groundingCursor < |s.belief.groundingDeltas| then
      var delta := s.belief.groundingDeltas[|s.belief.groundingDeltas| - 1];
      s.(belief := s.belief.(groundingCursor := |s.belief.groundingDeltas|),
         control := if delta.suggestedRevision then s.control.(pendingReflection := Some(GroundingFailure))
                    else if delta.conflict then s.control.(pendingReflection := Some(CandidateConflict))
                    else s.control)
    else s
  }

  /** The first revision with the given ID, or -1. */
  function IndexOf(hypotheses: seq<Hypothesis>, id: string): (index: int)
    ensures -1 <= index < |hypotheses|
    ensures index >= 0 ==> hypotheses[index].id == id
  {
    if hypotheses == [] then -1
    else if hypotheses[0].id == id then 0
    else var rest := IndexOf(hypotheses[1..], id); if rest < 0 then -1 else rest + 1
  }

  /** internal/brainruntime/runtime.go:429-459 */
  predicate CommitAccepted(h: Hypothesis, d: BeliefDelta) {
    d.hypothesisId == h.id && 0.0 <= d.updated <= 1.0 && d.previous == h.confidence && d.updated != d.previous
    && (d.direction == Increase ==> d.updated > d.previous) && (d.direction == Decrease ==> d.updated < d.previous)
    && !d.revisionRequired
  }

  /** agent/brain_state.go:364-393 */
  function BeliefCommit(s: State): NodeResult
    decreases |s.belief.beliefDeltas| - s.belief.beliefCursor
  {
    var b := s.belief;
    if b.beliefCursor >= |b.beliefDeltas| then Done(SyncAudit(s))
    else
      var d := b.beliefDeltas[b.beliefCursor];
      var next := s.(belief := b.(beliefCursor := b.beliefCursor + 1));
      if !d.committed then BeliefCommit(next)
      else
        var i := IndexOf(b.hypotheses, d.hypothesisId);
        if i < 0 || !CommitAccepted(b.hypotheses[i], d) then Aborted(s)
        else BeliefCommit(next.(belief := next.belief.(hypotheses :=
               b.hypotheses[i := b.hypotheses[i].(confidence := d.updated)])))
  }

  /** Grant one more corrective retry or end the run. */
  function Correct(c: Control): Control {
    if c.budget.usage.structuredCorrections >= c.budget.limits.maxStructuredCorrections
    then c.(termination := Some(BudgetExhausted))
    else c.(budget := c.budget.(usage := c.budget.usage.(structuredCorrections := c.budget.usage.structuredCorrections + 1)))
  }

  function HandleUnstructured(s: State): State {
    SyncAudit(s.(control := Correct(s.control)))
  }

  function CountCalls(b: BudgetState, calls: nat): BudgetState {
    if calls == 0 then b else CountCall(CountCalls(b, calls - 1))
  }

  /** agent/brain_state.go:461-537: the whole batch is rejected, every call is counted. */
  function HandleInvalidArguments(s: State, calls: seq<ToolCall>): State {
    if calls == [] then HandleUnstructured(s)
    else
      var counted := s.control.(budget := CountCalls(s.control.budget, |calls|));
      SyncAudit(s.(control := Correct(counted).(pendingReflection := None)))
  }

  // ---------------------------------------------------------------- routers

  function TerminationRouter(s: State): State {
    var s := if s.control.termination.None? && TurnBudgetExhausted(s.control.budget)
             then s.(control := s.control.(termination := Some(BudgetExhausted))) else s;
    if s.control.termination.Some? then SyncAudit(s) else s
  }

  datatype Route = ToTermination | ToReflection

  /** agent/brain_graph.go:421-466 */
  function ReflectionRoute(s: State): (State, Route) {
    var c := s.control;
    if c.termination.None? && TurnBudgetExhausted(c.budget) then
      (s.(control := c.(termination := Some(BudgetExhausted), pendingReflection := None)), ToTermination)
    else if c.termination.None? && ToolBudgetExhausted(c.budget) then
      (s.(control := EnterFinalization(c, s.chain.diagnosis.Some?)), ToTermination)
    else if c.pendingReflection.Some? && c.termination.None? then
      var trigger := c.pendingReflection.value;
      var cost := ReflectionCost(trigger);
      if s.incident.strategy == KubePilotNoReflection then
        (s.(control := c.(pendingReflection := None)), ToTermination)
      else if c.budget.usage.reflectionCost + cost <= c.budget.limits.maxReflectionCost then
        (s.(control := c.(budget := c.budget.(usage := c.budget.usage.(reflectionCost := c.budget.usage.reflectionCost + cost)),
                          reflections := c.reflections + [Reflection(trigger, cost, false)])), ToReflection)
      else
        (s.(control := c.(termination := if trigger in {RecoveryFailure, VerificationFailure} then Some(SafetyBlocked) else None,
                          pendingReflection := None)), ToTermination)
    else (s, ToTermination)
  }

  // ---------------------------------------------------------------- recovery permission

  function FindGrounding(items: seq<Grounding>, hypothesisId: string): Option<Grounding> {
    if items == [] then None
    else if items[|items| - 1].hypothesisId == hypothesisId then Some(items[|items| - 1])
    else FindGrounding(items[..|items| - 1], hypothesisId)
  }

  function FindHypothesis(items: seq<Hypothesis>, id: string): Option<Hypothesis> {
    if items == [] then None
    else if items[|items| - 1].id == id then Some(items[|items| - 1])
    else FindHypothesis(items[..|items| - 1], id)
  }

  function FindAdmission(items: seq<Admission>, hypothesisId: string): Option<Admission> {
    if items == [] then None
    else if items[|items| - 1].hypothesisId == hypothesisId then Some(items[|items| - 1])
    else FindAdmission(items[..|items| - 1], hypothesisId)
  }

  predicate AdmittedRevision(admissions: seq<Admission>, hypothesisId: string) {
    var a := FindAdmission(admissions, hypothesisId);
    a.Some? && a.value.admitted
  }

  predicate SupportedByKubernetes(supporting: seq<string>, evidence: EvidenceStore) {
    exists id :: id in supporting && id in evidence && EqualFold(evidence[id].source, "kubernetes")
  }

  function StrongestRival(items: seq<Grounding>, hypothesisId: string): real {
    if items == [] then 0.0
    else
      var rest := StrongestRival(items[..|items| - 1], hypothesisId);
      var last := items[|items| - 1];
      if last.hypothesisId != hypothesisId && last.support > rest then last.support else rest
  }

  function AdmittedGroundings(items: seq<Grounding>, admissions: seq<Admission>): nat {
    if items == [] then 0
    else AdmittedGroundings(items[..|items| - 1], admissions)
         + if AdmittedRevision(admissions, items[|items| - 1].hypothesisId) then 1 else 0
  }

  /** internal/brainruntime/runtime.go:461-494 */
  predicate RecoveryAllowed(d: AgentDiagnosis, selected: Hypothesis, g: Grounding, all: seq<Grounding>,
                            execution: Option<ExecutionSnapshot>, kubernetes: bool, separation: real, validated: nat)
  {
    && !d.provisional
    && g.level == Grounded
    && g.support >= 0.65
    && g.contradictionRatio <= 0.10
    && g.needCoverage >= 0.80 && g.targetCoverage == 1.0 && g.temporalCoverage >= 0.80
    && (g.causalApplicable ==> g.causalCoverage == 1.0)
    && g.sourceCount >= 2 && kubernetes
    && separation >= 0.15
    && validated >= 2 && |all| >= 2
    && d.hypothesisId == selected.id && d.evidence == g.snapshot && d.execution == execution
    && selected.validatedSnapshot == g.snapshot
  }

  /** A grounded decision: what must hold of a diagnosis before a plan for it may be proposed. */
  predicate GroundedDecision(s: State) {
    && s.chain.diagnosis.Some?
    && var d := s.chain.diagnosis.value;
    && var g := FindGrounding(s.belief.groundings, d.hypothesisId);
    && var h := FindHypothesis(s.belief.hypotheses, d.hypothesisId);
    && g.Some? && h.Some?
    && RecoveryAllowed(d, h.value, g.value, s.belief.groundings, s.chain.execution,
                       SupportedByKubernetes(g.value.supporting, s.incident.evidence),
                       g.value.support - StrongestRival(s.belief.groundings, g.value.hypothesisId),
                       AdmittedGroundings(s.belief.groundings, s.belief.admissions))
    && var a := FindAdmission(s.belief.admissions, h.value.id);
    && a.Some? && a.value.admitted && a.value.resolved
  }

  function CanonicalTarget(target: string, namespace: string, resource: string): Option<string> {
    if target == "" || target == resource then Some(resource)
    else if '/' !in namespace && '/' !in resource && target == namespace + "/" + resource then Some(resource)
    else None
  }

  /** agent/brain_recovery.go:154-172 */
  function FinishWithoutRecovery(s: State): NodeResult {
    var s := if s.control.termination.Some? && s.control.termination != Some(DiagnosisConfident) then s
             else s.(control := s.control.(termination :=
                    Some(if s.chain.diagnosis.Some? && s.chain.diagnosis.value.provisional then DiagnosisProvisional else SafetyBlocked)));
    var status := s.incident.status;
    if status == NeedsAttention then Done(s)
    else
      var status := if status == Collecting then Diagnosing else status;
      if TransitionAccepted(status, NeedsAttention)
      then Done(s.(incident := s.incident.(status := NeedsAttention)))
      else Aborted(s.(incident := s.incident.(status := status)))
  }

  function ProposalFor(plan: RecoveryPlan, target: string, namespace: string, id: string, now: int): Proposal {
    Proposal(id, plan.action, namespace, target, plan.parameters, "", "", now + 300)
  }

  predicate PlanMatches(s: State, plan: RecoveryPlan, d: AgentDiagnosis) {
    plan.execution == s.chain.execution && plan.evidence == s.chain.evidence && plan.diagnosisVersion == d.id
  }

  /** agent/brain_recovery.go:15-84 */
  function RecoveryPermission(s: State, proposalId: string, now: int): NodeResult {
    if s.chain.diagnosis.None? then FinishWithoutRecovery(s)
    else
      var d := s.chain.diagnosis.value;
      if FindGrounding(s.belief.groundings, d.hypothesisId).None? || FindHypothesis(s.belief.hypotheses, d.hypothesisId).None?
      then FinishWithoutRecovery(s)
      else
        var allowed := GroundedDecision(s);
        var s := s.(chain := s.chain.(permission := Some(allowed)));
        if !allowed || s.chain.plan.None? then FinishWithoutRecovery(s)
        else
          var plan := s.chain.plan.value;
          var target := CanonicalTarget(plan.target, s.incident.namespace, s.incident.resource);
          if !PlanMatches(s, plan, d) || target.None? || plan.action.Unregistered? then FinishWithoutRecovery(s)
          else
            var s := s.(incident := s.incident.(proposal :=
                       Some(ProposalFor(plan, target.value, s.incident.namespace, proposalId, now))));
            var status := if s.incident.status == Collecting then Diagnosing else s.incident.status;
            if TransitionAccepted(status, Proposing) then Done(s.(incident := s.incident.(status := Proposing)))
            else Aborted(s.(incident := s.incident.(status := status)))
  }

  // ---------------------------------------------------------------- dry run, validation, approval

  /** The cluster's answers to one dry run; None stands for an error. */
  datatype Cluster = Cluster(target: Option<(string, string)>, dryRunSupported: bool, after: Option<string>, stamp: string, now: int)

  predicate ReplicasAccepted(p: Parameters) {
    p.replicas.Some? && 1 <= p.replicas.value <= 10
  }

  function StampParameters(p: Proposal, stamp: string): Proposal {
    if p.action == RestartPod then p.(parameters := p.parameters.(restartedAt := Some(stamp))) else p
  }

  /** agent/recovery.go:61-98: the proposal is completed in place, the result describes it. */
  function DryRunProposal(p: Proposal, k: Cluster): (Proposal, DryRun) {
    var failed := DryRun(false, p.action, p.target, "", None, k.now);
    if k.target.None? then (p, failed)
    else
      var p := p.(uid := k.target.value.0, resourceVersion := k.target.value.1);
      if !k.dryRunSupported then (p, failed)
      else
        var p := StampParameters(p, k.stamp);
        var rejected := p.action.Unregistered? || (p.action == ScaleDeployment && !ReplicasAccepted(p.parameters));
        if rejected || k.after.None? then (p, failed)
        else (p, DryRun(true, p.action, p.target, k.after.value, MutationHash(p, k.after.value), k.now))
  }

  /** agent/brain_recovery.go:86-115 */
  function DryRunNode(s: State, k: Cluster): NodeResult {
    var (proposal, result) := if s.incident.proposal.None? then (None, DryRun(false, Unregistered(""), "", "", None, 0))
                              else var (p, r) := DryRunProposal(s.incident.proposal.value, k); (Some(p), r);
    var s := s.(chain := s.chain.(dryRun := Some(result)), incident := s.incident.(proposal := proposal, dryRun := Some(result)));
    if result.success then Done(s)
    else
      var s := s.(control := s.control.(pendingReflection := Some(RecoveryFailure), termination := None, phase := Recovery,
                                        category := RecoveryTools),
                  chain := s.chain.(plan := None, permission := None), incident := s.incident.(proposal := None));
      if s.incident.status == Proposing then Done(s.(incident := s.incident.(status := Diagnosing))) else Done(s)
  }

  /** agent/supervisor.go:211-224 */
  function ValidateProposal(s: State): NodeResult {
    if s.incident.status == NeedsAttention then Done(s)
    else if s.incident.status != Proposing || s.incident.proposal.None? || s.chain.dryRun.None? || !s.chain.dryRun.value.success
            || s.incident.dryRun.None? || s.incident.dryRun.value.mutationHash != s.chain.dryRun.value.mutationHash
    then if TransitionAccepted(s.incident.status, NeedsAttention)
         then Done(s.(incident := s.incident.(status := NeedsAttention))) else Aborted(s)
    else Done(s)
  }

  /** agent/supervisor.go:710-721, up to the interrupt */
  function RequestApproval(s: State): NodeResult {
    if TransitionAccepted(s.incident.status, AwaitingApproval)
    then Done(s.(incident := s.incident.(status := AwaitingApproval))) else Aborted(s)
  }

  /** The fallbacks of agent/supervisor.go:775-790, with the audit copies standing in for missing fields. */
  function ContextMatches(e: ExecutionContext, incident: Incident, proposal: Proposal, dryRun: DryRun,
                          diagnosis: Option<AgentDiagnosis>, plan: Option<RecoveryPlan>, execution: Option<ExecutionSnapshot>,
                          evidence: Option<EvidenceSnapshot>, now: int): bool
  {
    var diagnosis := if diagnosis.None? && incident.audit.Some? then incident.audit.value.diagnosis else diagnosis;
    var plan := if plan.None? && incident.audit.Some? then incident.audit.value.plan else plan;
    var execution := if execution.None? then incident.execution else execution;
    var evidence := if evidence.None? && plan.Some? then plan.value.evidence else evidence;
    && e.incidentId == incident.id && e.proposalId == proposal.id && e.mutationHash == dryRun.mutationHash
    && e.uid == proposal.uid && e.resourceVersion == proposal.resourceVersion
    && diagnosis.Some? && plan.Some?
    && e.planId == plan.value.id && e.diagnosisVersion == diagnosis.value.id && e.diagnosisVersion == plan.value.diagnosisVersion
    && e.evidence == evidence && e.evidence == plan.value.evidence
    && e.execution.Some? && e.execution == execution && e.execution == plan.value.execution
    && e.dryRunValidatedAt != 0 && e.dryRunValidatedAt == dryRun.validatedAt
    && e.approvalId != "" && e.idempotencyKey != "" && now <= e.expiresAt
    && incident.namespace in e.namespaces
  }

  /** agent/supervisor.go:764-817, over the workflow state */
  predicate ContextValid(s: State, now: int) {
    && s.chain.context.Some? && s.incident.proposal.Some? && s.chain.dryRun.Some?
    && ContextMatches(s.chain.context.value, s.incident, s.incident.proposal.value, s.chain.dryRun.value, s.chain.diagnosis,
                      s.chain.plan, s.chain.execution, s.chain.evidence, now)
  }

  /** The same check as the action capability makes it, with nothing but the incident (agent/supervisor.go:117-119). */
  predicate IncidentContextValid(i: Incident, now: int) {
    && i.context.Some? && i.proposal.Some? && i.dryRun.Some?
    && ContextMatches(i.context.value, i, i.proposal.value, i.dryRun.value, None, None, None, None, now)
  }

  datatype Resume = Resume(approved: bool, context: ExecutionContext, now: int)

  /** agent/supervisor.go:722-756, after the interrupt */
  function ResumeApproval(s: State, r: Resume): NodeResult {
    if !r.approved then
      var s := s.(control := s.control.(termination := Some(ApprovalRejected)));
      if TransitionAccepted(s.incident.status, Rejected) then Done(s.(incident := s.incident.(status := Rejected))) else Aborted(s)
    else
      var s := s.(chain := s.chain.(context := Some(r.context)), incident := s.incident.(context := Some(r.context)));
      if !ContextValid(s, r.now) then
        var s := s.(control := s.control.(termination := Some(SafetyBlocked)));
        if TransitionAccepted(s.incident.status, NeedsAttention)
        then Done(s.(incident := s.incident.(status := NeedsAttention))) else Aborted(s)
      else if TransitionAccepted(s.incident.status, Recovering)
      then Done(s.(incident := s.incident.(status := Recovering))) else Aborted(s)
  }

  // ---------------------------------------------------------------- execution and verification

  /** The guarded executor's answer once the capability's own check has passed (see GuardedAction). */
  datatype ExecuteResult = Confirmed | ResultUnknown | Refused

  predicate ReflectionAvailable(s: State, t: Trigger) {
    && s.incident.strategy != KubePilotNoReflection
    && s.control.budget.usage.reflectionCost + ReflectionCost(t) <= s.control.budget.limits.maxReflectionCost
  }

  /** Send the state back to the Brain, remembering how the run must end. */
  function ReflectOnFailure(c: Control, t: Trigger): Control {
    c.(pendingReflection := Some(t), pendingTermination := Some(RecoveryFailedReason), phase := Reflecting,
       resumePhase := Escalation, termination := None)
  }

  predicate MutationAuthorized(s: State, now: int, later: int) {
    ContextValid(s, now) && IncidentContextValid(s.incident, later)
  }

  /** agent/supervisor.go:230-284 */
  function ExecuteAction(s: State, result: ExecuteResult, now: int, later: int): NodeResult {
    if !ContextValid(s, now) then Done(s.(incident := s.incident.(status := AfterTransition(s.incident.status, NeedsAttention))))
    else
      var r := s.incident.recovery;
      var attempted := s.(incident := s.incident.(recovery := r.(attempts := r.attempts + 1, outcome := Attempting)));
      var outcome := if !IncidentContextValid(s.incident, later) then Refused else result;
      match outcome
      case Confirmed =>
        var s := attempted.(incident := attempted.incident.(recovery :=
                   attempted.incident.recovery.(confirmedMutations := r.confirmedMutations + 1, outcome := Succeeded)));
        if TransitionAccepted(s.incident.status, Verifying)
        then Done(s.(incident := s.incident.(status := Verifying))) else Aborted(s)
      case ResultUnknown =>
        Done(attempted.(incident := attempted.incident.(recovery := attempted.incident.recovery.(outcome := UnknownOutcome),
                                                        status := AfterTransition(s.incident.status, NeedsAttention)),
                        control := s.control.(termination := Some(OutcomeUnknown))))
      case Refused =>
        Done(attempted.(incident := attempted.incident.(recovery := attempted.incident.recovery.(outcome := Failed),
                                                        status := AfterTransition(s.incident.status, Status.RecoveryFailed)),
                        control := if ReflectionAvailable(s, RecoveryFailure) then ReflectOnFailure(s.control, RecoveryFailure)
                                   else s.control.(termination := Some(RecoveryFailedReason))))
  }

  /** One verification round: its combined checks, the restart counter, and the time left after it. */
  datatype Round = Round(success: bool, restarts: Option<int>, remaining: int)

  datatype Verdict = VerdictResolved | VerdictFailed | VerdictCancelled

  /** agent/supervisor.go:401-475; the workflow context ends when no further round comes. */
  function Verify(rounds: seq<Round>, previous: Option<int>, count: VerificationCount): (Verdict, VerificationCount) {
    if rounds == [] then (VerdictCancelled, count)
    else
      var r := rounds[0];
      var stable := r.restarts.None? || previous.None? || r.restarts.value <= previous.value;
      var count := VerificationCount(if r.success && stable then count.consecutive + 1 else 0, count.attempts + 1);
      if count.consecutive >= 3 then (VerdictResolved, count)
      else if r.remaining <= 0 then (VerdictFailed, count)
      else Verify(rounds[1..], if r.restarts.Some? then r.restarts else previous, count)
  }

  function VerificationNode(s: State, rounds: seq<Round>): NodeResult {
    var (verdict, count) := Verify(rounds, None, s.verification);
    var s := s.(verification := count);
    match verdict
    case VerdictResolved =>
      if TransitionAccepted(s.incident.status, Resolved)
      then Done(s.(incident := s.incident.(status := Resolved), control := s.control.(termination := Some(RecoverySucceeded))))
      else Aborted(s)
    case VerdictFailed =>
      if !TransitionAccepted(s.incident.status, Status.RecoveryFailed) then Aborted(s)
      else Done(s.(incident := s.incident.(status := Status.RecoveryFailed),
                   control := if ReflectionAvailable(s, VerificationFailure) then ReflectOnFailure(s.control, VerificationFailure)
                              else s.control.(termination := Some(RecoveryFailedReason))))
    case VerdictCancelled => Aborted(s)
  }

  /** agent/supervisor.go:180-200 */
  function IncidentIntake(s: State): NodeResult {
    if !TransitionAccepted(s.incident.status, Correlating) then Aborted(s)
    else if !TransitionAccepted(Correlating, Collecting) then Aborted(s.(incident := s.incident.(status := Correlating)))
    else Done(s.(incident := s.incident.(status := Collecting)))
  }
}
