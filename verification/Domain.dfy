/**
 The values the incident workflow passes around (internal/domain/brain.go and
 internal/domain/incident.go), reduced to the fields that decide control flow,
 budgets, beliefs and the recovery version chain.

 A hash is modelled by the value that is hashed, that is, by an injective function.
 The zero string of a hash or a snapshot is modelled by None, and times are integers
 with 0 for the zero time.
 */
module Domain {

  datatype Option<+T> = None | Some(value: T)

  // ---------------------------------------------------------------- incident status

  datatype Status =
    | Received | Correlating | Collecting | Diagnosing | Proposing | AwaitingApproval | Recovering
    | Verifying | Resolved | NeedsAttention | Rejected | RecoveryFailed | Cancelled

  /** The status table. */
  predicate CanTransition(from: Status, to: Status) {
    match from
    case Received => to in {Correlating, NeedsAttention, Cancelled}
    case Correlating => to in {Collecting, NeedsAttention, Cancelled}
    case Collecting => to in {Diagnosing, NeedsAttention, Cancelled}
    case Diagnosing => to in {Collecting, Proposing, NeedsAttention, Cancelled}
    case Proposing => to in {Diagnosing, AwaitingApproval, NeedsAttention, Cancelled}
    case AwaitingApproval => to in {Recovering, NeedsAttention, Rejected, Cancelled}
    case Recovering => to in {Verifying, NeedsAttention, RecoveryFailed}
    case Verifying => to in {Resolved, NeedsAttention, RecoveryFailed}
    case NeedsAttention => to == Received
    case RecoveryFailed => to == Received
    case _ => false
  }

  /** Moving to the current status is always accepted and does nothing. */
  predicate TransitionAccepted(from: Status, to: Status) {
    from == to || CanTransition(from, to)
  }

  /** The status after an attempted transition whose error the caller ignores. */
  function AfterTransition(from: Status, to: Status): Status {
    if TransitionAccepted(from, to) then to else from
  }

  // ---------------------------------------------------------------- Brain vocabulary

  datatype Phase =
    | NoPhase | Intake | Planning | Investigation | Reflecting | Diagnosis | Recovery | Verification | Escalation

  datatype Category = NoCategory | EvidenceTools | RetrievalTools | ReasoningTools | RecoveryTools | ControlTools

  datatype ResultClass = EvidenceResult | ValidationResult | ConstraintResult | ErrorResult | StateChangeResult

  datatype Trigger =
    | CriticalEvidence | HypothesisRefuted | CandidateConflict | ToolFailure | ConstraintFailure
    | GroundingFailure | RecoveryFailure | VerificationFailure

  datatype TerminationReason =
    | DiagnosisConfident | DiagnosisProvisional | EvidenceSaturated | BudgetExhausted | HumanEscalation
    | SafetyBlocked | ApprovalRejected | RecoverySucceeded | RecoveryFailedReason | OutcomeUnknown | FatalInfrastructure

  /** The three methods the Brain runtime accepts; the ablations disable one path each. */
  datatype Strategy = KubePilot | KubePilotNoReflection | KubePilotNoOptionalSkills

  datatype Limits = Limits(
    maxTurns: nat, maxToolCalls: nat, maxParallelReadTools: nat, maxStructuredCorrections: nat, maxReflectionCost: nat)

  datatype Usage = Usage(turns: nat, toolCalls: nat, structuredCorrections: nat, reflectionCost: nat)

  datatype BudgetState = BudgetState(limits: Limits, usage: Usage, toolCallsExhausted: bool)

  datatype AssistantTurn = AssistantTurn(turnId: string, contentPresent: bool, toolCallPresent: bool)

  datatype Reflection = Reflection(trigger: Trigger, cost: nat, accepted: bool)

  // ---------------------------------------------------------------- evidence and beliefs

  datatype Evidence = Evidence(source: string, facts: string, score: real)

  type EvidenceStore = map<string, Evidence>

  /** What the evidence snapshot hash covers: identity, source and facts, but no derived score. */
  type EvidenceSnapshot = map<string, (string, string)>

  function SnapshotOf(evidence: EvidenceStore): EvidenceSnapshot {
    map id | id in evidence :: (evidence[id].source, evidence[id].facts)
  }

  datatype ExecutionSnapshot = ExecutionSnapshot(skillHash: string, modelHash: string, toolHash: string, policyHash: string)

  datatype HypothesisStatus = Proposed | Admitted | Investigating | Supported | Refuted | Merged | Replaced

  datatype Relation = Root | Refine | Replace | Split | Merge

  datatype Hypothesis = Hypothesis(
    id: string, lineage: string, version: nat, parents: seq<string>, relation: Relation, confidence: real,
    status: HypothesisStatus, validatedSnapshot: Option<EvidenceSnapshot>)

  datatype Admission = Admission(hypothesisId: string, admitted: bool, resolved: bool)

  datatype GroundingLevel = Grounded | PartiallyGrounded | RefutedLevel | UnknownLevel

  datatype Grounding = Grounding(
    id: string, hypothesisId: string, level: GroundingLevel, supporting: seq<string>, support: real,
    contradictionRatio: real, sourceCount: nat, needCoverage: real, causalCoverage: real, targetCoverage: real,
    temporalCoverage: real, causalApplicable: bool, snapshot: Option<EvidenceSnapshot>)

  datatype GroundingDelta = GroundingDelta(suggestedRevision: bool, conflict: bool)

  datatype Direction = Increase | Decrease

  datatype BeliefDelta = BeliefDelta(
    hypothesisId: string, previous: real, updated: real, direction: Direction, revisionRequired: bool, committed: bool)

  // ---------------------------------------------------------------- the recovery version chain

  datatype AgentDiagnosis = AgentDiagnosis(
    id: string, hypothesisId: string, evidence: Option<EvidenceSnapshot>, execution: Option<ExecutionSnapshot>,
    provisional: bool)

  datatype Action = RestartPod | ScaleDeployment | RollbackDeployment | Unregistered(name: string)

  datatype Parameters = Parameters(restartedAt: Option<string>, replicas: Option<int>)

  datatype RecoveryPlan = RecoveryPlan(
    id: string, action: Action, target: string, parameters: Parameters, diagnosisVersion: string,
    evidence: Option<EvidenceSnapshot>, execution: Option<ExecutionSnapshot>)

  datatype Proposal = Proposal(
    id: string, action: Action, namespace: string, target: string, parameters: Parameters, uid: string,
    resourceVersion: string, expiresAt: int)

  /** Everything `proposalMutationHash` hashes (agent/recovery.go:100-115). */
  datatype MutationSpec = MutationSpec(
    action: Action, namespace: string, target: string, uid: string, resourceVersion: string, parameters: Parameters,
    after: string)

  function MutationHash(p: Proposal, after: string): Option<MutationSpec> {
    Some(MutationSpec(p.action, p.namespace, p.target, p.uid, p.resourceVersion, p.parameters, after))
  }

  datatype DryRun = DryRun(
    success: bool, action: Action, target: string, after: string, mutationHash: Option<MutationSpec>, validatedAt: int)

  datatype ExecutionContext = ExecutionContext(
    namespaces: seq<string>, incidentId: string, proposalId: string, planId: string, diagnosisVersion: string,
    evidence: Option<EvidenceSnapshot>, execution: Option<ExecutionSnapshot>, approvalId: string, idempotencyKey: string,
    uid: string, resourceVersion: string, mutationHash: Option<MutationSpec>, dryRunValidatedAt: int, expiresAt: int)

  datatype Outcome = NotAttempted | Attempting | Succeeded | Failed | UnknownOutcome

  datatype RecoveryExecution = RecoveryExecution(attempts: nat, confirmedMutations: nat, outcome: Outcome)

  /** The audit projection keeps its own copies of the diagnosis and of the plan. */
  datatype InvestigationAudit = InvestigationAudit(diagnosis: Option<AgentDiagnosis>, plan: Option<RecoveryPlan>)
}
