/**
 Safety of the recovery chain over whole runs: what is executed is what was dry-run and
 approved, one version chain from diagnosis to approval, and at most one execution in a
 workflow attempt (agent/supervisor.go:201-284, 307-377, 710-817;
 agent/brain_recovery.go:15-172; agent/recovery.go:61-115; internal/domain/incident.go:1034-1069).
 */
module RecoveryChain {
  import opened Domain
  import opened WorkflowSpec
  import opened WorkflowGraph
  import opened NodeFrames
  import opened BrainLoop
  import opened BrainBudgets

  // ---------------------------------------------------------------- one version chain

  predicate RegisteredAction(p: Proposal) {
    !p.action.Unregistered? && (p.action == ScaleDeployment ==> ReplicasAccepted(p.parameters))
  }

  /** A grounded final diagnosis, a plan made for exactly this diagnosis and these snapshots, a proposal made from the plan. */
  predicate ProposalMade(s: State) {
    && s.chain.diagnosis.Some? && s.chain.plan.Some? && s.incident.proposal.Some?
    && GroundedDecision(s) && s.chain.permission == Some(true)
    && PlanMatches(s, s.chain.plan.value, s.chain.diagnosis.value)
    && var p := s.incident.proposal.value;
    && p.action == s.chain.plan.value.action && p.namespace == s.incident.namespace && p.target == s.incident.resource
    && !p.action.Unregistered?
  }

  /** The proposal is the one whose server-side dry run succeeded, down to the recomputed mutation hash. */
  predicate DryRunBound(s: State) {
    && ProposalMade(s) && RegisteredAction(s.incident.proposal.value)
    && s.chain.dryRun.Some? && s.incident.dryRun == s.chain.dryRun
    && var p, d := s.incident.proposal.value, s.chain.dryRun.value;
    && d.success && d.action == p.action && d.target == p.target && d.mutationHash == MutationHash(p, d.after)
  }

  /** The audit copies and the incident's own snapshot agree with the workflow state. */
  predicate Mirrored(s: State) {
    s.incident.audit.Some? ==> s.incident.audit.value == InvestigationAudit(s.chain.diagnosis, s.chain.plan)
  }

  predicate Started(s: State) {
    s.incident.audit.Some? && s.chain.execution.Some? && s.chain.evidence.Some?
  }

  predicate MayBeUnstarted(n: Node) {
    n in {IntakeNode, TerminationRouterNode, ContextBuilder, PermissionNode, Finalizer, Finished, GraphFailure}
  }

  predicate ChainInvariant(c: Config) {
    var s := c.state;
    && s.incident.execution == s.chain.execution
    && (s.chain.diagnosis.Some? || s.control.pendingReflection.Some? || !MayBeUnstarted(c.node) ==> Started(s))
    && (c.node !in {ObservationNode, GraphFailure} && s.chain.evidence.Some? ==> s.chain.evidence == Some(SnapshotOf(s.incident.evidence)))
    && StageInvariant(c.node, s)
  }

  /** What each stage of the recovery chain may rely on. */
  predicate StageInvariant(n: Node, s: State) {
    && (n in {PermissionNode, DryRunStage, ProposalValidator, ApprovalInterrupt, ApprovalResume, ActionExecutor} ==> Mirrored(s))
    && (n == DryRunStage ==> ProposalMade(s) && s.incident.status == Proposing)
    && (n in {ProposalValidator, ApprovalInterrupt} ==> DryRunBound(s) && s.incident.status == Proposing)
    && (n == ApprovalResume ==> DryRunBound(s) && s.incident.status == AwaitingApproval)
    && (n == ActionExecutor ==> DryRunBound(s) && s.incident.status == Recovering && s.incident.context == s.chain.context)
    && (n == VerificationController ==> s.incident.status == Verifying)
  }

  // ---------------------------------------------------------------- stage by stage

  lemma PermissionOpensChain(s: State, proposalId: string, now: int)
    requires Mirrored(s)
    ensures var r := RecoveryPermission(s, proposalId, now);
            Mirrored(r.state)
            && (r.Done? && r.state.incident.status == Proposing ==> ProposalMade(r.state))
  {
    FinishFrame(s);
    FinishFrame(s.(chain := s.chain.(permission := Some(GroundedDecision(s)))));
  }

  /** Completing the proposal from the cluster keeps what the plan decided. */
  lemma DryRunDescribesProposal(p: Proposal, k: Cluster)
    ensures var (q, d) := DryRunProposal(p, k);
            && q.id == p.id && q.action == p.action && q.namespace == p.namespace && q.target == p.target && q.expiresAt == p.expiresAt
            && (d.success ==> RegisteredAction(q) && d.action == q.action && d.target == q.target
                              && d.mutationHash == MutationHash(q, d.after) && Some((q.uid, q.resourceVersion)) == k.target)
  {
  }

  lemma DryRunBinds(s: State, k: Cluster)
    requires ProposalMade(s) && Mirrored(s) && s.incident.status == Proposing
    ensures var r := DryRunNode(s, k);
            r.Done? && r.state.chain.dryRun.Some?
            && (if r.state.chain.dryRun.value.success
                then DryRunBound(r.state) && Mirrored(r.state) && r.state.incident.status == Proposing && r.state.incident.proposal.Some?
                else r.state.chain.plan.None? && r.state.incident.proposal.None? && r.state.incident.status == Diagnosing
                     && r.state.control.pendingReflection == Some(RecoveryFailure) && r.state.control.termination.None?)
  {
    DryRunDescribesProposal(s.incident.proposal.value, k);
    var (q, d) := DryRunProposal(s.incident.proposal.value, k);
    if d.success {
      assert DryRunNode(s, k).state == s.(chain := s.chain.(dryRun := Some(d)), incident := s.incident.(proposal := Some(q), dryRun := Some(d)));
    }
  }

  lemma BoundThroughStatus(s: State, status: Status)
    requires DryRunBound(s) && Mirrored(s)
    ensures var t := s.(incident := s.incident.(status := status)); DryRunBound(t) && Mirrored(t)
  {
  }

  lemma ResumeKeepsBinding(s: State, r: Resume)
    requires DryRunBound(s) && Mirrored(s) && s.incident.status == AwaitingApproval
    ensures var n := ResumeApproval(s, r);
            n.Done? && DryRunBound(n.state) && Mirrored(n.state)
            && n.state.incident.status in {Rejected, NeedsAttention, Recovering}
            && (n.state.incident.status == Recovering ==>
                  r.approved && ContextValid(n.state, r.now) && n.state.chain.context == n.state.incident.context == Some(r.context))
  {
  }

  // ---------------------------------------------------------------- the invariant, node by node

  lemma ContextKeepsChain(c: Config, turn: TurnInput)
    requires c.node in {ContextBuilder, ReflectionContextBuilder} && ChainInvariant(c)
    ensures ChainInvariant(Continue(BuildContext(c.state, c.node == ReflectionContextBuilder, turn),
                                    if c.node == ContextBuilder then BrainModel else ReflectionUpdate))
  {
    var s, reflection := c.state, c.node == ReflectionContextBuilder;
    var t := BuildContext(s, reflection, turn).state;
    assert t.incident.evidence == s.incident.evidence && t.chain.diagnosis == s.chain.diagnosis && t.incident.audit.Some?;
    assert t.incident.execution == t.chain.execution;
    assert turn.resolved.Some? ==> t.chain.evidence == Some(SnapshotOf(t.incident.evidence));
    PrepareKeepsPending(s, reflection);
  }

  lemma PrepareKeepsPending(s: State, reflection: bool)
    ensures PrepareTurn(s, reflection).pendingReflection in {None, s.control.pendingReflection}
  {
  }

  lemma {:induction false} ClassifyKeepsChain(s: State, outputs: seq<Output>)
    ensures var t := ClassifyAll(s, outputs);
            t.incident.execution == s.incident.execution && t.chain.execution == s.chain.execution
            && t.chain.evidence == s.chain.evidence && t.incident.audit == s.incident.audit
            && t.incident.status == s.incident.status && t.incident.recovery == s.incident.recovery
  {
    if outputs != [] {
      ClassifyKeepsChain(s, outputs[..|outputs| - 1]);
    }
  }

  lemma ClassifierKeepsChain(c: Config)
    requires c.node == ResultClassifier && ChainInvariant(c)
    ensures ChainInvariant(At(ObservationNode, ClassifyToolResults(c.state, c.outputs)))
  {
    ClassifyKeepsChain(c.state, c.outputs);
  }

  lemma ObservationKeepsChain(c: Config, ranked: Option<EvidenceStore>)
    requires c.node == ObservationNode && ChainInvariant(c)
    ensures ChainInvariant(At(BeliefUpdateNode, ObserveUpdate(c.state, ranked)))
  {
  }

  lemma {:induction false} CommitKeepsChain(s: State)
    ensures var t := BeliefCommit(s).state;
            t.chain == s.chain && t.control == s.control
            && t.incident == s.incident.(audit := t.incident.audit) && (t.incident.audit.Some? <==> s.incident.audit.Some?)
    decreases |s.belief.beliefDeltas| - s.belief.beliefCursor
  {
    var b := s.belief;
    if b.beliefCursor < |b.beliefDeltas| {
      var d := b.beliefDeltas[b.beliefCursor];
      var next := s.(belief := b.(beliefCursor := b.beliefCursor + 1));
      var i := IndexOf(b.hypotheses, d.hypothesisId);
      if !d.committed {
        CommitKeepsChain(next);
      } else if i >= 0 && CommitAccepted(b.hypotheses[i], d) {
        CommitKeepsChain(next.(belief := next.belief.(hypotheses := b.hypotheses[i := b.hypotheses[i].(confidence := d.updated)])));
      }
    }
  }

  lemma CommitNodeKeepsChain(c: Config)
    requires c.node == BeliefCommitNode && ChainInvariant(c)
    ensures ChainInvariant(Continue(BeliefCommit(c.state), ReflectionRouter))
  {
    CommitKeepsChain(c.state);
  }

  lemma TerminationRouterKeepsChain(c: Config)
    requires ChainInvariant(c) && c.node == TerminationRouterNode
    ensures ChainInvariant(AfterTerminationRouter(TerminationRouter(c.state)))
  {
  }

  lemma ReflectionRouterKeepsChain(c: Config)
    requires ChainInvariant(c) && c.node == ReflectionRouter
    ensures ChainInvariant(AfterReflectionRoute(ReflectionRoute(c.state).0, ReflectionRoute(c.state).1))
  {
    hide GroundedDecision;
    var t := ReflectionRoute(c.state).0;
    assert t == c.state.(control := t.control);
  }

  lemma ToolStageFrame(c: Config, i: Input)
    requires c.node in {BrainModel, ReflectionUpdate, ActionGateway, CategoryRouter, ToolsNode, ArgumentGuard, StructuredGuard}
    ensures var s, t := c.state, Next(c, i).state;
            t == s.(control := t.control, incident := s.incident.(audit := t.incident.audit))
            && (t.incident.audit.Some? <==> s.incident.audit.Some?)
            && (InBrain(Next(c, i).node) || Next(c, i).node == GraphFailure)
  {
    hide OuterNext, ClassifyToolResults, BuildContext, BeliefCommit, ObserveUpdate;
  }

  lemma ToolStageKeepsChain(c: Config, i: Input)
    requires c.node in {BrainModel, ReflectionUpdate, ActionGateway, CategoryRouter, ToolsNode, ArgumentGuard, StructuredGuard}
    requires ChainInvariant(c)
    ensures ChainInvariant(Next(c, i))
  {
    hide Next;
    ToolStageFrame(c, i);
  }

  lemma UpdateKeepsChain(c: Config)
    requires c.node == BeliefUpdateNode && ChainInvariant(c)
    ensures ChainInvariant(At(BeliefCommitNode, BeliefUpdate(c.state)))
  {
  }

  lemma BrainKeepsChain(c: Config, i: Input)
    requires InBrain(c.node) && ChainInvariant(c)
    ensures ChainInvariant(Next(c, i))
  {
    hide ChainInvariant, OuterNext;
    if i.fault {
      FaultKeepsChain(c);
    } else if c.node == TerminationRouterNode {
      TerminationRouterKeepsChain(c);
    } else if c.node == ReflectionRouter {
      ReflectionRouterKeepsChain(c);
    } else if c.node in {ContextBuilder, ReflectionContextBuilder} {
      ContextKeepsChain(c, i.turn);
    } else if c.node == ResultClassifier {
      ClassifierKeepsChain(c);
    } else if c.node == ObservationNode {
      ObservationKeepsChain(c, i.ranked);
    } else if c.node == BeliefUpdateNode {
      UpdateKeepsChain(c);
    } else if c.node == BeliefCommitNode {
      CommitNodeKeepsChain(c);
    } else {
      ToolStageKeepsChain(c, i);
    }
  }

  lemma PermissionKeepsChain(c: Config, proposalId: string, now: int)
    requires c.node == PermissionNode && ChainInvariant(c)
    ensures ChainInvariant(AfterPermission(RecoveryPermission(c.state, proposalId, now)))
  {
    PermissionFrame(c.state, proposalId, now);
    PermissionOpensChain(c.state, proposalId, now);
  }

  lemma DryRunKeepsChain(c: Config, k: Cluster)
    requires c.node == DryRunStage && ChainInvariant(c)
    ensures ChainInvariant(AfterDryRun(DryRunNode(c.state, k)))
  {
    DryRunFrame(c.state, k);
    DryRunBinds(c.state, k);
  }

  lemma ResumeKeepsChain(c: Config, r: Resume)
    requires c.node == ApprovalResume && ChainInvariant(c)
    ensures ChainInvariant(AfterApproval(ResumeApproval(c.state, r)))
  {
    ResumeFrame(c.state, r);
    ResumeKeepsBinding(c.state, r);
  }

  lemma ExecuteKeepsChain(c: Config, result: ExecuteResult, now: int, later: int)
    requires c.node == ActionExecutor && ChainInvariant(c)
    ensures ChainInvariant(AfterExecutor(ExecuteAction(c.state, result, now, later)))
  {
    ExecuteFrame(c.state, result, now, later);
  }

  lemma VerificationKeepsChain(c: Config, rounds: seq<Round>)
    requires c.node == VerificationController && ChainInvariant(c)
    ensures ChainInvariant(AfterVerification(VerificationNode(c.state, rounds)))
  {
    VerificationFrame(c.state, rounds);
  }

  lemma FaultKeepsChain(c: Config)
    requires ChainInvariant(c)
    ensures ChainInvariant(FailGraph(c.state))
  {
  }

  lemma PlainStageKeepsChain(c: Config)
    requires ChainInvariant(c)
    ensures c.node == IntakeNode ==> ChainInvariant(Continue(IncidentIntake(c.state), TerminationRouterNode))
    ensures c.node == ProposalValidator ==> ChainInvariant(AfterValidator(ValidateProposal(c.state)))
    ensures c.node == ApprovalInterrupt ==> ChainInvariant(Continue(RequestApproval(c.state), ApprovalResume))
    ensures c.node == Finalizer ==> ChainInvariant(At(Finished, c.state))
  {
    hide GroundedDecision, ProposalMade;
    if c.node == ProposalValidator {
      ValidatorFrame(c.state);
    } else if c.node == ApprovalInterrupt {
      BoundThroughStatus(c.state, AwaitingApproval);
    }
  }

  lemma OuterKeepsChain(c: Config, i: Input)
    requires !Terminal(c) && !InBrain(c.node) && ChainInvariant(c)
    ensures ChainInvariant(Next(c, i))
  {
    hide BrainNext, ChainInvariant;
    if i.fault {
      FaultKeepsChain(c);
    } else {
      match c.node
      case PermissionNode => PermissionKeepsChain(c, i.proposalId, i.now);
      case DryRunStage => DryRunKeepsChain(c, i.cluster);
      case ApprovalResume => ResumeKeepsChain(c, i.resume);
      case ActionExecutor => ExecuteKeepsChain(c, i.result, i.now, i.later);
      case VerificationController => VerificationKeepsChain(c, i.rounds);
      case _ => PlainStageKeepsChain(c);
    }
  }

  lemma {:induction false} ChainOverRuns(trace: seq<Config>, inputs: seq<Input>, k: nat)
    requires IsRun(trace, inputs) && Initial(trace[0]) && k < |trace|
    ensures ChainInvariant(trace[k])
  {
    hide Next;
    if k > 0 {
      ChainOverRuns(trace, inputs, k - 1);
      if InBrain(trace[k - 1].node) {
        BrainKeepsChain(trace[k - 1], inputs[k - 1]);
      } else {
        OuterKeepsChain(trace[k - 1], inputs[k - 1]);
      }
    }
  }

  // ---------------------------------------------------------------- diagnoses and evidence

  predicate Current(d: Option<AgentDiagnosis>, evidence: Option<EvidenceSnapshot>) {
    d.Some? && !d.value.provisional ==> d.value.evidence == evidence
  }

  /** An accepted diagnosis never outlives the evidence it was validated on. */
  predicate FreshDiagnosis(c: Config) {
    Current(c.state.chain.diagnosis, c.state.chain.evidence)
  }

  lemma PermittedDiagnosis(s: State, tool: Tool, o: Output)
    requires PermittedOutput(s, tool, o)
    ensures o.diagnosis.Some? ==> Current(o.diagnosis, s.chain.evidence)
  {
  }

  lemma {:induction false} ClassifyKeepsFresh(s: State, outputs: seq<Output>)
    requires Current(s.chain.diagnosis, s.chain.evidence)
    requires forall o :: o in outputs && o.diagnosis.Some? ==> Current(o.diagnosis, s.chain.evidence)
    ensures var t := ClassifyAll(s, outputs);
            t.chain.evidence == s.chain.evidence && Current(t.chain.diagnosis, t.chain.evidence)
  {
    if outputs != [] {
      ClassifyKeepsFresh(s, outputs[..|outputs| - 1]);
      assert outputs[|outputs| - 1] in outputs;
    }
  }

  lemma ClassifierKeepsFresh(c: Config)
    requires c.node == ResultClassifier && BudgetInvariant(c) && FreshDiagnosis(c)
    ensures FreshDiagnosis(At(ObservationNode, ClassifyToolResults(c.state, c.outputs)))
  {
    forall o | o in c.outputs && o.diagnosis.Some?
      ensures Current(o.diagnosis, c.state.chain.evidence)
    {
      var k :| 0 <= k < |c.outputs| && c.outputs[k] == o;
      PermittedDiagnosis(c.state, c.calls[k].tool, o);
    }
    ClassifyKeepsFresh(c.state, c.outputs);
  }

  lemma ContextKeepsFresh(c: Config, turn: TurnInput)
    requires c.node in {ContextBuilder, ReflectionContextBuilder} && ChainInvariant(c) && FreshDiagnosis(c)
    ensures FreshDiagnosis(Continue(BuildContext(c.state, c.node == ReflectionContextBuilder, turn), BrainModel))
  {
    var s := c.state;
    var t := BuildContext(s, c.node == ReflectionContextBuilder, turn).state;
    assert t.chain.diagnosis == s.chain.diagnosis;
    assert t.chain.evidence in {s.chain.evidence, Some(SnapshotOf(s.incident.evidence))};
  }

  lemma StepKeepsFresh(c: Config, i: Input)
    requires !Terminal(c) && BudgetInvariant(c) && ChainInvariant(c) && FreshDiagnosis(c)
    ensures FreshDiagnosis(Next(c, i))
  {
    hide OuterNext;
    var s := c.state;
    if !InBrain(c.node) {
      OuterFrame(c, i);
    } else if i.fault {
    } else if c.node == ResultClassifier {
      ClassifierKeepsFresh(c);
    } else if c.node == ObservationNode {
      assert FreshDiagnosis(At(BeliefUpdateNode, ObserveUpdate(s, i.ranked)));
    } else if c.node in {ContextBuilder, ReflectionContextBuilder} {
      ContextKeepsFresh(c, i.turn);
    } else if c.node == BeliefCommitNode {
      CommitKeepsChain(s);
    } else {
      BrainLeavesChain(c, i);
    }
  }

  lemma BrainLeavesChain(c: Config, i: Input)
    requires InBrain(c.node)
    requires c.node !in {ResultClassifier, ObservationNode, ContextBuilder, ReflectionContextBuilder, BeliefCommitNode}
    ensures Next(c, i).state.chain == c.state.chain
  {
    if !i.fault && c.node == ReflectionRouter {
      assert ReflectionRoute(c.state).0.chain == c.state.chain;
    }
  }

  /**
   Over every run, outside the window in which new evidence is being absorbed: a diagnosis that
   counts as final is a diagnosis of exactly the evidence the incident now holds.
   */
  lemma {:induction false} FinalDiagnosisIsCurrent(trace: seq<Config>, inputs: seq<Input>, k: nat)
    requires IsRun(trace, inputs) && Initial(trace[0]) && k < |trace|
    ensures ChainInvariant(trace[k]) && FreshDiagnosis(trace[k])
    ensures trace[k].node !in {ObservationNode, GraphFailure} && trace[k].state.chain.diagnosis.Some?
            && !trace[k].state.chain.diagnosis.value.provisional ==>
              trace[k].state.chain.diagnosis.value.evidence == Some(SnapshotOf(trace[k].state.incident.evidence))
  {
    hide Next;
    ChainOverRuns(trace, inputs, k);
    if k > 0 {
      FinalDiagnosisIsCurrent(trace, inputs, k - 1);
      BudgetsOverRuns(trace, inputs, k - 1);
      StepKeepsFresh(trace[k - 1], inputs[k - 1]);
    }
  }
}
