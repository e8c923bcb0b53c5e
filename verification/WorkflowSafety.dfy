/**
 The main results about a workflow attempt as a whole: what an executed mutation rests on,
 how often one can happen, what a failed recovery leads to, and that the attempt ends within
 both step limits of the graph engine.
 */
module WorkflowSafety {
  import opened Domain
  import opened WorkflowSpec
  import opened WorkflowGraph
  import opened NodeFrames
  import opened BrainLoop
  import opened BrainBudgets
  import opened RecoveryChain

  // ---------------------------------------------------------------- what an execution rests on

  /** Each stage of the recovery chain has exactly one way in. */
  lemma StageBefore(c: Config, i: Input)
    requires !Terminal(c)
    ensures Next(c, i).node == ActionExecutor ==> c.node == ApprovalResume && !i.fault
    ensures Next(c, i).node == ApprovalResume ==> c.node == ApprovalInterrupt && !i.fault
    ensures Next(c, i).node == ApprovalInterrupt ==> c.node == ProposalValidator && !i.fault
    ensures Next(c, i).node == ProposalValidator ==> c.node == DryRunStage && !i.fault
    ensures Next(c, i).node == DryRunStage ==> c.node == PermissionNode && !i.fault
  {
  }

  /**
   The two checks before a mutation, over the workflow state and over the incident alone, agree
   at any one time; each reads the clock for itself, so what passed the first check fails the
   second exactly when the approval has expired in between.
   */
  lemma GuardsAgree(s: State, now: int, later: int)
    requires DryRunBound(s) && Mirrored(s) && Started(s) && s.incident.context == s.chain.context
    requires s.incident.execution == s.chain.execution
    ensures ContextValid(s, now) <==> IncidentContextValid(s.incident, now)
    ensures ContextValid(s, now) ==> (IncidentContextValid(s.incident, later) <==> later <= s.chain.context.value.expiresAt)
  {
  }

  /** The approval names exactly this proposal, dry run, plan, diagnosis, evidence and code version, and is still fresh. */
  predicate ApprovedChain(s: State, now: int) {
    && DryRunBound(s) && s.chain.context.Some?
    && var e, p, d := s.chain.context.value, s.incident.proposal.value, s.chain.dryRun.value;
    && var plan, diagnosis := s.chain.plan.value, s.chain.diagnosis.value;
    && e.incidentId == s.incident.id && e.proposalId == p.id && s.incident.namespace in e.namespaces
    && e.mutationHash == d.mutationHash == MutationHash(p, d.after)
    && e.uid == p.uid && e.resourceVersion == p.resourceVersion && e.dryRunValidatedAt == d.validatedAt
    && e.planId == plan.id && e.diagnosisVersion == plan.diagnosisVersion == diagnosis.id && !diagnosis.provisional
    && e.evidence == plan.evidence == diagnosis.evidence == s.chain.evidence == Some(SnapshotOf(s.incident.evidence))
    && e.execution == plan.execution == diagnosis.execution == s.chain.execution
    && e.approvalId != "" && e.idempotencyKey != "" && now <= e.expiresAt
  }

  lemma ExecutorSeesApprovedChain(c: Config, now: int, later: int)
    requires c.node == ActionExecutor && ChainInvariant(c) && FreshDiagnosis(c) && ContextValid(c.state, now)
    ensures ApprovedChain(c.state, now)
    ensures MutationAuthorized(c.state, now, later) <==> later <= c.state.chain.context.value.expiresAt
    ensures MutationAuthorized(c.state, now, later) ==> ApprovedChain(c.state, later)
  {
    GuardsAgree(c.state, now, later);
  }

  lemma ApprovalCarriesContext(c: Config, i: Input)
    requires c.node == ApprovalResume && !i.fault && ChainInvariant(c) && Next(c, i).node == ActionExecutor
    ensures i.resume.approved && Next(c, i).state.chain.context == Some(i.resume.context)
    ensures Next(c, i).state.incident.proposal == c.state.incident.proposal && Next(c, i).state.chain.dryRun == c.state.chain.dryRun
  {
    ResumeFrame(c.state, i.resume);
    ResumeKeepsBinding(c.state, i.resume);
  }

  lemma ValidatorKeepsDryRun(c: Config, i: Input)
    requires c.node in {ProposalValidator, ApprovalInterrupt} && !i.fault
    ensures Next(c, i).state.incident.proposal == c.state.incident.proposal && Next(c, i).state.chain.dryRun == c.state.chain.dryRun
  {
    ValidatorFrame(c.state);
  }

  /**
   Over every run: when the executor lets a mutation through, the whole version chain is one
   chain, it was approved after the dry run of this very proposal, and nothing ran in between.
   */
  lemma ExecutedMutationWasApproved(trace: seq<Config>, inputs: seq<Input>, k: nat)
    requires IsRun(trace, inputs) && Initial(trace[0]) && k < |inputs|
    requires trace[k].node == ActionExecutor && ContextValid(trace[k].state, inputs[k].now)
    ensures ApprovedChain(trace[k].state, inputs[k].now)
    ensures MutationAuthorized(trace[k].state, inputs[k].now, inputs[k].later) <==>
              inputs[k].later <= trace[k].state.chain.context.value.expiresAt
    ensures MutationAuthorized(trace[k].state, inputs[k].now, inputs[k].later) ==> ApprovedChain(trace[k].state, inputs[k].later)
    ensures StagesBefore(trace, k)
    ensures inputs[k - 1].resume.approved && trace[k].state.chain.context == Some(inputs[k - 1].resume.context)
    ensures trace[k - 4].state.incident.proposal.Some?
            && DryRunProposal(trace[k - 4].state.incident.proposal.value, inputs[k - 4].cluster)
               == (trace[k].state.incident.proposal.value, trace[k].state.chain.dryRun.value)
  {
    hide Next;
    FinalDiagnosisIsCurrent(trace, inputs, k);
    ExecutorSeesApprovedChain(trace[k], inputs[k].now, inputs[k].later);
    StagesBeforeExecution(trace, inputs, k);
    ChainOverRuns(trace, inputs, k - 1);
    ApprovalCarriesContext(trace[k - 1], inputs[k - 1]);
    ValidatorKeepsDryRun(trace[k - 2], inputs[k - 2]);
    ValidatorKeepsDryRun(trace[k - 3], inputs[k - 3]);
    ChainOverRuns(trace, inputs, k - 4);
    DryRunStepResult(trace[k - 4], inputs[k - 4]);
  }

  /** The five stages that come directly before position `k`. */
  ghost predicate StagesBefore(trace: seq<Config>, k: int)
    requires 0 <= k < |trace|
  {
    k >= 5 && trace[k - 5].node == PermissionNode && trace[k - 4].node == DryRunStage
    && trace[k - 3].node == ProposalValidator && trace[k - 2].node == ApprovalInterrupt && trace[k - 1].node == ApprovalResume
  }

  lemma StagesBeforeExecution(trace: seq<Config>, inputs: seq<Input>, k: nat)
    requires IsRun(trace, inputs) && Initial(trace[0]) && k < |trace| && trace[k].node == ActionExecutor
    ensures StagesBefore(trace, k)
    ensures forall j :: k - 5 <= j < k ==> !inputs[j].fault
  {
    hide Next;
    StageBefore(trace[k - 1], inputs[k - 1]);
    StageBefore(trace[k - 2], inputs[k - 2]);
    StageBefore(trace[k - 3], inputs[k - 3]);
    StageBefore(trace[k - 4], inputs[k - 4]);
    StageBefore(trace[k - 5], inputs[k - 5]);
  }

  lemma DryRunStepResult(c: Config, i: Input)
    requires c.node == DryRunStage && !i.fault && c.state.incident.proposal.Some?
    requires Next(c, i).node == ProposalValidator
    ensures var (p, d) := DryRunProposal(c.state.incident.proposal.value, i.cluster);
            Next(c, i).state.incident.proposal == Some(p) && Next(c, i).state.chain.dryRun == Some(d)
  {
  }

  // ---------------------------------------------------------------- at most one execution

  /** Statuses from which no recovery can start again within the same attempt. */
  predicate PastExecution(status: Status) {
    status in {Verifying, Resolved, NeedsAttention, Status.RecoveryFailed}
  }

  lemma PermissionStaysPast(s: State, proposalId: string, now: int)
    requires PastExecution(s.incident.status)
    ensures PastExecution(RecoveryPermission(s, proposalId, now).state.incident.status)
    ensures RecoveryPermission(s, proposalId, now).Done? ==> RecoveryPermission(s, proposalId, now).state.incident.status == NeedsAttention
    ensures s.incident.status == Status.RecoveryFailed ==> RecoveryPermission(s, proposalId, now).Aborted?
  {
  }

  lemma BrainKeepsStatus(c: Config, i: Input)
    requires InBrain(c.node)
    ensures Next(c, i).state.incident.status == c.state.incident.status
    ensures Next(c, i).state.incident.recovery == c.state.incident.recovery
    ensures InBrain(Next(c, i).node) || Next(c, i).node in {PermissionNode, GraphFailure}
  {
    hide OuterNext;
    var s := c.state;
    if i.fault {
    } else if c.node == ResultClassifier {
      ClassifyKeepsChain(s, c.outputs);
    } else if c.node == BeliefCommitNode {
      CommitKeepsChain(s);
    } else if c.node == ReflectionRouter {
      assert ReflectionRoute(s).0.incident == s.incident;
    }
  }

  lemma ExecutorLeavesRecovering(s: State, result: ExecuteResult, now: int, later: int)
    requires s.incident.status == Recovering
    ensures var t := ExecuteAction(s, result, now, later).state;
            PastExecution(t.incident.status)
            && t.incident.recovery.attempts <= s.incident.recovery.attempts + 1
            && t.incident.recovery.confirmedMutations <= s.incident.recovery.confirmedMutations + 1
            && (t.incident.recovery.confirmedMutations > s.incident.recovery.confirmedMutations <==>
                  MutationAuthorized(s, now, later) && result == Confirmed)
            && (t.incident.status == Verifying <==> MutationAuthorized(s, now, later) && result == Confirmed)
  {
  }

  lemma OuterStaysPast(c: Config, i: Input)
    requires !Terminal(c) && !InBrain(c.node) && PastExecution(c.state.incident.status) && ChainInvariant(c)
    ensures PastExecution(Next(c, i).state.incident.status)
    ensures Next(c, i).state.incident.recovery == c.state.incident.recovery
  {
    hide BrainNext;
    var s := c.state;
    if i.fault {
    } else {
      match c.node
      case PermissionNode => PermissionFrame(s, i.proposalId, i.now); PermissionStaysPast(s, i.proposalId, i.now);
      case VerificationController => VerificationFrame(s, i.rounds); VerificationStaysPast(s, i.rounds);
      case _ =>
    }
  }

  lemma VerificationStaysPast(s: State, rounds: seq<Round>)
    requires s.incident.status == Verifying
    ensures PastExecution(VerificationNode(s, rounds).state.incident.status)
  {
  }

  lemma ExecutorMeansRecovering(c: Config)
    requires ChainInvariant(c)
    ensures c.node == ActionExecutor ==> c.state.incident.status == Recovering
  {
  }

  /** The executor is never entered again, and no mutation is counted again. */
  lemma {:induction false} PastExecutionForever(trace: seq<Config>, inputs: seq<Input>, j: nat, k: nat)
    requires IsRun(trace, inputs) && Initial(trace[0]) && j <= k < |trace|
    requires PastExecution(trace[j].state.incident.status)
    ensures PastExecution(trace[k].state.incident.status) && trace[k].node != ActionExecutor
    ensures trace[k].state.incident.recovery == trace[j].state.incident.recovery
    decreases k - j
  {
    hide Next, ChainInvariant;
    ChainOverRuns(trace, inputs, k);
    ExecutorMeansRecovering(trace[k]);
    if j < k {
      PastExecutionForever(trace, inputs, j, k - 1);
      ChainOverRuns(trace, inputs, k - 1);
      if InBrain(trace[k - 1].node) {
        BrainKeepsStatus(trace[k - 1], inputs[k - 1]);
      } else {
        OuterStaysPast(trace[k - 1], inputs[k - 1]);
      }
    }
  }

  lemma ExecutorStep(c: Config, i: Input)
    requires c.node == ActionExecutor && c.state.incident.status == Recovering
    ensures i.fault ==> Terminal(Next(c, i))
    ensures !i.fault ==> PastExecution(Next(c, i).state.incident.status)
    ensures var before, after := c.state.incident.recovery.confirmedMutations, Next(c, i).state.incident.recovery.confirmedMutations;
            after <= before + 1 && (after > before <==> !i.fault && MutationAuthorized(c.state, i.now, i.later) && i.result == Confirmed)
  {
    hide BrainNext, ExecuteAction;
    if !i.fault {
      ExecutorLeavesRecovering(c.state, i.result, i.now, i.later);
    }
  }

  /** A workflow attempt reaches the executor at most once, whatever the Brain plans afterwards. */
  lemma ExecutorRunsAtMostOnce(trace: seq<Config>, inputs: seq<Input>, j: nat, k: nat)
    requires IsRun(trace, inputs) && Initial(trace[0]) && j < k < |trace|
    requires trace[j].node == ActionExecutor
    ensures trace[k].node != ActionExecutor
    ensures trace[k].state.incident.recovery.confirmedMutations <= trace[j].state.incident.recovery.confirmedMutations + 1
    ensures trace[k].state.incident.recovery.confirmedMutations > trace[j].state.incident.recovery.confirmedMutations <==>
              !inputs[j].fault && MutationAuthorized(trace[j].state, inputs[j].now, inputs[j].later) && inputs[j].result == Confirmed
  {
    hide Next, ChainInvariant, MutationAuthorized;
    ChainOverRuns(trace, inputs, j);
    ExecutorMeansRecovering(trace[j]);
    ExecutorStep(trace[j], inputs[j]);
    if inputs[j].fault {
      assert Terminal(trace[j + 1]);
    } else {
      PastExecutionForever(trace, inputs, j + 1, k);
    }
  }

  // ---------------------------------------------------------------- after a failed recovery

  /** Where a run can be while it carries a failed recovery back through the Brain. */
  predicate Stranded(c: Config) {
    c.state.incident.status == Status.RecoveryFailed && (InBrain(c.node) || c.node in {PermissionNode, GraphFailure})
  }

  lemma StrandedStep(c: Config, i: Input)
    requires !Terminal(c) && Stranded(c)
    ensures Stranded(Next(c, i))
    ensures c.node == PermissionNode ==> Next(c, i).node == GraphFailure
  {
    if InBrain(c.node) {
      BrainKeepsStatus(c, i);
    } else if !i.fault {
      PermissionFrame(c.state, i.proposalId, i.now);
      PermissionStaysPast(c.state, i.proposalId, i.now);
    }
  }

  /**
   When a failed execution or verification sends the run back to the Brain for reflection, the
   attempt can never be finalized any more: the status table has no way out of RECOVERY_FAILED,
   so the permission node fails the graph both when it wants to stop and when it wants to propose.
   */
  lemma {:induction false} FailedRecoveryNeverFinishes(trace: seq<Config>, inputs: seq<Input>, j: nat, k: nat)
    requires IsRun(trace, inputs) && j <= k < |trace|
    requires trace[j].node == TerminationRouterNode && trace[j].state.incident.status == Status.RecoveryFailed
    ensures Stranded(trace[k]) && trace[k].node !in {Finalizer, Finished}
    decreases k - j
  {
    hide Next;
    if j < k {
      FailedRecoveryNeverFinishes(trace, inputs, j, k - 1);
      StrandedStep(trace[k - 1], inputs[k - 1]);
    }
  }

  // ---------------------------------------------------------------- the approval the server builds

  /** internal/service/incidents.go:493-508: the context is assembled from the stored incident. */
  function ServerContext(i: Incident, namespaces: seq<string>, approvalId: string, key: string): ExecutionContext
    requires i.proposal.Some?
  {
    var p := i.proposal.value;
    var plan := if i.audit.Some? then i.audit.value.plan else None;
    ExecutionContext(
      namespaces, i.id, p.id, if plan.Some? then plan.value.id else "",
      if plan.Some? then plan.value.diagnosisVersion else "", if plan.Some? then plan.value.evidence else None,
      if plan.Some? then plan.value.execution else None, approvalId, key, p.uid, p.resourceVersion,
      if i.dryRun.Some? then i.dryRun.value.mutationHash else None,
      if i.dryRun.Some? then i.dryRun.value.validatedAt else 0, p.expiresAt)
  }

  /**
   At every approval interrupt a run can reach, the context the server builds is accepted exactly
   when the proposal has not expired, its namespace is on the allowlist, and the key, the approval
   and the dry-run time are set: no run waits for an approval it would refuse for another reason.
   */
  lemma ServerApprovalIsAccepted(trace: seq<Config>, inputs: seq<Input>, k: nat, namespaces: seq<string>,
                                 approvalId: string, key: string, now: int)
    requires IsRun(trace, inputs) && Initial(trace[0]) && k < |trace| && trace[k].node == ApprovalResume
    ensures var s := trace[k].state;
            s.incident.proposal.Some? && s.chain.dryRun.Some?
            && var r := ResumeApproval(s, Resume(true, ServerContext(s.incident, namespaces, approvalId, key), now));
            (r.Done? && r.state.incident.status == Recovering <==>
              now <= s.incident.proposal.value.expiresAt && s.incident.namespace in namespaces
              && approvalId != "" && key != "" && s.chain.dryRun.value.validatedAt != 0)
  {
    hide Next;
    ChainOverRuns(trace, inputs, k);
    var s := trace[k].state;
    var context := ServerContext(s.incident, namespaces, approvalId, key);
    var t := s.(chain := s.chain.(context := Some(context)), incident := s.incident.(context := Some(context)));
    assert ContextValid(t, now) <==>
      now <= s.incident.proposal.value.expiresAt && s.incident.namespace in namespaces
      && approvalId != "" && key != "" && s.chain.dryRun.value.validatedAt != 0;
  }
}
