/**
 What each node of the supervisor graph leaves alone. Every later invariant is checked node
 by node against these frames instead of against the node bodies.
 */
module NodeFrames {
  import opened Domain
  import opened WorkflowSpec
  import opened WorkflowGraph

  /** Only routing and ending the run: turns, audit slots, budgets and reflections are kept. */
  predicate SameLedger(k: Control, k': Control) {
    k'.budget == k.budget && k'.turns == k.turns && k'.assistantTurns == k.assistantTurns && k'.reflections == k.reflections
  }

  predicate OnlyTermination(k: Control, k': Control) {
    k' == k.(termination := k'.termination)
  }

  lemma FinishFrame(s: State)
    ensures var t := FinishWithoutRecovery(s).state;
            t == s.(control := t.control, incident := s.incident.(status := t.incident.status))
            && OnlyTermination(s.control, t.control)
    ensures FinishWithoutRecovery(s).Done? ==> FinishWithoutRecovery(s).state.incident.status == NeedsAttention
  {
  }

  lemma PermissionFrame(s: State, proposalId: string, now: int)
    ensures var t := RecoveryPermission(s, proposalId, now).state;
            t == s.(control := t.control, chain := s.chain.(permission := t.chain.permission),
                    incident := s.incident.(status := t.incident.status, proposal := t.incident.proposal))
            && OnlyTermination(s.control, t.control)
  {
    FinishFrame(s);
    FinishFrame(s.(chain := s.chain.(permission := Some(GroundedDecision(s)))));
  }

  lemma DryRunFrame(s: State, k: Cluster)
    ensures var t := DryRunNode(s, k).state;
            t == s.(control := t.control, chain := s.chain.(dryRun := t.chain.dryRun, plan := t.chain.plan, permission := t.chain.permission),
                    incident := s.incident.(status := t.incident.status, proposal := t.incident.proposal, dryRun := t.incident.dryRun))
            && SameLedger(s.control, t.control)
            && (t.chain.plan.None? || t.chain.plan == s.chain.plan)
  {
  }

  lemma ValidatorFrame(s: State)
    ensures var t := ValidateProposal(s).state; t == s.(incident := s.incident.(status := t.incident.status))
  {
  }

  lemma ResumeFrame(s: State, r: Resume)
    ensures var t := ResumeApproval(s, r).state;
            t == s.(control := t.control, chain := s.chain.(context := t.chain.context),
                    incident := s.incident.(status := t.incident.status, context := t.incident.context))
            && OnlyTermination(s.control, t.control)
  {
  }

  lemma ExecuteFrame(s: State, result: ExecuteResult, now: int, later: int)
    ensures var t := ExecuteAction(s, result, now, later).state;
            t == s.(control := t.control, incident := s.incident.(status := t.incident.status, recovery := t.incident.recovery))
            && SameLedger(s.control, t.control)
  {
  }

  lemma VerificationFrame(s: State, rounds: seq<Round>)
    ensures var t := VerificationNode(s, rounds).state;
            t == s.(control := t.control, verification := t.verification, incident := s.incident.(status := t.incident.status))
            && SameLedger(s.control, t.control)
  {
  }

  /** What no outer node ever changes; the plan can only be dropped. */
  predicate OuterKept(s: State, t: State) {
    && SameLedger(s.control, t.control) && t.belief == s.belief
    && (t.chain.plan.None? || t.chain.plan == s.chain.plan)
    && t.chain.diagnosis == s.chain.diagnosis && t.chain.evidence == s.chain.evidence
  }

  predicate KeptBy(s: State, next: Config) {
    OuterKept(s, next.state) && (InBrain(next.node) ==> next.node == TerminationRouterNode)
  }

  lemma PermissionKeeps(s: State, proposalId: string, now: int)
    ensures KeptBy(s, AfterPermission(RecoveryPermission(s, proposalId, now)))
  {
    PermissionFrame(s, proposalId, now);
  }

  lemma DryRunKeeps(s: State, k: Cluster)
    ensures KeptBy(s, AfterDryRun(DryRunNode(s, k)))
  {
    DryRunFrame(s, k);
  }

  lemma ResumeKeeps(s: State, r: Resume)
    ensures KeptBy(s, AfterApproval(ResumeApproval(s, r)))
  {
    ResumeFrame(s, r);
  }

  lemma ExecuteKeeps(s: State, result: ExecuteResult, now: int, later: int)
    ensures KeptBy(s, AfterExecutor(ExecuteAction(s, result, now, later)))
  {
    ExecuteFrame(s, result, now, later);
  }

  lemma VerificationKeeps(s: State, rounds: seq<Round>)
    ensures KeptBy(s, AfterVerification(VerificationNode(s, rounds)))
  {
    VerificationFrame(s, rounds);
  }

  lemma EndsKeep(s: State)
    ensures KeptBy(s, FailGraph(s)) && KeptBy(s, At(Finished, s))
  {
  }

  lemma IntakeKeeps(s: State)
    ensures KeptBy(s, Continue(IncidentIntake(s), TerminationRouterNode))
  {
  }

  lemma ValidatorKeeps(s: State)
    ensures KeptBy(s, AfterValidator(ValidateProposal(s)))
  {
    ValidatorFrame(s);
  }

  lemma InterruptKeeps(s: State)
    ensures KeptBy(s, Continue(RequestApproval(s), ApprovalResume))
  {
  }

  /** The outer nodes never touch turns, budgets, reflections or beliefs, and only ever drop the plan. */
  lemma OuterFrame(c: Config, i: Input)
    requires !Terminal(c) && !InBrain(c.node)
    ensures KeptBy(c.state, Next(c, i))
  {
    hide BrainNext, KeptBy;
    var s := c.state;
    EndsKeep(s);
    if i.fault {
    } else {
      match c.node
      case IntakeNode => IntakeKeeps(s);
      case ProposalValidator => ValidatorKeeps(s);
      case ApprovalInterrupt => InterruptKeeps(s);
      case PermissionNode => PermissionKeeps(s, i.proposalId, i.now);
      case DryRunStage => DryRunKeeps(s, i.cluster);
      case ApprovalResume => ResumeKeeps(s, i.resume);
      case ActionExecutor => ExecuteKeeps(s, i.result, i.now, i.later);
      case VerificationController => VerificationKeeps(s, i.rounds);
      case _ =>
    }
  }
}
