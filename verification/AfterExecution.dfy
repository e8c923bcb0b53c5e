/**
 What happens after the executor has run (agent/supervisor.go:230-284, 353-373, 401-475): when a
 confirmed mutation is verified, and when an unconfirmed one is handed to a person.

 Both hang on one thing the graph does not check: a reflection that was still pending when
 the Brain handed over. `PendingSurvivesTermination` says how a run gets there, and
 `ConcreteRuns` builds one. A failed recovery is finalized only when no reflection can follow.
 */
module AfterExecution {
  import opened Domain
  import opened WorkflowSpec
  import opened WorkflowGraph
  import opened NodeFrames
  import opened BrainLoop
  import opened BrainBudgets
  import opened BeliefLedger
  import opened RecoveryChain
  import opened WorkflowSafety
  import opened VerificationRounds

  predicate RecoveryStage(n: Node) {
    n in {PermissionNode, DryRunStage, ProposalValidator, ApprovalInterrupt, ApprovalResume}
  }

  /** The stages between the Brain and the executor neither raise nor settle a reflection. */
  predicate SamePlace(s: State, t: State) {
    && t.control.pendingReflection == s.control.pendingReflection
    && (s.control.termination.Some? ==> t.control.termination.Some?)
    && t.incident.namespace == s.incident.namespace && t.incident.resource == s.incident.resource
    && (t.chain.plan.None? || t.chain.plan == s.chain.plan)
  }

  lemma StageFrame(c: Config, i: Input)
    requires RecoveryStage(c.node) && !i.fault
    requires Next(c, i).node == ActionExecutor || RecoveryStage(Next(c, i).node)
    ensures SamePlace(c.state, Next(c, i).state)
  {
    hide RecoveryPermission, ContextMatches, BrainNext;
    var s := c.state;
    match c.node
    case PermissionNode =>
      PermissionFrame(s, i.proposalId, i.now);
      if s.control.termination.Some? {
        PermissionKeepsTermination(s, i.proposalId, i.now);
      }
    case DryRunStage => DryRunFrame(s, i.cluster);
    case ProposalValidator => ValidatorFrame(s);
    case ApprovalResume => ResumeFrame(s, i.resume);
    case _ =>
  }

  lemma PermissionKeepsTermination(s: State, proposalId: string, now: int)
    requires s.control.termination.Some?
    ensures RecoveryPermission(s, proposalId, now).state.control.termination.Some?
  {
  }

  lemma PermissionSawTarget(s: State, proposalId: string, now: int)
    requires RecoveryPermission(s, proposalId, now).Done?
    requires RecoveryPermission(s, proposalId, now).state.incident.status == Proposing
    ensures s.chain.plan.Some? && CanonicalTarget(s.chain.plan.value.target, s.incident.namespace, s.incident.resource).Some?
  {
    FinishFrame(s);
    FinishFrame(s.(chain := s.chain.(permission := Some(GroundedDecision(s)))));
  }

  lemma StageStep(trace: seq<Config>, inputs: seq<Input>, j: nat)
    requires IsRun(trace, inputs) && j < |inputs| && RecoveryStage(trace[j].node) && !inputs[j].fault
    requires trace[j + 1].node == ActionExecutor || RecoveryStage(trace[j + 1].node)
    ensures SamePlace(trace[j].state, trace[j + 1].state)
  {
    hide Next;
    StageFrame(trace[j], inputs[j]);
  }

  lemma SamePlaceTransitive(s: State, t: State, u: State)
    requires SamePlace(s, t) && SamePlace(t, u)
    ensures SamePlace(s, u)
  {
  }

  lemma {:induction false} StagesKeepPlace(trace: seq<Config>, inputs: seq<Input>, j: nat, k: nat)
    requires IsRun(trace, inputs) && j <= k < |trace|
    requires forall m :: j <= m < k ==> RecoveryStage(trace[m].node) && !inputs[m].fault
    requires trace[k].node == ActionExecutor || RecoveryStage(trace[k].node)
    ensures SamePlace(trace[j].state, trace[k].state)
    decreases k - j
  {
    hide Next;
    if j < k {
      StagesKeepPlace(trace, inputs, j, k - 1);
      StageStep(trace, inputs, k - 1);
      SamePlaceTransitive(trace[j].state, trace[k - 1].state, trace[k].state);
    }
  }

  predicate TargetNamed(s: State) {
    s.chain.plan.Some? && CanonicalTarget(s.chain.plan.value.target, s.incident.namespace, s.incident.resource).Some?
  }

  lemma PermissionStepNamesTarget(c: Config, i: Input)
    requires c.node == PermissionNode && Next(c, i).node == DryRunStage
    ensures TargetNamed(c.state)
  {
    PermissionSawTarget(c.state, i.proposalId, i.now);
  }

  lemma TargetNamedAtPermission(trace: seq<Config>, inputs: seq<Input>, k: nat)
    requires IsRun(trace, inputs) && k < |inputs| && trace[k].node == PermissionNode && trace[k + 1].node == DryRunStage
    ensures TargetNamed(trace[k].state)
  {
    hide Next;
    PermissionStepNamesTarget(trace[k], inputs[k]);
  }

  /** What the executor finds: the reflection and the target the permission node saw, and a reason to end the run. */
  ghost predicate Inherited(s: State, t: State) {
    && t.control.pendingReflection == s.control.pendingReflection && t.control.termination.Some?
    && DryRunBound(t) && t.incident.status == Recovering && TargetNamed(t)
  }

  lemma AllStages(trace: seq<Config>, k: nat)
    requires k < |trace| && StagesBefore(trace, k)
    ensures forall m :: k - 5 <= m < k ==> RecoveryStage(trace[m].node)
  {
  }

  lemma StagesBringPlace(trace: seq<Config>, inputs: seq<Input>, k: nat)
    requires IsRun(trace, inputs) && Initial(trace[0]) && k < |trace| && trace[k].node == ActionExecutor
    ensures StagesBefore(trace, k) && SamePlace(trace[k - 5].state, trace[k].state)
  {
    hide Next;
    StagesBeforeExecution(trace, inputs, k);
    AllStages(trace, k);
    StagesKeepPlace(trace, inputs, k - 5, k);
  }

  lemma InheritedPlace(s: State, t: State)
    requires SamePlace(s, t) && TargetNamed(s) && s.control.termination.Some? && DryRunBound(t) && t.incident.status == Recovering
    ensures Inherited(s, t)
  {
  }

  lemma ExecutorInherits(trace: seq<Config>, inputs: seq<Input>, k: nat)
    requires IsRun(trace, inputs) && Initial(trace[0]) && k < |trace| && trace[k].node == ActionExecutor
    ensures StagesBefore(trace, k) && Inherited(trace[k - 5].state, trace[k].state)
  {
    hide Next;
    StagesBringPlace(trace, inputs, k);
    var j := k - 5;
    TargetNamedAtPermission(trace, inputs, j);
    PermissionFollowsTermination(trace, inputs, j);
    ExecutorIsBound(trace, inputs, k);
    InheritedPlace(trace[j].state, trace[k].state);
  }

  lemma ExecutorIsBound(trace: seq<Config>, inputs: seq<Input>, k: nat)
    requires IsRun(trace, inputs) && Initial(trace[0]) && k < |trace| && trace[k].node == ActionExecutor
    ensures DryRunBound(trace[k].state) && trace[k].state.incident.status == Recovering
  {
    hide Next;
    ChainOverRuns(trace, inputs, k);
  }

  lemma PermissionFollowsTermination(trace: seq<Config>, inputs: seq<Input>, k: nat)
    requires IsRun(trace, inputs) && Initial(trace[0]) && k < |trace| && trace[k].node == PermissionNode
    ensures trace[k].state.control.termination.Some?
  {
    assert k > 0;
    IntoPermission(trace[k - 1], inputs[k - 1]);
  }

  lemma IntoPermission(c: Config, i: Input)
    requires !Terminal(c) && Next(c, i).node == PermissionNode
    ensures Next(c, i).state.control.termination.Some?
  {
  }

  /** A run that comes back from the executor over an executed plan: refused by the status table at the permission node. */
  predicate ComesBack(c: Config) {
    && c.node in {TerminationRouterNode, PermissionNode, GraphFailure}
    && (c.node != GraphFailure ==>
          && c.state.control.termination.Some?
          && c.state.incident.status in {Verifying, NeedsAttention}
          && ProposalMade(c.state) && TargetNamed(c.state))
  }

  lemma ComesBackWhere(c: Config)
    requires ComesBack(c)
    ensures c.node !in {VerificationController, Finalizer, Finished}
  {
  }

  lemma ReturnIsRefused(s: State, proposalId: string, now: int)
    requires ProposalMade(s) && TargetNamed(s)
    requires s.incident.status in {Verifying, NeedsAttention}
    ensures RecoveryPermission(s, proposalId, now).Aborted?
  {
    assert GroundedDecision(s);
    assert s.chain == s.chain.(permission := Some(true));
  }

  lemma ReturnStep(c: Config, i: Input)
    requires !Terminal(c) && ComesBack(c)
    ensures ComesBack(Next(c, i))
  {
    hide RecoveryPermission;
    var s := c.state;
    if i.fault {
    } else if c.node == PermissionNode {
      ReturnIsRefused(s, i.proposalId, i.now);
    } else {
      var t := TerminationRouter(s);
      assert t.chain == s.chain && t.belief == s.belief && t.incident == s.incident.(audit := t.incident.audit);
    }
  }

  lemma {:induction false} ReturnsForever(trace: seq<Config>, inputs: seq<Input>, j: nat, k: nat)
    requires IsRun(trace, inputs) && j <= k < |trace| && ComesBack(trace[j])
    ensures ComesBack(trace[k])
    decreases k - j
  {
    hide Next;
    if j < k {
      ReturnsForever(trace, inputs, j, k - 1);
      ReturnStep(trace[k - 1], inputs[k - 1]);
    }
  }

  lemma ExecutorKeepsTarget(s: State, result: ExecuteResult, now: int, later: int)
    requires TargetNamed(s)
    ensures TargetNamed(ExecuteAction(s, result, now, later).state)
  {
    ExecuteFrame(s, result, now, later);
  }

  lemma ExecutorKeepsProposed(s: State, result: ExecuteResult, now: int, later: int)
    requires DryRunBound(s) && s.incident.status == Recovering && MutationAuthorized(s, now, later) && result in {Confirmed, ResultUnknown}
    ensures var r := ExecuteAction(s, result, now, later);
            r.Done? && ProposalMade(r.state) && r.state.incident.recovery.outcome == (if result == Confirmed then Succeeded else UnknownOutcome) && r.state.chain == s.chain && r.state.control.pendingReflection == s.control.pendingReflection
            && r.state.incident.namespace == s.incident.namespace && r.state.incident.resource == s.incident.resource
            && r.state.incident.status == (if result == Confirmed then Verifying else NeedsAttention)
            && r.state.control.termination == (if result == Confirmed then s.control.termination else Some(OutcomeUnknown))
  {
    ExecuteFrame(s, result, now, later);
  }

  lemma ExecutorRoutes(s: State, t: State, confirmed: bool)
    requires ProposalMade(t) && TargetNamed(t) && t.control.termination.Some?
    requires t.incident.status == if confirmed then Verifying else NeedsAttention
    requires t.control.pendingReflection == s.control.pendingReflection
    ensures s.control.pendingReflection.Some? ==>
              AfterExecutor(Done(t)).node == TerminationRouterNode && ComesBack(AfterExecutor(Done(t)))
    ensures s.control.pendingReflection.None? ==>
              AfterExecutor(Done(t)).node == if confirmed then VerificationController else Finalizer
  {
  }

  lemma ExecutorNext(c: Config, i: Input)
    requires c.node == ActionExecutor && !i.fault
    ensures Next(c, i) == AfterExecutor(ExecuteAction(c.state, i.result, i.now, i.later))
  {
  }

  /** The step out of an authorized execution whose call was made or is in doubt. */
  lemma AuthorizedExecutionStep(c: Config, i: Input, permission: State)
    requires c.node == ActionExecutor && !i.fault && MutationAuthorized(c.state, i.now, i.later) && i.result in {Confirmed, ResultUnknown}
    requires Inherited(permission, c.state)
    ensures permission.control.pendingReflection.Some? ==> ComesBack(Next(c, i)) && Next(c, i).node == TerminationRouterNode
    ensures permission.control.pendingReflection.None? ==>
              Next(c, i).node == if i.result == Confirmed then VerificationController else Finalizer
    ensures i.result == ResultUnknown ==>
              Next(c, i).state.incident.status == NeedsAttention && Next(c, i).state.control.termination == Some(OutcomeUnknown)
              && Next(c, i).state.incident.recovery.outcome == UnknownOutcome
  {
    var r := ExecuteAction(c.state, i.result, i.now, i.later);
    ExecutorNext(c, i);
    ExecutorKeepsProposed(c.state, i.result, i.now, i.later);
    ExecutorKeepsTarget(c.state, i.result, i.now, i.later);
    ExecutorRoutes(permission, r.state, i.result == Confirmed);
    assert AfterExecutor(r).state == r.state;
  }

  /**
   A confirmed mutation is verified exactly when no reflection was pending at the permission
   node. Otherwise the run goes back to the Brain, is refused there, and is neither verified
   nor finalized at any later point.
   */
  lemma ConfirmedMutationIsVerifiedIff(trace: seq<Config>, inputs: seq<Input>, k: nat)
    requires IsRun(trace, inputs) && Initial(trace[0]) && k < |inputs| && trace[k].node == ActionExecutor
    requires !inputs[k].fault && MutationAuthorized(trace[k].state, inputs[k].now, inputs[k].later) && inputs[k].result == Confirmed
    ensures StagesBefore(trace, k)
    ensures trace[k + 1].node == VerificationController <==> trace[k - 5].state.control.pendingReflection.None?
    ensures trace[k - 5].state.control.pendingReflection.Some? ==>
              forall j :: k < j < |trace| ==> trace[j].node !in {VerificationController, Finalizer, Finished}
  {
    hide Next, Inherited, MutationAuthorized, ComesBack;
    ExecutorInherits(trace, inputs, k);
    AuthorizedExecutionStep(trace[k], inputs[k], trace[k - 5].state);
    if trace[k - 5].state.control.pendingReflection.Some? {
      forall j | k < j < |trace|
        ensures trace[j].node !in {VerificationController, Finalizer, Finished}
      {
        ReturnsForever(trace, inputs, k + 1, j);
        ComesBackWhere(trace[j]);
      }
    }
  }

  /** An unconfirmed call is left to a person and never made again in the attempt, whatever happens next. */
  lemma UnknownOutcomeIsNotReplayed(trace: seq<Config>, inputs: seq<Input>, k: nat, j: nat)
    requires IsRun(trace, inputs) && Initial(trace[0]) && k < j < |trace| && trace[k].node == ActionExecutor
    requires !inputs[k].fault && MutationAuthorized(trace[k].state, inputs[k].now, inputs[k].later) && inputs[k].result == ResultUnknown
    ensures trace[k + 1].state.incident.status == NeedsAttention
    ensures trace[k + 1].state.control.termination == Some(OutcomeUnknown)
    ensures trace[j].node != ActionExecutor && trace[j].state.incident.recovery == trace[k + 1].state.incident.recovery
    ensures trace[j].state.incident.recovery.outcome == UnknownOutcome
  {
    hide Next, Inherited, MutationAuthorized, ComesBack;
    ExecutorInherits(trace, inputs, k);
    AuthorizedExecutionStep(trace[k], inputs[k], trace[k - 5].state);
    PastExecutionForever(trace, inputs, k + 1, j);
  }

  // ---------------------------------------------------------------- a recovery that failed

  /** The executor was entered with a valid context and nothing was executed: refused, or expired before the second look. */
  predicate NothingExecuted(s: State, i: Input) {
    ContextValid(s, i.now) && (i.result == Refused || !IncidentContextValid(s.incident, i.later))
  }

  lemma RefusedExecutionStep(c: Config, i: Input)
    requires c.node == ActionExecutor && !i.fault && c.state.incident.status == Recovering && NothingExecuted(c.state, i)
    ensures var finalized := c.state.control.pendingReflection.None? && !ReflectionAvailable(c.state, RecoveryFailure);
            Next(c, i).node == (if finalized then Finalizer else TerminationRouterNode)
            && Next(c, i).state.incident.status == Status.RecoveryFailed
            && Next(c, i).state.incident.recovery.outcome == Failed
  {
    hide BrainNext, ContextMatches;
  }

  /**
   An execution that was refused is finalized if and only if no reflection was pending and none
   can be paid for; otherwise the run goes back to the Brain and never reaches the finalizer.
   */
  lemma RefusedExecutionIsFinalizedIff(trace: seq<Config>, inputs: seq<Input>, k: nat)
    requires IsRun(trace, inputs) && Initial(trace[0]) && k < |inputs| && trace[k].node == ActionExecutor
    requires !inputs[k].fault && NothingExecuted(trace[k].state, inputs[k])
    ensures var finalized := trace[k].state.control.pendingReflection.None? && !ReflectionAvailable(trace[k].state, RecoveryFailure);
            && (trace[k + 1].node == Finalizer <==> finalized)
            && (!finalized ==> forall j :: k < j < |trace| ==> trace[j].node !in {Finalizer, Finished})
  {
    hide Next, NothingExecuted, ReflectionAvailable;
    ExecutorIsBound(trace, inputs, k);
    RefusedExecutionStep(trace[k], inputs[k]);
    if trace[k + 1].node == TerminationRouterNode {
      forall j | k < j < |trace|
        ensures trace[j].node !in {Finalizer, Finished}
      {
        FailedRecoveryNeverFinishes(trace, inputs, k + 1, j);
      }
    }
  }

  lemma IntoVerification(c: Config, i: Input)
    requires !Terminal(c) && Next(c, i).node == VerificationController
    ensures Next(c, i).state.control.pendingReflection.None?
  {
    hide BrainNext, RecoveryPermission, ContextMatches;
    if InBrain(c.node) {
      BrainKeepsStatus(c, i);
    }
  }

  lemma FailedVerificationStep(c: Config, i: Input)
    requires c.node == VerificationController && !i.fault && c.state.incident.status == Verifying
    requires c.state.control.pendingReflection.None? && Verify(i.rounds, None, c.state.verification).0 == VerdictFailed
    ensures var finalized := !ReflectionAvailable(c.state, VerificationFailure);
            Next(c, i).node == (if finalized then Finalizer else TerminationRouterNode)
            && Next(c, i).state.incident.status == Status.RecoveryFailed
  {
    hide BrainNext, Verify;
  }

  lemma VerificationIsEntered(trace: seq<Config>, inputs: seq<Input>, k: nat)
    requires IsRun(trace, inputs) && Initial(trace[0]) && k < |trace| && trace[k].node == VerificationController
    ensures trace[k].state.incident.status == Verifying && trace[k].state.control.pendingReflection.None?
  {
    hide Next;
    ChainOverRuns(trace, inputs, k);
    assert k > 0;
    IntoVerification(trace[k - 1], inputs[k - 1]);
  }

  // ---------------------------------------------------------------- what the verification decides

  lemma CountStaysPut(c: Config, i: Input)
    requires !Terminal(c) && c.node != VerificationController
    ensures Next(c, i).state.verification == c.state.verification
    ensures Next(c, i).node == VerificationController ==> c.node == ActionExecutor
  {
    hide ContextMatches, GroundedDecision;
    var s := c.state;
    if InBrain(c.node) {
      BrainKeepsCount(c, i);
    } else if !i.fault {
      OuterKeepsCount(c, i);
    }
  }

  lemma OuterKeepsCount(c: Config, i: Input)
    requires !Terminal(c) && !InBrain(c.node) && c.node != VerificationController && !i.fault
    ensures Next(c, i).state.verification == c.state.verification
    ensures Next(c, i).node == VerificationController ==> c.node == ActionExecutor
  {
    hide BrainNext, ContextMatches, RecoveryPermission, ExecuteAction, DryRunNode, ResumeApproval;
    var s := c.state;
    match c.node
    case PermissionNode => PermissionFrame(s, i.proposalId, i.now);
    case DryRunStage => DryRunFrame(s, i.cluster);
    case ApprovalResume => ResumeFrame(s, i.resume);
    case ActionExecutor => ExecuteFrame(s, i.result, i.now, i.later);
    case _ =>
  }

  lemma {:induction false} ClassifyKeepsCount(s: State, outputs: seq<Output>)
    ensures ClassifyAll(s, outputs).verification == s.verification
  {
    if outputs != [] {
      ClassifyKeepsCount(s, outputs[..|outputs| - 1]);
    }
  }

  lemma {:induction false} CommitKeepsCount(s: State)
    ensures BeliefCommit(s).state.verification == s.verification
    decreases |s.belief.beliefDeltas| - s.belief.beliefCursor
  {
    var b := s.belief;
    if b.beliefCursor < |b.beliefDeltas| {
      var d := b.beliefDeltas[b.beliefCursor];
      var next := s.(belief := b.(beliefCursor := b.beliefCursor + 1));
      var i := IndexOf(b.hypotheses, d.hypothesisId);
      if !d.committed {
        CommitKeepsCount(next);
      } else if i >= 0 && CommitAccepted(b.hypotheses[i], d) {
        CommitKeepsCount(next.(belief := next.belief.(hypotheses := b.hypotheses[i := b.hypotheses[i].(confidence := d.updated)])));
      }
    }
  }

  lemma BrainKeepsCount(c: Config, i: Input)
    requires InBrain(c.node)
    ensures Next(c, i).state.verification == c.state.verification
    ensures Next(c, i).node != VerificationController
  {
    hide OuterNext;
    var s := c.state;
    BrainKeepsStatus(c, i);
    if i.fault {
    } else if c.node == ResultClassifier {
      ClassifyKeepsCount(s, c.outputs);
    } else if c.node == BeliefCommitNode {
      CommitKeepsCount(s);
    } else if c.node in {ContextBuilder, ReflectionContextBuilder} {
      assert BuildContext(s, c.node == ReflectionContextBuilder, i.turn).state.verification == s.verification;
    } else if c.node == ReflectionRouter {
      assert ReflectionRoute(s).0.verification == s.verification;
    }
  }

  /** Nothing was counted before the only verification of the attempt. */
  lemma {:induction false} CountIsFresh(trace: seq<Config>, inputs: seq<Input>, k: nat)
    requires IsRun(trace, inputs) && Initial(trace[0]) && k < |trace|
    requires forall j :: 0 <= j < k ==> trace[j].node != VerificationController
    ensures trace[k].state.verification == VerificationCount(0, 0)
  {
    hide Next;
    if k > 0 {
      CountIsFresh(trace, inputs, k - 1);
      CountStaysPut(trace[k - 1], inputs[k - 1]);
    }
  }

  lemma BeforeVerification(trace: seq<Config>, inputs: seq<Input>, k: nat)
    requires IsRun(trace, inputs) && Initial(trace[0]) && k < |trace| && trace[k].node == VerificationController
    ensures k > 0 && trace[k - 1].node == ActionExecutor
  {
    hide Next;
    if trace[k - 1].node == VerificationController {
      VerificationIsLeft(trace[k - 1], inputs[k - 1]);
    } else {
      CountStaysPut(trace[k - 1], inputs[k - 1]);
    }
  }

  lemma VerificationIsLeft(c: Config, i: Input)
    requires c.node == VerificationController
    ensures Next(c, i).node != VerificationController
  {
    hide BrainNext, Verify;
  }

  lemma VerifiedAtMostOnce(trace: seq<Config>, inputs: seq<Input>, j: nat, k: nat)
    requires IsRun(trace, inputs) && Initial(trace[0]) && j < k < |trace|
    ensures trace[j].node == VerificationController ==> trace[k].node != VerificationController
  {
    hide Next;
    if trace[j].node == VerificationController && trace[k].node == VerificationController {
      BeforeVerification(trace, inputs, j);
      BeforeVerification(trace, inputs, k);
      ExecutorRunsAtMostOnce(trace, inputs, j - 1, k - 1);
    }
  }

  lemma VerificationStep(c: Config, i: Input)
    requires c.node == VerificationController && !i.fault && c.state.incident.status == Verifying
    ensures var verdict, next := Verify(i.rounds, None, c.state.verification).0, Next(c, i);
            && (next.state.incident.status == Resolved <==> verdict == VerdictResolved)
            && (next.state.incident.status == Status.RecoveryFailed <==> verdict == VerdictFailed)
            && (next.node == GraphFailure <==> verdict == VerdictCancelled)
  {
    hide BrainNext, Verify;
  }

  /**
   Over every run: the incident is resolved exactly when three healthy rounds of the one
   verification follow each other before the time is up, its recovery has failed exactly when
   the time is up first, and the graph fails when neither happens before the rounds end.
   */
  lemma ResolvedIff(trace: seq<Config>, inputs: seq<Input>, k: nat)
    requires IsRun(trace, inputs) && Initial(trace[0]) && k < |inputs| && trace[k].node == VerificationController && !inputs[k].fault
    ensures var rounds, next := inputs[k].rounds, trace[k + 1];
            && (next.state.incident.status == Resolved <==>
                  exists m :: HealthyTriple(rounds, m) && forall j :: 0 <= j < m ==> rounds[j].remaining > 0)
            && (next.state.incident.status == Status.RecoveryFailed <==>
                  exists m :: 0 <= m < |rounds| && rounds[m].remaining <= 0 && forall j :: 0 <= j <= m ==> !HealthyTriple(rounds, j))
            && (next.node == GraphFailure <==> next.state.incident.status !in {Resolved, Status.RecoveryFailed})
  {
    hide Next, Verify, HealthyTriple;
    forall j | 0 <= j < k
      ensures trace[j].node != VerificationController
    {
      VerifiedAtMostOnce(trace, inputs, j, k);
    }
    CountIsFresh(trace, inputs, k);
    VerificationIsEntered(trace, inputs, k);
    VerificationStep(trace[k], inputs[k]);
    VerdictFromZeroIff(inputs[k].rounds, 0);
  }

  /**
   A verification that ran out of time is finalized if and only if no reflection can be paid
   for; otherwise the run goes back to the Brain and never reaches the finalizer.
   */
  lemma FailedVerificationIsFinalizedIff(trace: seq<Config>, inputs: seq<Input>, k: nat)
    requires IsRun(trace, inputs) && Initial(trace[0]) && k < |inputs| && trace[k].node == VerificationController
    requires !inputs[k].fault && Verify(inputs[k].rounds, None, trace[k].state.verification).0 == VerdictFailed
    ensures var finalized := !ReflectionAvailable(trace[k].state, VerificationFailure);
            && (trace[k + 1].node == Finalizer <==> finalized)
            && (!finalized ==> forall j :: k < j < |trace| ==> trace[j].node !in {Finalizer, Finished})
  {
    hide Next, Verify, ReflectionAvailable;
    VerificationIsEntered(trace, inputs, k);
    FailedVerificationStep(trace[k], inputs[k]);
    if trace[k + 1].node == TerminationRouterNode {
      forall j | k < j < |trace|
        ensures trace[j].node !in {Finalizer, Finished}
      {
        FailedRecoveryNeverFinishes(trace, inputs, k + 1, j);
      }
    }
  }

  /**
   How a reflection outlives the run: the model finishes in the same batch in which another
   call fails. The failure raises a reflection, the finish sets the termination, and the
   reflection router, which looks at reflections only while nothing has ended the run, hands
   both on to the permission node.
   */
  lemma FinishBesideFailureKeepsPending(s: State, finish: Output, failure: Output, reason: TerminationReason)
    requires s.control.phase != Reflecting && Bare(finish.(termination := None)) && finish.termination == Some(reason)
    requires finish.kind == ValidationResult && Denied(failure)
    ensures var t := ClassifyToolResults(s, [finish, failure]);
            t.control.termination == Some(reason) && t.control.pendingReflection.Some?
            && ReflectionRoute(t) == (t, ToTermination)
            && AfterTerminationRouter(TerminationRouter(t)).node == PermissionNode
            && AfterTerminationRouter(TerminationRouter(t)).state.control.pendingReflection == t.control.pendingReflection
  {
    var outputs := [finish, failure];
    assert outputs[..1] == [finish] && outputs[..1][..0] == [];
    var one := ClassifyOne(s, finish);
    assert ClassifyAll(s, []) == s;
    assert ClassifyAll(s, [finish]) == one;
    FinishSets(s.control.(budget := CountCall(s.control.budget)), finish);
    FailureRaises(one.control.(budget := CountCall(one.control.budget)), failure);
    assert ClassifyAll(s, outputs) == ClassifyOne(one, failure);
  }

  lemma FinishSets(c: Control, o: Output)
    requires c.phase != Reflecting && Bare(o.(termination := None)) && o.termination.Some? && o.kind == ValidationResult
    ensures ApplyControl(c, o).termination == o.termination && ApplyControl(c, o).phase == c.phase
  {
  }

  lemma FailureRaises(c: Control, o: Output)
    requires c.phase != Reflecting && Denied(o)
    ensures ApplyControl(c, o).pendingReflection.Some? && ApplyControl(c, o).termination == c.termination
  {
  }

  /** A reflection raised in the batch that ended the run. */
  predicate Overtaken(c: Control) {
    c.termination.Some? && c.pendingReflection.Some?
  }

  lemma OvertakenStep(c: Config, i: Input)
    requires c.node in {ObservationNode, BeliefUpdateNode, BeliefCommitNode, ReflectionRouter, TerminationRouterNode}
    requires !i.fault && Overtaken(c.state.control)
    requires c.node == BeliefCommitNode ==> Next(c, i).node != GraphFailure
    ensures Overtaken(Next(c, i).state.control)
    ensures c.node == BeliefCommitNode ==> Next(c, i).node == ReflectionRouter
    ensures c.node == ReflectionRouter ==> Next(c, i).node == TerminationRouterNode
    ensures c.node == TerminationRouterNode ==> Next(c, i).node == PermissionNode
    ensures c.node == ObservationNode ==> Next(c, i).node == BeliefUpdateNode
    ensures c.node == BeliefUpdateNode ==> Next(c, i).node == BeliefCommitNode
  {
    hide OuterNext, BeliefCommit;
    if c.node == BeliefCommitNode {
      CommitKeepsControl(c.state);
    } else if c.node == ObservationNode {
      assert ObserveUpdate(c.state, i.ranked).control == c.state.control;
    }
  }

  /**
   Over all runs: when a batch leaves both a termination and a pending reflection behind, the
   run reaches the permission node five nodes later with the reflection still pending.
   */
  lemma PendingSurvivesTermination(trace: seq<Config>, inputs: seq<Input>, k: nat)
    requires IsRun(trace, inputs) && Initial(trace[0]) && k + 6 < |trace| && trace[k].node == ResultClassifier
    requires forall j :: k <= j < k + 6 ==> !inputs[j].fault
    requires !RepeatsRevision(trace[k].outputs) && Overtaken(ClassifyToolResults(trace[k].state, trace[k].outputs).control)
    ensures trace[k + 6].node == PermissionNode && Overtaken(trace[k + 6].state.control)
  {
    hide Next, ClassifyToolResults, Overtaken, RepeatsRevision;
    CommitFailsIffRevisionRepeated(trace, inputs, k);
    ToolResultSteps(trace[k], inputs[k]);
    assert Next(trace[k], inputs[k]) == trace[k + 1];
    var j := k + 1;
    while j < k + 6
      invariant k < j <= k + 6 && Overtaken(trace[j].state.control)
      invariant trace[j].node == [ObservationNode, BeliefUpdateNode, BeliefCommitNode, ReflectionRouter, TerminationRouterNode, PermissionNode][j - k - 1]
    {
      assert Next(trace[j], inputs[j]) == trace[j + 1];
      OvertakenStep(trace[j], inputs[j]);
      j := j + 1;
    }
  }
}
