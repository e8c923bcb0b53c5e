/**
 What single nodes decide, in terms of the state they see, and what follows for whole runs:
 evidence only grows, the code version is frozen, a method without reflections never reflects,
 and a spent tool budget leaves only the closing phases.
 */
module NodeOutcomes {
  import opened Domain
  import opened WorkflowSpec
  import opened WorkflowGraph
  import opened NodeFrames
  import opened BrainLoop
  import opened BrainBudgets
  import opened BeliefLedger
  import opened RecoveryChain

  // ---------------------------------------------------------------- tool calls and results

  predicate FitsGate(c: Control, k: nat) {
    && (EffectiveCategory(c) == EvidenceTools ==> k <= c.budget.limits.maxParallelReadTools)
    && (if c.budget.usage.toolCalls < c.budget.limits.maxToolCalls
        then k <= c.budget.limits.maxToolCalls - c.budget.usage.toolCalls else k <= 1)
  }

  /** The gateway lets the longest prefix of the calls pass that the limits allow. */
  lemma GateKeepsMost(c: Control, calls: seq<ToolCall>)
    ensures var kept := GateCalls(c, calls);
            && kept <= calls && FitsGate(c, |kept|)
            && forall k: nat :: k <= |calls| && FitsGate(c, k) ==> k <= |kept|
  {
    hide EffectiveCategory;
  }

  /** Of two records with one ID the newer stays; nothing is lost, and nothing has an empty ID. */
  lemma NewerEvidenceWins(left: EvidenceStore, right: EvidenceStore, id: string)
    ensures var merged := MergeEvidence(left, right);
            && (id in merged <==> id != "" && (id in left || id in right))
            && (id != "" && id in right ==> merged[id] == right[id])
            && (id != "" && id in left && id !in right ==> merged[id] == left[id])
  {
  }

  /** A merged revision marks its parents as merged, any other but a root as replaced; nobody else changes. */
  lemma ParentsAreRetired(hypotheses: seq<Hypothesis>, child: Hypothesis, i: nat)
    requires i < |hypotheses|
    ensures var after := MarkParents(hypotheses, child);
            && |after| == |hypotheses|
            && after[i] == hypotheses[i].(status := after[i].status)
            && (child.relation == Root || hypotheses[i].id !in child.parents ==> after[i].status == hypotheses[i].status)
            && (child.relation == Merge && hypotheses[i].id in child.parents ==> after[i].status == Merged)
            && (child.relation !in {Root, Merge} && hypotheses[i].id in child.parents ==> after[i].status == Replaced)
  {
  }

  /** A grounding speaks for the hypothesis it names alone: supported if grounded, refuted if refuted, open otherwise. */
  lemma GroundingMarks(hypotheses: seq<Hypothesis>, g: Grounding, i: nat)
    requires i < |hypotheses|
    ensures var after := MarkGrounded(hypotheses, g);
            && |after| == |hypotheses|
            && (hypotheses[i].id != g.hypothesisId ==> after[i] == hypotheses[i])
            && (hypotheses[i].id == g.hypothesisId ==>
                  && after[i] == hypotheses[i].(status := after[i].status, validatedSnapshot := g.snapshot)
                  && (after[i].status == Supported <==> g.level == Grounded)
                  && (after[i].status == Refuted <==> g.level == RefutedLevel)
                  && (after[i].status == Investigating <==> g.level in {PartiallyGrounded, UnknownLevel}))
  {
  }

  /** Only the newest unseen grounding change speaks: a needed revision before a conflict, and every change is seen once. */
  lemma NewestChangeSpeaks(s: State)
    ensures var t, deltas := BeliefUpdate(s), s.belief.groundingDeltas;
            var unseen := s.belief.groundingCursor < |deltas|;
            && t == s.(belief := t.belief, control := t.control)
            && t.belief == s.belief.(groundingCursor := if unseen then |deltas| else s.belief.groundingCursor)
            && t.control == s.control.(pendingReflection := t.control.pendingReflection)
            && (unseen && deltas[|deltas| - 1].suggestedRevision ==> t.control.pendingReflection == Some(GroundingFailure))
            && (unseen && !deltas[|deltas| - 1].suggestedRevision && deltas[|deltas| - 1].conflict ==>
                  t.control.pendingReflection == Some(CandidateConflict))
            && (!unseen || (!deltas[|deltas| - 1].suggestedRevision && !deltas[|deltas| - 1].conflict) ==>
                  t.control.pendingReflection == s.control.pendingReflection)
  {
  }

  /** A new recovery plan starts over: no permission, dry run or proposal of an older plan survives it, and without one they all stay. */
  lemma NewPlanStartsOver(s: State, o: Output)
    ensures var t := ApplyOutput(s, o);
            && (o.recoveryPlan.Some? ==>
                  && t.chain.plan == o.recoveryPlan && t.chain.permission.None? && t.chain.dryRun.None?
                  && t.incident.proposal.None? && t.incident.dryRun.None?)
            && (o.recoveryPlan.None? ==>
                  && t.chain.plan == s.chain.plan && t.chain.permission == s.chain.permission && t.chain.dryRun == s.chain.dryRun
                  && t.incident.proposal == s.incident.proposal && t.incident.dryRun == s.incident.dryRun)
            && t.chain.diagnosis == (if o.diagnosis.Some? then o.diagnosis else s.chain.diagnosis)
  {
    hide ApplyControl, ApplyBelief, MergeEvidence;
  }

  // ---------------------------------------------------------------- reflections

  /** Which reflection a tool result raises: failures by their kind, evidence if it is new, a validation if it refutes. */
  lemma ResultRaises(c: Control, o: Output)
    ensures var d := ApplyTrigger(c, o);
            var news := o.kind == EvidenceResult && o.newInformation;
            var refuting := o.kind == ValidationResult && o.grounding.Some? && o.grounding.value.level == RefutedLevel;
            && d == c.(pendingReflection := d.pendingReflection)
            && (o.kind == ConstraintResult ==> d.pendingReflection == Some(ConstraintFailure))
            && (o.kind == ErrorResult ==> d.pendingReflection == Some(ToolFailure))
            && (news ==> d.pendingReflection == Some(CriticalEvidence))
            && (refuting ==> d.pendingReflection == Some(HypothesisRefuted))
            && (o.kind !in {ConstraintResult, ErrorResult} && !news && !refuting ==> d == c)
  {
  }

  /** The run goes on, with turns, tool calls and reflection cost to spare. */
  predicate MayReflect(s: State) {
    var b := s.control.budget;
    && s.control.termination.None? && s.control.pendingReflection.Some? && s.incident.strategy != KubePilotNoReflection
    && (b.limits.maxTurns == 0 || b.usage.turns < b.limits.maxTurns)
    && (b.limits.maxToolCalls == 0 || b.usage.toolCalls < b.limits.maxToolCalls)
    && b.usage.reflectionCost + ReflectionCost(s.control.pendingReflection.value) <= b.limits.maxReflectionCost
  }

  /** When a pending reflection is taken, what it costs, and what an unaffordable one leads to. */
  lemma ReflectsIff(s: State)
    ensures var (t, route) := ReflectionRoute(s);
            && (route == ToReflection <==> MayReflect(s))
            && t == s.(control := t.control)
            && (route == ToReflection ==>
                  var trigger := s.control.pendingReflection.value;
                  && t.control.budget.usage.reflectionCost == s.control.budget.usage.reflectionCost + ReflectionCost(trigger)
                  && t.control.reflections == s.control.reflections + [Reflection(trigger, ReflectionCost(trigger), false)]
                  && t.control.termination.None?)
            && (route == ToTermination ==>
                  && t.control.reflections == s.control.reflections
                  && t.control.budget.usage == s.control.budget.usage
                  && (s.control.termination.Some? ==> t == s)
                  && (s.control.termination.None? ==>
                        (t.control.termination == Some(SafetyBlocked) <==> Unaffordable(s))))
  {
  }

  /** Only the cost is missing for reflecting on a failed recovery or verification. */
  predicate Unaffordable(s: State) {
    var b := s.control.budget;
    && s.control.termination.None? && s.incident.strategy != KubePilotNoReflection
    && s.control.pendingReflection in {Some(RecoveryFailure), Some(VerificationFailure)}
    && (b.limits.maxTurns == 0 || b.usage.turns < b.limits.maxTurns)
    && (b.limits.maxToolCalls == 0 || b.usage.toolCalls < b.limits.maxToolCalls)
    && b.usage.reflectionCost + 3 > b.limits.maxReflectionCost
  }

  /** A belief change, a hypothesis or a Skill request ends a reflection; the newest record alone is marked as accepted. */
  lemma ReflectionEnds(c: Control, o: Output)
    ensures var d := ResolveReflection(c, o);
            var ends := c.phase == Reflecting && (o.beliefDelta.Some? || o.hypotheses != [] || o.requestedSkills != []);
            && (!ends ==> d == c)
            && (ends ==>
                  && d.phase == c.resumePhase && d.pendingReflection.None? && d.pendingTermination.None?
                  && d.termination == (if c.pendingTermination.Some? then c.pendingTermination else c.termination)
                  && |d.reflections| == |c.reflections|
                  && (forall k :: 0 <= k < |c.reflections| - 1 ==> d.reflections[k] == c.reflections[k])
                  && (c.reflections != [] ==>
                        var last := |c.reflections| - 1;
                        d.reflections[last] == c.reflections[last].(accepted := true)))
  {
  }

  // ---------------------------------------------------------------- stopping, dry run, approval, execution

  /** A reason other than a confident diagnosis survives; without one the diagnosis decides whether the end is provisional. */
  lemma StopKeepsReason(s: State)
    ensures var r := FinishWithoutRecovery(s);
            var kept := s.control.termination.Some? && s.control.termination != Some(DiagnosisConfident);
            && (kept ==> r.state.control.termination == s.control.termination)
            && (!kept && s.chain.diagnosis.Some? && s.chain.diagnosis.value.provisional ==>
                  r.state.control.termination == Some(DiagnosisProvisional))
            && (!kept && !(s.chain.diagnosis.Some? && s.chain.diagnosis.value.provisional) ==>
                  r.state.control.termination == Some(SafetyBlocked))
            && (r.Done? <==> s.incident.status in {Received, Correlating, Collecting, Diagnosing, Proposing, AwaitingApproval, Recovering,
                                                   Verifying, NeedsAttention})
            && (r.Done? ==> r.state.incident.status == NeedsAttention)
  {
  }

  /** A dry run succeeds exactly when the target is found, a registered action may run on it, and the server accepts it. */
  lemma DryRunSucceedsIff(p: Proposal, k: Cluster)
    ensures var (q, d) := DryRunProposal(p, k);
            && (d.success <==>
                  && k.target.Some? && k.dryRunSupported && k.after.Some? && !p.action.Unregistered?
                  && (p.action == ScaleDeployment ==>
                        p.parameters.replicas.Some? && 1 <= p.parameters.replicas.value <= 10))
            && (d.success ==>
                  && d.after == k.after.value && d.validatedAt == k.now
                  && q.parameters.replicas == p.parameters.replicas
                  && q.parameters.restartedAt == if p.action == RestartPod then Some(k.stamp) else p.parameters.restartedAt)
  {
  }

  /** An operator's answer while the incident waits for it. */
  lemma ApprovalOutcome(s: State, r: Resume)
    requires s.incident.status == AwaitingApproval
    ensures var n := ResumeApproval(s, r);
            var given := s.(chain := s.chain.(context := Some(r.context)), incident := s.incident.(context := Some(r.context)));
            && n.Done?
            && (n.state.incident.status == Rejected <==> !r.approved)
            && (n.state.incident.status == Recovering <==> r.approved && ContextValid(given, r.now))
            && (n.state.incident.status == NeedsAttention <==> r.approved && !ContextValid(given, r.now))
            && (n.state.incident.status == Recovering ==> n.state.control.termination == s.control.termination)
            && (n.state.incident.status == Rejected ==> n.state.control.termination == Some(ApprovalRejected))
            && (n.state.incident.status == NeedsAttention ==> n.state.control.termination == Some(SafetyBlocked))
  {
    hide ContextValid;
  }

  /** What the executor records: an attempt exactly when the first check passes, and the outcome the executor reports. */
  lemma ExecutionIsRecorded(s: State, result: ExecuteResult, now: int, later: int)
    requires s.incident.status == Recovering
    ensures var r := ExecuteAction(s, result, now, later);
            var before, after := s.incident.recovery, r.state.incident.recovery;
            var authorized := ContextValid(s, now) && IncidentContextValid(s.incident, later);
            && r.Done?
            && (after.attempts == before.attempts + if ContextValid(s, now) then 1 else 0)
            && (!ContextValid(s, now) ==> after == before && r.state.incident.status == NeedsAttention)
            && (ContextValid(s, now) ==>
                  && (after.outcome == Succeeded <==> authorized && result == Confirmed)
                  && (after.outcome == UnknownOutcome <==> authorized && result == ResultUnknown)
                  && (after.outcome == Failed <==> !authorized || result == Refused)
                  && (r.state.incident.status == Verifying <==> after.outcome == Succeeded)
                  && (r.state.incident.status == NeedsAttention <==> after.outcome == UnknownOutcome)
                  && (r.state.incident.status == Status.RecoveryFailed <==> after.outcome == Failed))
  {
    hide ContextValid, IncidentContextValid, ReflectionAvailable;
  }

  // ---------------------------------------------------------------- what no node undoes

  /** Evidence may be replaced but not lost, the method of the run stays, and so does a code version once it is fixed. */
  predicate Carries(s: State, t: State) {
    && t.incident.strategy == s.incident.strategy
    && (forall id :: id in s.incident.evidence && id != "" ==> id in t.incident.evidence)
    && (s.chain.execution.Some? ==> t.chain.execution == s.chain.execution)
  }

  lemma CarriesOn(r: State, s: State, t: State)
    requires Carries(r, s) && Carries(s, t)
    ensures Carries(r, t)
  {
  }

  lemma OutputCarries(s: State, o: Output)
    ensures Carries(s, ClassifyOne(s, o))
  {
  }

  lemma {:induction false} BatchCarries(s: State, outputs: seq<Output>)
    ensures Carries(s, ClassifyAll(s, outputs))
  {
    hide Carries, ClassifyOne;
    if outputs == [] {
      CarriesSelf(s);
    } else {
      var last := |outputs| - 1;
      BatchCarries(s, outputs[..last]);
      OutputCarries(ClassifyAll(s, outputs[..last]), outputs[last]);
      CarriesOn(s, ClassifyAll(s, outputs[..last]), ClassifyAll(s, outputs));
    }
  }

  lemma CarriesSelf(s: State)
    ensures Carries(s, s) && Carries(s, SyncAudit(s))
  {
  }

  lemma ClassifierCarries(s: State, outputs: seq<Output>)
    ensures Carries(s, ClassifyToolResults(s, outputs))
  {
    hide Carries, ClassifyAll, SyncAudit;
    BatchCarries(s, outputs);
    CarriesSelf(ClassifyAll(s, outputs));
    CarriesOn(s, ClassifyAll(s, outputs), ClassifyToolResults(s, outputs));
  }

  lemma ObservationCarries(s: State, ranked: Option<EvidenceStore>)
    ensures Carries(s, ObserveUpdate(s, ranked))
  {
    hide SnapshotOf, InvalidateStale;
  }

  lemma ContextCarries(s: State, reflection: bool, turn: TurnInput)
    ensures Carries(s, BuildContext(s, reflection, turn).state)
  {
    hide PrepareTurn, AllocateTurn, SnapshotOf;
  }

  lemma OtherBrainNodesCarry(c: Config, i: Input)
    requires InBrain(c.node) && !i.fault
    requires c.node !in {ResultClassifier, ObservationNode, ContextBuilder, ReflectionContextBuilder, BeliefCommitNode}
    ensures Carries(c.state, Next(c, i).state)
  {
    RouteKeepsRest(c.state);
    hide OuterNext, ReflectionRoute, HandleInvalidArguments, HandleUnstructured, BeliefUpdate, RecordAnswer, TerminationRouter;
    RestIsCarried(c.state, c.calls, i.answer);
  }

  lemma RouteKeepsRest(s: State)
    ensures Carries(s, ReflectionRoute(s).0)
  {
    ReflectsIff(s);
  }

  lemma RestIsCarried(s: State, calls: seq<ToolCall>, answer: Option<Message>)
    ensures Carries(s, HandleInvalidArguments(s, calls)) && Carries(s, HandleUnstructured(s)) && Carries(s, BeliefUpdate(s))
    ensures Carries(s, RecordAnswer(s, answer).state) && Carries(s, TerminationRouter(s))
  {
  }

  lemma BrainCarries(c: Config, i: Input)
    requires InBrain(c.node)
    ensures Carries(c.state, Next(c, i).state)
  {
    hide OuterNext, Carries, ClassifyToolResults, ObserveUpdate, BuildContext, BeliefCommit;
    var s := c.state;
    if i.fault {
      FailingCarries(s);
    } else if c.node == ResultClassifier {
      ClassifierCarries(s, c.outputs);
    } else if c.node == ObservationNode {
      ObservationCarries(s, i.ranked);
    } else if c.node in {ContextBuilder, ReflectionContextBuilder} {
      ContextCarries(s, c.node == ReflectionContextBuilder, i.turn);
      var t := BuildContext(s, c.node == ReflectionContextBuilder, i.turn).state;
      FailingCarries(t);
      CarriesOn(s, t, FailGraph(t).state);
    } else if c.node == BeliefCommitNode {
      CommitCarries(s);
    } else {
      OtherBrainNodesCarry(c, i);
    }
  }

  lemma FailingCarries(s: State)
    ensures Carries(s, FailGraph(s).state)
  {
  }

  lemma CommitCarries(s: State)
    ensures Carries(s, Continue(BeliefCommit(s), ReflectionRouter).state)
  {
    CommitKeepsChain(s);
  }

  lemma OuterCarries(c: Config, i: Input)
    requires !Terminal(c) && !InBrain(c.node)
    ensures Carries(c.state, Next(c, i).state)
  {
    hide BrainNext, RecoveryPermission, DryRunNode, ResumeApproval, ExecuteAction, VerificationNode;
    var s := c.state;
    if !i.fault {
      match c.node
      case PermissionNode => PermissionFrame(s, i.proposalId, i.now);
      case DryRunStage => DryRunFrame(s, i.cluster);
      case ApprovalResume => ResumeFrame(s, i.resume);
      case ActionExecutor => ExecuteFrame(s, i.result, i.now, i.later);
      case VerificationController => VerificationFrame(s, i.rounds);
      case _ =>
    }
  }

  /**
   Between any two points of a run: no evidence is lost, the method stays, and a code version
   that was fixed once is the code version of the rest of the run.
   */
  lemma {:induction false} NothingIsUndone(trace: seq<Config>, inputs: seq<Input>, j: nat, k: nat)
    requires IsRun(trace, inputs) && j <= k < |trace|
    ensures Carries(trace[j].state, trace[k].state)
    decreases k - j
  {
    hide Next, Carries;
    if j == k {
      CarriesSelf(trace[j].state);
    } else {
      NothingIsUndone(trace, inputs, j, k - 1);
      if InBrain(trace[k - 1].node) {
        BrainCarries(trace[k - 1], inputs[k - 1]);
      } else {
        OuterCarries(trace[k - 1], inputs[k - 1]);
      }
      CarriesOn(trace[j].state, trace[k - 1].state, trace[k].state);
    }
  }

  // ---------------------------------------------------------------- the method without reflections

  lemma IntoReflection(c: Config, i: Input)
    requires !Terminal(c)
    ensures Next(c, i).node == ReflectionContextBuilder ==> c.node == ReflectionRouter && MayReflect(c.state)
    ensures Next(c, i).node == ReflectionUpdate ==> c.node == ReflectionContextBuilder
  {
    hide MayReflect;
    ReflectsIff(c.state);
    hide ReflectionRoute, RecoveryPermission, DryRunNode, ResumeApproval, ExecuteAction, VerificationNode, BuildContext;
  }

  /** The ablation without reflections never builds a reflection context, in any run. */
  lemma WithoutReflections(trace: seq<Config>, inputs: seq<Input>, k: nat)
    requires IsRun(trace, inputs) && Initial(trace[0]) && k < |trace|
    requires trace[0].state.incident.strategy == KubePilotNoReflection
    ensures trace[k].node !in {ReflectionContextBuilder, ReflectionUpdate}
  {
    hide Next;
    if k > 0 {
      IntoReflection(trace[k - 1], inputs[k - 1]);
      NothingIsUndone(trace, inputs, 0, k - 1);
      if k > 1 {
        IntoReflection(trace[k - 2], inputs[k - 2]);
        NothingIsUndone(trace, inputs, 0, k - 2);
      }
    }
  }

  // ---------------------------------------------------------------- what the model sees

  lemma IntoModel(c: Config, i: Input)
    requires !Terminal(c) && Next(c, i).node in {BrainModel, ReflectionUpdate}
    ensures c.node in {ContextBuilder, ReflectionContextBuilder} && !i.fault
    ensures var r := BuildContext(c.state, c.node == ReflectionContextBuilder, i.turn); r.Done? && Next(c, i).state == r.state
  {
    hide ReflectionRoute, RecoveryPermission, DryRunNode, ResumeApproval, ExecuteAction, VerificationNode, BuildContext;
  }

  /** A context for the model: a turn of its own, and the closing phases once the tool calls are spent. */
  predicate Prepared(s: State) {
    var c := s.control;
    && c.turns != [] && c.assistantTurns != []
    && c.assistantTurns[|c.assistantTurns| - 1] == AssistantTurn(c.turns[|c.turns| - 1], false, false)
    && (c.category == ControlTools || c.category in c.skillCategories || c.category == DefaultCategory(c.phase))
    && s.chain.evidence == Some(SnapshotOf(s.incident.evidence))
    && s.chain.execution.Some? && s.incident.execution == s.chain.execution
    && (c.budget.limits.maxToolCalls > 0 && c.budget.usage.toolCalls >= c.budget.limits.maxToolCalls ==>
          && c.budget.toolCallsExhausted && c.pendingReflection.None? && c.requestedSkills == []
          && c.phase == if s.chain.diagnosis.Some? then Escalation else Diagnosis)
  }

  lemma BuiltIsPrepared(s: State, reflection: bool, turn: TurnInput)
    ensures var r := BuildContext(s, reflection, turn); r.Done? ==> Prepared(r.state)
  {
    hide SnapshotOf;
  }

  /** A reflection remembers the phase it interrupts, unless the tool calls are spent and the run is closing. */
  lemma ReflectionOpens(s: State, turn: TurnInput)
    requires s.control.budget.limits.maxTurns > 0 && s.control.phase != NoPhase
    requires s.control.budget.limits.maxToolCalls == 0 || s.control.budget.usage.toolCalls < s.control.budget.limits.maxToolCalls
    ensures var c, d := s.control, BuildContext(s, true, turn).state.control;
            && d.phase == Reflecting && d.resumePhase == (if c.phase == Reflecting then c.resumePhase else c.phase)
            && d.pendingReflection == c.pendingReflection
    ensures var c, d := s.control, BuildContext(s, false, turn).state.control;
            && d.phase == c.phase && d.resumePhase == c.resumePhase && d.pendingReflection == c.pendingReflection
  {
    hide SnapshotOf;
  }

  /** Whenever the model is asked, the context is prepared in this sense. */
  lemma ModelSeesPreparedContext(trace: seq<Config>, inputs: seq<Input>, k: nat)
    requires IsRun(trace, inputs) && Initial(trace[0]) && k < |trace| && trace[k].node in {BrainModel, ReflectionUpdate}
    ensures Prepared(trace[k].state)
  {
    hide Next, Prepared;
    IntoModel(trace[k - 1], inputs[k - 1]);
    BuiltIsPrepared(trace[k - 1].state, trace[k - 1].node == ReflectionContextBuilder, inputs[k - 1].turn);
  }

  lemma NewestSlot(s: State, answer: Option<Message>)
    requires Prepared(s)
    ensures var r := RecordAnswer(s, answer);
            && (r.Done? <==> answer.Some?)
            && (answer.Some? ==>
                  var last := |s.control.assistantTurns| - 1;
                  r.state == s.(control := s.control.(assistantTurns :=
                    s.control.assistantTurns[last := AssistantTurn(s.control.turns[|s.control.turns| - 1], answer.value.content,
                                                                   answer.value.calls != [])])))
  {
  }

  lemma ModelStep(c: Config, i: Input)
    requires c.node in {BrainModel, ReflectionUpdate} && !i.fault
    ensures Next(c, i) == AfterModel(c.state, i.answer)
  {
    hide OuterNext;
  }

  /** An answer of the model is recorded in the turn it was asked in, and nowhere else. */
  lemma AnswerIsRecorded(trace: seq<Config>, inputs: seq<Input>, k: nat)
    requires IsRun(trace, inputs) && Initial(trace[0]) && k < |inputs| && trace[k].node in {BrainModel, ReflectionUpdate}
    requires !inputs[k].fault && inputs[k].answer.Some?
    ensures var s, t, answer := trace[k].state, trace[k + 1].state, inputs[k].answer.value;
            && s.control.turns != [] && s.control.assistantTurns != []
            && var last := |s.control.assistantTurns| - 1;
            && trace[k + 1].node == ActionGateway && trace[k + 1].calls == answer.calls
            && t == s.(control := s.control.(assistantTurns := s.control.assistantTurns[last :=
                 AssistantTurn(s.control.turns[|s.control.turns| - 1], answer.content, answer.calls != [])]))
  {
    hide Next;
    ModelSeesPreparedContext(trace, inputs, k);
    ModelStep(trace[k], inputs[k]);
    NewestSlot(trace[k].state, inputs[k].answer);
    hide RecordAnswer;
  }
}
