/**
 The workflow state as the source has it: one object whose fields the graph nodes update.
 Each node method is proved to do to the fields exactly what its function in `WorkflowSpec`
 does to the state, so everything `BrainLoop`, `BrainBudgets`, `BeliefLedger`,
 `RecoveryChain`, `WorkflowSafety` and `WorkflowTermination` prove about runs holds of
 these methods.
 */
module Workflow {
  import opened Domain
  import opened Text
  import opened WorkflowSpec

  class WorkflowState {
    var control: Control
    var belief: Belief
    var chain: Chain
    var incident: Incident
    var verification: VerificationCount

    function View(): State
      reads this
    {
      State(control, belief, chain, incident, verification)
    }

    // ---------------------------------------------------------------- shared steps

    method SyncInvestigation()
      modifies this`incident
      ensures View() == SyncAudit(old(View()))
    {
      if incident.audit.Some? {
        incident := incident.(audit := Some(InvestigationAudit(chain.diagnosis, chain.plan)));
      }
    }

    method EnterToolBudgetFinalization()
      modifies this`control
      ensures control == EnterFinalization(old(control), old(chain.diagnosis).Some?)
    {
      control := control.(budget := control.budget.(toolCallsExhausted := true), pendingReflection := None, requestedSkills := []);
      if chain.diagnosis.None? {
        control := control.(phase := Diagnosis, category := ReasoningTools);
        return;
      }
      control := control.(phase := Escalation, category := ControlTools);
    }

    // ---------------------------------------------------------------- intake

    /** The two transitions of a fresh incident; a refused one ends the run where it stands. */
    method TakeIn() returns (ok: bool)
      modifies this`incident
      ensures var r := IncidentIntake(old(View())); View() == r.state && ok == r.Done?
    {
      if !TransitionAccepted(incident.status, Correlating) {
        return false;
      }
      incident := incident.(status := Correlating);
      if !TransitionAccepted(incident.status, Collecting) {
        return false;
      }
      incident := incident.(status := Collecting);
      ok := true;
    }

    // ---------------------------------------------------------------- context builder, model, gateway

    /** Budget defaults, the first phase, the closed tool budget and the reflection phase, in that order. */
    method PreparePhase(reflection: bool)
      modifies this`control
      ensures control == PrepareTurn(old(View()), reflection)
    {
      if control.budget.limits.maxTurns == 0 {
        control := control.(budget := BudgetState(DEFAULT_LIMITS, Usage(0, 0, 0, 0), false));
      }
      if control.phase == NoPhase {
        control := control.(phase := Intake, category := ControlTools);
      }
      if ToolBudgetExhausted(control.budget) {
        EnterToolBudgetFinalization();
      } else if reflection {
        if control.phase != Reflecting {
          control := control.(resumePhase := control.phase);
        }
        control := control.(phase := Reflecting);
      }
    }

    method OpenTurn(granted: set<Category>, turnId: string)
      modifies this`control
      ensures control == AllocateTurn(old(control), granted, turnId)
    {
      control := control.(skillCategories := granted);
      if !CategoryAllowed(granted, control.category) {
        control := control.(category := DefaultCategory(control.phase));
      }
      control := control.(turns := control.turns + [turnId],
                          assistantTurns := control.assistantTurns + [AssistantTurn(turnId, false, false)]);
      control := control.(budget := control.budget.(usage := control.budget.usage.(turns := control.budget.usage.turns + 1)));
    }

    method ContextBuilder(reflection: bool, input: TurnInput) returns (ok: bool)
      modifies this`control, this`chain, this`incident
      ensures var r := BuildContext(old(View()), reflection, input); View() == r.state && ok == r.Done?
    {
      if incident.audit.None? {
        incident := incident.(audit := Some(InvestigationAudit(None, None)));
      }
      PreparePhase(reflection);
      if input.resolved.None? {
        return false;
      }
      OpenTurn(input.resolved.value, input.turnId);
      chain := chain.(evidence := Some(SnapshotOf(incident.evidence)));
      if chain.execution.Some? && chain.execution.value != input.current {
        control := control.(termination := Some(SafetyBlocked));
        return false;
      }
      if chain.execution.None? {
        chain := chain.(execution := Some(input.current));
      }
      incident := incident.(execution := chain.execution);
      ok := true;
    }

    /** The model adapter: the answer replaces the newest audit slot of the current turn. */
    method RecordAssistantTurn(answer: Option<Message>) returns (ok: bool)
      modifies this`control
      ensures var r := RecordAnswer(old(View()), answer); View() == r.state && ok == r.Done?
    {
      var turnId := CurrentTurn(control);
      var index := |control.assistantTurns|;
      assert control.assistantTurns[..index] == control.assistantTurns;
      while index > 0 && control.assistantTurns[index - 1].turnId != turnId
        invariant 0 <= index <= |control.assistantTurns|
        invariant SlotOf(control.assistantTurns, turnId) == SlotOf(control.assistantTurns[..index], turnId)
        invariant View() == old(View())
      {
        assert control.assistantTurns[..index][..index - 1] == control.assistantTurns[..index - 1];
        index := index - 1;
      }
      if index > 0 {
        assert control.assistantTurns[..index][..index - 1] == control.assistantTurns[..index - 1];
      }
      if answer.None? || index == 0 {
        return false;
      }
      control := control.(assistantTurns := control.assistantTurns[index - 1 := AssistantTurn(turnId, answer.value.content, answer.value.calls != [])]);
      ok := true;
    }

    method ActionGateway(calls: seq<ToolCall>) returns (kept: seq<ToolCall>)
      modifies this`control
      ensures kept == GateCalls(old(control), calls)
      ensures control == old(control).(budget := GateBudget(old(control.budget)))
    {
      kept := calls;
      if |kept| > control.budget.limits.maxParallelReadTools && EffectiveCategory(control) == EvidenceTools {
        kept := kept[..control.budget.limits.maxParallelReadTools];
      }
      var remaining := control.budget.limits.maxToolCalls - control.budget.usage.toolCalls;
      if remaining > 0 && |kept| > remaining {
        kept := kept[..remaining];
      }
      if remaining <= 0 {
        control := control.(budget := control.budget.(toolCallsExhausted := true));
        if |kept| > 1 {
          kept := kept[..1];
        }
      }
    }

    // ---------------------------------------------------------------- tool results

    /** The parents of a revision are retired one by one, wherever they occur. */
    method RetireParents(child: Hypothesis)
      modifies this`belief
      ensures belief == old(belief).(hypotheses := MarkParents(old(belief.hypotheses), child))
    {
      if child.relation != Root {
        ghost var before := belief.hypotheses;
        var retired := if child.relation == Merge then Merged else Replaced;
        var p := 0;
        while p < |child.parents|
          invariant 0 <= p <= |child.parents| && |belief.hypotheses| == |before|
          invariant belief == old(belief).(hypotheses := belief.hypotheses)
          invariant forall i :: 0 <= i < |before| ==>
            belief.hypotheses[i] == if before[i].id in child.parents[..p] then before[i].(status := retired) else before[i]
        {
          var index := 0;
          ghost var round := belief.hypotheses;
          while index < |belief.hypotheses|
            invariant 0 <= index <= |belief.hypotheses| == |before| == |round|
            invariant belief == old(belief).(hypotheses := belief.hypotheses)
            invariant forall i :: index <= i < |before| ==> belief.hypotheses[i] == round[i]
            invariant forall i :: 0 <= i < index ==>
              belief.hypotheses[i] == if before[i].id in child.parents[..p + 1] then before[i].(status := retired) else before[i]
          {
            assert child.parents[..p + 1] == child.parents[..p] + [child.parents[p]];
            if belief.hypotheses[index].id == child.parents[p] {
              belief := belief.(hypotheses := belief.hypotheses[index := belief.hypotheses[index].(status := retired)]);
            }
            index := index + 1;
          }
          p := p + 1;
        }
        assert child.parents[..|child.parents|] == child.parents;
      }
    }

    method AppendHypotheses(added: seq<Hypothesis>)
      modifies this`belief
      ensures belief == old(belief).(hypotheses := AddHypotheses(old(belief.hypotheses), added))
    {
      var k := 0;
      while k < |added|
        invariant 0 <= k <= |added|
        invariant belief == old(belief).(hypotheses := belief.hypotheses)
        invariant AddHypotheses(old(belief.hypotheses), added) == AddHypotheses(belief.hypotheses, added[k..])
      {
        assert added[k..][1..] == added[k + 1..];
        RetireParents(added[k]);
        belief := belief.(hypotheses := belief.hypotheses + [added[k]]);
        k := k + 1;
      }
    }

    /** The old grounding of the hypothesis gives way to the new one. */
    method ReplaceGrounding(g: Grounding)
      modifies this`belief
      ensures belief == old(belief).(groundings := WithoutGrounding(old(belief.groundings), g.hypothesisId) + [g])
    {
      var kept: seq<Grounding> := [];
      var k := 0;
      while k < |belief.groundings|
        invariant 0 <= k <= |belief.groundings|
        invariant WithoutGrounding(belief.groundings, g.hypothesisId) == kept + WithoutGrounding(belief.groundings[k..], g.hypothesisId)
      {
        assert belief.groundings[k..][1..] == belief.groundings[k + 1..];
        if belief.groundings[k].hypothesisId != g.hypothesisId {
          kept := kept + [belief.groundings[k]];
        }
        k := k + 1;
      }
      assert belief.groundings[k..] == [];
      belief := belief.(groundings := kept + [g]);
    }

    method MarkRevision(g: Grounding)
      modifies this`belief
      ensures belief == old(belief).(hypotheses := MarkGrounded(old(belief.hypotheses), g))
    {
      ghost var before := belief.hypotheses;
      var index := 0;
      while index < |belief.hypotheses|
        invariant 0 <= index <= |belief.hypotheses| == |before|
        invariant belief == old(belief).(hypotheses := belief.hypotheses)
        invariant forall i :: 0 <= i < index ==> belief.hypotheses[i] == MarkGrounded(before, g)[i]
        invariant forall i :: index <= i < |before| ==> belief.hypotheses[i] == before[i]
      {
        if belief.hypotheses[index].id == g.hypothesisId {
          var marked := belief.hypotheses[index].(validatedSnapshot := g.snapshot, status := StatusForLevel(g.level));
          belief := belief.(hypotheses := belief.hypotheses[index := marked]);
        }
        index := index + 1;
      }
    }

    method ApplyBeliefOutput(o: Output)
      modifies this`belief
      ensures belief == ApplyBelief(old(belief), o)
    {
      AppendHypotheses(o.hypotheses);
      belief := belief.(admissions := belief.admissions + o.admissions);
      if o.grounding.Some? {
        ReplaceGrounding(o.grounding.value);
        MarkRevision(o.grounding.value);
      }
      if o.groundingDelta.Some? {
        belief := belief.(groundingDeltas := belief.groundingDeltas + [o.groundingDelta.value]);
      }
      if o.beliefDelta.Some? {
        belief := belief.(beliefDeltas := belief.beliefDeltas + [o.beliefDelta.value]);
      }
    }

    method ReachMilestones(o: Output)
      modifies this`control
      ensures control == ApplyMilestones(old(control), o)
    {
      if o.understanding {
        control := control.(phase := Planning, category := ReasoningTools);
      }
      if o.investigationPlan {
        control := control.(phase := Investigation, category := ReasoningTools);
      }
      if o.diagnosis.Some? && o.diagnosisFinalized {
        if o.diagnosis.value.provisional {
          control := control.(phase := Escalation, category := ControlTools);
        } else {
          control := control.(phase := Recovery, category := RecoveryTools);
        }
      }
      if o.validation == Some(false) {
        control := control.(pendingReflection := Some(GroundingFailure));
      }
    }

    method TakeSelections(o: Output)
      modifies this`control
      ensures control == ApplySelections(old(control), o)
    {
      if o.requestedSkills != [] {
        control := control.(requestedSkills := o.requestedSkills);
      }
      if o.selectedCategory != NoCategory {
        control := control.(category := o.selectedCategory);
      }
      if o.nextPhase != NoPhase {
        control := control.(phase := o.nextPhase, category := DefaultCategory(o.nextPhase));
      }
      if o.termination.Some? {
        control := control.(termination := o.termination);
      }
    }

    method RaiseReflection(o: Output)
      modifies this`control
      ensures control == ApplyTrigger(old(control), o)
    {
      match o.kind
      case ConstraintResult => control := control.(pendingReflection := Some(ConstraintFailure));
      case ErrorResult => control := control.(pendingReflection := Some(ToolFailure));
      case EvidenceResult =>
        if o.newInformation {
          control := control.(pendingReflection := Some(CriticalEvidence));
        }
      case ValidationResult =>
        if o.grounding.Some? && o.grounding.value.level == RefutedLevel {
          control := control.(pendingReflection := Some(HypothesisRefuted));
        }
      case StateChangeResult =>
    }

    method CloseReflection(o: Output)
      modifies this`control
      ensures control == ResolveReflection(old(control), o)
    {
      if control.phase == Reflecting && ResolvesReflection(o) {
        if control.reflections != [] {
          var last := |control.reflections| - 1;
          control := control.(reflections := control.reflections[..last] + [control.reflections[last].(accepted := true)]);
        }
        control := control.(phase := control.resumePhase, resumePhase := NoPhase, pendingReflection := None);
        if control.pendingTermination.Some? {
          control := control.(termination := control.pendingTermination, pendingTermination := None);
        }
      }
    }

    method ApplyCapabilityOutput(o: Output)
      modifies this`control, this`belief, this`chain, this`incident
      ensures View() == ApplyOutput(old(View()), o)
    {
      if o.evidence != map[] {
        incident := incident.(evidence := MergeEvidence(incident.evidence, o.evidence));
      }
      ApplyBeliefOutput(o);
      if o.diagnosis.Some? {
        chain := chain.(diagnosis := o.diagnosis);
      }
      if o.recoveryPlan.Some? {
        chain := chain.(permission := None);
        incident := incident.(proposal := None, dryRun := None);
        chain := chain.(dryRun := None, plan := o.recoveryPlan);
      }
      ReachMilestones(o);
      TakeSelections(o);
      RaiseReflection(o);
      CloseReflection(o);
    }

    method CountToolCall()
      modifies this`control
      ensures control == old(control).(budget := CountCall(old(control.budget)))
    {
      if !control.budget.toolCallsExhausted {
        control := control.(budget := control.budget.(usage := control.budget.usage.(toolCalls := control.budget.usage.toolCalls + 1)));
      }
    }

    /** One Tool message: counted unless the budget was already spent, then applied. */
    method ClassifyResult(o: Output)
      modifies this`control, this`belief, this`chain, this`incident
      ensures View() == ClassifyOne(old(View()), o)
    {
      CountToolCall();
      ApplyCapabilityOutput(o);
    }

    method ClassifyResults(outputs: seq<Output>)
      modifies this`control, this`belief, this`chain, this`incident
      ensures View() == ClassifyToolResults(old(View()), outputs)
    {
      var k := 0;
      while k < |outputs|
        invariant 0 <= k <= |outputs|
        invariant View() == ClassifyAll(old(View()), outputs[..k])
      {
        assert outputs[..k + 1][..k] == outputs[..k];
        ClassifyResult(outputs[k]);
        k := k + 1;
      }
      assert outputs[..k] == outputs;
      SyncInvestigation();
    }

    // ---------------------------------------------------------------- observation, belief, commit

    method ObservationUpdate(ranked: Option<EvidenceStore>)
      modifies this`belief, this`chain, this`incident
      ensures View() == ObserveUpdate(old(View()), ranked)
    {
      var previous := chain.evidence;
      if ranked.Some? && incident.evidence != map[] {
        incident := incident.(evidence := MergeEvidence(incident.evidence, ranked.value));
      }
      var current := SnapshotOf(incident.evidence);
      chain := chain.(evidence := Some(current));
      if previous.Some? && previous != Some(current) {
        InvalidateStaleHypotheses(current);
        if chain.diagnosis.Some? && chain.diagnosis.value.evidence != Some(current) {
          chain := chain.(diagnosis := Some(chain.diagnosis.value.(provisional := true)), plan := None, dryRun := None);
          incident := incident.(proposal := None, dryRun := None);
        }
      }
      SyncInvestigation();
    }

    method InvalidateStaleHypotheses(current: EvidenceSnapshot)
      modifies this`belief
      ensures belief == old(belief).(hypotheses := InvalidateStale(old(belief.hypotheses), current))
    {
      ghost var before := belief.hypotheses;
      var index := 0;
      while index < |belief.hypotheses|
        invariant 0 <= index <= |belief.hypotheses| == |before|
        invariant belief == old(belief).(hypotheses := belief.hypotheses)
        invariant forall i :: 0 <= i < index ==> belief.hypotheses[i] == InvalidateStale(before, current)[i]
        invariant forall i :: index <= i < |before| ==> belief.hypotheses[i] == before[i]
      {
        if belief.hypotheses[index].status == Supported && belief.hypotheses[index].validatedSnapshot != Some(current) {
          belief := belief.(hypotheses := belief.hypotheses[index := belief.hypotheses[index].(status := Investigating)]);
        }
        index := index + 1;
      }
    }

    method UpdateBelief()
      modifies this`control, this`belief
      ensures View() == BeliefUpdate(old(View()))
    {
      if belief.groundingCursor < |belief.groundingDeltas| {
        var delta := belief.groundingDeltas[|belief.groundingDeltas| - 1];
        belief := belief.(groundingCursor := |belief.groundingDeltas|);
        if delta.suggestedRevision {
          control := control.(pendingReflection := Some(GroundingFailure));
        } else if delta.conflict {
          control := control.(pendingReflection := Some(CandidateConflict));
        }
      }
    }

    /** The first revision with the given identifier. */
    method LocateRevision(id: string) returns (index: int)
      ensures index == IndexOf(belief.hypotheses, id)
    {
      var candidate := 0;
      while candidate < |belief.hypotheses|
        invariant 0 <= candidate <= |belief.hypotheses|
        invariant var rest := IndexOf(belief.hypotheses[candidate..], id);
                  IndexOf(belief.hypotheses, id) == if rest < 0 then -1 else rest + candidate
      {
        assert belief.hypotheses[candidate..][1..] == belief.hypotheses[candidate + 1..];
        if belief.hypotheses[candidate].id == id {
          return candidate;
        }
        candidate := candidate + 1;
      }
      index := -1;
    }

    method CommitBeliefs() returns (ok: bool)
      modifies this`belief, this`incident
      ensures var r := BeliefCommit(old(View())); View() == r.state && ok == r.Done?
    {
      while belief.beliefCursor < |belief.beliefDeltas|
        invariant BeliefCommit(old(View())) == BeliefCommit(View())
        decreases |belief.beliefDeltas| - belief.beliefCursor
      {
        var delta := belief.beliefDeltas[belief.beliefCursor];
        if !delta.committed {
          belief := belief.(beliefCursor := belief.beliefCursor + 1);
        } else {
          var index := LocateRevision(delta.hypothesisId);
          if index < 0 || !CommitAccepted(belief.hypotheses[index], delta) {
            return false;
          }
          belief := belief.(hypotheses := belief.hypotheses[index := belief.hypotheses[index].(confidence := delta.updated)], beliefCursor := belief.beliefCursor + 1);
        }
      }
      SyncInvestigation();
      ok := true;
    }

    // ---------------------------------------------------------------- guards and routers

    method GrantCorrection()
      modifies this`control
      ensures control == Correct(old(control))
    {
      if control.budget.usage.structuredCorrections >= control.budget.limits.maxStructuredCorrections {
        control := control.(termination := Some(BudgetExhausted));
      } else {
        control := control.(budget := control.budget.(usage := control.budget.usage.(structuredCorrections := control.budget.usage.structuredCorrections + 1)));
      }
    }

    method RejectUnstructured()
      modifies this`control, this`incident
      ensures View() == HandleUnstructured(old(View()))
    {
      GrantCorrection();
      SyncInvestigation();
    }

    method RejectInvalidArguments(calls: seq<ToolCall>)
      modifies this`control, this`incident
      ensures View() == HandleInvalidArguments(old(View()), calls)
    {
      if calls == [] {
        RejectUnstructured();
        return;
      }
      var k := 0;
      while k < |calls|
        invariant 0 <= k <= |calls|
        invariant View() == old(View()).(control := old(control).(budget := CountCalls(old(control.budget), k)))
      {
        CountToolCall();
        k := k + 1;
      }
      GrantCorrection();
      control := control.(pendingReflection := None);
      SyncInvestigation();
    }

    method RouteTermination()
      modifies this`control, this`incident
      ensures View() == TerminationRouter(old(View()))
    {
      if control.termination.None? && TurnBudgetExhausted(control.budget) {
        control := control.(termination := Some(BudgetExhausted));
      }
      if control.termination.Some? {
        SyncInvestigation();
      }
    }

    method RouteReflection() returns (route: Route)
      modifies this`control
      ensures (View(), route) == ReflectionRoute(old(View()))
    {
      if control.termination.None? && TurnBudgetExhausted(control.budget) {
        control := control.(termination := Some(BudgetExhausted), pendingReflection := None);
        return ToTermination;
      }
      if control.termination.None? && ToolBudgetExhausted(control.budget) {
        EnterToolBudgetFinalization();
        return ToTermination;
      }
      if control.pendingReflection.Some? && control.termination.None? {
        if incident.strategy == KubePilotNoReflection {
          control := control.(pendingReflection := None);
          return ToTermination;
        }
        var trigger := control.pendingReflection.value;
        var cost := ReflectionCost(trigger);
        if control.budget.usage.reflectionCost + cost <= control.budget.limits.maxReflectionCost {
          control := control.(budget := control.budget.(usage := control.budget.usage.(reflectionCost := control.budget.usage.reflectionCost + cost)), reflections := control.reflections + [Reflection(trigger, cost, false)]);
          return ToReflection;
        }
        if trigger == RecoveryFailure || trigger == VerificationFailure {
          control := control.(termination := Some(SafetyBlocked));
        }
        control := control.(pendingReflection := None);
      }
      route := ToTermination;
    }

    // ---------------------------------------------------------------- recovery permission

    method SearchGrounding(id: string) returns (found: Option<Grounding>)
      ensures found == FindGrounding(belief.groundings, id)
    {
      var index := |belief.groundings|;
      assert belief.groundings[..index] == belief.groundings;
      while index > 0
        invariant 0 <= index <= |belief.groundings|
        invariant FindGrounding(belief.groundings, id) == FindGrounding(belief.groundings[..index], id)
      {
        assert belief.groundings[..index][..index - 1] == belief.groundings[..index - 1];
        index := index - 1;
        if belief.groundings[index].hypothesisId == id {
          return Some(belief.groundings[index]);
        }
      }
      found := None;
    }

    method SearchHypothesis(id: string) returns (found: Option<Hypothesis>)
      ensures found == FindHypothesis(belief.hypotheses, id)
    {
      var index := |belief.hypotheses|;
      assert belief.hypotheses[..index] == belief.hypotheses;
      while index > 0
        invariant 0 <= index <= |belief.hypotheses|
        invariant FindHypothesis(belief.hypotheses, id) == FindHypothesis(belief.hypotheses[..index], id)
      {
        assert belief.hypotheses[..index][..index - 1] == belief.hypotheses[..index - 1];
        index := index - 1;
        if belief.hypotheses[index].id == id {
          return Some(belief.hypotheses[index]);
        }
      }
      found := None;
    }

    method SearchAdmission(id: string) returns (found: Option<Admission>)
      ensures found == FindAdmission(belief.admissions, id)
    {
      var index := |belief.admissions|;
      assert belief.admissions[..index] == belief.admissions;
      while index > 0
        invariant 0 <= index <= |belief.admissions|
        invariant FindAdmission(belief.admissions, id) == FindAdmission(belief.admissions[..index], id)
      {
        assert belief.admissions[..index][..index - 1] == belief.admissions[..index - 1];
        index := index - 1;
        if belief.admissions[index].hypothesisId == id {
          return Some(belief.admissions[index]);
        }
      }
      found := None;
    }

    /** The loops over the supporting evidence and over all groundings, then the eligibility rules. */
    method DecideEligibility(d: AgentDiagnosis, g: Grounding, h: Hypothesis) returns (allowed: bool)
      requires chain.diagnosis == Some(d) && FindGrounding(belief.groundings, d.hypothesisId) == Some(g)
      requires FindHypothesis(belief.hypotheses, d.hypothesisId) == Some(h)
      ensures allowed == GroundedDecision(View())
    {
      var admission := SearchAdmission(h.id);
      var kubernetes := false;
      var k := 0;
      while k < |g.supporting|
        invariant 0 <= k <= |g.supporting|
        invariant kubernetes == SupportedByKubernetes(g.supporting[..k], incident.evidence)
      {
        assert g.supporting[..k + 1] == g.supporting[..k] + [g.supporting[k]];
        var id := g.supporting[k];
        kubernetes := kubernetes || (id in incident.evidence && EqualFold(incident.evidence[id].source, "kubernetes"));
        k := k + 1;
      }
      assert g.supporting[..k] == g.supporting;
      var otherSupport, validated := 0.0, 0;
      k := 0;
      while k < |belief.groundings|
        invariant 0 <= k <= |belief.groundings|
        invariant otherSupport == StrongestRival(belief.groundings[..k], g.hypothesisId)
        invariant validated == AdmittedGroundings(belief.groundings[..k], belief.admissions)
      {
        assert belief.groundings[..k + 1][..k] == belief.groundings[..k];
        var item := belief.groundings[k];
        var itemAdmission := SearchAdmission(item.hypothesisId);
        if itemAdmission.Some? && itemAdmission.value.admitted {
          validated := validated + 1;
        }
        if item.hypothesisId != g.hypothesisId && item.support > otherSupport {
          otherSupport := item.support;
        }
        k := k + 1;
      }
      assert belief.groundings[..k] == belief.groundings;
      allowed := RecoveryAllowed(d, h, g, belief.groundings, chain.execution, kubernetes, g.support - otherSupport, validated);
      if admission.None? || !admission.value.admitted || !admission.value.resolved {
        allowed := false;
      }
    }

    method StopWithoutRecovery() returns (ok: bool)
      modifies this`control, this`incident
      ensures var r := FinishWithoutRecovery(old(View())); View() == r.state && ok == r.Done?
    {
      var preserve := control.termination.Some? && control.termination != Some(DiagnosisConfident);
      if !preserve {
        control := control.(termination := Some(if chain.diagnosis.Some? && chain.diagnosis.value.provisional then DiagnosisProvisional else SafetyBlocked));
      }
      if incident.status != NeedsAttention {
        if incident.status == Collecting {
          incident := incident.(status := AfterTransition(incident.status, Diagnosing));
        }
        if !TransitionAccepted(incident.status, NeedsAttention) {
          return false;
        }
        incident := incident.(status := NeedsAttention);
      }
      ok := true;
    }

    method DecidePermission(proposalId: string, now: int) returns (ok: bool)
      modifies this`control, this`chain, this`incident
      ensures var r := RecoveryPermission(old(View()), proposalId, now); View() == r.state && ok == r.Done?
    {
      if chain.diagnosis.None? {
        ok := StopWithoutRecovery();
        return;
      }
      var d := chain.diagnosis.value;
      var g := SearchGrounding(d.hypothesisId);
      var h := SearchHypothesis(d.hypothesisId);
      if g.None? || h.None? {
        ok := StopWithoutRecovery();
        return;
      }
      var allowed := DecideEligibility(d, g.value, h.value);
      chain := chain.(permission := Some(allowed));
      if !allowed || chain.plan.None? {
        ok := StopWithoutRecovery();
        return;
      }
      var p := chain.plan.value;
      if p.execution != chain.execution || p.evidence != chain.evidence || p.diagnosisVersion != d.id {
        ok := StopWithoutRecovery();
        return;
      }
      var target := CanonicalTarget(p.target, incident.namespace, incident.resource);
      if target.None? || p.action.Unregistered? {
        ok := StopWithoutRecovery();
        return;
      }
      incident := incident.(proposal := Some(ProposalFor(p, target.value, incident.namespace, proposalId, now)));
      if incident.status == Collecting {
        incident := incident.(status := Diagnosing);
      }
      if !TransitionAccepted(incident.status, Proposing) {
        return false;
      }
      incident := incident.(status := Proposing);
      ok := true;
    }

    // ---------------------------------------------------------------- dry run, approval, execution, verification

    method DryRunStage(cluster: Cluster) returns (ok: bool)
      modifies this`control, this`chain, this`incident
      ensures var r := DryRunNode(old(View()), cluster); View() == r.state && ok == r.Done?
    {
      var result := DryRun(false, Unregistered(""), "", "", None, 0);
      if incident.proposal.Some? {
        var (p, r) := DryRunProposal(incident.proposal.value, cluster);
        incident := incident.(proposal := Some(p));
        result := r;
      }
      chain := chain.(dryRun := Some(result));
      incident := incident.(dryRun := Some(result));
      if !result.success {
        control := control.(pendingReflection := Some(RecoveryFailure), termination := None, phase := Recovery, category := RecoveryTools);
        chain := chain.(plan := None, permission := None);
        incident := incident.(proposal := None);
        if incident.status == Proposing {
          incident := incident.(status := Diagnosing);
        }
      }
      ok := true;
    }

    method CheckProposal() returns (ok: bool)
      modifies this`incident
      ensures var r := ValidateProposal(old(View())); View() == r.state && ok == r.Done?
    {
      if incident.status == NeedsAttention {
        return true;
      }
      if incident.status != Proposing || incident.proposal.None? || chain.dryRun.None? || !chain.dryRun.value.success
         || incident.dryRun.None? || incident.dryRun.value.mutationHash != chain.dryRun.value.mutationHash {
        if !TransitionAccepted(incident.status, NeedsAttention) {
          return false;
        }
        incident := incident.(status := NeedsAttention);
      }
      ok := true;
    }

    /** Before the interrupt: the incident waits for the operator. */
    method AwaitApproval() returns (ok: bool)
      modifies this`incident
      ensures var r := RequestApproval(old(View())); View() == r.state && ok == r.Done?
    {
      if !TransitionAccepted(incident.status, AwaitingApproval) {
        return false;
      }
      incident := incident.(status := AwaitingApproval);
      ok := true;
    }

    method ResumeAfterApproval(r: Resume) returns (ok: bool)
      modifies this`control, this`chain, this`incident
      ensures var n := ResumeApproval(old(View()), r); View() == n.state && ok == n.Done?
    {
      var wanted := Recovering;
      if !r.approved {
        control := control.(termination := Some(ApprovalRejected));
        wanted := Rejected;
      } else {
        chain := chain.(context := Some(r.context));
        incident := incident.(context := Some(r.context));
        if !ContextValid(View(), r.now) {
          control := control.(termination := Some(SafetyBlocked));
          wanted := NeedsAttention;
        }
      }
      if !TransitionAccepted(incident.status, wanted) {
        return false;
      }
      incident := incident.(status := wanted);
      ok := true;
    }

    method SendBackToBrain(trigger: Trigger)
      modifies this`control
      ensures control == ReflectOnFailure(old(control), trigger)
    {
      control := control.(pendingReflection := Some(trigger), pendingTermination := Some(RecoveryFailedReason), phase := Reflecting, resumePhase := Escalation, termination := None);
    }

    /** A failed action or verification: back to the Brain when a reflection can still be paid for. */
    method FailRecovery(trigger: Trigger)
      modifies this`control
      ensures control == if ReflectionAvailable(old(View()), trigger) then ReflectOnFailure(old(control), trigger)
                         else old(control).(termination := Some(RecoveryFailedReason))
    {
      if ReflectionAvailable(View(), trigger) {
        SendBackToBrain(trigger);
      } else {
        control := control.(termination := Some(RecoveryFailedReason));
      }
    }

    method ExecuteRecovery(result: ExecuteResult, now: int, later: int) returns (ok: bool)
      modifies this`control, this`incident
      ensures var r := ExecuteAction(old(View()), result, now, later); View() == r.state && ok == r.Done?
    {
      hide ContextMatches;
      if !ContextValid(View(), now) {
        incident := incident.(status := AfterTransition(incident.status, NeedsAttention));
        return true;
      }
      var outcome := if IncidentContextValid(incident, later) then result else Refused;
      incident := incident.(recovery := incident.recovery.(attempts := incident.recovery.attempts + 1, outcome := Attempting));
      match outcome
      case Confirmed =>
        incident := incident.(recovery := incident.recovery.(confirmedMutations := incident.recovery.confirmedMutations + 1,
                                                             outcome := Succeeded));
        if !TransitionAccepted(incident.status, Verifying) {
          return false;
        }
        incident := incident.(status := Verifying);
        ok := true;
      case ResultUnknown =>
        incident := incident.(recovery := incident.recovery.(outcome := UnknownOutcome));
        control := control.(termination := Some(OutcomeUnknown));
        incident := incident.(status := AfterTransition(incident.status, NeedsAttention));
        ok := true;
      case Refused =>
        incident := incident.(recovery := incident.recovery.(outcome := Failed));
        FailRecovery(RecoveryFailure);
        incident := incident.(status := AfterTransition(incident.status, Status.RecoveryFailed));
        ok := true;
    }

    /** The rounds as they come in, until three healthy ones in a row, the deadline, or the end of the workflow context. */
    method RunVerificationController(rounds: seq<Round>) returns (ok: bool)
      modifies this`control, this`incident, this`verification
      ensures var r := VerificationNode(old(View()), rounds); View() == r.state && ok == r.Done?
    {
      var previous: Option<int> := None;
      var k := 0;
      while k < |rounds|
        invariant 0 <= k <= |rounds|
        invariant View() == old(View()).(verification := verification)
        invariant Verify(rounds, None, old(View()).verification)
                  == Verify(rounds[k..], previous, verification)
      {
        assert rounds[k..][1..] == rounds[k + 1..];
        var round := rounds[k];
        var success := round.success;
        if round.restarts.Some? {
          var stable := previous.None? || round.restarts.value <= previous.value;
          success := success && stable;
          previous := round.restarts;
        }
        verification := verification.(attempts := verification.attempts + 1, consecutive := if success then verification.consecutive + 1 else 0);
        if verification.consecutive >= 3 {
          if !TransitionAccepted(incident.status, Resolved) {
            return false;
          }
          incident := incident.(status := Resolved);
          control := control.(termination := Some(RecoverySucceeded));
          return true;
        }
        if round.remaining <= 0 {
          if !TransitionAccepted(incident.status, Status.RecoveryFailed) {
            return false;
          }
          incident := incident.(status := Status.RecoveryFailed);
          FailRecovery(VerificationFailure);
          return true;
        }
        k := k + 1;
      }
      ok := false;
    }
  }
}
