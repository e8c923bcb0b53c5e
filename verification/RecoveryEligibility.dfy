/**
 When a run may propose a recovery, in terms of the evidence, hypotheses and groundings it holds
 (agent/brain_recovery.go:15-84; internal/brainruntime/runtime.go:461-494).
 */
module RecoveryEligibility {
  import opened Domain
  import opened Text
  import opened WorkflowSpec
  import opened WorkflowGraph
  import opened BrainLoop
  import opened BrainBudgets
  import opened BeliefLedger
  import opened RecoveryChain
  import opened CurrentBeliefs

  // ---------------------------------------------------------------- the separation from the rivals

  /** The value the loop keeps is the largest support of another hypothesis, and zero without one. */
  lemma {:induction false} RivalIsLargest(items: seq<Grounding>, hypothesisId: string)
    ensures var r := StrongestRival(items, hypothesisId);
            && r >= 0.0
            && (forall g :: g in items && g.hypothesisId != hypothesisId ==> g.support <= r)
            && (r == 0.0 || exists g :: g in items && g.hypothesisId != hypothesisId && g.support == r)
  {
    if items != [] {
      var last := |items| - 1;
      RivalIsLargest(items[..last], hypothesisId);
      assert items == items[..last] + [items[last]];
      assert items[last] in items;
    }
  }

  lemma SeparatedIff(items: seq<Grounding>, g: Grounding)
    ensures g.support - StrongestRival(items, g.hypothesisId) >= 0.15
            <==> g.support >= 0.15 && forall r :: r in items && r.hypothesisId != g.hypothesisId ==> r.support + 0.15 <= g.support
  {
    hide StrongestRival;
    RivalIsLargest(items, g.hypothesisId);
  }

  // ---------------------------------------------------------------- admissions

  /** Position m holds the newest admission of the hypothesis. */
  ghost predicate Newest(admissions: seq<Admission>, hypothesisId: string, m: int) {
    && 0 <= m < |admissions| && admissions[m].hypothesisId == hypothesisId
    && forall n :: m < n < |admissions| ==> admissions[n].hypothesisId != hypothesisId
  }

  ghost predicate LastAdmitted(admissions: seq<Admission>, hypothesisId: string) {
    exists m :: Newest(admissions, hypothesisId, m) && admissions[m].admitted
  }

  lemma {:induction false} AdmissionIsNewest(admissions: seq<Admission>, hypothesisId: string) returns (m: int)
    ensures FindAdmission(admissions, hypothesisId).Some? ==>
              Newest(admissions, hypothesisId, m) && FindAdmission(admissions, hypothesisId).value == admissions[m]
    ensures FindAdmission(admissions, hypothesisId).None? ==> forall n :: !Newest(admissions, hypothesisId, n)
  {
    m := |admissions| - 1;
    if admissions != [] && admissions[m].hypothesisId != hypothesisId {
      var last := m;
      m := AdmissionIsNewest(admissions[..last], hypothesisId);
      if n :| Newest(admissions, hypothesisId, n) {
        assert Newest(admissions[..last], hypothesisId, n);
      }
    }
  }

  lemma OnlyOneNewest(admissions: seq<Admission>, hypothesisId: string, m: int, n: int)
    requires Newest(admissions, hypothesisId, m) && Newest(admissions, hypothesisId, n)
    ensures m == n
  {
  }

  lemma AdmittedIff(admissions: seq<Admission>, hypothesisId: string)
    ensures AdmittedRevision(admissions, hypothesisId) <==> LastAdmitted(admissions, hypothesisId)
  {
    hide FindAdmission;
    var m := AdmissionIsNewest(admissions, hypothesisId);
    forall n | Newest(admissions, hypothesisId, n) && Newest(admissions, hypothesisId, m)
      ensures n == m
    {
      OnlyOneNewest(admissions, hypothesisId, m, n);
    }
    hide Newest;
  }

  /** Two groundings of admitted hypotheses. */
  ghost predicate TwoAdmitted(items: seq<Grounding>, admissions: seq<Admission>) {
    exists i, j :: 0 <= i < j < |items| && LastAdmitted(admissions, items[i].hypothesisId)
                   && LastAdmitted(admissions, items[j].hypothesisId)
  }

  lemma {:induction false} CountsAdmitted(items: seq<Grounding>, admissions: seq<Admission>)
    ensures AdmittedGroundings(items, admissions) >= 1
            <==> exists i :: 0 <= i < |items| && LastAdmitted(admissions, items[i].hypothesisId)
    ensures AdmittedGroundings(items, admissions) >= 2 <==> TwoAdmitted(items, admissions)
  {
    hide AdmittedRevision, LastAdmitted;
    if items != [] {
      var last := |items| - 1;
      var init := items[..last];
      CountsAdmitted(init, admissions);
      AdmittedIff(admissions, items[last].hypothesisId);
      assert forall i :: 0 <= i < last ==> init[i] == items[i];
      if TwoAdmitted(init, admissions) {
        var i, j :| 0 <= i < j < |init| && LastAdmitted(admissions, init[i].hypothesisId)
                    && LastAdmitted(admissions, init[j].hypothesisId);
        assert LastAdmitted(admissions, items[i].hypothesisId) && LastAdmitted(admissions, items[j].hypothesisId);
      }
      if LastAdmitted(admissions, items[last].hypothesisId)
         && exists i :: 0 <= i < |init| && LastAdmitted(admissions, init[i].hypothesisId) {
        var i :| 0 <= i < |init| && LastAdmitted(admissions, init[i].hypothesisId);
        assert LastAdmitted(admissions, items[i].hypothesisId) && i < last;
      }
      if TwoAdmitted(items, admissions) {
        var i, j :| 0 <= i < j < |items| && LastAdmitted(admissions, items[i].hypothesisId)
                    && LastAdmitted(admissions, items[j].hypothesisId);
        assert LastAdmitted(admissions, init[i].hypothesisId);
        assert j < last ==> LastAdmitted(admissions, init[j].hypothesisId);
      }
    }
  }

  // ---------------------------------------------------------------- what a proposal rests on

  ghost predicate FromKubernetes(ids: seq<string>, evidence: EvidenceStore) {
    exists id :: id in ids && id in evidence && EqualFold(evidence[id].source, "kubernetes")
  }

  /** The diagnosis is final, its hypothesis is grounded enough, separated from every rival, and all of it is of one version. */
  ghost predicate Qualified(s: State, d: AgentDiagnosis, g: Grounding, h: Hypothesis) {
    && !d.provisional
    && g in s.belief.groundings && g.hypothesisId == d.hypothesisId
    && h in s.belief.hypotheses && h.id == d.hypothesisId
    && g.level == Grounded && g.support >= 0.65 && g.contradictionRatio <= 0.10 && g.sourceCount >= 2
    && g.needCoverage >= 0.80 && g.targetCoverage == 1.0 && g.temporalCoverage >= 0.80
    && (g.causalApplicable ==> g.causalCoverage == 1.0)
    && FromKubernetes(g.supporting, s.incident.evidence)
    && (forall r :: r in s.belief.groundings && r.hypothesisId != d.hypothesisId ==> r.support + 0.15 <= g.support)
    && TwoAdmitted(s.belief.groundings, s.belief.admissions)
    && d.evidence == g.snapshot == h.validatedSnapshot && d.execution == s.chain.execution
    && exists m :: Newest(s.belief.admissions, d.hypothesisId, m) && s.belief.admissions[m].admitted && s.belief.admissions[m].resolved
  }

  ghost predicate MayRecover(s: State) {
    s.chain.diagnosis.Some? && exists g, h :: Qualified(s, s.chain.diagnosis.value, g, h)
  }

  lemma {:induction false} GroundingIsTheOne(items: seq<Grounding>, hypothesisId: string)
    requires OneGroundingEach(items)
    ensures forall g :: FindGrounding(items, hypothesisId) == Some(g) <==> g in items && g.hypothesisId == hypothesisId
  {
    if items != [] {
      var last := |items| - 1;
      GroundingIsTheOne(items[..last], hypothesisId);
      assert items == items[..last] + [items[last]];
      assert forall g :: g in items[..last] ==> g.hypothesisId != items[last].hypothesisId;
    }
  }

  lemma {:induction false} HypothesisIsTheOne(items: seq<Hypothesis>, id: string)
    requires UniqueIds(items)
    ensures forall h :: FindHypothesis(items, id) == Some(h) <==> h in items && h.id == id
  {
    if items != [] {
      var last := |items| - 1;
      HypothesisIsTheOne(items[..last], id);
      assert items == items[..last] + [items[last]];
      assert forall h :: h in items[..last] ==> h.id != items[last].id;
    }
  }

  lemma AdmissionStanding(admissions: seq<Admission>, hypothesisId: string)
    ensures var a := FindAdmission(admissions, hypothesisId);
            (a.Some? && a.value.admitted && a.value.resolved)
            <==> exists m :: Newest(admissions, hypothesisId, m) && admissions[m].admitted && admissions[m].resolved
  {
    hide FindAdmission;
    var m := AdmissionIsNewest(admissions, hypothesisId);
    forall n | Newest(admissions, hypothesisId, n) && Newest(admissions, hypothesisId, m)
      ensures n == m
    {
      OnlyOneNewest(admissions, hypothesisId, m, n);
    }
    hide Newest;
  }

  lemma RulesIff(s: State, d: AgentDiagnosis, g: Grounding, h: Hypothesis)
    requires FindGrounding(s.belief.groundings, d.hypothesisId) == Some(g)
    requires FindHypothesis(s.belief.hypotheses, d.hypothesisId) == Some(h)
    requires g in s.belief.groundings && g.hypothesisId == d.hypothesisId && h in s.belief.hypotheses && h.id == d.hypothesisId
    requires s.chain.diagnosis == Some(d)
    ensures GroundedDecision(s) <==> Qualified(s, d, g, h)
  {
    SeparatedIff(s.belief.groundings, g);
    CountsAdmitted(s.belief.groundings, s.belief.admissions);
    AdmissionStanding(s.belief.admissions, d.hypothesisId);
    assert TwoAdmitted(s.belief.groundings, s.belief.admissions) ==> |s.belief.groundings| >= 2;
    hide StrongestRival, AdmittedGroundings, TwoAdmitted, FindAdmission, FindGrounding, FindHypothesis, Newest, EqualFold;
  }

  lemma DecisionIff(s: State)
    requires OneGroundingEach(s.belief.groundings) && UniqueIds(s.belief.hypotheses)
    ensures GroundedDecision(s) <==> MayRecover(s)
  {
    if s.chain.diagnosis.Some? {
      var d := s.chain.diagnosis.value;
      GroundingIsTheOne(s.belief.groundings, d.hypothesisId);
      HypothesisIsTheOne(s.belief.hypotheses, d.hypothesisId);
      var g, h := FindGrounding(s.belief.groundings, d.hypothesisId), FindHypothesis(s.belief.hypotheses, d.hypothesisId);
      if g.Some? && h.Some? {
        RulesIff(s, d, g.value, h.value);
        forall g', h' | Qualified(s, d, g', h')
          ensures g' == g.value && h' == h.value
        {
        }
      }
    }
  }

  // ---------------------------------------------------------------- over runs

  /** The plan is for this diagnosis and these snapshots, and acts on the incident's own resource by a registered action. */
  predicate PlanFits(s: State) {
    && s.chain.diagnosis.Some? && s.chain.plan.Some?
    && var plan := s.chain.plan.value;
    && plan.execution == s.chain.execution && plan.evidence == s.chain.evidence && plan.diagnosisVersion == s.chain.diagnosis.value.id
    && !plan.action.Unregistered?
    && (plan.target == "" || plan.target == s.incident.resource
        || ('/' !in s.incident.namespace && '/' !in s.incident.resource
            && plan.target == s.incident.namespace + "/" + s.incident.resource))
  }

  /** Making a proposal, read off the state the permission node sees. */
  lemma PermissionOutcome(s: State, proposalId: string, now: int)
    ensures var r := RecoveryPermission(s, proposalId, now);
            var proposed := GroundedDecision(s) && PlanFits(s);
            && (!proposed ==> r.state.incident.proposal == s.incident.proposal
                              && (r.Done? ==> r.state.incident.status == NeedsAttention))
            && (proposed ==>
                  && (r.Done? <==> s.incident.status in {Collecting, Diagnosing, Proposing})
                  && (r.Done? ==> r.state.incident.status == Proposing)
                  && r.state.incident.proposal
                     == Some(Proposal(proposalId, s.chain.plan.value.action, s.incident.namespace, s.incident.resource,
                                      s.chain.plan.value.parameters, "", "", now + 300)))
  {
    hide RecoveryAllowed, StrongestRival, AdmittedGroundings, FindAdmission, SupportedByKubernetes;
  }

  lemma PermissionStep(c: Config, i: Input)
    requires c.node == PermissionNode && !i.fault
    ensures Next(c, i) == AfterPermission(RecoveryPermission(c.state, i.proposalId, i.now))
  {
    hide BrainNext;
  }

  /**
   Over every run: the permission node goes on to a dry run exactly when the diagnosis is
   qualified, the plan fits and the incident can still be proposed for; and it never leaves a
   proposal of its own without that.
   */
  lemma ProposedIff(trace: seq<Config>, inputs: seq<Input>, k: nat)
    requires IsRun(trace, inputs) && Initial(trace[0]) && k < |inputs| && trace[k].node == PermissionNode && !inputs[k].fault
    ensures trace[k + 1].node == DryRunStage <==>
              MayRecover(trace[k].state) && PlanFits(trace[k].state)
              && trace[k].state.incident.status in {Collecting, Diagnosing, Proposing}
    ensures trace[k + 1].state.incident.proposal != trace[k].state.incident.proposal ==>
              MayRecover(trace[k].state) && PlanFits(trace[k].state)
  {
    hide Next, MayRecover, PlanFits, GroundedDecision;
    CurrentOverRuns(trace, inputs, k);
    LedgerOverRuns(trace, inputs, k);
    DecisionIff(trace[k].state);
    PermissionStep(trace[k], inputs[k]);
    PermissionOutcome(trace[k].state, inputs[k].proposalId, inputs[k].now);
    hide RecoveryPermission;
  }

  /** In particular every other hypothesis is at least 0.15 behind the diagnosed one. */
  lemma RivalsAreBehind(trace: seq<Config>, inputs: seq<Input>, k: nat)
    requires IsRun(trace, inputs) && Initial(trace[0]) && k < |inputs| && trace[k].node == PermissionNode && !inputs[k].fault
    requires trace[k + 1].node == DryRunStage
    ensures var s := trace[k].state;
            s.chain.diagnosis.Some?
            && exists g :: g in s.belief.groundings && g.hypothesisId == s.chain.diagnosis.value.hypothesisId
                           && forall r :: r in s.belief.groundings && r.hypothesisId != g.hypothesisId ==> r.support + 0.15 <= g.support
  {
    hide Next;
    ProposedIff(trace, inputs, k);
    hide PlanFits;
    var s := trace[k].state;
    var g, h :| Qualified(s, s.chain.diagnosis.value, g, h);
    assert g in s.belief.groundings;
  }
}
