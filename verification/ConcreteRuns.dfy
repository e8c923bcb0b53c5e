/**
 Runs from the start of an attempt, with nothing collected yet, to the executor, built turn by
 turn: the model understands, plans, collects evidence, answers the reflection this raises with
 two hypotheses, validates them, settles on a diagnosis, submits a recovery plan and finishes.
 They show that the failing cases of `AfterExecution` are reached.
 */
module ConcreteRuns {
  import opened Domain
  import opened WorkflowSpec
  import opened WorkflowGraph
  import opened NodeFrames
  import opened BrainLoop
  import opened BrainBudgets
  import opened RecoveryChain
  import opened WorkflowSafety
  import opened AfterExecution

  // ---------------------------------------------------------------- runs in pieces

  ghost predicate Connects(c: Config, d: Config, trace: seq<Config>, inputs: seq<Input>) {
    IsRun(trace, inputs) && trace[0] == c && trace[|inputs|] == d
  }

  ghost predicate Connected(c: Config, d: Config) {
    exists trace, inputs :: Connects(c, d, trace, inputs)
  }

  lemma Step(c: Config, i: Input)
    requires !Terminal(c) && Admissible(c, i)
    ensures Connected(c, Next(c, i))
  {
    hide Next, Admissible;
    assert Connects(c, Next(c, i), [c, Next(c, i)], [i]);
  }

  lemma Chained(c: Config, d: Config, e: Config)
    requires Connected(c, d) && Connected(d, e)
    ensures Connected(c, e)
  {
    hide Next, Admissible;
    var s, i :| Connects(c, d, s, i);
    var t, j :| Connects(d, e, t, j);
    var trace := s + t[1..];
    forall k | 0 <= k < |i + j|
      ensures !Terminal(trace[k]) && Admissible(trace[k], (i + j)[k]) && trace[k + 1] == Next(trace[k], (i + j)[k])
    {
      if k < |i| {
        assert trace[k] == s[k] && trace[k + 1] == s[k + 1];
      } else {
        assert trace[k] == t[k - |i|] && trace[k + 1] == t[k + 1 - |i|];
      }
    }
    assert Connects(c, e, trace, i + j);
  }

  lemma Onward(c: Config, d: Config, i: Input)
    requires Connected(c, d) && !Terminal(d) && Admissible(d, i)
    ensures Connected(c, Next(d, i))
  {
    hide Next, Admissible;
    Step(d, i);
    Chained(c, d, Next(d, i));
  }

  // ---------------------------------------------------------------- the scene

  const EVIDENCE: EvidenceStore := map["k" := Evidence("kubernetes", "restarts", 1.0), "m" := Evidence("prometheus", "errors", 1.0)]

  const SNAPSHOT: Option<EvidenceSnapshot> := Some(SnapshotOf(EVIDENCE))

  const CODE := ExecutionSnapshot("skills", "model", "tools", "policy")

  const CONTEXT := ExecutionContext(
    ["shop"], "i", "q", "p", "d", SNAPSHOT, Some(CODE), "approval", "key", "u", "1",
    Some(MutationSpec(RestartPod, "shop", "cart", "u", "1", Parameters(Some("noon"), None), "restarted")), 1, 300)

  function Given(answer: Option<Message>, outputs: seq<Output>): Input {
    Input(false, TurnInput(Some({}), "t", CODE), answer, outputs, None, "q", 0, 0,
          Cluster(Some(("u", "1")), true, Some("restarted"), "noon", 1), Resume(true, CONTEXT, 0), Refused, [])
  }

  const NOTHING := Given(None, [])

  function Told(o: Tool): ToolCall {
    ToolCall("c", o, true)
  }

  const BLANK := Output(ValidationResult, true, map[], [], [], None, None, None, false, false, None, false, None, None, [],
                        NoCategory, NoPhase, None)

  const START := State(
    Control(NoPhase, NoPhase, NoCategory, {}, [], [], [], BudgetState(Limits(0, 0, 0, 0, 0), Usage(0, 0, 0, 0), false), [], None,
            None, None),
    Belief([], [], [], [], 0, [], 0), Chain(None, None, None, None, None, None, None),
    Incident("i", "shop", "cart", KubePilot, Received, map[], None, None, None, None, None,
             RecoveryExecution(0, 0, NotAttempted)),
    VerificationCount(0, 0))

  /** The one reflection of the run follows its evidence. */
  function Spent(evidence: EvidenceStore): nat {
    if evidence == EVIDENCE then 2 else 0
  }

  /** Between two turns of an untroubled run: `n` turns and `m` tool calls used. */
  predicate Working(s: State, n: nat, m: nat) {
    && s.control.budget == BudgetState(DEFAULT_LIMITS, Usage(n, m, 0, Spent(s.incident.evidence)), false)
    && s.control.phase !in {NoPhase, Reflecting} && s.control.pendingReflection.None? && s.control.termination.None?
    && s.control.pendingTermination.None?
    && Scene(s) && s.incident.audit.Some? && s.chain.evidence == Some(SnapshotOf(s.incident.evidence)) && s.chain.execution == Some(CODE)
    && s.incident.execution == Some(CODE)
  }

  predicate Scene(s: State) {
    && s.belief.beliefDeltas == [] && s.belief.groundingCursor <= |s.belief.groundingDeltas|
    && (forall d :: d in s.belief.groundingDeltas ==> d == GroundingDelta(false, false))
    && (s.incident.evidence == map[] || s.incident.evidence == EVIDENCE) && s.incident.status == Collecting && s.incident.strategy == KubePilot
    && s.incident.id == "i" && s.incident.namespace == "shop" && s.incident.resource == "cart"
    && s.incident.recovery == RecoveryExecution(0, 0, NotAttempted) && s.verification == VerificationCount(0, 0)
  }

  /** A turn has been opened: the model's answer has a slot to go to, and `m` tool calls are used. */
  predicate Slotted(s: State, m: nat) {
    && s.control.budget.limits == DEFAULT_LIMITS && s.control.budget.usage.toolCalls == m && !s.control.budget.toolCallsExhausted
    && s.control.turns != [] && s.control.assistantTurns != []
    && s.control.assistantTurns[|s.control.assistantTurns| - 1].turnId == CurrentTurn(s.control)
  }

  predicate Opened(s: State, n: nat, m: nat) {
    Working(s, n, m) && Slotted(s, m)
  }

  // ---------------------------------------------------------------- one turn

  lemma OpenFirst(s: State)
    requires s == START.(incident := START.incident.(status := Collecting))
    ensures var r := BuildContext(s, false, NOTHING.turn);
            r.Done? && Opened(r.state, 1, 0) && r.state.control.phase == Intake && r.state.belief == s.belief
            && r.state.chain == s.chain.(evidence := EARLY.evidence, execution := Some(CODE)) && r.state.incident.evidence == map[]
            && AfterTerminationRouter(TerminationRouter(s)) == At(ContextBuilder, s)
  {
    assert "k" in EVIDENCE;
  }

  lemma OpenNext(s: State, n: nat, m: nat)
    requires Working(s, n, m) && n < 50 && m < 50
    ensures var r := BuildContext(s, false, NOTHING.turn);
            r.Done? && Opened(r.state, n + 1, m) && r.state.control.phase == s.control.phase && r.state.belief == s.belief
            && r.state.chain == s.chain && r.state.incident.evidence == s.incident.evidence
            && AfterTerminationRouter(TerminationRouter(s)) == At(ContextBuilder, s)
  {
  }

  lemma Open(s: State)
    requires AfterTerminationRouter(TerminationRouter(s)) == At(ContextBuilder, s)
    requires BuildContext(s, false, NOTHING.turn).Done?
    ensures Connected(At(TerminationRouterNode, s), At(BrainModel, BuildContext(s, false, NOTHING.turn).state))
  {
    hide TerminationRouter, BuildContext, OuterNext;
    Step(At(TerminationRouterNode, s), NOTHING);
    Onward(At(TerminationRouterNode, s), At(ContextBuilder, s), NOTHING);
  }

  function Spoken(s: State, calls: seq<ToolCall>): State
    requires s.control.assistantTurns != []
  {
    var last := |s.control.assistantTurns| - 1;
    s.(control := s.control.(assistantTurns :=
         s.control.assistantTurns[last := AssistantTurn(CurrentTurn(s.control), true, calls != [])]))
  }

  predicate Permitted(s: State, calls: seq<ToolCall>, outputs: seq<Output>) {
    && |outputs| == |calls| && (forall k :: 0 <= k < |calls| ==> calls[k].argumentsValid && PermittedOutput(s, calls[k].tool, outputs[k]))
    && UniqueIds(NewRevisions(outputs))
  }

  lemma CallsPass(s: State, m: nat, calls: seq<ToolCall>)
    requires Slotted(s, m) && m + |calls| < 50 && 0 < |calls| <= 4
    ensures AfterModel(s, Some(Message(true, calls))) == Config(ActionGateway, Spoken(s, calls), calls, [])
    ensures Gate(Spoken(s, calls), calls) == Config(CategoryRouter, Spoken(s, calls), calls, [])
    ensures (forall c :: c in calls ==> c.argumentsValid) ==>
              RouteCalls(Spoken(s, calls), calls) == Config(ToolsNode, Spoken(s, calls), calls, [])
  {
  }

  lemma Speak(node: Node, s: State, m: nat, calls: seq<ToolCall>, outputs: seq<Output>)
    requires node in {BrainModel, ReflectionUpdate}
    requires Slotted(s, m) && m + |calls| < 50 && 0 < |calls| <= 4 && Permitted(Spoken(s, calls), calls, outputs)
    ensures Connected(At(node, s), At(ObservationNode, ClassifyToolResults(Spoken(s, calls), outputs)))
  {
    hide Working, Gate, AfterModel, RouteCalls, Spoken, OuterNext, ClassifyToolResults, PermittedOutput, Connected, UniqueIds, NewRevisions;
    var c, i := At(node, s), Given(Some(Message(true, calls)), outputs);
    var t := Spoken(s, calls);
    CallsPass(s, m, calls);
    Step(c, i);
    Onward(c, Config(ActionGateway, t, calls, []), i);
    Onward(c, Config(CategoryRouter, t, calls, []), i);
    Onward(c, Config(ToolsNode, t, calls, []), i);
    Onward(c, Config(ResultClassifier, t, calls, outputs), i);
  }

  /** The rest of a turn in which nothing was observed and no belief changed. */
  function Settled(s: State): State {
    SyncAudit(s.(belief := s.belief.(groundingCursor := |s.belief.groundingDeltas|)))
  }

  /** Nothing sends the run into a reflection: it goes on working, or it has ended. */
  predicate Calm(s: State) {
    && Scene(s) && s.chain.evidence == Some(SnapshotOf(s.incident.evidence))
    && (s.control.termination.None? ==>
          s.control.pendingReflection.None? && !TurnBudgetExhausted(s.control.budget) && !ToolBudgetExhausted(s.control.budget))
  }

  lemma CalmNodes(s: State)
    requires Calm(s)
    ensures ObserveUpdate(s, None) == SyncAudit(s)
    ensures BeliefUpdate(SyncAudit(s)) == Settled(s) && BeliefCommit(Settled(s)) == Done(Settled(s))
    ensures ReflectionRoute(Settled(s)) == (Settled(s), ToTermination)
  {
    var deltas := s.belief.groundingDeltas;
    assert deltas != [] ==> deltas[|deltas| - 1] in deltas;
  }

  lemma Settle(s: State)
    requires Calm(s)
    ensures Connected(At(ObservationNode, s), At(TerminationRouterNode, Settled(s)))
  {
    hide Calm, ObserveUpdate, BeliefUpdate, BeliefCommit, ReflectionRoute, Settled, SyncAudit, OuterNext, Connected;
    var c := At(ObservationNode, s);
    CalmNodes(s);
    Step(c, NOTHING);
    Onward(c, At(BeliefUpdateNode, SyncAudit(s)), NOTHING);
    Onward(c, At(BeliefCommitNode, Settled(s)), NOTHING);
    Onward(c, At(ReflectionRouter, Settled(s)), NOTHING);
  }

  lemma Turn(s: State, n: nat, m: nat, calls: seq<ToolCall>, outputs: seq<Output>)
    requires AfterTerminationRouter(TerminationRouter(s)) == At(ContextBuilder, s)
    requires BuildContext(s, false, NOTHING.turn).Done? && Opened(BuildContext(s, false, NOTHING.turn).state, n, m)
    requires m + |calls| < 50 && 0 < |calls| <= 4
    requires var b := Spoken(BuildContext(s, false, NOTHING.turn).state, calls);
             Permitted(b, calls, outputs) && Calm(ClassifyToolResults(b, outputs))
    ensures Connected(At(TerminationRouterNode, s), At(TerminationRouterNode,
              Settled(ClassifyToolResults(Spoken(BuildContext(s, false, NOTHING.turn).state, calls), outputs))))
  {
    hide TerminationRouter, BuildContext, Calm, ClassifyToolResults, Settled, Connected, Spoken, Working, Permitted;
    var b := BuildContext(s, false, NOTHING.turn).state;
    var u := ClassifyToolResults(Spoken(b, calls), outputs);
    Open(s);
    Speak(BrainModel, b, m, calls, outputs);
    Chained(At(TerminationRouterNode, s), At(BrainModel, b), At(ObservationNode, u));
    Settle(u);
    Chained(At(TerminationRouterNode, s), At(ObservationNode, u), At(TerminationRouterNode, Settled(u)));
  }

  lemma SamePermission(s: State, b: State, tool: Tool, o: Output)
    requires b.control.phase == s.control.phase && b.belief == s.belief && b.chain == s.chain && b.incident.evidence == s.incident.evidence
    requires b.control.budget.toolCallsExhausted == s.control.budget.toolCallsExhausted
    ensures PermittedOutput(b, tool, o) == PermittedOutput(s, tool, o)
  {
  }

  /** An answer that brings no evidence, no belief change, no reflection and no end. */
  predicate Plain(o: Output) {
    && o.kind == ValidationResult && o.evidence == map[] && o.beliefDelta.None? && o.termination.None?
    && (o.groundingDelta.Some? ==> o.groundingDelta.value == GroundingDelta(false, false))
    && (o.grounding.Some? ==> o.grounding.value.level != RefutedLevel) && o.validation != Some(false)
    && o.nextPhase != Reflecting && UniqueIds(o.hypotheses)
  }

  /** Belief, chain and phase after one plain answer. */
  predicate Answered(s: State, o: Output, t: State) {
    && t.belief == ApplyBelief(s.belief, o).(groundingCursor := |t.belief.groundingDeltas|)
    && t.chain == ApplyChain(s.chain, o) && t.control.phase == ApplyPhases(s.control, o).phase
    && t.incident.evidence == s.incident.evidence
    && (o.selectedCategory != NoCategory && o.nextPhase == NoPhase ==> t.control.category == o.selectedCategory)
  }

  lemma MilestonePhase(c: Control, k: Control, o: Output)
    requires c.phase == k.phase
    ensures ApplyMilestones(c, o).phase == ApplyMilestones(k, o).phase
    ensures c.phase !in {NoPhase, Reflecting} ==> ApplyMilestones(c, o).phase !in {NoPhase, Reflecting}
  {
  }

  lemma SelectionPhase(c: Control, k: Control, o: Output)
    requires c.phase == k.phase
    ensures ApplySelections(c, o).phase == ApplySelections(k, o).phase
    ensures c.phase !in {NoPhase, Reflecting} && o.nextPhase != Reflecting ==> ApplySelections(c, o).phase !in {NoPhase, Reflecting}
  {
  }

  lemma PhaseAlone(c: Control, k: Control, o: Output)
    requires c.phase == k.phase
    ensures ApplyPhases(c, o).phase == ApplyPhases(k, o).phase
    ensures c.phase !in {NoPhase, Reflecting} && o.nextPhase != Reflecting ==> ApplyPhases(c, o).phase !in {NoPhase, Reflecting}
  {
    hide ApplyMilestones, ApplySelections;
    MilestonePhase(c, k, o);
    SelectionPhase(ApplyMilestones(c, o), ApplyMilestones(k, o), o);
  }

  lemma PlainControl(c: Control, o: Output)
    requires Plain(o) && c.phase !in {NoPhase, Reflecting} && c.pendingReflection.None? && c.termination.None?
    ensures var k := ApplyControl(c, o);
            k.phase == ApplyPhases(c, o).phase && k.phase !in {NoPhase, Reflecting} && k.pendingReflection.None?
            && k.termination.None? && k.budget == c.budget && k.pendingTermination == c.pendingTermination
            && (o.selectedCategory != NoCategory && o.nextPhase == NoPhase ==> k.category == o.selectedCategory)
  {
  }

  lemma OneOutput(s: State, o: Output)
    ensures ClassifyToolResults(s, [o]) == SyncAudit(ClassifyOne(s, o))
    ensures NewRevisions([o]) == o.hypotheses
  {
    var outputs, none: seq<Output> := [o], [];
    assert outputs[..|outputs| - 1] == none;
    assert ClassifyAll(s, none) == s && NewRevisions(none) == [];
    assert [] + o.hypotheses == o.hypotheses;
  }

  lemma PlainAnswer(s: State, n: nat, m: nat, o: Output)
    requires Working(s, n, m) && Plain(o)
    ensures var u := ClassifyToolResults(s, [o]); m < 49 && n < 50 ==> Calm(u)
    ensures var t := Settled(ClassifyToolResults(s, [o])); Working(t, n, m + 1) && Answered(s, o, t)
  {
    hide ApplyControl, ApplyPhases;
    OneOutput(s, o);
    var c := s.control.(budget := CountCall(s.control.budget));
    PlainControl(c, o);
    PhaseAlone(s.control, c, o);
  }

  /** One plain call from one turn boundary to the next. */
  lemma PlainTurn(s: State, n: nat, m: nat, tool: Tool, o: Output) returns (t: State)
    requires Working(s, n, m) && n < 49 && m < 48 && Plain(o) && PermittedOutput(s, tool, o)
    ensures Connected(At(TerminationRouterNode, s), At(TerminationRouterNode, t)) && Working(t, n + 1, m + 1) && Answered(s, o, t)
  {
    OpenNext(s, n, m);
    t := OpenedTurn(s, s, n + 1, m, tool, o);
  }

  lemma OpenedTurn(s: State, like: State, n: nat, m: nat, tool: Tool, o: Output) returns (t: State)
    requires AfterTerminationRouter(TerminationRouter(s)) == At(ContextBuilder, s)
    requires BuildContext(s, false, NOTHING.turn).Done?
    requires var b := BuildContext(s, false, NOTHING.turn).state;
             Opened(b, n, m) && b.control.phase == like.control.phase && b.belief == like.belief && b.chain == like.chain
             && b.incident.evidence == like.incident.evidence
    requires !like.control.budget.toolCallsExhausted && n < 50 && m < 48 && Plain(o) && PermittedOutput(like, tool, o)
    ensures Connected(At(TerminationRouterNode, s), At(TerminationRouterNode, t)) && Working(t, n, m + 1) && Answered(like, o, t)
  {
    hide TerminationRouter, BuildContext, PermittedOutput, Connected, ApplyPhases, ClassifyToolResults, Calm, Settled, Plain;
    var calls, outputs := [Told(tool)], [o];
    var b := BuildContext(s, false, NOTHING.turn).state;
    var spoken := Spoken(b, calls);
    SamePermission(like, spoken, tool, o);
    OneOutput(spoken, o);
    PlainIsPermitted(spoken, tool, o);
    PlainAnswer(spoken, n, m, o);
    PhaseAlone(spoken.control, like.control, o);
    Turn(s, n, m, calls, outputs);
    t := Settled(ClassifyToolResults(spoken, outputs));
  }

  lemma PlainIsPermitted(s: State, tool: Tool, o: Output)
    requires Plain(o) && PermittedOutput(s, tool, o)
    ensures Permitted(s, [Told(tool)], [o])
  {
    OneOutput(s, o);
  }

  // ---------------------------------------------------------------- the turns

  const H1 := Hypothesis("h1", "h1", 1, [], Root, 0.9, Admitted, None)
  const H2 := Hypothesis("h2", "h2", 1, [], Root, 0.4, Admitted, None)
  const ADMITTED := [Admission("h1", true, true), Admission("h2", true, true)]
  const G1 := Grounding("g1", "h1", Grounded, ["k", "m"], 0.9, 0.0, 2, 1.0, 1.0, 1.0, 1.0, true, SNAPSHOT)
  const G2 := Grounding("g2", "h2", PartiallyGrounded, ["m"], 0.3, 0.0, 1, 1.0, 1.0, 1.0, 1.0, true, SNAPSHOT)
  const QUIET := Some(GroundingDelta(false, false))
  const DIAGNOSIS := AgentDiagnosis("d", "h1", SNAPSHOT, Some(CODE), true)
  const FINAL := DIAGNOSIS.(provisional := false)
  const PLAN := RecoveryPlan("p", RestartPod, "", Parameters(None, None), "d", SNAPSHOT, Some(CODE))
  const V1 := H1.(status := Supported, validatedSnapshot := SNAPSHOT)
  const V2 := H2.(status := Investigating, validatedSnapshot := SNAPSHOT)

  const OPEN := Chain(None, None, None, None, None, SNAPSHOT, Some(CODE))

  const EARLY := Chain(None, None, None, None, None, Some(SnapshotOf(map[])), Some(CODE))

  lemma Planned() returns (s: State, t: State)
    ensures s == START.(incident := START.incident.(status := Collecting))
    ensures Connected(At(TerminationRouterNode, s), At(TerminationRouterNode, t)) && Working(t, 2, 2)
    ensures t.control.phase == Investigation && t.chain == EARLY && t.belief == Belief([], [], [], [], 0, [], 0)
    ensures t.incident.evidence == map[]
  {
    hide Connected, BuildContext, TerminationRouter;
    s := START.(incident := START.incident.(status := Collecting));
    OpenFirst(s);
    var understood, planned := BLANK.(understanding := true), BLANK.(investigationPlan := true);
    var b := BuildContext(s, false, NOTHING.turn).state;
    var u := OpenedTurn(s, b, 1, 0, SubmitUnderstanding, understood);
    t := PlainTurn(u, 1, 1, SubmitPlan, planned);
    Chained(At(TerminationRouterNode, s), At(TerminationRouterNode, u), At(TerminationRouterNode, t));
  }

  /** Nothing is known yet, and the plan is in. */
  predicate Empty(s: State) {
    s.control.phase == Investigation && s.chain == EARLY && s.belief == Belief([], [], [], [], 0, [], 0) && s.incident.evidence == map[]
  }

  lemma Routed(s: State) returns (t: State)
    requires Working(s, 2, 2) && Empty(s)
    ensures Connected(At(TerminationRouterNode, s), At(TerminationRouterNode, t)) && Working(t, 3, 3) && Empty(t)
    ensures t.control.category == EvidenceTools
  {
    hide Connected;
    t := PlainTurn(s, 2, 2, SelectToolCategory, BLANK.(requestedSkills := ["collect"], selectedCategory := EvidenceTools));
  }

  // ---------------------------------------------------------------- the evidence and the reflection it raises

  const POD := BLANK.(kind := EvidenceResult, evidence := map["k" := Evidence("kubernetes", "restarts", 1.0)])
  const RATE := BLANK.(kind := EvidenceResult, evidence := map["m" := Evidence("prometheus", "errors", 1.0)])

  const LOOK := [Told(InspectKubernetes), Told(QueryMetrics)]

  /** The turn for which the selected Skill grants the evidence tools. */
  const GRANTED := NOTHING.(turn := TurnInput(Some({EvidenceTools}), "t", CODE))

  lemma OpenEvidence(s: State)
    requires Working(s, 3, 3) && Empty(s) && s.control.category == EvidenceTools
    ensures var r := BuildContext(s, false, GRANTED.turn);
            r.Done? && Opened(r.state, 4, 3) && Empty(r.state) && EffectiveCategory(r.state.control) == EvidenceTools
            && AfterTerminationRouter(TerminationRouter(s)) == At(ContextBuilder, s)
  {
  }

  /** Both answers applied: the evidence is there, and it is critical. */
  predicate Found(u: State) {
    && u.control.budget == BudgetState(DEFAULT_LIMITS, Usage(4, 5, 0, 0), false) && u.control.phase == Investigation
    && u.control.pendingReflection == Some(CriticalEvidence) && u.control.termination.None? && u.control.pendingTermination.None?
    && u.chain == EARLY && u.belief == Belief([], [], [], [], 0, [], 0)
    && u.incident.evidence == EVIDENCE && Scene(u) && u.incident.execution == Some(CODE) && u.incident.audit.Some?
  }

  lemma EvidenceMerges()
    ensures MergeEvidence(MergeEvidence(map[], POD.evidence), RATE.evidence) == EVIDENCE
    ensures POD.evidence != map[] && RATE.evidence != map[]
  {
    assert "k" in POD.evidence && "m" in RATE.evidence;
  }

  lemma FirstFound(b: State)
    requires Opened(b, 4, 3) && Empty(b)
    ensures var u := ClassifyOne(b, POD);
            && u.control.budget == BudgetState(DEFAULT_LIMITS, Usage(4, 4, 0, 0), false) && u.control.phase == Investigation
            && u.control.termination.None? && u.control.pendingTermination.None?
            && u.chain == EARLY && u.belief == b.belief
            && u.incident == b.incident.(evidence := MergeEvidence(map[], POD.evidence)) && u.verification == b.verification
  {
    EvidenceMerges();
  }

  lemma SecondFound(b: State, v: State)
    requires v.control.budget == BudgetState(DEFAULT_LIMITS, Usage(4, 4, 0, 0), false) && v.control.phase == Investigation
    requires v.control.termination.None? && v.control.pendingTermination.None? && v.chain == EARLY && Opened(b, 4, 3) && Empty(b)
    requires v.belief == b.belief && v.incident == b.incident.(evidence := MergeEvidence(map[], POD.evidence))
    requires v.verification == b.verification
    ensures Found(SyncAudit(ClassifyOne(v, RATE)))
  {
    EvidenceMerges();
  }

  lemma EvidenceIsFound(b: State)
    requires Opened(b, 4, 3) && Empty(b)
    ensures Found(ClassifyToolResults(b, [POD, RATE])) && Permitted(b, LOOK, [POD, RATE])
  {
    hide ClassifyOne, Found, SyncAudit;
    FirstFound(b);
    SecondFound(b, ClassifyOne(b, POD));
    Batch(b, [POD], RATE);
    Batch(b, [], POD);
    assert [] + [POD] == [POD] && [POD] + [RATE] == [POD, RATE];
    EvidenceMerges();
    ToolsMayAnswer(b);
  }

  lemma ToolsMayAnswer(b: State)
    requires Opened(b, 4, 3)
    ensures PermittedOutput(b, InspectKubernetes, POD) && PermittedOutput(b, QueryMetrics, RATE)
  {
    EvidenceMerges();
  }

  /** The state the reflection starts from. */
  predicate Reflective(r: State) {
    && r.control.budget == BudgetState(DEFAULT_LIMITS, Usage(4, 5, 0, 2), false) && r.control.phase == Investigation
    && r.control.pendingReflection == Some(CriticalEvidence) && r.control.termination.None? && r.control.pendingTermination.None?
    && r.chain == OPEN && r.belief == Belief([], [], [], [], 0, [], 0)
    && r.incident.evidence == EVIDENCE && Scene(r) && r.incident.execution == Some(CODE) && r.incident.audit.Some?
  }

  lemma SnapshotChanged()
    ensures EARLY.evidence != SNAPSHOT
  {
    assert "k" in SnapshotOf(EVIDENCE);
  }

  lemma Observed(u: State)
    requires Found(u)
    ensures var v := ObserveUpdate(u, None);
            && v.control == u.control && v.belief == u.belief && v.chain == OPEN && v.verification == u.verification
            && v.incident == u.incident.(audit := v.incident.audit) && v.incident.audit.Some?
    ensures var v := ObserveUpdate(u, None); BeliefUpdate(v) == v && BeliefCommit(v) == Done(SyncAudit(v))
  {
    SnapshotChanged();
    var none: seq<Hypothesis> := [];
    assert InvalidateStale(none, SnapshotOf(EVIDENCE)) == none;
  }

  lemma ReflectionIsDue(w: State)
    requires Found(w.(chain := EARLY)) && w.chain == OPEN
    ensures ReflectionRoute(w).1 == ToReflection && Reflective(ReflectionRoute(w).0)
  {
  }

  lemma StillFound(u: State, v: State)
    requires Found(u)
    requires v.control == u.control && v.belief == u.belief && v.chain == OPEN && v.verification == u.verification
    requires v.incident == u.incident.(audit := v.incident.audit) && v.incident.audit.Some?
    ensures Found(SyncAudit(v).(chain := EARLY)) && SyncAudit(v).chain == OPEN
  {
  }

  /** From the tools' answers to the reflection. */
  lemma Raised(u: State) returns (r: State)
    requires Found(u)
    ensures Connected(At(ObservationNode, u), At(ReflectionContextBuilder, r)) && Reflective(r)
  {
    hide ObserveUpdate, BeliefUpdate, BeliefCommit, ReflectionRoute, OuterNext, Connected, Found, Reflective, SyncAudit;
    var c := At(ObservationNode, u);
    Observed(u);
    var v := ObserveUpdate(u, None);
    var w := SyncAudit(v);
    StillFound(u, v);
    ReflectionIsDue(w);
    r := ReflectionRoute(w).0;
    Step(c, NOTHING);
    Onward(c, At(BeliefUpdateNode, v), NOTHING);
    Onward(c, At(BeliefCommitNode, v), NOTHING);
    Onward(c, At(ReflectionRouter, w), NOTHING);
  }

  lemma Collected(s: State) returns (r: State)
    requires Working(s, 3, 3) && Empty(s) && s.control.category == EvidenceTools
    ensures Connected(At(TerminationRouterNode, s), At(ReflectionContextBuilder, r)) && Reflective(r)
  {
    hide TerminationRouter, BuildContext, OuterNext, Connected, ClassifyToolResults, Spoken, Permitted, Working, Found, Reflective;
    var c := At(TerminationRouterNode, s);
    OpenEvidence(s);
    Step(c, GRANTED);
    Onward(c, At(ContextBuilder, s), GRANTED);
    var b := BuildContext(s, false, GRANTED.turn).state;
    SpokenIsOpened(b, 4, 3, LOOK);
    var spoken := Spoken(b, LOOK);
    EvidenceIsFound(spoken);
    Speak(BrainModel, b, 3, LOOK, [POD, RATE]);
    var u := ClassifyToolResults(spoken, [POD, RATE]);
    Chained(c, At(BrainModel, b), At(ObservationNode, u));
    r := Raised(u);
    Chained(c, At(ObservationNode, u), At(ReflectionContextBuilder, r));
  }

  lemma SpokenIsOpened(b: State, n: nat, m: nat, calls: seq<ToolCall>)
    requires Opened(b, n, m)
    ensures Opened(Spoken(b, calls), n, m) && (Empty(b) ==> Empty(Spoken(b, calls)))
  {
  }

  const PROPOSALS := BLANK.(hypotheses := [H1, H2], admissions := ADMITTED)

  /** The reflection has been opened. */
  predicate Reflected(b: State) {
    && b.control.budget == BudgetState(DEFAULT_LIMITS, Usage(5, 5, 0, 2), false)
    && b.control.phase == Reflecting && b.control.resumePhase == Investigation && EffectiveCategory(b.control) == ReasoningTools
    && b.control.termination.None? && b.control.pendingTermination.None?
    && b.chain == OPEN && b.belief == Belief([], [], [], [], 0, [], 0)
    && b.incident.evidence == EVIDENCE && Scene(b) && b.incident.execution == Some(CODE) && b.incident.audit.Some?
  }

  lemma OpenReflection(r: State)
    requires Reflective(r)
    ensures var b := BuildContext(r, true, NOTHING.turn); b.Done? && Slotted(b.state, 5) && Reflected(b.state)
  {
  }

  lemma ReflectionAnswer(b: State)
    requires Reflected(b)
    ensures var u := ClassifyToolResults(b, [PROPOSALS]); Calm(u) && Working(Settled(u), 5, 6)
    ensures var t := Settled(ClassifyToolResults(b, [PROPOSALS]));
            t.control.phase == Investigation && t.chain == OPEN && t.belief == Belief([H1, H2], ADMITTED, [], [], 0, [], 0)
            && t.incident.evidence == EVIDENCE
  {
    OneOutput(b, PROPOSALS);
    TwoRoots();
  }

  lemma ProposalsMayBeMade(b: State)
    requires Reflected(b)
    ensures Permitted(b, [Told(SubmitHypotheses)], [PROPOSALS])
  {
    OneOutput(b, PROPOSALS);
  }

  lemma SpokenIsReflected(b: State, calls: seq<ToolCall>)
    requires Reflected(b) && b.control.assistantTurns != []
    ensures Reflected(Spoken(b, calls))
  {
  }

  /** The reflection is resolved by the first hypotheses. */
  lemma Proposed(r: State) returns (t: State)
    requires Reflective(r)
    ensures Connected(At(ReflectionContextBuilder, r), At(TerminationRouterNode, t)) && Working(t, 5, 6)
    ensures t.control.phase == Investigation && t.chain == OPEN && t.belief == Belief([H1, H2], ADMITTED, [], [], 0, [], 0)
    ensures t.incident.evidence == EVIDENCE
  {
    hide BuildContext, OuterNext, Connected, ClassifyToolResults, Spoken, Permitted, Working, Calm, Settled, Reflected;
    var c, calls := At(ReflectionContextBuilder, r), [Told(SubmitHypotheses)];
    OpenReflection(r);
    Step(c, NOTHING);
    var b := BuildContext(r, true, NOTHING.turn).state;
    SpokenIsReflected(b, calls);
    ProposalsMayBeMade(Spoken(b, calls));
    Speak(ReflectionUpdate, b, 5, calls, [PROPOSALS]);
    var u := ClassifyToolResults(Spoken(b, calls), [PROPOSALS]);
    Chained(c, At(ReflectionUpdate, b), At(ObservationNode, u));
    ReflectionAnswer(Spoken(b, calls));
    Settle(u);
    t := Settled(u);
    Chained(c, At(ObservationNode, u), At(TerminationRouterNode, t));
  }

  lemma TwoRoots()
    ensures AddHypotheses([], [H1, H2]) == [H1, H2]
  {
    var none: seq<Hypothesis> := [];
    assert MarkParents(none, H1) + [H1] == [H1] && [H1, H2][1..] == [H2];
    assert AddHypotheses(none, [H1, H2]) == AddHypotheses([H1], [H2]);
    assert MarkParents([H1], H2) + [H2] == [H1, H2] && [H2][1..] == none;
    assert AddHypotheses([H1], [H2]) == AddHypotheses([H1, H2], none);
  }

  /** The first hypothesis is grounded. */
  predicate HalfValidated(s: State) {
    && s.control.phase == Investigation && s.chain == OPEN && s.incident.evidence == EVIDENCE
    && s.belief.hypotheses == [V1, H2] && s.belief.admissions == ADMITTED && s.belief.groundings == [G1]
  }

  lemma FirstValidated(s: State) returns (t: State)
    requires Working(s, 5, 6) && s.control.phase == Investigation && s.chain == OPEN && s.incident.evidence == EVIDENCE
    requires s.belief == Belief([H1, H2], ADMITTED, [], [], 0, [], 0)
    ensures Connected(At(TerminationRouterNode, s), At(TerminationRouterNode, t)) && Working(t, 6, 7) && HalfValidated(t)
  {
    hide Connected;
    t := PlainTurn(s, 5, 6, ValidateHypothesis, BLANK.(grounding := Some(G1), groundingDelta := QUIET));
    assert AddHypotheses([H1, H2], []) == [H1, H2];
    assert MarkGrounded([H1, H2], G1) == [V1, H2];
  }

  lemma SecondValidated(s: State) returns (t: State)
    requires Working(s, 6, 7) && HalfValidated(s)
    ensures Connected(At(TerminationRouterNode, s), At(TerminationRouterNode, t)) && Working(t, 7, 8)
    ensures t.control.phase == Investigation && t.chain == OPEN && t.incident.evidence == EVIDENCE
    ensures t.belief.hypotheses == [V1, V2] && t.belief.admissions == ADMITTED && t.belief.groundings == [G1, G2]
  {
    hide Connected;
    t := PlainTurn(s, 6, 7, ValidateHypothesis, BLANK.(grounding := Some(G2), groundingDelta := QUIET));
    assert AddHypotheses([V1, H2], []) == [V1, H2];
    assert MarkGrounded([V1, H2], G2) == [V1, V2];
    assert WithoutGrounding([G1], "h2") == [G1] by {
      assert [G1][1..] == [];
    }
  }

  lemma Validated(s: State) returns (t: State)
    requires Working(s, 5, 6) && s.control.phase == Investigation && s.chain == OPEN && s.incident.evidence == EVIDENCE
    requires s.belief == Belief([H1, H2], ADMITTED, [], [], 0, [], 0)
    ensures Connected(At(TerminationRouterNode, s), At(TerminationRouterNode, t)) && Working(t, 7, 8)
    ensures t.control.phase == Investigation && t.chain == OPEN && t.incident.evidence == EVIDENCE
    ensures t.belief.hypotheses == [V1, V2] && t.belief.admissions == ADMITTED && t.belief.groundings == [G1, G2]
  {
    hide Connected, Working, HalfValidated;
    var u := FirstValidated(s);
    t := SecondValidated(u);
    Chained(At(TerminationRouterNode, s), At(TerminationRouterNode, u), At(TerminationRouterNode, t));
  }

  lemma Advanced(s: State) returns (t: State)
    requires Working(s, 7, 8) && s.control.phase == Investigation && s.chain == OPEN && s.incident.evidence == EVIDENCE
    ensures Connected(At(TerminationRouterNode, s), At(TerminationRouterNode, t)) && Working(t, 8, 9)
    ensures t.control.phase == Diagnosis && t.chain == OPEN && SameBelief(s, t)
  {
    hide Connected;
    t := PlainTurn(s, 7, 8, AdvancePhase, BLANK.(nextPhase := Diagnosis));
  }

  lemma Diagnosed(s: State) returns (t: State)
    requires Working(s, 8, 9) && s.control.phase == Diagnosis && s.chain == OPEN && s.incident.evidence == EVIDENCE
    ensures Connected(At(TerminationRouterNode, s), At(TerminationRouterNode, t)) && Working(t, 9, 10)
    ensures t.control.phase == Diagnosis && t.chain == OPEN.(diagnosis := Some(DIAGNOSIS)) && SameBelief(s, t)
  {
    hide Connected;
    t := PlainTurn(s, 8, 9, SubmitDiagnosis, BLANK.(diagnosis := Some(DIAGNOSIS)));
  }

  lemma Finalized(s: State) returns (t: State)
    requires Working(s, 9, 10) && s.control.phase == Diagnosis && s.chain == OPEN.(diagnosis := Some(DIAGNOSIS)) && s.incident.evidence == EVIDENCE
    ensures Connected(At(TerminationRouterNode, s), At(TerminationRouterNode, t)) && Working(t, 10, 11)
    ensures t.control.phase == Recovery && t.chain == OPEN.(diagnosis := Some(FINAL)) && SameBelief(s, t)
  {
    hide Connected;
    t := PlainTurn(s, 9, 10, ValidateDiagnosis,
                   BLANK.(diagnosis := Some(FINAL), diagnosisFinalized := true, validation := Some(true)));
  }

  predicate SameBelief(s: State, t: State) {
    && t.incident.evidence == s.incident.evidence
    && t.belief.hypotheses == s.belief.hypotheses && t.belief.admissions == s.belief.admissions && t.belief.groundings == s.belief.groundings
  }

  lemma WithPlan(s: State) returns (t: State)
    requires Working(s, 10, 11) && s.control.phase == Recovery && s.chain == OPEN.(diagnosis := Some(FINAL)) && s.incident.evidence == EVIDENCE
    ensures Connected(At(TerminationRouterNode, s), At(TerminationRouterNode, t)) && Working(t, 11, 12)
    ensures t.control.phase == Recovery && t.chain == OPEN.(diagnosis := Some(FINAL), plan := Some(PLAN)) && SameBelief(s, t)
  {
    hide Connected;
    t := PlainTurn(s, 10, 11, SubmitRecoveryPlan, BLANK.(recoveryPlan := Some(PLAN)));
  }

  // ---------------------------------------------------------------- the last turn

  const FINISH := BLANK.(termination := Some(DiagnosisConfident))

  const DENIED := BLANK.(kind := ConstraintResult, newInformation := false)

  /** The plan is in, the model has finished; `beside` says whether another call of that batch was denied. */
  predicate HandedOver(t: State, beside: bool) {
    && Scene(t) && t.incident.evidence == EVIDENCE && t.control.termination == Some(DiagnosisConfident)
    && t.control.pendingReflection == (if beside then Some(ConstraintFailure) else None)
    && t.control.budget == BudgetState(DEFAULT_LIMITS, t.control.budget.usage.(reflectionCost := 2), false)
    && t.chain == OPEN.(diagnosis := Some(FINAL), plan := Some(PLAN)) && t.incident.execution == Some(CODE)
    && t.incident.audit == Some(InvestigationAudit(Some(FINAL), Some(PLAN)))
    && t.belief.hypotheses == [V1, V2] && t.belief.admissions == ADMITTED && t.belief.groundings == [G1, G2]
  }

  predicate Ready(s: State) {
    && Working(s, 11, 12) && s.incident.evidence == EVIDENCE && s.control.phase == Recovery && s.chain == OPEN.(diagnosis := Some(FINAL), plan := Some(PLAN))
    && s.belief.hypotheses == [V1, V2] && s.belief.admissions == ADMITTED && s.belief.groundings == [G1, G2]
  }

  lemma Batch(s: State, outputs: seq<Output>, last: Output)
    ensures ClassifyAll(s, outputs + [last]) == ClassifyOne(ClassifyAll(s, outputs), last)
    ensures NewRevisions(outputs + [last]) == NewRevisions(outputs) + last.hypotheses
  {
    assert (outputs + [last])[..|outputs + [last]| - 1] == outputs;
  }

  function LastCalls(beside: bool): seq<ToolCall> {
    [Told(FinishInvestigation)] + if beside then [Told(ReadSkillReference)] else []
  }

  function LastOutputs(beside: bool): seq<Output> {
    [FINISH] + if beside then [DENIED] else []
  }

  /** After the finish, and after the denied call beside it. */
  predicate Finishing(b: State, u: State, m: nat, pending: Option<Trigger>) {
    u == b.(control := b.control.(termination := Some(DiagnosisConfident), pendingReflection := pending,
                                  budget := BudgetState(DEFAULT_LIMITS, Usage(12, m, 0, 2), false)))
  }

  lemma FinishAnswer(b: State)
    requires Ready(b.(control := b.control.(budget := BudgetState(DEFAULT_LIMITS, Usage(11, 12, 0, 2), false))))
    requires b.control.budget == BudgetState(DEFAULT_LIMITS, Usage(12, 12, 0, 2), false)
    ensures Finishing(b, ClassifyOne(b, FINISH), 13, None)
    ensures PermittedOutput(b, FinishInvestigation, FINISH) && PermittedOutput(b, ReadSkillReference, DENIED)
  {
  }

  lemma DeniedAnswer(b: State, u: State)
    requires Finishing(b, u, 13, None) && b.control.phase == Recovery
    ensures Finishing(b, ClassifyOne(u, DENIED), 14, Some(ConstraintFailure))
  {
  }

  lemma FinishedIsCalm(b: State, u: State, m: nat, beside: bool)
    requires Ready(b.(control := b.control.(budget := BudgetState(DEFAULT_LIMITS, Usage(11, 12, 0, 2), false))))
    requires Finishing(b, u, m, if beside then Some(ConstraintFailure) else None)
    ensures Calm(SyncAudit(u)) && HandedOver(Settled(SyncAudit(u)), beside)
  {
  }

  lemma LastAnswers(b: State, beside: bool)
    requires Ready(b.(control := b.control.(budget := BudgetState(DEFAULT_LIMITS, Usage(11, 12, 0, 2), false))))
    requires b.control.budget == BudgetState(DEFAULT_LIMITS, Usage(12, 12, 0, 2), false)
    ensures var u := ClassifyToolResults(b, LastOutputs(beside)); Calm(u) && HandedOver(Settled(u), beside)
    ensures Permitted(b, LastCalls(beside), LastOutputs(beside))
  {
    hide Calm, Settled, HandedOver, ClassifyOne, PermittedOutput, SyncAudit;
    FinishAnswer(b);
    Batch(b, [FINISH], DENIED);
    Batch(b, [], FINISH);
    assert [] + [FINISH] == [FINISH];
    var u := ClassifyOne(b, FINISH);
    if beside {
      DeniedAnswer(b, u);
      FinishedIsCalm(b, ClassifyOne(u, DENIED), 14, true);
    } else {
      FinishedIsCalm(b, u, 13, false);
    }
  }

  lemma LastTurn(s: State, beside: bool) returns (t: State)
    requires Ready(s)
    ensures Connected(At(TerminationRouterNode, s), At(TerminationRouterNode, t)) && HandedOver(t, beside)
  {
    hide Connected, ClassifyToolResults, HandedOver, Calm, Settled, Permitted;
    OpenNext(s, 11, 12);
    var b := Spoken(BuildContext(s, false, NOTHING.turn).state, LastCalls(beside));
    LastAnswers(b, beside);
    Turn(s, 12, 12, LastCalls(beside), LastOutputs(beside));
    t := Settled(ClassifyToolResults(b, LastOutputs(beside)));
  }

  // ---------------------------------------------------------------- from the Brain to the executor

  lemma TheDecisionIsGrounded(s: State, beside: bool)
    requires HandedOver(s, beside)
    ensures GroundedDecision(s) && FindGrounding(s.belief.groundings, "h1") == Some(G1)
    ensures FindHypothesis(s.belief.hypotheses, "h1") == Some(V1)
  {
    var g, h, a := [G1, G2], [V1, V2], ADMITTED;
    assert g[..1] == [G1] && h[..1] == [V1] && a[..1] == [Admission("h1", true, true)];
    assert [G1][..0] == [];
    assert StrongestRival([G1], "h1") == 0.0 && StrongestRival(g, "h1") == 0.3;
    assert AdmittedRevision(a, "h1") && AdmittedRevision(a, "h2");
    assert AdmittedGroundings([G1], a) == 1 && AdmittedGroundings(g, a) == 2;
    assert "k" in G1.supporting && "k" in EVIDENCE;
  }

  /** The proposal the permission node makes of the plan, before and after its dry run. */
  const OFFER := Proposal("q", RestartPod, "shop", "cart", Parameters(None, None), "", "", 300)
  const TRIED := Proposal("q", RestartPod, "shop", "cart", Parameters(Some("noon"), None), "u", "1", 300)

  function Permission(s: State): State {
    s.(chain := s.chain.(permission := Some(true)), incident := s.incident.(proposal := Some(OFFER), status := Proposing))
  }

  function Tried(s: State): State {
    var d := Some(DryRun(true, RestartPod, "cart", "restarted", CONTEXT.mutationHash, 1));
    s.(chain := s.chain.(dryRun := d), incident := s.incident.(proposal := Some(TRIED), dryRun := d))
  }

  function Approved(s: State): State {
    s.(chain := s.chain.(context := Some(CONTEXT)), incident := s.incident.(context := Some(CONTEXT), status := Recovering))
  }

  lemma PermissionIsGiven(s: State, beside: bool)
    requires HandedOver(s, beside)
    ensures AfterTerminationRouter(TerminationRouter(s)) == At(PermissionNode, s)
    ensures AfterPermission(RecoveryPermission(s, "q", 0)) == At(DryRunStage, Permission(s))
  {
    hide GroundedDecision, FindGrounding, FindHypothesis;
    TheDecisionIsGrounded(s, beside);
    assert FindGrounding(s.belief.groundings, "h1").Some? && FindHypothesis(s.belief.hypotheses, "h1").Some?;
  }

  lemma DryRunSucceeds(s: State)
    requires s.incident.proposal == Some(OFFER)
    ensures AfterDryRun(DryRunNode(s, NOTHING.cluster)) == At(ProposalValidator, Tried(s))
  {
  }

  lemma ProposalIsValid(s: State)
    requires s.incident.status == Proposing && s.incident.proposal == Some(TRIED)
    requires s.chain.dryRun.Some? && s.chain.dryRun.value.success && s.incident.dryRun == s.chain.dryRun
    ensures AfterValidator(ValidateProposal(s)) == At(ApprovalInterrupt, s)
    ensures Continue(RequestApproval(s), ApprovalResume) == At(ApprovalResume, s.(incident := s.incident.(status := AwaitingApproval)))
  {
  }

  lemma ApprovalIsGiven(s: State, beside: bool)
    requires HandedOver(s, beside)
    ensures var t := Tried(Permission(s)); var w := t.(incident := t.incident.(status := AwaitingApproval));
            AfterApproval(ResumeApproval(w, NOTHING.resume)) == At(ActionExecutor, Approved(t))
    ensures MutationAuthorized(Approved(Tried(Permission(s))), 0, 0)
  {
  }

  lemma Handover(s: State, beside: bool)
    requires HandedOver(s, beside)
    ensures Connected(At(TerminationRouterNode, s), At(ActionExecutor, Approved(Tried(Permission(s)))))
  {
    hide Connected, HandedOver, TerminationRouter, RecoveryPermission, DryRunNode, ValidateProposal, RequestApproval, ResumeApproval,
         AfterTerminationRouter, AfterPermission, AfterDryRun, AfterValidator, AfterApproval, MutationAuthorized;
    var c := At(TerminationRouterNode, s);
    var p := Permission(s);
    var t := Tried(p);
    PermissionIsGiven(s, beside);
    Step(c, NOTHING);
    Onward(c, At(PermissionNode, s), NOTHING);
    DryRunSucceeds(p);
    Onward(c, At(DryRunStage, p), NOTHING);
    ProposalIsValid(t);
    Onward(c, At(ProposalValidator, t), NOTHING);
    Onward(c, At(ApprovalInterrupt, t), NOTHING);
    ApprovalIsGiven(s, beside);
    Onward(c, At(ApprovalResume, t.(incident := t.incident.(status := AwaitingApproval))), NOTHING);
  }

  lemma ReadyToFinish() returns (s: State, t: State)
    ensures s == START.(incident := START.incident.(status := Collecting))
    ensures Connected(At(TerminationRouterNode, s), At(TerminationRouterNode, t)) && Ready(t)
  {
    hide Connected, Reflective;
    var n1;
    s, n1 := Planned();
    var c := At(TerminationRouterNode, s);
    var n2 := Routed(n1);
    Chained(c, At(TerminationRouterNode, n1), At(TerminationRouterNode, n2));
    var n3 := Collected(n2);
    Chained(c, At(TerminationRouterNode, n2), At(ReflectionContextBuilder, n3));
    var n4 := Proposed(n3);
    Chained(c, At(ReflectionContextBuilder, n3), At(TerminationRouterNode, n4));
    t := Concluded(c, n4);
  }

  lemma Concluded(c: Config, n4: State) returns (t: State)
    requires Connected(c, At(TerminationRouterNode, n4)) && Working(n4, 5, 6) && n4.control.phase == Investigation && n4.chain == OPEN
    requires n4.belief == Belief([H1, H2], ADMITTED, [], [], 0, [], 0) && n4.incident.evidence == EVIDENCE
    ensures Connected(c, At(TerminationRouterNode, t)) && Ready(t)
  {
    hide Connected;
    var n5 := Validated(n4);
    Chained(c, At(TerminationRouterNode, n4), At(TerminationRouterNode, n5));
    var n6 := Advanced(n5);
    Chained(c, At(TerminationRouterNode, n5), At(TerminationRouterNode, n6));
    var n7 := Diagnosed(n6);
    Chained(c, At(TerminationRouterNode, n6), At(TerminationRouterNode, n7));
    var n8 := Finalized(n7);
    Chained(c, At(TerminationRouterNode, n7), At(TerminationRouterNode, n8));
    t := WithPlan(n8);
    Chained(c, At(TerminationRouterNode, n8), At(TerminationRouterNode, t));
  }

  /** What the executor finds at the end of such a run. */
  predicate AtExecutor(c: Config, beside: bool) {
    && c.node == ActionExecutor && MutationAuthorized(c.state, 0, 0)
    && c.state.control.pendingReflection == (if beside then Some(ConstraintFailure) else None)
    && ReflectionAvailable(c.state, RecoveryFailure) && ReflectionAvailable(c.state, VerificationFailure)
    && c.state.incident.recovery == RecoveryExecution(0, 0, NotAttempted) && c.state.incident.status == Recovering
    && c.state.verification == VerificationCount(0, 0)
  }

  lemma IntakeStep()
    ensures Next(At(IntakeNode, START), NOTHING) == At(TerminationRouterNode, START.(incident := START.incident.(status := Collecting)))
    ensures Initial(At(IntakeNode, START))
  {
  }

  lemma ExecutorFinds(s: State, beside: bool)
    requires HandedOver(s, beside)
    ensures AtExecutor(At(ActionExecutor, Approved(Tried(Permission(s)))), beside)
  {
    hide ContextMatches, MutationAuthorized;
    ApprovalIsGiven(s, beside);
  }

  /** A run from the start of the attempt to an authorized execution, with or without a denied call beside the finish. */
  lemma ExecutorIsReached(beside: bool) returns (c: Config)
    ensures Connected(At(IntakeNode, START), c) && AtExecutor(c, beside)
  {
    hide Connected, HandedOver, AtExecutor, Next, Ready;
    IntakeStep();
    Step(At(IntakeNode, START), NOTHING);
    var s, t := ReadyToFinish();
    Chained(At(IntakeNode, START), At(TerminationRouterNode, s), At(TerminationRouterNode, t));
    var u := LastTurn(t, beside);
    Chained(At(IntakeNode, START), At(TerminationRouterNode, t), At(TerminationRouterNode, u));
    Handover(u, beside);
    ExecutorFinds(u, beside);
    c := At(ActionExecutor, Approved(Tried(Permission(u))));
    Chained(At(IntakeNode, START), At(TerminationRouterNode, u), c);
  }

  // ---------------------------------------------------------------- the failing runs

  lemma Extended(c: Config, i: Input) returns (trace: seq<Config>, inputs: seq<Input>)
    requires Connected(At(IntakeNode, START), c) && !Terminal(c) && Admissible(c, i)
    ensures IsRun(trace, inputs) && Initial(trace[0]) && inputs != [] && inputs[|inputs| - 1] == i
    ensures trace[|inputs| - 1] == c && trace[|inputs|] == Next(c, i) && trace[0].state.incident.evidence == map[]
  {
    hide Next, Admissible;
    IntakeStep();
    var s, j :| Connects(At(IntakeNode, START), c, s, j);
    trace, inputs := s + [Next(c, i)], j + [i];
    forall k | 0 <= k < |inputs|
      ensures !Terminal(trace[k]) && Admissible(trace[k], inputs[k]) && trace[k + 1] == Next(trace[k], inputs[k])
    {
      if k < |j| {
        assert trace[k] == s[k] && trace[k + 1] == s[k + 1];
      }
    }
  }

  lemma ConfirmedReturns(trace: seq<Config>, inputs: seq<Input>, k: nat)
    requires IsRun(trace, inputs) && Initial(trace[0]) && k < |inputs| && AtExecutor(trace[k], true)
    requires inputs[k] == NOTHING.(result := Confirmed)
    ensures trace[k + 1].node == TerminationRouterNode && ComesBack(trace[k + 1])
    ensures trace[k + 1].state.incident.recovery.confirmedMutations == 1
  {
    hide Next, Inherited, MutationAuthorized, ComesBack;
    ExecutorInherits(trace, inputs, k);
    AuthorizedExecutionStep(trace[k], inputs[k], trace[k - 5].state);
    ConfirmedIsCounted(trace[k]);
    PendingAtPermission(trace[k - 5].state, trace[k].state);
  }

  lemma PendingAtPermission(s: State, t: State)
    requires Inherited(s, t)
    ensures t.control.pendingReflection == s.control.pendingReflection
  {
  }

  lemma ConfirmedIsCounted(c: Config)
    requires AtExecutor(c, true)
    ensures Next(c, NOTHING.(result := Confirmed)).state.incident.recovery.confirmedMutations == 1
  {
    ExecutorStep(c, NOTHING.(result := Confirmed));
  }

  /** A finish beside a denied call: a confirmed mutation that is never verified and never finalized. */
  lemma ConfirmedButNotVerified() returns (trace: seq<Config>, inputs: seq<Input>)
    ensures IsRun(trace, inputs) && Initial(trace[0]) && trace[0].state.incident.evidence == map[] && inputs != [] && trace[|inputs| - 1].node == ActionExecutor
    ensures inputs[|inputs| - 1].result == Confirmed && trace[|inputs|].state.incident.recovery.confirmedMutations == 1
    ensures trace[|inputs|].node == TerminationRouterNode && ComesBack(trace[|inputs|])
  {
    hide Connected, Next, ComesBack, MutationAuthorized, ReflectionAvailable;
    var c := ExecutorIsReached(true);
    trace, inputs := Extended(c, NOTHING.(result := Confirmed));
    ConfirmedReturns(trace, inputs, |inputs| - 1);
  }

  /** A refused execution that can still pay for a reflection is sent back, and so never finalized. */
  lemma RefusedIsSentBack() returns (trace: seq<Config>, inputs: seq<Input>)
    ensures IsRun(trace, inputs) && Initial(trace[0]) && trace[0].state.incident.evidence == map[] && inputs != [] && trace[|inputs| - 1].node == ActionExecutor
    ensures NothingExecuted(trace[|inputs| - 1].state, inputs[|inputs| - 1])
    ensures trace[|inputs|].node == TerminationRouterNode && trace[|inputs|].state.incident.status == Status.RecoveryFailed
  {
    hide Connected, Next, ReflectionAvailable;
    var c := ExecutorIsReached(false);
    RefusedExecutionStep(c, NOTHING);
    trace, inputs := Extended(c, NOTHING);
  }

  lemma ConfirmedIsVerifying(c: Config)
    requires AtExecutor(c, false)
    ensures var d := Next(c, NOTHING.(result := Confirmed));
            d.node == VerificationController && d.state.incident.status == Verifying && d.state.control == c.state.control
            && d.state.incident.strategy == c.state.incident.strategy && d.state.verification == VerificationCount(0, 0)
  {
    hide ContextMatches;
  }

  /** So is a verification that ran out of time. */
  lemma FailedVerificationIsSentBack() returns (trace: seq<Config>, inputs: seq<Input>)
    ensures IsRun(trace, inputs) && Initial(trace[0]) && trace[0].state.incident.evidence == map[] && inputs != [] && trace[|inputs| - 1].node == VerificationController
    ensures trace[|inputs|].node == TerminationRouterNode && trace[|inputs|].state.incident.status == Status.RecoveryFailed
  {
    hide Connected, Next, MutationAuthorized;
    var c := ExecutorIsReached(false);
    ConfirmedIsVerifying(c);
    var d := Next(c, NOTHING.(result := Confirmed));
    Onward(At(IntakeNode, START), c, NOTHING.(result := Confirmed));
    var i := NOTHING.(rounds := [Round(false, None, 0)]);
    FailedVerificationStep(d, i);
    trace, inputs := Extended(d, i);
  }
}
