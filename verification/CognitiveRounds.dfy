/**
 The deterministic diagnosis with its optional cognitive part (agent/cognitive_graph.go:16-33,
 98-154, 206-238, 263-410, 467-491; agent/cognitive_diagnosis.go:47-58, 382-422;
 agent/baseline_graph.go:128-174).

 Collectors, ranking, assertions, candidate generation, verification and the server's own
 choice of further requests are functions of what they are given (`Services`). The cognitive
 component is an arbitrary reply in every round. What is proved is what such a reply can and
 cannot reach.
 */
module CognitiveRounds {
  import opened Domain
  import opened Sequences
  import opened Arbitration

  // ---------------------------------------------------------------- the services and the replies

  datatype Request = Request(source: string, fingerprint: string)

  type EvidenceSet = map<string, string>

  datatype Draft = Draft(id: string)

  datatype Policy = Policy(observation: string, status: string)

  datatype Preference = Preference(preferred: string, other: string)

  /** One cognitive answer; None stands for an unavailable model. */
  datatype Reply = Reply(expansions: nat, policies: seq<Policy>, preferences: seq<Preference>)

  const UNRESOLVED := Draft("unresolved-mechanism")

  datatype Services = Services(
    initial: EvidenceSet,
    plan: seq<Request>,
    collect: (seq<Request>, EvidenceSet) -> EvidenceSet,
    rank: EvidenceSet -> EvidenceSet,
    assess: (EvidenceSet, seq<string>) -> seq<string>,
    annotate: EvidenceSet -> EvidenceSet,
    generate: (seq<string>, EvidenceSet) -> seq<Draft>,
    verify: (seq<Draft>, EvidenceSet, seq<string>) -> seq<Verified>,
    references: EvidenceSet -> seq<EvidenceRef>,
    explore: (EvidenceSet, seq<string>) -> seq<Request>,
    value: (seq<Policy>, seq<Verified>, seq<string>) -> seq<Policy>,
    compile: (seq<Policy>, EvidenceSet) -> seq<Request>)

  /** Rule-only; evidence-only, with no flag; cognitive; active, which is cognitive too. */
  datatype Mode = Mode(ruleOnly: bool, cognitive: bool, active: bool)

  // ---------------------------------------------------------------- the state of one diagnosis

  datatype Outcome = Outcome(decision: Decision, display: Option<string>, stopped: bool)

  /** The audit keeps every cognitive reply of a round and the falsification record; nothing objective reads it. */
  datatype Audit = Audit(records: seq<(nat, Reply)>, drafts: seq<Draft>, falsified: bool)

  datatype Runtime = Runtime(
    mode: Mode, round: nat, maxRounds: nat, completed: bool, pendingRequests: seq<Request>, pendingPolicies: seq<Policy>,
    seen: set<string>, collected: seq<string>, evidence: EvidenceSet, assertions: seq<string>, drafts: seq<Draft>,
    unresolved: bool, verified: seq<Verified>, outcome: Outcome, audit: Audit)

  const NO_OUTCOME := Outcome(Decision([], "", 0.0, 0.0, [], false, false), None, false)

  /** Round one, and for the active method the planner's reply on record as round zero. */
  function Start(services: Services, mode: Mode, planner: Reply): Runtime {
    Runtime(mode, 1, if mode.active then 2 else 1, false, services.plan, [], {}, [], services.initial, [], [], false, [], NO_OUTCOME,
            Audit(if mode.active then [(0, planner)] else [], [], false))
  }

  /** Ending early keeps the last decision but marks it as wanting evidence. */
  function StopEarly(r: Runtime): Runtime {
    r.(completed := true, outcome := r.outcome.(decision := r.outcome.decision.(needsMoreEvidence := true), stopped := true))
  }

  // ---------------------------------------------------------------- the nodes as functions

  function CompileQueries(services: Services, r: Runtime): Runtime {
    if r.completed || r.pendingRequests != [] then r
    else
      var requests := services.compile(r.pendingPolicies, r.evidence);
      if requests == [] then StopEarly(r) else r.(pendingRequests := requests)
  }

  /** The requests not seen before, each fingerprint once. */
  function Unseen(requests: seq<Request>, seen: set<string>): seq<Request> {
    if requests == [] then []
    else if requests[0].fingerprint in seen then Unseen(requests[1..], seen)
    else [requests[0]] + Unseen(requests[1..], seen + {requests[0].fingerprint})
  }

  lemma {:induction false} UnseenAreNew(requests: seq<Request>, seen: set<string>)
    ensures forall k :: 0 <= k < |Unseen(requests, seen)| ==> Unseen(requests, seen)[k].fingerprint !in seen
    ensures Distinct(Fingerprints(Unseen(requests, seen)))
  {
    if requests != [] {
      UnseenAreNew(requests[1..], seen);
      UnseenAreNew(requests[1..], seen + {requests[0].fingerprint});
      var rest := Unseen(requests[1..], seen + {requests[0].fingerprint});
      assert Fingerprints([requests[0]] + rest) == [requests[0].fingerprint] + Fingerprints(rest);
    }
  }

  lemma UnseenStep(requests: seq<Request>, k: nat, seen: set<string>)
    requires k < |requests|
    ensures Unseen(requests[k..], seen)
         == (if requests[k].fingerprint in seen then [] else [requests[k]])
            + Unseen(requests[k + 1..], seen + {requests[k].fingerprint})
  {
    assert requests[k..][1..] == requests[k + 1..];
    if requests[k].fingerprint in seen {
      assert seen + {requests[k].fingerprint} == seen;
    }
  }

  lemma FingerprintsStep(requests: seq<Request>, k: nat)
    requires k < |requests|
    ensures Elements(Fingerprints(requests[..k + 1])) == Elements(Fingerprints(requests[..k])) + {requests[k].fingerprint}
  {
    assert Fingerprints(requests[..k + 1]) == Fingerprints(requests[..k]) + [requests[k].fingerprint];
  }

  function Fingerprints(requests: seq<Request>): seq<string> {
    seq(|requests|, k requires 0 <= k < |requests| => requests[k].fingerprint)
  }

  function Collect(services: Services, r: Runtime): Runtime {
    if r.completed then r
    else
      var unique := Unseen(r.pendingRequests, r.seen);
      var cleared := r.(pendingRequests := [], seen := r.seen + Elements(Fingerprints(r.pendingRequests)));
      if unique == [] then StopEarly(cleared)
      else
        var grown := cleared.(evidence := r.evidence + services.collect(unique, r.evidence),
                              collected := r.collected + Fingerprints(unique));
        if r.round > 1 && |grown.evidence| == |r.evidence| then StopEarly(grown) else grown
  }

  function BuildAssertions(services: Services, r: Runtime): Runtime {
    if r.completed then r
    else
      var ranked := services.rank(r.evidence);
      var evidence := if ranked == map[] then r.evidence else ranked;
      r.(evidence := evidence, assertions := services.assess(evidence, r.assertions))
  }

  function Verifiable(drafts: seq<Draft>): seq<Draft> {
    if drafts == [] then []
    else Verifiable(drafts[..|drafts| - 1]) + if drafts[|drafts| - 1] == UNRESOLVED then [] else [drafts[|drafts| - 1]]
  }

  function GenerateCandidates(services: Services, r: Runtime): Runtime {
    if r.completed then r
    else
      var evidence := services.annotate(r.evidence);
      var drafts := services.generate(r.assertions, evidence) + if r.unresolved then [UNRESOLVED] else [];
      r.(evidence := evidence, drafts := drafts, verified := services.verify(Verifiable(drafts), evidence, r.assertions))
  }

  function Reason(r: Runtime, reply: Option<Reply>): Runtime {
    if r.completed || !r.mode.cognitive then r
    else
      var answer := if reply.Some? then reply.value else Reply(0, [], []);
      var activates := answer.expansions > 0 && !r.unresolved;
      r.(audit := r.audit.(records := r.audit.records + [(r.round, answer)],
                           drafts := r.audit.drafts + if activates then [UNRESOLVED] else []),
         drafts := r.drafts + (if activates then [UNRESOLVED] else []),
         unresolved := r.unresolved || activates,
         pendingPolicies := answer.policies)
  }

  function Falsify(r: Runtime): Runtime {
    if r.completed || r.mode.ruleOnly then r else r.(audit := r.audit.(falsified := true))
  }

  function ScoreOf(verified: seq<Verified>, id: string): real {
    if verified == [] then 0.0
    else if verified[|verified| - 1].id == id then verified[|verified| - 1].score else ScoreOf(verified[..|verified| - 1], id)
  }

  function Abs(x: real): real {
    if x < 0.0 then -x else x
  }

  /** A preference counts only between the selected candidate and one within a tenth of its score. */
  predicate Applies(d: Decision, verified: seq<Verified>, p: Preference) {
    && (p.preferred == d.selected || p.other == d.selected)
    && Abs(ScoreOf(verified, p.preferred) - ScoreOf(verified, p.other)) <= 0.10
  }

  function Displayed(d: Decision, verified: seq<Verified>, preferences: seq<Preference>): Option<string> {
    if d.selected == "" || preferences == [] then None
    else if Applies(d, verified, preferences[0]) then Some(preferences[0].preferred)
    else Displayed(d, verified, preferences[1..])
  }

  /** The replies recorded for this round, applied in order; the last one that says something is shown. */
  function Presentation(d: Decision, verified: seq<Verified>, records: seq<(nat, Reply)>, round: nat): Option<string> {
    if records == [] then None
    else
      var last := records[|records| - 1];
      var shown := if last.0 == round then Displayed(d, verified, last.1.preferences) else None;
      if shown.Some? then shown else Presentation(d, verified, records[..|records| - 1], round)
  }

  function Decide(services: Services, r: Runtime): Runtime {
    if r.completed then r
    else
      var d := Arbitrate(r.verified, services.references(r.evidence));
      var decided := r.(outcome := Outcome(d, Presentation(d, r.verified, r.audit.records, r.round), false));
      if d.accepted || !r.mode.active || r.round >= r.maxRounds then decided.(completed := true)
      else
        var requests := services.explore(r.evidence, r.assertions);
        if requests != [] then decided.(pendingRequests := requests, round := r.round + 1)
        else
          var policies := services.value(r.pendingPolicies, r.verified, r.assertions);
          if policies == [] then StopEarly(decided) else decided.(pendingPolicies := policies, round := r.round + 1)
  }

  /** One trip from the query compiler to the arbitration. */
  function Gathered(services: Services, r: Runtime): Runtime {
    Collect(services, CompileQueries(services, r))
  }

  function Judged(services: Services, r: Runtime): Runtime {
    GenerateCandidates(services, BuildAssertions(services, Gathered(services, r)))
  }

  function Round(services: Services, r: Runtime, reply: Option<Reply>): Runtime {
    Decide(services, Falsify(Reason(Judged(services, r), reply)))
  }

  /** agent/baseline_graph.go:156-164: back to the query compiler until the diagnosis is completed. */
  function Diagnose(services: Services, r: Runtime, replies: seq<Option<Reply>>): Runtime
    decreases |replies|
  {
    if r.completed || replies == [] then r else Diagnose(services, Round(services, r, replies[0]), replies[1..])
  }

  /** The permission the diagnosis stage grants (agent/cognitive_diagnosis.go:407-422). */
  function Permission(verified: seq<Verified>, d: Decision): (string, bool) {
    if exists k :: 0 <= k < |verified| && verified[k].id == d.selected
    then ("requires_recovery_assessment", d.accepted) else ("escalate", false)
  }

  // ---------------------------------------------------------------- the nodes as updates

  /** Filters the requests and remembers every fingerprint it lets through. */
  method UniqueEvidenceRequests(requests: seq<Request>, seen: set<string>) returns (unique: seq<Request>, now: set<string>)
    ensures unique == Unseen(requests, seen) && now == seen + Elements(Fingerprints(requests))
  {
    hide Unseen, Fingerprints, Elements;
    unique, now := [], seen;
    var k := 0;
    assert requests[0..] == requests && requests[..0] == [];
    NoRequests(now);
    while k < |requests|
      invariant 0 <= k <= |requests| && now == seen + Elements(Fingerprints(requests[..k]))
      invariant unique + Unseen(requests[k..], now) == Unseen(requests, seen)
    {
      UnseenStep(requests, k, now);
      FingerprintsStep(requests, k);
      ghost var rest := Unseen(requests[k + 1..], now + {requests[k].fingerprint});
      if requests[k].fingerprint !in now {
        assert unique + ([requests[k]] + rest) == unique + [requests[k]] + rest;
        unique := unique + [requests[k]];
      } else {
        assert unique + ([] + rest) == unique + rest;
      }
      now := now + {requests[k].fingerprint};
      k := k + 1;
    }
    assert requests[..k] == requests && requests[k..] == [];
    NoRequests(now);
  }

  lemma NoRequests(seen: set<string>)
    ensures Unseen([], seen) == [] && Elements(Fingerprints([])) == {}
  {
  }

  /** The runtime state the graph nodes share; each node does to it what its function says. */
  class DiagnosisState {
    const services: Services
    var r: Runtime

    constructor (services: Services, mode: Mode, planner: Reply)
      ensures this.services == services && r == Start(services, mode, planner)
    {
      this.services := services;
      r := Start(services, mode, planner);
    }

    method QueryCompiler()
      modifies this
      ensures r == CompileQueries(services, old(r))
    {
      if r.completed || |r.pendingRequests| > 0 {
        return;
      }
      var requests := services.compile(r.pendingPolicies, r.evidence);
      if |requests| == 0 {
        r := StopEarly(r);
        return;
      }
      r := r.(pendingRequests := requests);
    }

    method EvidenceCollection()
      modifies this
      ensures r == Collect(services, old(r))
    {
      hide Unseen;
      if r.completed {
        return;
      }
      var before := r.evidence;
      var unique, seen := UniqueEvidenceRequests(r.pendingRequests, r.seen);
      r := r.(pendingRequests := [], seen := seen);
      if |unique| == 0 {
        r := StopEarly(r);
        return;
      }
      r := r.(evidence := before + services.collect(unique, before), collected := r.collected + Fingerprints(unique));
      if r.round > 1 && |r.evidence| == |before| {
        r := StopEarly(r);
      }
    }

    method SignalAssertionBuilder()
      modifies this
      ensures r == BuildAssertions(services, old(r))
    {
      if r.completed {
        return;
      }
      var ranked := services.rank(r.evidence);
      if ranked != map[] {
        r := r.(evidence := ranked);
      }
      r := r.(assertions := services.assess(r.evidence, r.assertions));
    }

    method CandidateGeneration()
      modifies this
      ensures r == GenerateCandidates(services, old(r))
    {
      if r.completed {
        return;
      }
      r := r.(evidence := services.annotate(r.evidence));
      var drafts := services.generate(r.assertions, r.evidence);
      if r.unresolved {
        drafts := drafts + [UNRESOLVED];
      } else {
        assert drafts + [] == drafts;
      }
      var verifiable: seq<Draft> := [];
      var k := 0;
      while k < |drafts|
        invariant 0 <= k <= |drafts| && verifiable == Verifiable(drafts[..k])
      {
        assert drafts[..k + 1][..k] == drafts[..k];
        if drafts[k] != UNRESOLVED {
          verifiable := verifiable + [drafts[k]];
        }
        k := k + 1;
      }
      assert drafts[..k] == drafts;
      r := r.(drafts := drafts, verified := services.verify(verifiable, r.evidence, r.assertions));
    }

    method CognitiveReasoning(reply: Option<Reply>)
      modifies this
      ensures r == Reason(old(r), reply)
    {
      if r.completed || !r.mode.cognitive {
        return;
      }
      var answer := if reply.Some? then reply.value else Reply(0, [], []);
      r := r.(audit := r.audit.(records := r.audit.records + [(r.round, answer)]), pendingPolicies := answer.policies);
      if answer.expansions > 0 && !r.unresolved {
        r := r.(unresolved := true, drafts := r.drafts + [UNRESOLVED],
                audit := r.audit.(drafts := r.audit.drafts + [UNRESOLVED]));
      } else {
        assert r.drafts + [] == r.drafts && r.audit.drafts + [] == r.audit.drafts;
      }
    }

    method CausalFalsification()
      modifies this
      ensures r == Falsify(old(r))
    {
      if !r.completed && !r.mode.ruleOnly {
        r := r.(audit := r.audit.(falsified := true));
      }
    }

    method ObjectiveArbitration()
      modifies this
      ensures r == Decide(services, old(r))
    {
      hide Arbitrate, Presentation;
      if r.completed {
        return;
      }
      var d := ArbitrateHypotheses(r.verified, services.references(r.evidence));
      r := r.(outcome := Outcome(d, Presentation(d, r.verified, r.audit.records, r.round), false));
      if d.accepted || !r.mode.active || r.round >= r.maxRounds {
        r := r.(completed := true);
        return;
      }
      var requests := services.explore(r.evidence, r.assertions);
      if |requests| > 0 {
        r := r.(pendingRequests := requests, round := r.round + 1);
        return;
      }
      var policies := services.value(r.pendingPolicies, r.verified, r.assertions);
      if |policies| == 0 {
        r := StopEarly(r);
        return;
      }
      r := r.(pendingPolicies := policies, round := r.round + 1);
    }

    /** The graph: one round after the other until the arbitration completes the diagnosis. */
    method Run(replies: seq<Option<Reply>>)
      modifies this
      ensures r == Diagnose(services, old(r), replies)
    {
      hide CompileQueries, Collect, BuildAssertions, GenerateCandidates, Reason, Falsify, Decide;
      var k := 0;
      assert replies[0..] == replies;
      while k < |replies| && !r.completed
        invariant 0 <= k <= |replies|
        invariant Diagnose(services, old(r), replies) == Diagnose(services, r, replies[k..])
      {
        assert replies[k..][0] == replies[k] && replies[k..][1..] == replies[k + 1..];
        QueryCompiler();
        EvidenceCollection();
        SignalAssertionBuilder();
        CandidateGeneration();
        CognitiveReasoning(replies[k]);
        CausalFalsification();
        ObjectiveArbitration();
        k := k + 1;
      }
    }
  }

  // ---------------------------------------------------------------- what a decision depends on

  /** The decision as a function of the evidence and the earlier assertions: no reply, no mode, no audit. */
  function Judge(services: Services, evidence: EvidenceSet, assertions: seq<string>): (seq<Verified>, Decision) {
    var ranked := if services.rank(evidence) == map[] then evidence else services.rank(evidence);
    var assessed := services.assess(ranked, assertions);
    var annotated := services.annotate(ranked);
    var verified := services.verify(Verifiable(services.generate(assessed, annotated)), annotated, assessed);
    (verified, Arbitrate(verified, services.references(annotated)))
  }

  /** The non-actionable candidate never reaches verification. */
  lemma {:induction false} UnresolvedIsNotVerified(drafts: seq<Draft>)
    ensures Verifiable(drafts + [UNRESOLVED]) == Verifiable(drafts)
  {
    assert (drafts + [UNRESOLVED])[..|drafts|] == drafts;
  }

  lemma JudgedIsJudge(services: Services, r: Runtime)
    requires !Gathered(services, r).completed
    ensures var j := Judged(services, r);
            && !j.completed && j.verified == Judge(services, Gathered(services, r).evidence, Gathered(services, r).assertions).0
            && Arbitrate(j.verified, services.references(j.evidence))
               == Judge(services, Gathered(services, r).evidence, Gathered(services, r).assertions).1
  {
    hide Arbitrate, Gathered, Verifiable;
    var g := Gathered(services, r);
    var b := BuildAssertions(services, g);
    var drafts := services.generate(b.assertions, services.annotate(b.evidence));
    UnresolvedIsNotVerified(drafts);
    assert drafts + [] == drafts;
  }

  lemma NotAcceptedWantsEvidence(verified: seq<Verified>, evidence: seq<EvidenceRef>)
    ensures Arbitrate(verified, evidence).needsMoreEvidence == !Arbitrate(verified, evidence).accepted
  {
  }

  /**
   Whatever the cognitive component replies, and in whichever mode: selection, acceptance,
   margin, gate lists and hypotheses of a round are those of the round's evidence.
   */
  lemma ReplyCannotMoveDecision(services: Services, r: Runtime, reply: Option<Reply>)
    requires !Gathered(services, r).completed
    ensures var done, judged := Round(services, r, reply), Judge(services, Gathered(services, r).evidence, Gathered(services, r).assertions);
            done.outcome.decision == judged.1 && done.verified == judged.0
  {
    hide Gathered, Judge, Arbitrate, Judged;
    JudgedIsJudge(services, r);
    var j := Judged(services, r);
    var f := Falsify(Reason(j, reply));
    assert f == j.(audit := f.audit, drafts := f.drafts, unresolved := f.unresolved, pendingPolicies := f.pendingPolicies);
    NotAcceptedWantsEvidence(f.verified, services.references(f.evidence));
  }

  /** A round without new evidence keeps the decision it had. */
  lemma EmptyRoundKeepsDecision(services: Services, r: Runtime, reply: Option<Reply>)
    requires Gathered(services, r).completed
    ensures Round(services, r, reply) == Gathered(services, r)
    ensures Round(services, r, reply).verified == r.verified
    ensures !r.completed ==>
              Round(services, r, reply).outcome.decision == r.outcome.decision.(needsMoreEvidence := true)
  {
  }

  /**
   Rule-only, evidence-only and cognitive diagnosis end after one round with the same verified
   hypotheses, the same decision and the same permission, whatever was replied.
   */
  lemma ModesAgree(services: Services, m: Mode, n: Mode, planner: Reply, reply: Option<Reply>, other: Option<Reply>)
    requires !m.active && !n.active
    ensures var a, b := Round(services, Start(services, m, planner), reply), Round(services, Start(services, n, planner), other);
            && a.completed && b.completed && a.evidence == b.evidence && a.assertions == b.assertions
            && a.verified == b.verified && a.outcome.decision == b.outcome.decision
            && Permission(a.verified, a.outcome.decision) == Permission(b.verified, b.outcome.decision)
  {
    hide Judge, Permission, Judged;
    var a, b := Start(services, m, planner), Start(services, n, planner);
    StartGathersAlike(services, m, n, planner);
    var g, h := Gathered(services, a), Gathered(services, b);
    if g.completed {
      EmptyRoundKeepsDecision(services, a, reply);
      EmptyRoundKeepsDecision(services, b, other);
    } else {
      ReplyCannotMoveDecision(services, a, reply);
      ReplyCannotMoveDecision(services, b, other);
      RoundKeepsEvidence(services, a, reply);
      RoundKeepsEvidence(services, b, other);
    }
  }

  lemma StartGathersAlike(services: Services, m: Mode, n: Mode, planner: Reply)
    requires !m.active && !n.active
    ensures var g, h := Gathered(services, Start(services, m, planner)), Gathered(services, Start(services, n, planner));
            h == g.(mode := n)
  {
  }

  /** Without the active mode the arbitration ends the diagnosis, over the evidence and assertions of the round. */
  lemma RoundKeepsEvidence(services: Services, r: Runtime, reply: Option<Reply>)
    requires !r.mode.active && !Gathered(services, r).completed
    ensures var g, done := Gathered(services, r), Round(services, r, reply);
            var b := BuildAssertions(services, g);
            done.completed && done.evidence == services.annotate(b.evidence) && done.assertions == b.assertions
  {
    hide Arbitrate;
    GatheredKeepsMode(services, r);
  }

  lemma GatheredKeepsMode(services: Services, r: Runtime)
    ensures var g := Gathered(services, r);
            g.mode == r.mode && g.round == r.round && g.maxRounds == r.maxRounds && g.verified == r.verified && g.unresolved == r.unresolved
  {
  }

  // ---------------------------------------------------------------- two rounds at most, no request twice

  /** The round is within the limit, and what was collected is on record, each fingerprint once. */
  ghost predicate Bounded(r: Runtime) {
    && 1 <= r.round <= r.maxRounds <= 2
    && Distinct(r.collected) && Elements(r.collected) <= r.seen
  }

  lemma {:induction false} UnseenAreRequested(requests: seq<Request>, seen: set<string>)
    ensures Elements(Fingerprints(Unseen(requests, seen))) <= Elements(Fingerprints(requests))
  {
    if requests != [] {
      UnseenAreRequested(requests[1..], seen);
      UnseenAreRequested(requests[1..], seen + {requests[0].fingerprint});
      var all := Fingerprints(requests);
      assert all == [requests[0].fingerprint] + Fingerprints(requests[1..]);
      var rest := Unseen(requests[1..], seen + {requests[0].fingerprint});
      assert Fingerprints([requests[0]] + rest) == [requests[0].fingerprint] + Fingerprints(rest);
    }
  }

  lemma CollectKeepsBounded(services: Services, r: Runtime)
    requires Bounded(r)
    ensures Bounded(Collect(services, r)) && r.seen <= Collect(services, r).seen && r.collected <= Collect(services, r).collected
  {
    hide Unseen, Fingerprints;
    var unique := Unseen(r.pendingRequests, r.seen);
    UnseenAreRequested(r.pendingRequests, r.seen);
    UnseenAreNew(r.pendingRequests, r.seen);
    FingerprintAt(unique);
    var prints := Fingerprints(unique);
    forall k | 0 <= k < |prints|
      ensures prints[k] !in r.seen
    {
      assert prints[k] == unique[k].fingerprint;
    }
    AppendDistinct(r.collected, prints, r.seen);
  }

  lemma FingerprintAt(requests: seq<Request>)
    ensures |Fingerprints(requests)| == |requests|
    ensures forall k :: 0 <= k < |requests| ==> Fingerprints(requests)[k] == requests[k].fingerprint
  {
  }

  lemma AppendDistinct(a: seq<string>, b: seq<string>, seen: set<string>)
    requires Distinct(a) && Distinct(b) && Elements(a) <= seen && forall k :: 0 <= k < |b| ==> b[k] !in seen
    ensures Distinct(a + b) && Elements(a + b) == Elements(a) + Elements(b)
  {
    forall i, j | 0 <= i < j < |a + b|
      ensures (a + b)[i] != (a + b)[j]
    {
      if i < |a| <= j {
        assert a[i] in Elements(a);
      }
    }
  }

  /** Between collection and decision nothing touches the round or the requests. */
  predicate SameProgress(r: Runtime, s: Runtime) {
    s.collected == r.collected && s.seen == r.seen && s.round == r.round && s.maxRounds == r.maxRounds && s.completed == r.completed
  }

  lemma JudgingKeepsProgress(services: Services, r: Runtime, reply: Option<Reply>)
    ensures SameProgress(Gathered(services, r), Falsify(Reason(Judged(services, r), reply)))
  {
    hide Gathered;
    var g := Gathered(services, r);
    assert SameProgress(g, GenerateCandidates(services, BuildAssertions(services, g)));
    assert SameProgress(Judged(services, r), Reason(Judged(services, r), reply));
  }

  lemma DecideKeepsBounded(services: Services, r: Runtime)
    requires Bounded(r)
    ensures Bounded(Decide(services, r)) && Decide(services, r).maxRounds == r.maxRounds
    ensures Decide(services, r).completed || Decide(services, r).round == r.round + 1
  {
    hide Arbitrate;
  }

  lemma RoundKeepsBounded(services: Services, r: Runtime, reply: Option<Reply>)
    requires Bounded(r) && !r.completed
    ensures Bounded(Round(services, r, reply)) && Round(services, r, reply).maxRounds == r.maxRounds
    ensures Round(services, r, reply).completed || Round(services, r, reply).round == r.round + 1
  {
    hide Collect, Decide, Judged;
    CompilingKeepsBounded(services, r);
    CollectKeepsBounded(services, CompileQueries(services, r));
    GatheredKeepsMode(services, r);
    JudgingKeepsProgress(services, r, reply);
    DecideKeepsBounded(services, Falsify(Reason(Judged(services, r), reply)));
  }

  lemma CompilingKeepsBounded(services: Services, r: Runtime)
    requires Bounded(r)
    ensures Bounded(CompileQueries(services, r))
  {
  }

  /**
   A diagnosis takes at most two rounds, whatever is replied, and never collects the same
   request fingerprint twice.
   */
  lemma {:induction false} RoundsAreBounded(services: Services, r: Runtime, replies: seq<Option<Reply>>)
    requires Bounded(r)
    ensures var done := Diagnose(services, r, replies);
            Bounded(done) && (|replies| >= r.maxRounds - r.round + 1 ==> done.completed)
    decreases |replies|
  {
    hide Round, Bounded;
    if !r.completed && replies != [] {
      RoundKeepsBounded(services, r, replies[0]);
      BoundedRounds(r);
      BoundedRounds(Round(services, r, replies[0]));
      RoundsAreBounded(services, Round(services, r, replies[0]), replies[1..]);
    } else {
      BoundedRounds(r);
    }
  }

  lemma BoundedRounds(r: Runtime)
    requires Bounded(r)
    ensures r.round <= r.maxRounds
  {
  }

  lemma StartIsBounded(services: Services, mode: Mode, planner: Reply)
    ensures Bounded(Start(services, mode, planner))
  {
    assert Elements<string>([]) == {};
  }

  /** Two replies at most are asked for: every diagnosis, in any mode, ends within its rounds. */
  lemma DiagnosisEnds(services: Services, mode: Mode, planner: Reply, replies: seq<Option<Reply>>)
    requires |replies| >= 2
    ensures var done := Diagnose(services, Start(services, mode, planner), replies);
            done.completed && done.round <= 2 && Distinct(done.collected)
  {
    hide Diagnose;
    StartIsBounded(services, mode, planner);
    RoundsAreBounded(services, Start(services, mode, planner), replies);
  }

  // ---------------------------------------------------------------- what a reply can do

  /** The displayed candidate is the selected one or within a tenth of its score. */
  lemma {:induction false} DisplayIsNearTie(d: Decision, verified: seq<Verified>, preferences: seq<Preference>)
    ensures var shown := Displayed(d, verified, preferences);
            shown.Some? ==>
              shown.value == d.selected || Abs(ScoreOf(verified, shown.value) - ScoreOf(verified, d.selected)) <= 0.10
  {
    if d.selected != "" && preferences != [] && !Applies(d, verified, preferences[0]) {
      DisplayIsNearTie(d, verified, preferences[1..]);
    }
  }

  // ---------------------------------------------------------------- what the filter keeps

  /** The request stands at its first place in the list and was not seen before. */
  ghost predicate FirstOfItsKind(requests: seq<Request>, seen: set<string>, r: Request) {
    r.fingerprint !in seen
    && exists k :: 0 <= k < |requests| && requests[k] == r
                   && forall j :: 0 <= j < k ==> requests[j].fingerprint != r.fingerprint
  }

  lemma FirstLater(requests: seq<Request>, seen: set<string>, r: Request)
    requires requests != []
    ensures FirstOfItsKind(requests, seen, r)
            <==> (r == requests[0] && r.fingerprint !in seen) || FirstOfItsKind(requests[1..], seen + {requests[0].fingerprint}, r)
  {
    var head, rest := requests[0], requests[1..];
    if FirstOfItsKind(requests, seen, r) && r != head {
      var k :| 0 <= k < |requests| && requests[k] == r && forall j :: 0 <= j < k ==> requests[j].fingerprint != r.fingerprint;
      assert rest[k - 1] == r;
      assert forall j :: 0 <= j < k - 1 ==> rest[j] == requests[j + 1];
    }
    if FirstOfItsKind(rest, seen + {head.fingerprint}, r) {
      var k :| 0 <= k < |rest| && rest[k] == r && forall j :: 0 <= j < k ==> rest[j].fingerprint != r.fingerprint;
      assert requests[k + 1] == r;
      assert forall j :: 1 <= j < k + 1 ==> requests[j] == rest[j - 1];
    }
  }

  /** Exactly the first requests of every new kind pass. */
  lemma {:induction false} UnseenIff(requests: seq<Request>, seen: set<string>, r: Request)
    ensures r in Unseen(requests, seen) <==> FirstOfItsKind(requests, seen, r)
  {
    if requests != [] {
      hide FirstOfItsKind;
      FirstLater(requests, seen, r);
      UnseenIff(requests[1..], seen + {requests[0].fingerprint}, r);
      if requests[0].fingerprint in seen {
        assert seen + {requests[0].fingerprint} == seen;
        UnseenAreNew(requests, seen);
      }
    }
  }
}
