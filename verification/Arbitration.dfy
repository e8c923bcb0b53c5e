/**
 From a verified hypothesis to the objective decision (reasoning/engine.go:1131-1240;
 internal/safety/hypothesis.go:118-133; agent/baseline_reasoning.go:105-192;
 agent/root_cause_ranker.go:24-60): scores, ranking, the gate lists, acceptance.
 */
module Arbitration {
  import opened Domain
  import opened Sequences
  import opened Sorting
  import CausalModel
  import CausalPath
  import Causal = CandidateVerification

  datatype VerdictStatus = EvidenceSearching | SupportedVerdict | RefutedVerdict | AcceptedVerdict

  datatype Verified = Verified(
    id: string, status: VerdictStatus, supporting: real, contradiction: real, coverage: real, missing: set<string>,
    observation: real, score: real, evidenceIds: seq<string>)

  datatype EvidenceRef = EvidenceRef(id: string, source: string)

  // ---------------------------------------------------------------- the verified scores

  function Clamp(x: real): real {
    if x < 0.0 then 0.0 else if x > 1.0 then 1.0 else x
  }

  /** Independent sources confirm each other: one minus the product of the doubts. */
  function NoisyOr(scores: seq<real>): real {
    if scores == [] then 0.0
    else if scores[|scores| - 1] > 0.0
    then 1.0 - (1.0 - NoisyOr(scores[..|scores| - 1])) * (1.0 - Clamp(scores[|scores| - 1]))
    else NoisyOr(scores[..|scores| - 1])
  }

  /** The loop over the per-source scores, in whatever order the map yields them. */
  method CombineSources(scores: seq<real>) returns (supporting: real)
    ensures supporting == NoisyOr(scores) && 0.0 <= supporting <= 1.0
  {
    NoisyOrInUnit(scores);
    supporting := 0.0;
    var k := 0;
    while k < |scores|
      invariant 0 <= k <= |scores| && supporting == NoisyOr(scores[..k])
    {
      assert scores[..k + 1][..k] == scores[..k];
      if scores[k] > 0.0 {
        supporting := 1.0 - (1.0 - supporting) * (1.0 - Clamp(scores[k]));
      }
      k := k + 1;
    }
    assert scores[..k] == scores;
  }

  function Doubt(x: real): (d: real)
    ensures 0.0 <= d <= 1.0
  {
    if x > 0.0 then 1.0 - Clamp(x) else 1.0
  }

  function Doubts(scores: seq<real>): real {
    if scores == [] then 1.0 else Doubts(scores[..|scores| - 1]) * Doubt(scores[|scores| - 1])
  }

  lemma {:induction false} NoisyOrIsOneMinusDoubts(scores: seq<real>)
    ensures NoisyOr(scores) == 1.0 - Doubts(scores)
  {
    if scores != [] {
      NoisyOrIsOneMinusDoubts(scores[..|scores| - 1]);
    }
  }

  lemma {:induction false} DoubtsInUnit(scores: seq<real>)
    ensures 0.0 <= Doubts(scores) <= 1.0
  {
    if scores != [] {
      DoubtsInUnit(scores[..|scores| - 1]);
      var d, e := Doubts(scores[..|scores| - 1]), Doubt(scores[|scores| - 1]);
      assert 0.0 <= d * e <= d;
    }
  }

  lemma NoisyOrInUnit(scores: seq<real>)
    ensures 0.0 <= NoisyOr(scores) <= 1.0
  {
    NoisyOrIsOneMinusDoubts(scores);
    DoubtsInUnit(scores);
  }

  lemma Reorder(a: real, b: real, c: real)
    ensures (a * b) * c == (a * c) * b
  {
  }

  lemma DoubtsLast(s: seq<real>)
    requires s != []
    ensures Doubts(s) == Doubts(s[..|s| - 1]) * Doubt(s[|s| - 1])
  {
    hide Doubt;
  }

  lemma {:induction false} DoubtsWithout(scores: seq<real>, i: nat)
    requires i < |scores|
    ensures Doubts(scores) == Doubts(scores[..i] + scores[i + 1..]) * Doubt(scores[i])
    decreases |scores|
  {
    hide Doubt, Doubts;
    var n := |scores| - 1;
    DoubtsLast(scores);
    if i == n {
      assert scores[..i] + scores[i + 1..] == scores[..n];
    } else {
      var shorter := scores[..i] + scores[i + 1..];
      DoubtsWithout(scores[..n], i);
      assert scores[..n][..i] + scores[..n][i + 1..] == shorter[..n - 1];
      assert shorter[n - 1] == scores[n];
      DoubtsLast(shorter);
      Reorder(Doubts(shorter[..n - 1]), Doubt(scores[i]), Doubt(scores[n]));
    }
  }

  /** The combined support does not depend on the order of the sources. */
  lemma {:induction false} SourceOrderIsIrrelevant(s: seq<real>, t: seq<real>)
    requires multiset(s) == multiset(t)
    ensures NoisyOr(s) == NoisyOr(t)
    decreases |s|
  {
    hide NoisyOr, Doubt, Doubts;
    NoisyOrIsOneMinusDoubts(s);
    NoisyOrIsOneMinusDoubts(t);
    if s == [] {
      assert |multiset(t)| == 0;
    } else {
      var n := |s| - 1;
      assert s[n] in multiset(t);
      var i :| 0 <= i < |t| && t[i] == s[n];
      var rest := t[..i] + t[i + 1..];
      assert s[..n] + s[n + 1..] == s[..n];
      MultisetWithout(s, n);
      MultisetWithout(t, i);
      SourceOrderIsIrrelevant(s[..n], rest);
      NoisyOrIsOneMinusDoubts(s[..n]);
      NoisyOrIsOneMinusDoubts(rest);
      DoubtsLast(s);
      DoubtsWithout(t, i);
    }
  }

  /** The objective score: evidence, causal coverage and observation, less contradiction; no prior of any kind. */
  function Confidence(supporting: real, coverage: real, observation: real, contradiction: real): real {
    Clamp(0.50 * supporting + 0.30 * coverage + 0.20 * observation - 0.30 * contradiction)
  }

  /** More support, coverage or observation never lowers the score, more contradiction never raises it. */
  lemma ConfidenceIsMonotone(s: real, c: real, o: real, x: real, s': real, c': real, o': real, x': real)
    requires s <= s' && c <= c' && o <= o' && x >= x'
    ensures Confidence(s, c, o, x) <= Confidence(s', c', o', x')
  {
    ClampIsMonotone(0.50 * s + 0.30 * c + 0.20 * o - 0.30 * x, 0.50 * s' + 0.30 * c' + 0.20 * o' - 0.30 * x');
    hide Clamp;
  }

  lemma ClampIsMonotone(x: real, y: real)
    requires x <= y
    ensures Clamp(x) <= Clamp(y)
  {
  }

  /** What one draft's verification measured. */
  datatype Measured = Measured(
    id: string, sourceScores: seq<real>, sources: nat, contradicting: nat, coverage: real, missing: set<string>, observation: real,
    evidenceIds: seq<string>)

  function Verify(m: Measured): Verified {
    var supporting := NoisyOr(m.sourceScores) * (if m.sources < 2 then 0.75 else 1.0);
    var contradiction := Clamp(0.25 * m.contradicting as real);
    var status := if contradiction >= 0.50 then RefutedVerdict
                  else if supporting >= 0.65 && contradiction <= 0.20 then SupportedVerdict else EvidenceSearching;
    Verified(m.id, status, supporting, contradiction, m.coverage, m.missing, m.observation,
             Confidence(supporting, m.coverage, m.observation, contradiction), m.evidenceIds)
  }

  /**
   What a measurement amounts to: a single source counts three quarters, four contradicting
   items or more count fully, two refute, and one already prevents support.
   */
  lemma MeasuredVerdict(m: Measured)
    ensures var v := Verify(m);
            && (m.sources >= 2 ==> v.supporting == NoisyOr(m.sourceScores))
            && (m.sources < 2 ==> v.supporting == 0.75 * NoisyOr(m.sourceScores))
            && (v.contradiction == 1.0 <==> m.contradicting >= 4) && (v.contradiction == 0.0 <==> m.contradicting == 0)
            && (v.status == RefutedVerdict <==> m.contradicting >= 2)
            && (v.status == SupportedVerdict <==> m.contradicting == 0 && v.supporting >= 0.65)
  {
    hide NoisyOr, Confidence;
  }

  // ---------------------------------------------------------------- ranking and gates

  predicate Ahead(a: Verified, b: Verified) {
    a.score > b.score || (a.score == b.score && StringLeq(a.id, b.id))
  }

  lemma AheadIsPreorder()
    ensures TotalPreorder(Ahead)
  {
    forall a, b
      ensures Ahead(a, b) || Ahead(b, a)
    {
      StringLeqTotal(a.id, b.id);
    }
    forall a, b, c | Ahead(a, b) && Ahead(b, c)
      ensures Ahead(a, c)
    {
      if a.score == b.score && b.score == c.score {
        StringLeqTransitive(a.id, b.id, c.id);
      }
    }
  }

  function Ranked(verified: seq<Verified>): seq<Verified> {
    Sort(Ahead, verified)
  }

  datatype Gate =
    | SupportedStatus | SupportingScore | CausalCoverage | FinalScore | ContradictionGate | EvidenceCount | IndependentSources
    | KubernetesEvidence | ScoreMargin | NoCandidate

  /** Later evidence with the same ID replaces earlier evidence. */
  function SourceOf(evidence: seq<EvidenceRef>, id: string): Option<string> {
    if evidence == [] then None
    else if evidence[|evidence| - 1].id == id then Some(evidence[|evidence| - 1].source)
    else SourceOf(evidence[..|evidence| - 1], id)
  }

  function Sources(ids: seq<string>, evidence: seq<EvidenceRef>): set<string> {
    set id | id in ids && SourceOf(evidence, id).Some? :: SourceOf(evidence, id).value
  }

  predicate SupportedOrAccepted(v: Verified) {
    v.status in {SupportedVerdict, AcceptedVerdict}
  }

  predicate Fails(v: Verified, evidence: seq<EvidenceRef>, gate: Gate) {
    match gate
    case SupportedStatus => !SupportedOrAccepted(v)
    case SupportingScore => v.supporting < 0.65
    case CausalCoverage => v.missing != {} || v.coverage < 1.0
    case FinalScore => v.score < 0.80
    case ContradictionGate => v.contradiction > 0.10
    case EvidenceCount => |v.evidenceIds| < 2
    case IndependentSources => |Sources(v.evidenceIds, evidence)| < 2
    case KubernetesEvidence => "kubernetes" !in Sources(v.evidenceIds, evidence)
    case ScoreMargin => false
    case NoCandidate => false
  }

  const ITEM_GATES := [SupportedStatus, SupportingScore, CausalCoverage, FinalScore, ContradictionGate, EvidenceCount,
                       IndependentSources, KubernetesEvidence]

  function Failures(v: Verified, evidence: seq<EvidenceRef>, gates: seq<Gate>): (failed: seq<Gate>)
    ensures forall g :: g in failed <==> g in gates && Fails(v, evidence, g)
    ensures failed == [] <==> forall g :: g in gates ==> !Fails(v, evidence, g)
  {
    if gates == [] then []
    else Failures(v, evidence, gates[..|gates| - 1]) + if Fails(v, evidence, gates[|gates| - 1]) then [gates[|gates| - 1]] else []
  }

  function Margin(ordered: seq<Verified>): real
    requires ordered != []
  {
    if |ordered| == 1 then ordered[0].score else ordered[0].score - ordered[1].score
  }

  /** The gate list of the candidate in place `index`; the margin is asked of the first only. */
  function GateList(ordered: seq<Verified>, evidence: seq<EvidenceRef>, index: nat): seq<Gate>
    requires index < |ordered|
  {
    Failures(ordered[index], evidence, ITEM_GATES) + if index == 0 && Margin(ordered) < 0.15 then [ScoreMargin] else []
  }

  datatype RankOutput = Selected(index: nat) | HumanAttention | RequestEvidence

  /** What the ranker itself asks: neither the supporting score nor the coverage. */
  predicate RankGates(v: Verified, evidence: seq<EvidenceRef>) {
    v.score >= 0.80 && v.contradiction <= 0.10 && |v.evidenceIds| >= 2 && |Sources(v.evidenceIds, evidence)| >= 2
    && "kubernetes" in Sources(v.evidenceIds, evidence)
  }

  function RankFrom(ordered: seq<Verified>, evidence: seq<EvidenceRef>, k: nat): RankOutput
    requires k <= |ordered|
    decreases |ordered| - k
  {
    if k == |ordered| then HumanAttention
    else if !SupportedOrAccepted(ordered[k]) then RankFrom(ordered, evidence, k + 1)
    else if ordered[k].missing != {} then RequestEvidence
    else if RankGates(ordered[k], evidence) then Selected(k)
    else RankFrom(ordered, evidence, k + 1)
  }

  method RankRootCause(verified: seq<Verified>, evidence: seq<EvidenceRef>) returns (r: RankOutput)
    ensures r == RankFrom(Ranked(verified), evidence, 0)
  {
    var ordered := Ranked(verified);
    var k := 0;
    while k < |ordered|
      invariant 0 <= k <= |ordered|
      invariant RankFrom(ordered, evidence, 0) == RankFrom(ordered, evidence, k)
    {
      if SupportedOrAccepted(ordered[k]) {
        if ordered[k].missing != {} {
          return RequestEvidence;
        }
        if RankGates(ordered[k], evidence) {
          return Selected(k);
        }
      }
      k := k + 1;
    }
    r := HumanAttention;
  }

  datatype Decision = Decision(
    ranked: seq<string>, selected: string, score: real, margin: real, gates: seq<seq<Gate>>, accepted: bool, needsMoreEvidence: bool)

  function AllGates(ordered: seq<Verified>, evidence: seq<EvidenceRef>): seq<seq<Gate>> {
    seq(|ordered|, i requires 0 <= i < |ordered| => GateList(ordered, evidence, i))
  }

  function Ids(ordered: seq<Verified>): seq<string> {
    seq(|ordered|, i requires 0 <= i < |ordered| => ordered[i].id)
  }

  predicate Accepts(ordered: seq<Verified>, evidence: seq<EvidenceRef>)
    requires ordered != []
  {
    var ranked := RankFrom(Ranked(ordered), evidence, 0);
    && ranked.Selected? && ranked.index < |Ranked(ordered)| && Ranked(ordered)[ranked.index].id == ordered[0].id
    && Margin(ordered) >= 0.15
  }

  function Arbitrate(verified: seq<Verified>, evidence: seq<EvidenceRef>): Decision {
    var ordered := Ranked(verified);
    if ordered == [] then Decision([], "", 0.0, 0.0, [[NoCandidate]], false, true)
    else Decision(Ids(ordered), ordered[0].id, ordered[0].score, Margin(ordered), AllGates(ordered, evidence),
                  Accepts(ordered, evidence), !Accepts(ordered, evidence))
  }

  /**
   The candidate at position `top` is the selected one: nobody scores more, among equal scores
   its ID comes first, and the margin is its distance to the best of the others.
   */
  ghost predicate Tops(verified: seq<Verified>, d: Decision, top: int) {
    && 0 <= top < |verified| && verified[top].id == d.selected && verified[top].score == d.score
    && (forall i :: 0 <= i < |verified| ==>
          verified[i].score < d.score || (verified[i].score == d.score && Precedes(d.selected, verified[i].id)))
    && (if |verified| == 1 then d.margin == d.score
        else (forall i :: 0 <= i < |verified| && i != top ==> verified[i].score <= d.score - d.margin)
             && exists i :: 0 <= i < |verified| && i != top && verified[i].score == d.score - d.margin)
  }

  lemma AheadIff(a: Verified, b: Verified)
    ensures Ahead(a, b) <==> b.score < a.score || (b.score == a.score && Precedes(a.id, b.id))
  {
    StringLeqIff(a.id, b.id);
  }

  /** The head of a sorted permutation is beaten by none, wherever it stands. */
  lemma HeadIsUnbeaten(verified: seq<Verified>, ordered: seq<Verified>)
    requires multiset(ordered) == multiset(verified) && ordered != [] && Ordered(Ahead, ordered)
    ensures forall i :: 0 <= i < |verified| ==>
              verified[i].score < ordered[0].score
              || (verified[i].score == ordered[0].score && Precedes(ordered[0].id, verified[i].id))
  {
    hide Ahead, Precedes;
    forall i | 0 <= i < |verified|
      ensures verified[i].score < ordered[0].score
              || (verified[i].score == ordered[0].score && Precedes(ordered[0].id, verified[i].id))
    {
      assert verified[i] in multiset(ordered);
      var k :| 0 <= k < |ordered| && ordered[k] == verified[i];
      AheadIff(ordered[0], ordered[k]);
      AheadToItself(ordered[0]);
    }
  }

  /** Next to the head stands the best of the others. */
  lemma SecondIsBestRival(verified: seq<Verified>, ordered: seq<Verified>, top: nat)
    requires multiset(ordered) == multiset(verified) && |ordered| == |verified| > 1 && top < |verified| && verified[top] == ordered[0]
    requires forall k :: 1 <= k < |ordered| ==> ordered[k].score <= ordered[1].score
    ensures forall i :: 0 <= i < |verified| && i != top ==> verified[i].score <= ordered[1].score
    ensures exists i :: 0 <= i < |verified| && i != top && verified[i].score == ordered[1].score
  {
    RestOf(verified, ordered, top);
    var rest := verified[..top] + verified[top + 1..];
    forall i | 0 <= i < |verified| && i != top
      ensures verified[i].score <= ordered[1].score
    {
      assert verified[i] == if i < top then rest[i] else rest[i - 1];
      assert verified[i] in multiset(ordered[1..]);
      var k :| 0 <= k < |ordered[1..]| && ordered[1..][k] == verified[i];
      assert ordered[k + 1] == verified[i];
    }
    assert ordered[1..][0] in multiset(rest);
    var i :| 0 <= i < |rest| && rest[i] == ordered[1];
    var j := if i < top then i else i + 1;
    assert verified[j] == ordered[1] && j != top;
  }

  lemma DecisionLeads(verified: seq<Verified>, evidence: seq<EvidenceRef>)
    requires verified != []
    ensures exists top :: Tops(verified, Arbitrate(verified, evidence), top)
  {
    RankedFacts(verified);
    hide Ahead, AllGates, Accepts, Precedes, Ranked;
    var ordered := Ranked(verified);
    var d := Arbitrate(verified, evidence);
    assert ordered[0] in multiset(verified);
    var top :| 0 <= top < |verified| && verified[top] == ordered[0];
    HeadIsUnbeaten(verified, ordered);
    if |verified| > 1 {
      SecondIsBestRival(verified, ordered, top);
    }
    assert Tops(verified, d, top);
  }

  lemma AheadToItself(a: Verified)
    ensures Ahead(a, a)
  {
    StringLeqTotal(a.id, a.id);
  }

  lemma RestOf(s: seq<Verified>, t: seq<Verified>, top: nat)
    requires multiset(s) == multiset(t) && top < |s| && t != [] && s[top] == t[0]
    ensures multiset(s[..top] + s[top + 1..]) == multiset(t[1..])
  {
    MultisetWithout(s, top);
    assert t == [t[0]] + t[1..];
  }

  method ArbitrateHypotheses(verified: seq<Verified>, evidence: seq<EvidenceRef>) returns (d: Decision)
    ensures d == Arbitrate(verified, evidence)
    ensures verified != [] ==> exists top :: Tops(verified, d, top)
  {
    if verified != [] {
      DecisionLeads(verified, evidence);
    }
    hide RankFrom, Ranked, Failures;
    var ordered := Ranked(verified);
    if ordered == [] {
      return Decision([], "", 0.0, 0.0, [[NoCandidate]], false, true);
    }
    var margin := if |ordered| == 1 then ordered[0].score else ordered[0].score - ordered[1].score;
    var ranked: seq<string>, gates: seq<seq<Gate>> := [], [];
    var index := 0;
    while index < |ordered|
      invariant 0 <= index <= |ordered|
      invariant ranked == Ids(ordered)[..index] && gates == AllGates(ordered, evidence)[..index]
    {
      ranked := ranked + [ordered[index].id];
      var failed := Failures(ordered[index], evidence, ITEM_GATES);
      if index == 0 && margin < 0.15 {
        failed := failed + [ScoreMargin];
      }
      assert failed == GateList(ordered, evidence, index);
      gates := gates + [failed];
      index := index + 1;
    }
    var best := RankRootCause(ordered, evidence);
    RankedInRange(Ranked(ordered), evidence, 0);
    var accepted := best.Selected? && Ranked(ordered)[best.index].id == ordered[0].id && margin >= 0.15;
    d := Decision(ranked, ordered[0].id, ordered[0].score, margin, gates, accepted, !accepted);
  }

  lemma {:induction false} RankedInRange(ordered: seq<Verified>, evidence: seq<EvidenceRef>, k: nat)
    requires k <= |ordered|
    ensures RankFrom(ordered, evidence, k).Selected? ==> k <= RankFrom(ordered, evidence, k).index < |ordered|
    decreases |ordered| - k
  {
    if k < |ordered| {
      RankedInRange(ordered, evidence, k + 1);
    }
  }

  // ---------------------------------------------------------------- ranking facts

  lemma RankedFacts(verified: seq<Verified>)
    ensures |Ranked(verified)| == |verified| && multiset(Ranked(verified)) == multiset(verified)
    ensures Ordered(Ahead, Ranked(verified))
    ensures forall i, j :: 0 <= i <= j < |verified| ==> Ranked(verified)[i].score >= Ranked(verified)[j].score
  {
    AheadIsPreorder();
    SortOrders(Ahead, verified);
    SortPermutes(Ahead, verified);
  }

  ghost predicate DistinctIds(verified: seq<Verified>) {
    forall a, b :: a in verified && b in verified && a.id == b.id ==> a == b
  }

  lemma DistinctIdsHaveNoTies(verified: seq<Verified>)
    requires DistinctIds(verified)
    ensures NoTies(Ahead, verified)
  {
    forall a, b | a in verified && b in verified && Ahead(a, b) && Ahead(b, a)
      ensures a == b
    {
      StringLeqTotal(a.id, b.id);
    }
  }

  /** With distinct IDs the decision does not depend on the order of the input. */
  lemma DecisionIgnoresInputOrder(s: seq<Verified>, t: seq<Verified>, evidence: seq<EvidenceRef>)
    requires DistinctIds(s) && multiset(s) == multiset(t)
    ensures Arbitrate(s, evidence) == Arbitrate(t, evidence)
  {
    AheadIsPreorder();
    DistinctIdsHaveNoTies(s);
    SortIsCanonical(Ahead, s, t);
  }

  /** Sorting what is sorted changes nothing. */
  lemma RankedTwice(verified: seq<Verified>)
    requires DistinctIds(verified)
    ensures Ranked(Ranked(verified)) == Ranked(verified)
  {
    RankedFacts(verified);
    AheadIsPreorder();
    DistinctIdsHaveNoTies(verified);
    SortIsCanonical(Ahead, verified, Ranked(verified));
  }

  // ---------------------------------------------------------------- when a decision is accepted

  /** Positions with one ID; the same hypothesis is not listed twice. */
  ghost predicate UniqueIds(verified: seq<Verified>) {
    forall i, j :: 0 <= i < j < |verified| ==> verified[i].id != verified[j].id
  }

  lemma UniqueIdsAreDistinct(verified: seq<Verified>)
    requires UniqueIds(verified)
    ensures DistinctIds(verified)
  {
  }

  lemma {:induction false} UniqueByCount(s: seq<Verified>, a: Verified)
    requires UniqueIds(s)
    ensures multiset(s)[a] <= 1
  {
    if s != [] {
      var n := |s| - 1;
      UniqueByCount(s[..n], a);
      assert s == s[..n] + [s[n]];
      if s[n] == a {
        assert a !in s[..n];
        assert multiset(s[..n])[a] == 0;
      }
    }
  }

  lemma RankedIdsAreUnique(verified: seq<Verified>)
    requires UniqueIds(verified)
    ensures UniqueIds(Ranked(verified))
  {
    RankedFacts(verified);
    var ordered := Ranked(verified);
    forall i, j | 0 <= i < j < |ordered|
      ensures ordered[i].id != ordered[j].id
    {
      if ordered[i].id == ordered[j].id {
        assert ordered[i] in multiset(verified) && ordered[j] in multiset(verified);
        assert ordered[i] == ordered[j];
        UniqueByCount(verified, ordered[i]);
        TwiceCounts(ordered, i, j);
      }
    }
  }

  lemma TwiceCounts(s: seq<Verified>, i: nat, j: nat)
    requires i < j < |s| && s[i] == s[j]
    ensures multiset(s)[s[i]] >= 2
  {
    assert s == s[..j] + [s[j]] + s[j + 1..];
    assert s[i] in s[..j];
  }

  lemma {:induction false} SelectedPassedGates(ordered: seq<Verified>, evidence: seq<EvidenceRef>, k: nat)
    requires k <= |ordered| && RankFrom(ordered, evidence, k).Selected?
    ensures var i := RankFrom(ordered, evidence, k).index;
            k <= i < |ordered| && SupportedOrAccepted(ordered[i]) && ordered[i].missing == {} && RankGates(ordered[i], evidence)
    decreases |ordered| - k
  {
    hide RankGates;
    if k < |ordered| && !(SupportedOrAccepted(ordered[k]) && ordered[k].missing == {} && RankGates(ordered[k], evidence)) {
      SelectedPassedGates(ordered, evidence, k + 1);
    }
  }

  /** The gates the ranker asks for, seen as gate lists. */
  predicate OnlyUnasked(failed: seq<Gate>) {
    forall g :: g in failed ==> g in {SupportingScore, CausalCoverage}
  }

  lemma RankGatesAreGates(v: Verified, evidence: seq<EvidenceRef>)
    ensures SupportedOrAccepted(v) && RankGates(v, evidence) <==> OnlyUnasked(Failures(v, evidence, ITEM_GATES))
  {
    hide Failures, Sources;
    ItemGates();
    var failed := Failures(v, evidence, ITEM_GATES);
    assert Fails(v, evidence, SupportedStatus) <==> SupportedStatus in failed;
    assert Fails(v, evidence, FinalScore) <==> FinalScore in failed;
    assert Fails(v, evidence, ContradictionGate) <==> ContradictionGate in failed;
    assert Fails(v, evidence, EvidenceCount) <==> EvidenceCount in failed;
    assert Fails(v, evidence, IndependentSources) <==> IndependentSources in failed;
    assert Fails(v, evidence, KubernetesEvidence) <==> KubernetesEvidence in failed;
  }

  lemma ItemGates()
    ensures forall g :: g in ITEM_GATES <==> g !in {ScoreMargin, NoCandidate}
  {
    forall g: Gate | g !in {ScoreMargin, NoCandidate}
      ensures g in ITEM_GATES
    {
      match g
      case SupportedStatus => assert ITEM_GATES[0] == g;
      case SupportingScore => assert ITEM_GATES[1] == g;
      case CausalCoverage => assert ITEM_GATES[2] == g;
      case FinalScore => assert ITEM_GATES[3] == g;
      case ContradictionGate => assert ITEM_GATES[4] == g;
      case EvidenceCount => assert ITEM_GATES[5] == g;
      case IndependentSources => assert ITEM_GATES[6] == g;
      case KubernetesEvidence => assert ITEM_GATES[7] == g;
    }
  }

  lemma TopGates(ordered: seq<Verified>, evidence: seq<EvidenceRef>)
    requires ordered != []
    ensures var failed := Failures(ordered[0], evidence, ITEM_GATES);
            && (OnlyUnasked(GateList(ordered, evidence, 0)) <==> OnlyUnasked(failed) && Margin(ordered) >= 0.15)
            && (GateList(ordered, evidence, 0) == [] <==> failed == [] && Margin(ordered) >= 0.15)
  {
    hide Fails;
    var failed := Failures(ordered[0], evidence, ITEM_GATES);
    if Margin(ordered) < 0.15 {
      assert GateList(ordered, evidence, 0)[|failed|] == ScoreMargin;
      assert ScoreMargin in GateList(ordered, evidence, 0);
    } else {
      assert GateList(ordered, evidence, 0) == failed;
    }
  }

  /**
   What the code accepts, for any scores: the top candidate misses no causal node, fails no gate
   but possibly the two the ranker does not ask for, and leads by the margin.
   */
  lemma AcceptedIff(verified: seq<Verified>, evidence: seq<EvidenceRef>)
    requires UniqueIds(verified) && verified != []
    ensures var ordered := Ranked(verified);
            ordered != []
            && (Arbitrate(verified, evidence).accepted <==>
                  ordered[0].missing == {} && OnlyUnasked(GateList(ordered, evidence, 0)))
  {
    hide Fails, RankGates, Ahead;
    var ordered := Ranked(verified);
    RankedFacts(verified);
    RankedIdsAreUnique(verified);
    UniqueIdsAreDistinct(verified);
    RankedTwice(verified);
    RankGatesAreGates(ordered[0], evidence);
    var r := RankFrom(ordered, evidence, 0);
    if r.Selected? {
      SelectedPassedGates(ordered, evidence, 0);
    }
    TopGates(ordered, evidence);
  }

  /** What verification establishes for a path whose neighbours are all joined by known edges, or none of them. */
  predicate Consistent(v: Verified) {
    && (v.status == SupportedVerdict ==> v.supporting >= 0.65) && v.status != AcceptedVerdict
    && (v.missing == {} ==> v.coverage == 1.0 || v.score < 0.80)
  }

  /**
   The decision and its audit agree: for verified candidates the top one is accepted exactly when
   its gate list, margin included, is empty; every rival then scores at least 0.15 less.
   */
  lemma AcceptedIffNoGateFailed(verified: seq<Verified>, evidence: seq<EvidenceRef>)
    requires UniqueIds(verified) && verified != [] && forall v :: v in verified ==> Consistent(v)
    ensures var ordered := Ranked(verified);
            ordered != []
            && (Arbitrate(verified, evidence).accepted <==> GateList(ordered, evidence, 0) == [])
            && (Arbitrate(verified, evidence).accepted ==>
                  ordered[0].score >= 0.80 && forall k :: 0 < k < |ordered| ==> ordered[k].score <= ordered[0].score - 0.15)
  {
    hide RankGates, Ahead, Arbitrate, GateList, Failures;
    var ordered := Ranked(verified);
    AcceptedIff(verified, evidence);
    RankedFacts(verified);
    TopGates(ordered, evidence);
    assert ordered[0] in multiset(ordered);
    assert ordered[0] in verified;
    TopIsClean(ordered[0], evidence);
  }

  lemma TopIsClean(v: Verified, evidence: seq<EvidenceRef>)
    requires Consistent(v)
    ensures Failures(v, evidence, ITEM_GATES) == [] <==> v.missing == {} && OnlyUnasked(Failures(v, evidence, ITEM_GATES))
    ensures Failures(v, evidence, ITEM_GATES) == [] ==> v.score >= 0.80
  {
    var failed := Failures(v, evidence, ITEM_GATES);
    ItemGates();
    assert CausalCoverage in ITEM_GATES && FinalScore in ITEM_GATES;
    if v.missing == {} && OnlyUnasked(failed) {
      assert SupportedStatus !in failed && FinalScore !in failed;
      assert !Fails(v, evidence, SupportingScore) && !Fails(v, evidence, CausalCoverage);
    }
  }

  /** A decision accepted on measured evidence rests on no contradicting evidence at all. */
  lemma AcceptedHasNoContradiction(measured: seq<Measured>, verified: seq<Verified>, evidence: seq<EvidenceRef>)
    requires |verified| == |measured| > 0 && (forall k :: 0 <= k < |measured| ==> verified[k] == Verify(measured[k])) && UniqueIds(verified)
    ensures Arbitrate(verified, evidence).accepted ==>
              exists k :: 0 <= k < |measured| && measured[k].id == Arbitrate(verified, evidence).selected && measured[k].contradicting == 0
  {
    hide RankGates, Ahead, Confidence, NoisyOr;
    AcceptedIff(verified, evidence);
    RankedFacts(verified);
    var top := Ranked(verified)[0];
    if Arbitrate(verified, evidence).accepted {
      assert top in multiset(Ranked(verified));
      var k :| 0 <= k < |verified| && verified[k] == top;
      var failed := Failures(top, evidence, ITEM_GATES);
      assert forall g :: g in failed ==> g in GateList(Ranked(verified), evidence, 0);
      assert ITEM_GATES[4] == ContradictionGate && ContradictionGate !in failed;
      assert !Fails(top, evidence, ContradictionGate);
      assert measured[k].contradicting == 0;
    }
  }

  /** The coverage a draft was measured with; only some drafts are asked for their decisive nodes. */
  predicate MeasuredOn(m: Measured, evidence: seq<CausalModel.Item>, patterns: seq<CausalModel.Pattern>, path: seq<string>) {
    && 0.0 <= m.observation <= 1.0 && Causal.Coverage(evidence, patterns, path).Some?
    && (Causal.VerifiedCoverage(evidence, patterns, path) == Some((m.coverage, m.missing))
        || (m.coverage == Causal.Coverage(evidence, patterns, path).value.0
            && m.missing == Elements(Causal.Coverage(evidence, patterns, path).value.1)))
  }

  /** The evidence as the arbitration looks it up. */
  function References(evidence: seq<CausalModel.Item>): seq<EvidenceRef> {
    seq(|evidence|, k requires 0 <= k < |evidence| => EvidenceRef(evidence[k].id, evidence[k].source))
  }

  /** The draft rests on all of these items, with one score for each of their sources. */
  predicate CitesAll(m: Measured, evidence: seq<CausalModel.Item>) {
    && m.evidenceIds == (seq(|evidence|, k requires 0 <= k < |evidence| => evidence[k].id))
    && m.sources == |m.sourceScores| == |Sources(m.evidenceIds, References(evidence))|
  }

  /** With nothing missing the coverage is the share of known edges, whatever was asked. */
  lemma CoverageWithoutMissing(m: Measured, evidence: seq<CausalModel.Item>, patterns: seq<CausalModel.Pattern>, path: seq<string>)
    requires MeasuredOn(m, evidence, patterns, path) && m.missing == {}
    ensures var c := Causal.Coverage(evidence, patterns, path).value; m.coverage == c.0 && c.1 == []
  {
    hide Causal.Coverage, Causal.MissingDecisive;
    NoElements(Causal.Coverage(evidence, patterns, path).value.1);
  }

  lemma NoKnownEdgeNoCoverage(evidence: seq<CausalModel.Item>, patterns: seq<CausalModel.Pattern>, path: seq<string>)
    requires Causal.Coverage(evidence, patterns, path).Some? && |path| >= 2
    requires forall k :: 0 <= k < |path| - 1 ==> !Causal.EdgeKnown(patterns, path[k], path[k + 1])
    ensures Causal.Coverage(evidence, patterns, path).value.0 == 0.0
  {
    hide Causal.NodeAllowed, Causal.NodeObserved, Causal.EdgeKnown, Causal.Covered, Causal.Missing, Causal.ValidEdges;
    NoValidEdges(patterns, path);
  }

  lemma {:induction false} NoValidEdges(patterns: seq<CausalModel.Pattern>, path: seq<string>)
    requires forall k :: 0 <= k < |path| - 1 ==> !Causal.EdgeKnown(patterns, path[k], path[k + 1])
    ensures Causal.ValidEdges(patterns, path) == 0
    decreases |path|
  {
    hide Causal.EdgeKnown;
    if |path| > 1 {
      var n := |path| - 1;
      forall k | 0 <= k < |path[..n]| - 1
        ensures !Causal.EdgeKnown(patterns, path[..n][k], path[..n][k + 1])
      {
        assert path[..n][k] == path[k] && path[..n][k + 1] == path[k + 1];
      }
      NoValidEdges(patterns, path[..n]);
    }
  }

  lemma UncoveredScoresLow(m: Measured)
    requires m.coverage == 0.0 && 0.0 <= m.observation <= 1.0
    ensures Verify(m).score <= 0.70
  {
    hide NoisyOr;
    NoisyOrInUnit(m.sourceScores);
  }

  /** Verification supplies the facts: support by its own threshold, full coverage or a low score by the path. */
  lemma VerifiedIsConsistent(m: Measured, evidence: seq<CausalModel.Item>, patterns: seq<CausalModel.Pattern>, path: seq<string>)
    requires MeasuredOn(m, evidence, patterns, path)
    requires (forall k :: 0 <= k < |path| - 1 ==> Causal.EdgeKnown(patterns, path[k], path[k + 1]))
          || (forall k :: 0 <= k < |path| - 1 ==> !Causal.EdgeKnown(patterns, path[k], path[k + 1]))
    ensures Consistent(Verify(m))
  {
    hide NoisyOr, Confidence, Clamp;
    hide Causal.NodeObserved, Causal.EdgeKnown, Causal.Coverage, Causal.MissingDecisive, MeasuredOn;
    if m.missing == {} {
      ObservationInUnit(m, evidence, patterns, path);
      CoverageWithoutMissing(m, evidence, patterns, path);
      Causal.CoverageIsOneIff(evidence, patterns, path);
      if exists k :: 0 <= k < |path| - 1 && !Causal.EdgeKnown(patterns, path[k], path[k + 1]) {
        NoKnownEdgeNoCoverage(evidence, patterns, path);
        UncoveredScoresLow(m);
      }
    }
    SupportByThreshold(m);
  }

  lemma ObservationInUnit(m: Measured, evidence: seq<CausalModel.Item>, patterns: seq<CausalModel.Pattern>, path: seq<string>)
    requires MeasuredOn(m, evidence, patterns, path)
    ensures 0.0 <= m.observation <= 1.0 && Causal.Coverage(evidence, patterns, path).Some?
  {
  }

  lemma SupportByThreshold(m: Measured)
    ensures (Verify(m).status == SupportedVerdict ==> Verify(m).supporting >= 0.65) && Verify(m).status != AcceptedVerdict
  {
    hide NoisyOr, Confidence, Clamp;
  }

  /** No active pattern names an edge that leaves an observation. */
  predicate NoObservationEdges(patterns: seq<CausalModel.Pattern>) {
    forall pattern, edge :: pattern in patterns && pattern.active && edge in pattern.edges ==> !("obs:" <= edge.from)
  }

  lemma JoinedPrefix(a: string, x: string, b: string, y: string)
    ensures "obs:" <= b && a + [CausalPath.NUL] + x == b + [CausalPath.NUL] + y ==> "obs:" <= a
  {
    var joined := a + [CausalPath.NUL] + x;
    if "obs:" <= b && joined == b + [CausalPath.NUL] + y {
      assert joined[0] == 'o' && joined[1] == 'b' && joined[2] == 's' && joined[3] == ':';
      assert joined[|a|] == CausalPath.NUL;
      assert |a| >= 4;
    }
  }

  lemma ObservationsAreNotJoined(patterns: seq<CausalModel.Pattern>, from: string, to: string)
    requires NoObservationEdges(patterns) && "obs:" <= from
    ensures !Causal.EdgeKnown(patterns, from, to)
  {
    forall pattern, edge | pattern in patterns && pattern.active && edge in pattern.edges
      ensures edge.from + [CausalPath.NUL] + edge.to != from + [CausalPath.NUL] + to
    {
      JoinedPrefix(edge.from, edge.to, from, to);
    }
  }

  /** A draft without causal nodes is given the observations it cites; it is consistent too. */
  lemma CitedObservationsAreConsistent(m: Measured, evidence: seq<CausalModel.Item>, patterns: seq<CausalModel.Pattern>, cited: seq<string>)
    requires NoObservationEdges(patterns)
    requires MeasuredOn(m, evidence, patterns, seq(|cited|, k requires 0 <= k < |cited| => "obs:" + cited[k]))
    ensures Consistent(Verify(m))
  {
    hide Causal.EdgeKnown, MeasuredOn, Consistent, NoObservationEdges;
    var path := seq(|cited|, k requires 0 <= k < |cited| => "obs:" + cited[k]);
    forall k | 0 <= k < |path| - 1
      ensures !Causal.EdgeKnown(patterns, path[k], path[k + 1])
    {
      ObservationsAreNotJoined(patterns, path[k], path[k + 1]);
    }
    VerifiedIsConsistent(m, evidence, patterns, path);
  }

  // ---------------------------------------------------------------- a path chained in part

  /**
   For whatever verification measured: an accepted decision has failed gates on record if and
   only if the coverage of the top candidate is below one, and then that is the only one.
   */
  lemma AcceptedWithFailedGateIff(measured: seq<Measured>, verified: seq<Verified>, evidence: seq<EvidenceRef>)
    requires |verified| == |measured| > 0 && (forall k :: 0 <= k < |measured| ==> verified[k] == Verify(measured[k])) && UniqueIds(verified)
    requires Arbitrate(verified, evidence).accepted
    ensures var ordered := Ranked(verified);
            ordered != [] && (GateList(ordered, evidence, 0) != [] <==> ordered[0].coverage < 1.0)
            && (forall g :: g in GateList(ordered, evidence, 0) ==> g == CausalCoverage)
  {
    hide RankGates, Ahead, Arbitrate, Failures, Verify;
    var ordered := Ranked(verified);
    AcceptedIff(verified, evidence);
    RankedFacts(verified);
    TopGates(ordered, evidence);
    assert ordered[0] in multiset(ordered);
    var k :| 0 <= k < |verified| && verified[k] == ordered[0];
    SupportByThreshold(measured[k]);
    ItemGates();
    var failed := Failures(ordered[0], evidence, ITEM_GATES);
    assert OnlyUnasked(failed) && Margin(ordered) >= 0.15;
    assert GateList(ordered, evidence, 0) == failed;
    assert SupportedStatus in ITEM_GATES && SupportingScore in ITEM_GATES && CausalCoverage in ITEM_GATES;
    assert SupportedStatus !in failed;
    assert SupportingScore !in failed;
    assert CausalCoverage in failed <==> ordered[0].coverage < 1.0;
    if failed != [] {
      assert failed[0] in failed;
    }
  }

  lemma SortOne(v: Verified)
    ensures Ranked([v]) == [v]
  {
    assert [v][1..] == [] && Sort(Ahead, []) == [];
  }

  const CITED := [EvidenceRef("a", "kubernetes"), EvidenceRef("b", "prometheus")]

  lemma TwoSources()
    ensures Sources(["a", "b"], CITED) == {"kubernetes", "prometheus"} && |{"kubernetes", "prometheus"}| == 2
  {
    assert CITED[..1] == [EvidenceRef("a", "kubernetes")];
    assert SourceOf(CITED, "b") == Some("prometheus");
    assert SourceOf(CITED, "a") == Some("kubernetes") by {
      assert "a"[0] != "b"[0];
    }
    assert ["a", "b"][0] == "a" && ["a", "b"][1] == "b";
    assert "kubernetes"[0] != "prometheus"[0];
  }

  lemma TwoFullSources()
    ensures NoisyOr([1.0, 1.0]) == 1.0
  {
    var none: seq<real> := [];
    assert [1.0, 1.0][..1] == [1.0] && [1.0][..0] == none;
    assert NoisyOr(none) == 0.0;
    assert NoisyOr([1.0]) == 1.0;
  }

  /** A path of observed nodes chained in part: the ranker accepts it and the audit lists its coverage as failed. */
  lemma AcceptedDespiteFailedGates(coverage: real)
    requires 0.50 <= coverage < 1.0
    ensures var v := Verify(Measured("h", [1.0, 1.0], 2, 0, coverage, {}, 1.0, ["a", "b"]));
            Arbitrate([v], CITED).accepted && GateList([v], CITED, 0) == [CausalCoverage]
  {
    hide Sources, SourceOf;
    var v := Verify(Measured("h", [1.0, 1.0], 2, 0, coverage, {}, 1.0, ["a", "b"]));
    TwoFullSources();
    TwoSources();
    SortOne(v);
    assert v.score == 0.70 + 0.30 * coverage && v.status == SupportedVerdict;
    assert RankFrom([v], CITED, 0) == Selected(0);
    OnlyCoverageFails(v);
  }

  predicate PartlyChained(v: Verified) {
    && v == Verified("h", SupportedVerdict, 1.0, 0.0, v.coverage, {}, 1.0, 0.70 + 0.30 * v.coverage, ["a", "b"])
    && 0.50 <= v.coverage < 1.0
  }

  lemma WhatFails(v: Verified, gate: Gate)
    requires PartlyChained(v)
    ensures Fails(v, CITED, gate) <==> gate == CausalCoverage
  {
    hide Sources, SourceOf;
    TwoSources();
  }

  lemma OnlyCoverageFails(v: Verified)
    requires PartlyChained(v)
    ensures Failures(v, CITED, ITEM_GATES) == [CausalCoverage]
  {
    hide Fails, Failures;
    var g := ITEM_GATES;
    FailuresStep(v, g, 0);
    var k := 0;
    while k < 8
      invariant 0 <= k <= 8 && Failures(v, CITED, g[..k]) == if k > 2 then [CausalCoverage] else []
    {
      FailuresStep(v, g, k);
      WhatFails(v, g[k]);
      assert g[k] == CausalCoverage <==> k == 2;
      k := k + 1;
    }
    assert g[..8] == g;
  }

  lemma FailuresStep(v: Verified, g: seq<Gate>, k: nat)
    requires k < |g|
    ensures Failures(v, CITED, g[..k + 1]) == Failures(v, CITED, g[..k]) + if Fails(v, CITED, g[k]) then [g[k]] else []
    ensures Failures(v, CITED, g[..0]) == []
  {
    assert g[..k + 1][..k] == g[..k];
  }
}
