/**
 Reciprocal rank fusion: five retrieval channels rank past incidents, and the fused score of an
 incident rests on its ranks, on the weights of the channels that answered and on its own scores.
 */
module RankFusion {
  import opened Domain
  import opened Sequences
  import opened Sorting

  const RRF_K := 60

  datatype Channel = Lexical | Vector | Graph | Temporal | Metric

  /** One search hit; a score that was not reported is zero. */
  datatype Hit = Hit(incidentId: string, sourceScores: map<string, real>)

  datatype Candidate = Candidate(
    incidentId: string, ranks: map<Channel, nat>, scores: map<Channel, real>, rrf: real, normalized: real, final: real)

  type Lists = map<Channel, seq<Hit>>

  function Bounded(value: real): real {
    if value < 0.0 then 0.0 else if value > 1.0 then 1.0 else value
  }

  function Keys(c: Channel): seq<string> {
    match c
    case Lexical => ["bm25", "lexical"]
    case Vector => ["vector", "semantic"]
    case Graph => ["graph", "topology"]
    case Temporal => ["temporal"]
    case Metric => ["metric"]
  }

  function Reported(scores: map<string, real>, keys: seq<string>): Option<real> {
    if keys == [] then None
    else if keys[0] in scores && scores[keys[0]] > 0.0 then Some(Bounded(scores[keys[0]]))
    else Reported(scores, keys[1..])
  }

  function SourceScore(hit: Hit, c: Channel, rank: nat): real {
    var own := Reported(hit.sourceScores, Keys(c));
    if own.Some? then own.value else 1.0 / (rank + 1) as real
  }

  /** The weights of a query that names nothing in particular. */
  const BASE_WEIGHTS: map<Channel, real> := map[Lexical := 1.0, Vector := 1.0, Graph := 0.9, Temporal := 0.7, Metric := 0.9]

  function Effective(weights: map<Channel, real>): map<Channel, real> {
    if weights == map[] then BASE_WEIGHTS else weights
  }

  function Weight(weights: map<Channel, real>, c: Channel): real {
    if c in weights then weights[c] else 0.0
  }

  // ---------------------------------------------------------------- what a candidate stands for

  function Get(lists: Lists, c: Channel): seq<Hit> {
    if c in lists then lists[c] else []
  }

  /** The share of one channel: the reciprocals of the ranks at which it lists the incident. */
  function Share(list: seq<Hit>, id: string): real {
    if list == [] then 0.0
    else Share(list[..|list| - 1], id) + if list[|list| - 1].incidentId == id then 1.0 / (RRF_K + |list|) as real else 0.0
  }

  /** The rank at which a channel lists the incident last, or zero. */
  function LastRank(list: seq<Hit>, id: string): nat {
    if list == [] then 0
    else if list[|list| - 1].incidentId == id then |list|
    else LastRank(list[..|list| - 1], id)
  }

  lemma {:induction false} LastRankIs(list: seq<Hit>, id: string)
    ensures LastRank(list, id) <= |list|
    ensures LastRank(list, id) > 0 <==> exists hit :: hit in list && hit.incidentId == id
    ensures LastRank(list, id) > 0 ==> list[LastRank(list, id) - 1].incidentId == id
  {
    if list != [] {
      assert list == list[..|list| - 1] + [list[|list| - 1]];
      LastRankIs(list[..|list| - 1], id);
    }
  }

  predicate Listed(lists: Lists, id: string) {
    exists c :: LastRank(Get(lists, c), id) > 0
  }

  /** What one mention at a rank of a channel is worth. */
  function Gain(w: map<Channel, real>, c: Channel, rank: nat): real {
    Weight(w, c) / (RRF_K + rank) as real
  }

  function Term(lists: Lists, w: map<Channel, real>, c: Channel, id: string): real {
    Weight(w, c) * Share(Get(lists, c), id)
  }

  function Rrf(lists: Lists, w: map<Channel, real>, id: string): real {
    Term(lists, w, Lexical, id) + Term(lists, w, Vector, id) + Term(lists, w, Graph, id)
    + Term(lists, w, Temporal, id) + Term(lists, w, Metric, id)
  }

  function WeightIfAny(lists: Lists, w: map<Channel, real>, c: Channel): real {
    if Get(lists, c) == [] then 0.0 else Weight(w, c)
  }

  function Available(lists: Lists, w: map<Channel, real>): real {
    WeightIfAny(lists, w, Lexical) + WeightIfAny(lists, w, Vector) + WeightIfAny(lists, w, Graph)
    + WeightIfAny(lists, w, Temporal) + WeightIfAny(lists, w, Metric)
  }

  function Ranks(lists: Lists, id: string): map<Channel, nat> {
    map c: Channel | LastRank(Get(lists, c), id) > 0 :: LastRank(Get(lists, c), id)
  }

  function Scores(lists: Lists, id: string): map<Channel, real> {
    map c: Channel | LastRank(Get(lists, c), id) > 0 :: LastScore(Get(lists, c), c, id)
  }

  /** The ranks, scores and rank sum of an incident; nothing here depends on the order of the channels. */
  function Merged(lists: Lists, w: map<Channel, real>, id: string): Candidate {
    Candidate(id, Ranks(lists, id), Scores(lists, id), Rrf(lists, w, id), 0.0, 0.0)
  }

  function LastScore(list: seq<Hit>, c: Channel, id: string): real
    requires LastRank(list, id) > 0
  {
    LastRankIs(list, id);
    SourceScore(list[LastRank(list, id) - 1], c, LastRank(list, id) - 1)
  }

  function Score(scores: map<Channel, real>, c: Channel): real {
    if c in scores then scores[c] else 0.0
  }

  /** The rank sum of an incident that every channel with this weight in all ranks first. */
  function Attainable(available: real): real {
    available / (RRF_K + 1) as real
  }

  function Normalized(rrf: real, attainable: real): real {
    if attainable > 0.0 then Bounded(rrf / attainable) else 0.0
  }

  function Ranked(m: Candidate, available: real): Candidate {
    var normalized := Normalized(m.rrf, Attainable(available));
    m.(normalized := normalized, final := Bounded(Blend(normalized, m.scores)))
  }

  function Blend(normalized: real, scores: map<Channel, real>): real {
    0.40 * normalized + 0.15 * Score(scores, Lexical) + 0.15 * Score(scores, Vector) + 0.12 * Score(scores, Graph)
    + 0.08 * Score(scores, Temporal) + 0.10 * Score(scores, Metric)
  }

  function Standing(lists: Lists, w: map<Channel, real>, id: string): Candidate {
    Ranked(Merged(lists, w, id), Available(lists, w))
  }

  predicate CandidateLeq(a: Candidate, b: Candidate) {
    if a.final == b.final then StringLeq(a.incidentId, b.incidentId) else a.final > b.final
  }

  ghost predicate OnePerIncident(s: seq<Candidate>) {
    forall i, j :: 0 <= i < j < |s| ==> s[i].incidentId != s[j].incidentId
  }

  /** Every named incident once, with its standing, best first. */
  ghost predicate IsRanking(all: seq<Candidate>, lists: Lists, w: map<Channel, real>) {
    Ordered(CandidateLeq, all) && OnePerIncident(all) && AllStand(all, lists, w)
  }

  ghost predicate AllStand(all: seq<Candidate>, lists: Lists, w: map<Channel, real>) {
    && (forall x :: x in all ==> x.incidentId != "" && Listed(lists, x.incidentId) && x == Standing(lists, w, x.incidentId))
    && (forall id :: id != "" && Listed(lists, id) ==> Standing(lists, w, id) in all)
  }

  /** The first `limit` of the ranking. */
  ghost predicate AreBest(out: seq<Candidate>, lists: Lists, w: map<Channel, real>, limit: nat) {
    exists all :: IsRanking(all, lists, w) && out == all[..if |all| > limit then limit else |all|]
  }

  lemma CandidateOrder()
    ensures TotalPreorder(CandidateLeq)
  {
    StringOrder();
    hide StringLeq;
  }

  /** The lists and the weights decide the ranking; the order in which the channels are visited does not. */
  lemma RankingIsUnique(s: seq<Candidate>, t: seq<Candidate>, lists: Lists, w: map<Channel, real>)
    requires IsRanking(s, lists, w) && IsRanking(t, lists, w)
    ensures s == t
  {
    hide StringLeq, Standing;
    CandidateOrder();
    assert Distinct(s) && Distinct(t);
    assert Elements(s) == Elements(t);
    SameElements(s, t);
    forall a, b | a in s && b in s && CandidateLeq(a, b) && CandidateLeq(b, a)
      ensures a == b
    {
      StringLeqTotal(a.incidentId, b.incidentId);
    }
    OrderedUnique(CandidateLeq, s, t);
  }

  // ---------------------------------------------------------------- the loops

  lemma ShareStep(list: seq<Hit>, hit: Hit, id: string)
    ensures Share(list + [hit], id)
            == Share(list, id) + if hit.incidentId == id then 1.0 / (RRF_K + |list| + 1) as real else 0.0
    ensures LastRank(list + [hit], id) == if hit.incidentId == id then |list| + 1 else LastRank(list, id)
  {
    assert (list + [hit])[..|list + [hit]| - 1] == list;
  }

  lemma TermStep(seen: Lists, w: map<Channel, real>, c: Channel, hit: Hit, id: string, d: Channel)
    ensures Term(seen[c := Get(seen, c) + [hit]], w, d, id)
            == Term(seen, w, d, id) + if d == c && hit.incidentId == id then Gain(w, c, |Get(seen, c)| + 1) else 0.0
  {
    ShareStep(Get(seen, c), hit, id);
    hide Share;
    if d == c && hit.incidentId == id {
      Distribute(Weight(w, c), Share(Get(seen, c), id), (RRF_K + |Get(seen, c)| + 1) as real);
    }
  }

  lemma Distribute(w: real, share: real, n: real)
    requires n > 0.0
    ensures w * (share + 1.0 / n) == w * share + w / n
  {
  }

  lemma RrfStep(seen: Lists, w: map<Channel, real>, c: Channel, hit: Hit, id: string)
    ensures Rrf(seen[c := Get(seen, c) + [hit]], w, id)
            == Rrf(seen, w, id) + if hit.incidentId == id then Gain(w, c, |Get(seen, c)| + 1) else 0.0
  {
    forall d
      ensures Term(seen[c := Get(seen, c) + [hit]], w, d, id)
              == Term(seen, w, d, id) + if d == c && hit.incidentId == id then Gain(w, c, |Get(seen, c)| + 1) else 0.0
    {
      TermStep(seen, w, c, hit, id, d);
    }
    hide Term, Gain;
  }

  lemma ListedStep(seen: Lists, c: Channel, hit: Hit, id: string)
    ensures Listed(seen[c := Get(seen, c) + [hit]], id) <==> Listed(seen, id) || hit.incidentId == id
  {
    var next := seen[c := Get(seen, c) + [hit]];
    ShareStep(Get(seen, c), hit, id);
    hide LastRank;
    forall d
      ensures LastRank(Get(next, d), id) == if d == c && hit.incidentId == id then |Get(seen, c)| + 1 else LastRank(Get(seen, d), id)
    {
    }
    assert LastRank(Get(next, c), id) > 0 || hit.incidentId != id;
  }

  lemma RanksStep(seen: Lists, c: Channel, hit: Hit, id: string)
    ensures Ranks(seen[c := Get(seen, c) + [hit]], id)
            == if hit.incidentId == id then Ranks(seen, id)[c := |Get(seen, c)| + 1] else Ranks(seen, id)
  {
    ShareStep(Get(seen, c), hit, id);
    hide LastRank;
  }

  lemma ScoresStep(seen: Lists, c: Channel, hit: Hit, id: string)
    ensures Scores(seen[c := Get(seen, c) + [hit]], id)
            == if hit.incidentId == id then Scores(seen, id)[c := SourceScore(hit, c, |Get(seen, c)|)] else Scores(seen, id)
  {
    ShareStep(Get(seen, c), hit, id);
    LastRankIs(Get(seen, c), id);
    hide LastRank, SourceScore;
  }

  /** A candidate after one more mention; the first one opens it. */
  function Mentioned(so: Option<Candidate>, w: map<Channel, real>, c: Channel, hit: Hit, rank: nat): Candidate {
    var m := if so.Some? then so.value else Candidate(hit.incidentId, map[], map[], 0.0, 0.0, 0.0);
    m.(ranks := m.ranks[c := rank + 1], scores := m.scores[c := SourceScore(hit, c, rank)], rrf := m.rrf + Gain(w, c, rank + 1))
  }

  lemma MergedStep(seen: Lists, w: map<Channel, real>, c: Channel, hit: Hit, id: string)
    ensures Merged(seen[c := Get(seen, c) + [hit]], w, id)
            == if hit.incidentId != id then Merged(seen, w, id)
               else Mentioned(Some(Merged(seen, w, id)), w, c, hit, |Get(seen, c)|)
  {
    RrfStep(seen, w, c, hit, id);
    RanksStep(seen, c, hit, id);
    ScoresStep(seen, c, hit, id);
    hide Rrf, Ranks, Scores, SourceScore, Gain;
  }

  lemma FirstMention(w: map<Channel, real>, c: Channel, hit: Hit, rank: nat)
    ensures Mentioned(None, w, c, hit, rank)
            == Mentioned(Some(Candidate(hit.incidentId, map[], map[], 0.0, 0.0, 0.0)), w, c, hit, rank)
  {
  }

  lemma {:induction false} ShareOfUnlisted(list: seq<Hit>, id: string)
    requires LastRank(list, id) == 0
    ensures Share(list, id) == 0.0
  {
    if list != [] {
      ShareOfUnlisted(list[..|list| - 1], id);
    }
  }

  lemma MergedUnlisted(seen: Lists, w: map<Channel, real>, id: string)
    requires !Listed(seen, id)
    ensures Merged(seen, w, id) == Candidate(id, map[], map[], 0.0, 0.0, 0.0)
  {
    forall c
      ensures Share(Get(seen, c), id) == 0.0
    {
      assert LastRank(Get(seen, c), id) == 0;
      ShareOfUnlisted(Get(seen, c), id);
    }
    hide Share, Weight, LastRank;
    assert forall c :: LastRank(Get(seen, c), id) == 0;
  }

  lemma AvailableStep(seen: Lists, w: map<Channel, real>, c: Channel, list: seq<Hit>)
    requires Get(seen, c) == []
    ensures Available(seen[c := list], w) == Available(seen, w) + if list == [] then 0.0 else Weight(w, c)
  {
  }

  function At(merged: map<string, Candidate>, id: string): Option<Candidate> {
    if id in merged then Some(merged[id]) else None
  }

  function Wanted(seen: Lists, w: map<Channel, real>, id: string): Option<Candidate> {
    if id != "" && Listed(seen, id) then Some(Merged(seen, w, id)) else None
  }

  /** The map holds what the hits taken so far amount to. */
  ghost predicate Merging(merged: map<string, Candidate>, seen: Lists, w: map<Channel, real>) {
    forall id :: At(merged, id) == Wanted(seen, w, id)
  }

  lemma WantedStep(seen: Lists, w: map<Channel, real>, c: Channel, hit: Hit, id: string)
    ensures Wanted(seen[c := Get(seen, c) + [hit]], w, id)
            == if id == hit.incidentId && id != "" then Some(Mentioned(Wanted(seen, w, id), w, c, hit, |Get(seen, c)|))
               else Wanted(seen, w, id)
  {
    hide Listed, Get, Merged, Mentioned;
    ListedStep(seen, c, hit, id);
    MergedStep(seen, w, c, hit, id);
    FirstMention(w, c, hit, |Get(seen, c)|);
    if !Listed(seen, id) {
      MergedUnlisted(seen, w, id);
    }
  }

  lemma MergingStep(merged: map<string, Candidate>, seen: Lists, w: map<Channel, real>, c: Channel, hit: Hit)
    requires Merging(merged, seen, w)
    ensures hit.incidentId == "" ==> Merging(merged, seen[c := Get(seen, c) + [hit]], w)
    ensures hit.incidentId != "" ==>
              Merging(
                merged[hit.incidentId := Mentioned(At(merged, hit.incidentId), w, c, hit, |Get(seen, c)|)],
                seen[c := Get(seen, c) + [hit]], w)
  {
    hide Wanted, Mentioned, Get;
    var next := seen[c := Get(seen, c) + [hit]];
    assert At(merged, hit.incidentId) == Wanted(seen, w, hit.incidentId);
    var later := merged[hit.incidentId := Mentioned(At(merged, hit.incidentId), w, c, hit, |Get(seen, c)|)];
    forall id
      ensures hit.incidentId == "" ==> At(merged, id) == Wanted(next, w, id)
      ensures hit.incidentId != "" ==> At(later, id) == Wanted(next, w, id)
    {
      WantedStep(seen, w, c, hit, id);
      assert At(merged, id) == Wanted(seen, w, id);
    }
  }

  lemma NothingSeen(w: map<Channel, real>)
    ensures Merging(map[], map[], w) && Available(map[], w) == 0.0
  {
  }

  lemma SameLists(s: Lists, t: Lists, w: map<Channel, real>, id: string)
    requires forall d :: Get(s, d) == Get(t, d)
    ensures (Listed(s, id) <==> Listed(t, id)) && Merged(s, w, id) == Merged(t, w, id)
  {
    hide Share, LastRank, LastScore, Weight, Get;
    assert forall d :: LastRank(Get(s, d), id) == LastRank(Get(t, d), id);
    assert Ranks(s, id) == Ranks(t, id) && Scores(s, id) == Scores(t, id);
  }

  lemma MergingEmpty(merged: map<string, Candidate>, seen: Lists, w: map<Channel, real>, c: Channel)
    requires Merging(merged, seen, w) && c !in seen
    ensures Merging(merged, seen[c := []], w)
  {
    var next := seen[c := []];
    forall id
      ensures Listed(next, id) <==> Listed(seen, id)
      ensures Merged(next, w, id) == Merged(seen, w, id)
    {
      SameLists(seen, next, w, id);
    }
    hide Listed, Merged;
    assert forall id :: Wanted(next, w, id) == Wanted(seen, w, id);
  }

  lemma ListedStandings(out: seq<Candidate>, names: seq<string>, merged: map<string, Candidate>, lists: Lists, w: map<Channel, real>)
    requires Merging(merged, lists, w) && Distinct(names) && Elements(names) == merged.Keys && |out| == |names|
    requires forall k :: 0 <= k < |names| ==> names[k] in merged && out[k] == Ranked(merged[names[k]], Available(lists, w))
    ensures forall k :: 0 <= k < |names| ==>
              names[k] != "" && Listed(lists, names[k]) && out[k] == Standing(lists, w, names[k])
    ensures forall id :: id != "" && Listed(lists, id) ==> id in names
  {
    hide Listed, Available, Blend, Ranks, Scores, Rrf, Ranked;
    forall k | 0 <= k < |names|
      ensures names[k] != "" && Listed(lists, names[k]) && out[k] == Standing(lists, w, names[k])
    {
      assert At(merged, names[k]) == Wanted(lists, w, names[k]);
    }
    forall id | id != "" && Listed(lists, id)
      ensures id in names
    {
      assert At(merged, id) == Wanted(lists, w, id);
      assert id in Elements(names);
    }
  }

  lemma StandingHasId(lists: Lists, w: map<Channel, real>, id: string)
    ensures Standing(lists, w, id).incidentId == id
  {
  }

  lemma SortedIsRanking(out: seq<Candidate>, names: seq<string>, lists: Lists, w: map<Channel, real>)
    requires Distinct(names) && |out| == |names|
    requires forall k :: 0 <= k < |names| ==>
               names[k] != "" && Listed(lists, names[k]) && out[k] == Standing(lists, w, names[k])
    requires forall id :: id != "" && Listed(lists, id) ==> id in names
    ensures IsRanking(Sort(CandidateLeq, out), lists, w)
  {
    AllStandings(out, names, lists, w);
    hide AllStand, CandidateLeq, OnePerIncident;
    SortedCandidates(out);
    SortedStand(out, Sort(CandidateLeq, out), lists, w);
    OnePerIncidentSorted(out, Sort(CandidateLeq, out));
  }

  lemma SortedStand(out: seq<Candidate>, all: seq<Candidate>, lists: Lists, w: map<Channel, real>)
    requires AllStand(out, lists, w) && forall x :: x in all <==> x in out
    ensures AllStand(all, lists, w)
  {
    hide Listed, Standing;
  }

  lemma SortedCandidates(out: seq<Candidate>)
    ensures Ordered(CandidateLeq, Sort(CandidateLeq, out)) && multiset(Sort(CandidateLeq, out)) == multiset(out)
    ensures forall x :: x in Sort(CandidateLeq, out) <==> x in out
  {
    CandidateOrder();
    SortOrders(CandidateLeq, out);
    SortPermutes(CandidateLeq, out);
  }

  lemma AllStandings(out: seq<Candidate>, names: seq<string>, lists: Lists, w: map<Channel, real>)
    requires Distinct(names) && |out| == |names|
    requires forall k :: 0 <= k < |names| ==>
               names[k] != "" && Listed(lists, names[k]) && out[k] == Standing(lists, w, names[k])
    requires forall id :: id != "" && Listed(lists, id) ==> id in names
    ensures OnePerIncident(out) && AllStand(out, lists, w)
  {
    hide Listed, Standing;
    forall k | 0 <= k < |names|
      ensures out[k].incidentId == names[k]
    {
      StandingHasId(lists, w, names[k]);
    }
    forall id | id != "" && Listed(lists, id)
      ensures Standing(lists, w, id) in out
    {
      var k :| 0 <= k < |names| && names[k] == id;
      assert out[k] in out;
    }
  }

  lemma OnePerIncidentSorted(s: seq<Candidate>, t: seq<Candidate>)
    requires OnePerIncident(s) && multiset(s) == multiset(t)
    ensures OnePerIncident(t)
  {
    assert Distinct(s) && forall a, b :: a in s && b in s && a.incidentId == b.incidentId ==> a == b;
    assert forall a :: a in s <==> a in multiset(s);
    assert forall a :: a in t <==> a in multiset(t);
    DistinctIffSize(s);
    DistinctIffSize(t);
    assert Elements(s) == Elements(t);
    assert |s| == |multiset(s)| && |t| == |multiset(t)|;
    assert forall i :: 0 <= i < |t| ==> t[i] in s;
  }

  method RankMerged(
    merged: map<string, Candidate>, available: real, limit: nat, ghost lists: Lists, ghost w: map<Channel, real>)
    returns (out: seq<Candidate>)
    requires Merging(merged, lists, w) && available == Available(lists, w)
    ensures AreBest(out, lists, w, limit)
  {
    hide Merging, Available, Ranked, IsRanking, Listed, Standing, CandidateLeq;
    var names := Iterate(merged.Keys);
    out := [];
    for i := 0 to |names|
      invariant |out| == i
      invariant forall k :: 0 <= k < i ==> names[k] in merged && out[k] == Ranked(merged[names[k]], available)
    {
      assert names[i] in Elements(names);
      out := out + [Ranked(merged[names[i]], available)];
    }
    ghost var all := Sort(CandidateLeq, out);
    ListedStandings(out, names, merged, lists, w);
    SortedIsRanking(out, names, lists, w);
    out := Sort(CandidateLeq, out);
    if |out| > limit {
      out := out[..limit];
    }
    assert IsRanking(all, lists, w) && out == all[..if |all| > limit then limit else |all|];
  }

  /** Some channel lists the incident under a name of its own. */
  ghost predicate NamedIn(lists: Lists, id: string) {
    id != "" && exists c, hit :: c in lists && hit in lists[c] && hit.incidentId == id
  }

  lemma NamedIsListed(lists: Lists, id: string)
    requires NamedIn(lists, id)
    ensures id != "" && Listed(lists, id)
  {
    var c, hit :| c in lists && hit in lists[c] && hit.incidentId == id;
    LastRankIs(Get(lists, c), id);
  }

  lemma BestComeFirst(all: seq<Candidate>)
    requires Ordered(CandidateLeq, all) && OnePerIncident(all)
    ensures forall i, j :: 0 <= i < j < |all| ==>
              all[i].final > all[j].final
              || (all[i].final == all[j].final && all[i].incidentId != all[j].incidentId
                  && Precedes(all[i].incidentId, all[j].incidentId))
  {
    forall i, j | 0 <= i < j < |all|
      ensures all[i].final > all[j].final || (all[i].final == all[j].final && Precedes(all[i].incidentId, all[j].incidentId))
    {
      assert CandidateLeq(all[i], all[j]);
      StringLeqIff(all[i].incidentId, all[j].incidentId);
    }
  }

  lemma LeftOutIsNoBetter(out: seq<Candidate>, lists: Lists, w: map<Channel, real>, limit: nat, id: string)
    requires AreBest(out, lists, w, limit) && NamedIn(lists, id) && forall x :: x in out ==> x.incidentId != id
    ensures |out| == limit && forall x :: x in out ==> Standing(lists, w, id).final <= x.final
  {
    hide Listed, Standing, CandidateLeq;
    NamedIsListed(lists, id);
    StandingHasId(lists, w, id);
    var all :| IsRanking(all, lists, w) && out == all[..if |all| > limit then limit else |all|];
    BestComeFirst(all);
    var k :| 0 <= k < |all| && all[k] == Standing(lists, w, id);
    assert forall i :: 0 <= i < |out| ==> out[i] == all[i];
    assert k >= |out|;
  }

  lemma ReturnedAreOrdered(out: seq<Candidate>, lists: Lists, w: map<Channel, real>, limit: nat)
    requires AreBest(out, lists, w, limit)
    ensures forall i, j :: 0 <= i < j < |out| ==>
              out[i].final > out[j].final
              || (out[i].final == out[j].final && out[i].incidentId != out[j].incidentId
                  && Precedes(out[i].incidentId, out[j].incidentId))
    ensures forall x :: x in out ==> x == Standing(lists, w, x.incidentId)
  {
    hide Listed, Standing, CandidateLeq, Precedes;
    var all :| IsRanking(all, lists, w) && out == all[..if |all| > limit then limit else |all|];
    BestComeFirst(all);
    assert forall i :: 0 <= i < |out| ==> out[i] == all[i];
  }

  /** Fuses what the channels found: the first `limit` of the one ranking that the lists and weights have. */
  method FuseHybridChannels(lists: Lists, weights: map<Channel, real>, limit: nat)
    returns (out: seq<Candidate>)
    ensures AreBest(out, lists, Effective(weights), limit)
    ensures forall i, j :: 0 <= i < j < |out| ==>
              out[i].final > out[j].final
              || (out[i].final == out[j].final && out[i].incidentId != out[j].incidentId
                  && Precedes(out[i].incidentId, out[j].incidentId))
    ensures forall x :: x in out ==> x == Standing(lists, Effective(weights), x.incidentId)
    ensures forall id :: NamedIn(lists, id) && (forall x :: x in out ==> x.incidentId != id) ==>
              |out| == limit && forall x :: x in out ==> Standing(lists, Effective(weights), id).final <= x.final
  {
    hide Merged, Listed, SourceScore, Weight, Available, Ranked, Gain, Merging, Mentioned, StringLeq, IsRanking;
    var w := Effective(weights);
    var merged: map<string, Candidate> := map[];
    var available := 0.0;
    ghost var seen: Lists := map[];
    NothingSeen(w);
    var channels := Iterate(lists.Keys);
    for i := 0 to |channels|
      invariant seen.Keys == Elements(channels[..i])
      invariant forall c :: c in seen ==> c in lists && seen[c] == lists[c]
      invariant available == Available(seen, w)
      invariant Merging(merged, seen, w)
    {
      var channel := channels[i];
      assert channel in Elements(channels);
      assert channel !in channels[..i];
      assert Elements(channels[..i + 1]) == Elements(channels[..i]) + {channel};
      var list := lists[channel];
      ghost var before := seen;
      AvailableStep(before, w, channel, list);
      if list != [] {
        available := available + Weight(w, channel);
      }
      MergingEmpty(merged, seen, w, channel);
      seen := before[channel := []];
      for rank := 0 to |list|
        invariant seen == before[channel := list[..rank]]
        invariant Merging(merged, seen, w)
      {
        var incoming := list[rank];
        assert list[..rank + 1] == list[..rank] + [incoming];
        MergingStep(merged, seen, w, channel, incoming);
        seen := before[channel := list[..rank + 1]];
        assert seen == before[channel := list[..rank]][channel := list[..rank] + [incoming]];
        if incoming.incidentId != "" {
          var id := incoming.incidentId;
          merged := merged[id := Mentioned(if id in merged then Some(merged[id]) else None, w, channel, incoming, rank)];
        }
      }
      assert list[..|list|] == list;
    }
    assert channels[..|channels|] == channels;
    assert seen == lists;
    out := RankMerged(merged, available, limit, lists, w);
    hide *;
    ReturnedAreOrdered(out, lists, w, limit);
    forall id | NamedIn(lists, id) && (forall x :: x in out ==> x.incidentId != id)
      ensures |out| == limit && forall x :: x in out ==> Standing(lists, w, id).final <= x.final
    {
      LeftOutIsNoBetter(out, lists, w, limit, id);
    }
  }

  // ---------------------------------------------------------------- the bound on a fused score

  ghost predicate NonNegative(w: map<Channel, real>) {
    forall c :: Weight(w, c) >= 0.0
  }

  /** The channel lists no incident twice. */
  ghost predicate NoRepeats(list: seq<Hit>) {
    forall i, j :: 0 <= i < j < |list| ==> list[i].incidentId != list[j].incidentId
  }

  /** What a first rank is worth under weight one. */
  function TopShare(): real {
    1.0 / (RRF_K + 1) as real
  }

  lemma {:induction false} ShareWithoutRepeats(list: seq<Hit>, id: string)
    requires NoRepeats(list)
    ensures Share(list, id) == if LastRank(list, id) > 0 then 1.0 / (RRF_K + LastRank(list, id)) as real else 0.0
  {
    if list != [] {
      var init := list[..|list| - 1];
      ShareWithoutRepeats(init, id);
      if list[|list| - 1].incidentId == id {
        LastRankIs(init, id);
        assert LastRank(init, id) == 0;
      }
    }
  }

  /** A mention is worth at most what the first rank is, and only the first rank is worth that much. */
  lemma ShareBound(list: seq<Hit>, id: string)
    requires NoRepeats(list)
    ensures 0.0 <= Share(list, id) <= TopShare()
    ensures Share(list, id) == TopShare() <==> list != [] && list[0].incidentId == id
  {
    ShareWithoutRepeats(list, id);
    LastRankIs(list, id);
    var r := LastRank(list, id);
    if r > 0 {
      FallingReciprocal((RRF_K + 1) as real, (RRF_K + r) as real);
      assert r > 1 ==> list[0].incidentId != id;
    } else if list != [] {
      assert list[0] in list;
    }
  }

  lemma SameSign(p: real, x: real)
    requires p > 0.0
    ensures p * x > 0.0 <==> x > 0.0
    ensures p * x == 0.0 <==> x == 0.0
  {
  }

  lemma FallingReciprocal(a: real, b: real)
    requires 0.0 < a <= b
    ensures 0.0 < 1.0 / b <= 1.0 / a
    ensures 1.0 / b == 1.0 / a <==> a == b
  {
    var u, v := 1.0 / a, 1.0 / b;
    assert a * u == 1.0 && b * v == 1.0;
    assert (a * b) * (u - v) == b * (a * u) - a * (b * v) == b - a;
    SameSign(a * b, u - v);
    SameSign(b, v);
  }

  lemma {:induction false} ShareIsNonNegative(list: seq<Hit>, id: string)
    ensures Share(list, id) >= 0.0
  {
    if list != [] {
      ShareIsNonNegative(list[..|list| - 1], id);
    }
  }

  ghost predicate SharesFit(lists: Lists, id: string) {
    forall c :: Share(Get(lists, c), id) <= TopShare()
  }

  /** The most that one channel can add. */
  function Cap(lists: Lists, w: map<Channel, real>, c: Channel): real {
    WeightIfAny(lists, w, c) * TopShare()
  }

  lemma TermBound(lists: Lists, w: map<Channel, real>, id: string, c: Channel)
    requires Weight(w, c) >= 0.0 && Share(Get(lists, c), id) <= TopShare()
    ensures 0.0 <= Term(lists, w, c, id) <= Cap(lists, w, c)
    ensures Term(lists, w, c, id) == Cap(lists, w, c)
            <==> WeightIfAny(lists, w, c) == 0.0 || Share(Get(lists, c), id) == TopShare()
  {
    hide TopShare;
    ShareIsNonNegative(Get(lists, c), id);
    ProductBound(Weight(w, c), Share(Get(lists, c), id), TopShare());
    assert Get(lists, c) == [] ==> Share(Get(lists, c), id) == 0.0;
    hide Share;
    if Get(lists, c) == [] {
      assert Term(lists, w, c, id) == Weight(w, c) * 0.0 == 0.0;
      assert WeightIfAny(lists, w, c) * TopShare() == 0.0;
    }
  }

  lemma ProductBound(w: real, x: real, y: real)
    requires 0.0 <= w && 0.0 <= x <= y
    ensures 0.0 <= w * x <= w * y
    ensures w * x == w * y <==> w == 0.0 || x == y
  {
    assert w * y - w * x == w * (y - x);
  }

  /** When no channel is worth more than its first rank, neither is their sum. */
  lemma FusedWithinBound(lists: Lists, w: map<Channel, real>, id: string)
    requires NonNegative(w) && SharesFit(lists, id)
    ensures 0.0 <= Rrf(lists, w, id) <= Attainable(Available(lists, w))
    ensures Rrf(lists, w, id) == Attainable(Available(lists, w))
            <==> forall c :: WeightIfAny(lists, w, c) == 0.0 || Share(Get(lists, c), id) == TopShare()
  {
    forall c
      ensures 0.0 <= Term(lists, w, c, id) <= Cap(lists, w, c)
      ensures Term(lists, w, c, id) == Cap(lists, w, c)
              <==> WeightIfAny(lists, w, c) == 0.0 || Share(Get(lists, c), id) == TopShare()
    {
      TermBound(lists, w, id, c);
    }
    FiveWays(lists, w, id);
    CapsAddUp(lists, w);
    hide Term, Cap, WeightIfAny, Share, Get, TopShare, Available, Attainable;
  }

  lemma CapsAddUp(lists: Lists, w: map<Channel, real>)
    ensures Attainable(Available(lists, w))
            == Cap(lists, w, Lexical) + Cap(lists, w, Vector) + Cap(lists, w, Graph) + Cap(lists, w, Temporal) + Cap(lists, w, Metric)
  {
    hide WeightIfAny;
    AttainableSum(Available(lists, w));
  }

  lemma FiveWays(lists: Lists, w: map<Channel, real>, id: string)
    ensures (forall c :: WeightIfAny(lists, w, c) == 0.0 || Share(Get(lists, c), id) == TopShare())
            <==> forall c :: c in [Lexical, Vector, Graph, Temporal, Metric] ==>
                   WeightIfAny(lists, w, c) == 0.0 || Share(Get(lists, c), id) == TopShare()
  {
    hide WeightIfAny, Share, Get;
    forall c: Channel
      ensures c in [Lexical, Vector, Graph, Temporal, Metric]
    {
      match c
      case Lexical =>
      case Vector =>
      case Graph =>
      case Temporal =>
      case Metric =>
    }
  }

  /** The fused score stays within its bound for all weights exactly when no channel repeats the incident to more than a first rank. */
  lemma FusedWithinBoundIff(lists: Lists, id: string)
    ensures (forall w :: NonNegative(w) ==> Rrf(lists, w, id) <= Attainable(Available(lists, w))) <==> SharesFit(lists, id)
  {
    if SharesFit(lists, id) {
      forall w | NonNegative(w)
        ensures Rrf(lists, w, id) <= Attainable(Available(lists, w))
      {
        FusedWithinBound(lists, w, id);
      }
    }
    forall c
      ensures var w := map[c := 1.0]; NonNegative(w) && Rrf(lists, w, id) == Share(Get(lists, c), id)
                                      && Available(lists, w) == if Get(lists, c) == [] then 0.0 else 1.0
    {
      OneChannel(lists, id, c);
    }
    if forall w :: NonNegative(w) ==> Rrf(lists, w, id) <= Attainable(Available(lists, w)) {
      forall c
        ensures Share(Get(lists, c), id) <= TopShare()
      {
        assert NonNegative(map[c := 1.0]);
      }
    }
  }

  lemma OneChannel(lists: Lists, id: string, c: Channel)
    ensures var w := map[c := 1.0]; NonNegative(w) && Rrf(lists, w, id) == Share(Get(lists, c), id)
                                    && Available(lists, w) == if Get(lists, c) == [] then 0.0 else 1.0
  {
    hide Share;
  }

  /** The incident is ranked by every channel that ranks the other, and never behind it. */
  ghost predicate RankedAhead(lists: Lists, a: string, b: string) {
    forall c :: LastRank(Get(lists, c), b) > 0 ==> 0 < LastRank(Get(lists, c), a) <= LastRank(Get(lists, c), b)
  }

  lemma TermAhead(lists: Lists, w: map<Channel, real>, a: string, b: string, c: Channel)
    requires Weight(w, c) >= 0.0 && NoRepeats(Get(lists, c))
    requires LastRank(Get(lists, c), b) > 0 ==> 0 < LastRank(Get(lists, c), a) <= LastRank(Get(lists, c), b)
    ensures Term(lists, w, c, a) >= Term(lists, w, c, b)
  {
    ShareWithoutRepeats(Get(lists, c), a);
    ShareWithoutRepeats(Get(lists, c), b);
    ShareIsNonNegative(Get(lists, c), a);
    ShareIsNonNegative(Get(lists, c), b);
    var i, j := LastRank(Get(lists, c), a), LastRank(Get(lists, c), b);
    if j > 0 {
      FallingReciprocal((RRF_K + i) as real, (RRF_K + j) as real);
    }
    ProductBound(Weight(w, c), Share(Get(lists, c), b), Share(Get(lists, c), a));
  }

  /** Better ranks everywhere never give the smaller rank sum. */
  lemma AheadHasLargerSum(lists: Lists, w: map<Channel, real>, a: string, b: string)
    requires NonNegative(w) && (forall c :: NoRepeats(Get(lists, c))) && RankedAhead(lists, a, b)
    ensures Rrf(lists, w, a) >= Rrf(lists, w, b)
  {
    hide NoRepeats, LastRank;
    forall c
      ensures Term(lists, w, c, a) >= Term(lists, w, c, b)
    {
      TermAhead(lists, w, a, b, c);
    }
    hide Term;
  }

  // ---------------------------------------------------------------- what the scores mean

  lemma SourceScoreInUnit(hit: Hit, c: Channel, rank: nat)
    ensures 0.0 < SourceScore(hit, c, rank) <= 1.0
  {
    ReportedInUnit(hit.sourceScores, Keys(c));
    FallingReciprocal(1.0, (rank + 1) as real);
  }

  /** A hit without a score of its own counts one at the first rank and less at every later one. */
  lemma UnreportedScoreFalls(hit: Hit, c: Channel, rank: nat, later: nat)
    requires (forall key :: key in Keys(c) && key in hit.sourceScores ==> hit.sourceScores[key] <= 0.0) && rank < later
    ensures SourceScore(hit, c, 0) == 1.0 && SourceScore(hit, c, later) < SourceScore(hit, c, rank)
  {
    NothingReported(hit.sourceScores, Keys(c));
    FallingReciprocal((rank + 1) as real, (later + 1) as real);
  }

  lemma {:induction false} NothingReported(scores: map<string, real>, keys: seq<string>)
    requires forall key :: key in keys && key in scores ==> scores[key] <= 0.0
    ensures Reported(scores, keys).None?
  {
    if keys != [] {
      assert keys[0] in keys;
      NothingReported(scores, keys[1..]);
    }
  }

  lemma ScoresInUnit(lists: Lists, id: string, c: Channel)
    ensures 0.0 <= Score(Scores(lists, id), c) <= 1.0
  {
    if c in Scores(lists, id) {
      LastRankIs(Get(lists, c), id);
      var r := LastRank(Get(lists, c), id);
      SourceScoreInUnit(Get(lists, c)[r - 1], c, r - 1);
      hide SourceScore, LastRank;
    }
  }

  lemma {:induction false} ReportedInUnit(scores: map<string, real>, keys: seq<string>)
    ensures Reported(scores, keys).Some? ==> 0.0 < Reported(scores, keys).value <= 1.0
  {
    if keys != [] {
      ReportedInUnit(scores, keys[1..]);
    }
  }

  /**
   For channels that list no incident twice the normalized rank score is the share of the
   attainable rank sum and the final score is the weighted blend, neither of them cut.
   */
  lemma NothingIsCut(lists: Lists, w: map<Channel, real>, id: string)
    requires NonNegative(w) && Available(lists, w) > 0.0 && forall c :: NoRepeats(Get(lists, c))
    ensures var s := Standing(lists, w, id);
            && Rrf(lists, w, id) <= Attainable(Available(lists, w))
            && s.normalized == Rrf(lists, w, id) / Attainable(Available(lists, w))
            && s.final == Blend(s.normalized, s.scores)
            && 0.0 <= s.normalized <= 1.0 && 0.0 <= s.final <= 1.0
  {
    SumFits(lists, w, id);
    AttainableSum(Available(lists, w));
    Fraction(Rrf(lists, w, id), Attainable(Available(lists, w)));
    forall c
      ensures 0.0 <= Score(Scores(lists, id), c) <= 1.0
    {
      ScoresInUnit(lists, id, c);
    }
    hide Rrf, Ranks, Scores, Available, TopShare, Blend, Score, Normalized, Attainable, Get;
    BlendInUnit(Standing(lists, w, id).normalized, Scores(lists, id));
  }

  /** A rank sum within the attainable one is normalized to its fraction of it. */
  lemma Fraction(rrf: real, attainable: real)
    requires attainable > 0.0 && 0.0 <= rrf
    ensures Normalized(rrf, attainable) == if rrf <= attainable then rrf / attainable else 1.0
    ensures 0.0 <= Normalized(rrf, attainable) <= 1.0
    ensures Normalized(rrf, attainable) == 1.0 <==> rrf >= attainable
  {
    Quotient(rrf, attainable);
  }

  lemma SumFits(lists: Lists, w: map<Channel, real>, id: string)
    requires NonNegative(w) && forall c :: NoRepeats(Get(lists, c))
    ensures 0.0 <= Rrf(lists, w, id) <= Attainable(Available(lists, w))
    ensures Rrf(lists, w, id) == Attainable(Available(lists, w))
            <==> forall c :: WeightIfAny(lists, w, c) > 0.0 ==> Get(lists, c)[0].incidentId == id
  {
    forall c
      ensures Share(Get(lists, c), id) <= TopShare()
      ensures Share(Get(lists, c), id) == TopShare() <==> Get(lists, c) != [] && Get(lists, c)[0].incidentId == id
      ensures WeightIfAny(lists, w, c) >= 0.0 && (WeightIfAny(lists, w, c) > 0.0 ==> Get(lists, c) != [])
    {
      ShareBound(Get(lists, c), id);
    }
    FusedWithinBound(lists, w, id);
    hide Rrf, Available, Share, TopShare, Get, WeightIfAny, Attainable;
  }

  /** A normalized score of one is exactly for the incident that every channel that counts ranks first. */
  lemma TopScoreIff(lists: Lists, w: map<Channel, real>, id: string)
    requires NonNegative(w) && Available(lists, w) > 0.0 && forall c :: NoRepeats(Get(lists, c))
    ensures Standing(lists, w, id).normalized == 1.0
            <==> forall c :: WeightIfAny(lists, w, c) > 0.0 ==> Get(lists, c)[0].incidentId == id
  {
    SumFits(lists, w, id);
    AttainableSum(Available(lists, w));
    Fraction(Rrf(lists, w, id), Attainable(Available(lists, w)));
    hide Rrf, Available, TopShare, Get, WeightIfAny, Ranks, Scores, Blend, Normalized, Attainable;
  }

  lemma AttainableSum(available: real)
    ensures Attainable(available) == available * TopShare()
    ensures Attainable(available) > 0.0 <==> available > 0.0
  {
  }

  lemma BlendInUnit(normalized: real, scores: map<Channel, real>)
    requires 0.0 <= normalized <= 1.0 && forall c :: 0.0 <= Score(scores, c) <= 1.0
    ensures 0.0 <= Blend(normalized, scores) <= 1.0
  {
    hide Score;
  }

  lemma Quotient(x: real, d: real)
    requires 0.0 <= x && 0.0 < d
    ensures 0.0 <= x / d
    ensures x / d <= 1.0 <==> x <= d
    ensures x / d == 1.0 <==> x == d
  {
    var q := x / d;
    assert d * q == x && d * (1.0 - q) == d - x;
    SameSign(d, q);
    SameSign(d, 1.0 - q);
  }

  const TWICE: Lists := map[Lexical := [Hit("old", map[]), Hit("old", map[])]]

  /** One channel that lists an incident twice lifts it above the attainable sum, and the cut hides that. */
  lemma RepeatedHitIsCut()
    ensures Rrf(TWICE, BASE_WEIGHTS, "old") > Attainable(Available(TWICE, BASE_WEIGHTS))
    ensures Standing(TWICE, BASE_WEIGHTS, "old").normalized == 1.0
  {
    TwiceSum();
    AttainableSum(1.0);
    Fraction(Rrf(TWICE, BASE_WEIGHTS, "old"), Attainable(1.0));
    hide Rrf, Available, Ranks, Scores, Blend, Normalized;
  }

  lemma TwiceSum()
    ensures Rrf(TWICE, BASE_WEIGHTS, "old") == 1.0 / 61.0 + 1.0 / 62.0
    ensures Available(TWICE, BASE_WEIGHTS) == 1.0
  {
    var hit := Hit("old", map[]);
    ShareStep([], hit, "old");
    ShareStep([hit], hit, "old");
    assert [] + [hit] == [hit] && [hit] + [hit] == [hit, hit];
    assert Share([], "old") == 0.0;
    assert Share([hit, hit], "old") == 1.0 / 61.0 + 1.0 / 62.0;
    hide Share;
    assert Get(TWICE, Lexical) == [hit, hit];
    assert forall c :: c != Lexical ==> Get(TWICE, c) == [];
    hide Get;
    assert Term(TWICE, BASE_WEIGHTS, Lexical, "old") == 1.0 / 61.0 + 1.0 / 62.0;
    assert forall c :: c != Lexical ==> Term(TWICE, BASE_WEIGHTS, c, "old") == 0.0;
  }
}
