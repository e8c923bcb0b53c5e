/**
 The live facts of a diagnosis. Normalized signals, grouped by subject and property, become
 assertions with a state, a confidence and a status; every round starts from the assertions of
 the round before and reads the whole evidence again.
 */
module StateAssertions {
  import opened Domain
  import opened Sequences
  import opened Sorting
  import opened Text

  /** A time that was set; zero is the one that never was. */
  type Moment = t: int | t != 0 witness 1

  /** Ten minutes. */
  const STALE_AFTER: int := 600_000

  datatype Direction = ShowsAbnormal | ShowsNormal | ShowsOther

  datatype Signal = Signal(
    id: string, name: string, direction: Direction, strength: real, reliability: real, independence: real,
    observedAt: int, resource: string, service: string)

  datatype Item = Item(resource: string, service: string, signals: seq<Signal>)

  datatype Scope = Scope(resource: string, service: string)

  datatype Status = Active | Resolved | Stale | Contradicted

  datatype Assertion = Assertion(
    subject: string, property: string, state: string, confidence: real,
    supporting: seq<string>, contradicting: seq<string>, firstSeen: int, lastSeen: int, status: Status)

  /** A signal that says something about a property of a subject. */
  datatype Observation = Observation(subject: string, property: string, signal: Signal)

  // ---------------------------------------------------------------- grouping

  predicate Contains(s: string, part: string) {
    part <= s || (s != "" && Contains(s[1..], part))
  }

  function Property(name: string): string {
    var n := Lower(name);
    if Contains(n, "cpu_throttl") then "cpu_throttling"
    else if Contains(n, "cpu") then "cpu_pressure"
    else if Contains(n, "memory_growth") then "memory_growth"
    else if Contains(n, "memory") then "memory_pressure"
    else if Contains(n, "trace_error") then "trace_error"
    else if Contains(n, "latency") then "request_latency"
    else if Contains(n, "error") || Contains(n, "log") then "application_errors"
    else if Contains(n, "restart") then "pod_restarts"
    else if Contains(n, "connection") then "connection_pressure"
    else if Contains(n, "endpoint") || Contains(n, "dependency") then "dependency_availability"
    else if Contains(n, "availability") then "dependency_availability"
    else if Contains(n, "network") then "network_connectivity"
    else if Contains(n, "workload") then "workload_health"
    else ""
  }

  function FirstNonBlank(values: seq<string>): string {
    if values == [] then "" else if Trim(values[0]) != "" then values[0] else FirstNonBlank(values[1..])
  }

  function Subject(incident: Option<Scope>, item: Item, signal: Signal): string {
    var own := FirstNonBlank([signal.resource, item.resource, signal.service, item.service]);
    if own != "" then own
    else if incident.Some? then FirstNonBlank([incident.value.resource, incident.value.service, "incident"])
    else "incident"
  }

  function Key(subject: string, property: string): string {
    Normal(subject) + "|" + Normal(property)
  }

  function KeyOf(a: Assertion): string {
    Key(a.subject, a.property)
  }

  function Observe(incident: Option<Scope>, item: Item, signals: seq<Signal>): seq<Observation> {
    if signals == [] then []
    else
      var last := signals[|signals| - 1];
      Observe(incident, item, signals[..|signals| - 1])
      + if Property(last.name) == "" then []
        else [Observation(Subject(incident, item, last), Property(last.name), last)]
  }

  function Observations(incident: Option<Scope>, evidence: seq<Item>): seq<Observation> {
    if evidence == [] then []
    else
      var last := evidence[|evidence| - 1];
      Observations(incident, evidence[..|evidence| - 1]) + Observe(incident, last, last.signals)
  }

  /** The observations of one group, in order. */
  function Of(key: string, obs: seq<Observation>): seq<Observation> {
    if obs == [] then []
    else
      var last := obs[|obs| - 1];
      Of(key, obs[..|obs| - 1]) + if Key(last.subject, last.property) == key then [last] else []
  }

  /** The assertion of the round before; a repeated key counts once, as its last entry. */
  function Prior(previous: seq<Assertion>, key: string): Option<Assertion> {
    if previous == [] then None
    else
      var last := previous[|previous| - 1];
      if KeyOf(last) == key then Some(last) else Prior(previous[..|previous| - 1], key)
  }

  // ---------------------------------------------------------------- one group

  /** The assertion while it is built, and what was observed after the round before had last seen it. */
  datatype Track = Track(assertion: Assertion, abnormalSince: bool, normalSince: bool)

  function SeenAt(s: Signal, now: Moment): Moment {
    if s.observedAt == 0 then now else s.observedAt
  }

  function Confidence(s: Signal): real {
    s.strength * s.reliability * if s.independence == 0.0 then 1.0 else s.independence
  }

  /** An unset independence counts as full, any other as its share. */
  lemma IndependenceScales(s: Signal, x: real)
    ensures x != 0.0 ==> Confidence(s.(independence := x)) == Confidence(s.(independence := 0.0)) * x
    ensures Confidence(s.(independence := 0.0)) == s.strength * s.reliability
  {
  }

  predicate Since(prior: Option<Assertion>, s: Signal, now: Moment) {
    prior.None? || prior.value.lastSeen == 0 || SeenAt(s, now) > prior.value.lastSeen
  }

  function Opened(o: Observation, now: Moment): Assertion {
    Assertion(o.subject, o.property, "normal", 0.0, [], [], SeenAt(o.signal, now), 0, Active)
  }

  function WithId(ids: seq<string>, id: string): seq<string> {
    if id in ids then ids else ids + [id]
  }

  function Absorb(prior: Option<Assertion>, so: Option<Track>, o: Observation, now: Moment): Track {
    var t := if so.Some? then so.value else Track(Opened(o, now), false, false);
    var seen := SeenAt(o.signal, now);
    var a := t.assertion.(lastSeen := if t.assertion.lastSeen == 0 || seen > t.assertion.lastSeen then seen else t.assertion.lastSeen);
    var since := Since(prior, o.signal, now);
    match o.signal.direction
    case ShowsAbnormal =>
      var c := Confidence(o.signal);
      Track(
        (if c >= a.confidence then a.(state := "abnormal", confidence := c) else a)
        .(supporting := WithId(a.supporting, o.signal.id), status := Active),
        t.abnormalSince || since, t.normalSince)
    case ShowsNormal =>
      Track(a.(contradicting := WithId(a.contradicting, o.signal.id)), t.abnormalSince, t.normalSince || since)
    case ShowsOther => t.(assertion := a)
  }

  function Fold(prior: Option<Assertion>, obs: seq<Observation>, now: Moment): Option<Track> {
    if obs == [] then if prior.Some? then Some(Track(prior.value, false, false)) else None
    else Some(Absorb(prior, Fold(prior, obs[..|obs| - 1], now), obs[|obs| - 1], now))
  }

  function Close(prior: Option<Assertion>, t: Track, now: Moment): Assertion {
    var a := t.assertion.(lastSeen := if t.assertion.lastSeen == 0 then t.assertion.firstSeen else t.assertion.lastSeen);
    var status :=
      if prior.Some? && prior.value.lastSeen != 0 && a.state == "abnormal" && t.normalSince && !t.abnormalSince
      then Contradicted else a.status;
    a.(status := if status.Active? && a.lastSeen < now - STALE_AFTER then Stale else status)
  }

  function Conclude(prior: Option<Assertion>, obs: seq<Observation>, now: Moment): Option<Assertion> {
    var t := Fold(prior, obs, now);
    if t.None? then None else Some(Close(prior, t.value, now))
  }

  /** The assertion of one group, when the evidence or the round before has it. */
  function Asserted(incident: Option<Scope>, evidence: seq<Item>, previous: seq<Assertion>, now: Moment, key: string): Option<Assertion> {
    Conclude(Prior(previous, key), Of(key, Observations(incident, evidence)), now)
  }

  // ---------------------------------------------------------------- what a group's assertion says

  function Before(prior: Option<Assertion>): Assertion {
    if prior.Some? then prior.value else Assertion("", "", "normal", 0.0, [], [], 0, 0, Active)
  }

  predicate AnyAbnormal(obs: seq<Observation>) {
    exists o :: o in obs && o.signal.direction == ShowsAbnormal
  }

  predicate AnySince(prior: Option<Assertion>, obs: seq<Observation>, now: Moment, direction: Direction) {
    exists o :: o in obs && o.signal.direction == direction && Since(prior, o.signal, now)
  }

  predicate Named(obs: seq<Observation>, direction: Direction, id: string) {
    exists o :: o in obs && o.signal.direction == direction && o.signal.id == id
  }

  lemma InInit<T>(s: seq<T>)
    requires s != []
    ensures forall x :: x in s <==> x in s[..|s| - 1] || x == s[|s| - 1]
  {
    assert s == s[..|s| - 1] + [s[|s| - 1]];
  }

  /** The largest abnormal confidence counts, and a state is abnormal once one reaches the earlier confidence. */
  ghost predicate Strongest(prior: Option<Assertion>, obs: seq<Observation>, a: Assertion) {
    && a.state == (if exists o :: o in obs && o.signal.direction == ShowsAbnormal && Confidence(o.signal) >= Before(prior).confidence
                   then "abnormal" else Before(prior).state)
    && a.confidence >= Before(prior).confidence
    && (forall o :: o in obs && o.signal.direction == ShowsAbnormal ==> Confidence(o.signal) <= a.confidence)
    && (a.confidence == Before(prior).confidence
        || exists o :: o in obs && o.signal.direction == ShowsAbnormal && Confidence(o.signal) == a.confidence)
  }

  ghost predicate Latest(prior: Option<Assertion>, obs: seq<Observation>, now: Moment, a: Assertion) {
    && (obs != [] ==> a.lastSeen != 0)
    && (Before(prior).lastSeen != 0 ==> a.lastSeen >= Before(prior).lastSeen)
    && (forall o :: o in obs ==> SeenAt(o.signal, now) <= a.lastSeen)
    && (a.lastSeen == Before(prior).lastSeen || exists o :: o in obs && SeenAt(o.signal, now) == a.lastSeen)
  }

  lemma {:induction false} FoldIsStrongest(prior: Option<Assertion>, obs: seq<Observation>, now: Moment)
    requires Fold(prior, obs, now).Some?
    ensures Strongest(prior, obs, Fold(prior, obs, now).value.assertion)
  {
    hide Confidence, Since, SeenAt, WithId;
    if obs != [] {
      InInit(obs);
      if |obs| > 1 || prior.Some? {
        FoldIsStrongest(prior, obs[..|obs| - 1], now);
      }
    }
  }

  lemma {:induction false} FoldIsLatest(prior: Option<Assertion>, obs: seq<Observation>, now: Moment)
    requires Fold(prior, obs, now).Some?
    ensures Latest(prior, obs, now, Fold(prior, obs, now).value.assertion)
  {
    hide Confidence, Since, WithId;
    if obs != [] {
      InInit(obs);
      if |obs| > 1 || prior.Some? {
        FoldIsLatest(prior, obs[..|obs| - 1], now);
      }
    }
  }

  lemma {:induction false} FoldFlags(prior: Option<Assertion>, obs: seq<Observation>, now: Moment)
    requires Fold(prior, obs, now).Some?
    ensures var t := Fold(prior, obs, now).value;
            && t.assertion.status == (if AnyAbnormal(obs) then Active else Before(prior).status)
            && t.abnormalSince == AnySince(prior, obs, now, ShowsAbnormal)
            && t.normalSince == AnySince(prior, obs, now, ShowsNormal)
  {
    hide Confidence, SeenAt, WithId, Since;
    if obs != [] {
      InInit(obs);
      if |obs| > 1 || prior.Some? {
        FoldFlags(prior, obs[..|obs| - 1], now);
      }
    }
  }

  lemma {:induction false} FoldNames(prior: Option<Assertion>, obs: seq<Observation>, now: Moment, id: string)
    requires Fold(prior, obs, now).Some?
    ensures var a := Fold(prior, obs, now).value.assertion;
            && (id in a.supporting <==> id in Before(prior).supporting || Named(obs, ShowsAbnormal, id))
            && (id in a.contradicting <==> id in Before(prior).contradicting || Named(obs, ShowsNormal, id))
  {
    hide Confidence, Since, SeenAt;
    if obs != [] {
      InInit(obs);
      if |obs| > 1 || prior.Some? {
        FoldNames(prior, obs[..|obs| - 1], now, id);
      }
    }
  }

  // ---------------------------------------------------------------- evidence order

  /** Everything but the first time, the spelling of the subject and the order of the signal IDs. */
  ghost predicate SameVerdict(a: Assertion, b: Assertion) {
    && a.state == b.state && a.confidence == b.confidence && a.lastSeen == b.lastSeen && a.status == b.status
    && Elements(a.supporting) == Elements(b.supporting) && Elements(a.contradicting) == Elements(b.contradicting)
  }

  lemma BothEmpty<T>(s: seq<T>, t: seq<T>)
    requires forall x :: x in s <==> x in t
    ensures s == [] <==> t == []
  {
    assert s != [] ==> s[0] in t;
    assert t != [] ==> t[0] in s;
  }

  lemma StrongestIsOne(prior: Option<Assertion>, s: seq<Observation>, t: seq<Observation>, a: Assertion, b: Assertion)
    requires (forall o :: o in s <==> o in t) && Strongest(prior, s, a) && Strongest(prior, t, b)
    ensures a.state == b.state && a.confidence == b.confidence
  {
    hide Confidence;
  }

  lemma LatestIsOne(prior: Option<Assertion>, s: seq<Observation>, t: seq<Observation>, now: Moment, a: Assertion, b: Assertion)
    requires (forall o :: o in s <==> o in t) && s != [] && t != [] && Latest(prior, s, now, a) && Latest(prior, t, now, b)
    ensures a.lastSeen == b.lastSeen
  {
    hide SeenAt;
  }

  lemma SameIds(prior: Option<Assertion>, s: seq<Observation>, t: seq<Observation>, now: Moment)
    requires (forall o :: o in s <==> o in t) && Fold(prior, s, now).Some? && Fold(prior, t, now).Some?
    ensures var x, y := Fold(prior, s, now).value.assertion, Fold(prior, t, now).value.assertion;
            Elements(x.supporting) == Elements(y.supporting) && Elements(x.contradicting) == Elements(y.contradicting)
  {
    hide Fold;
    var x, y := Fold(prior, s, now).value.assertion, Fold(prior, t, now).value.assertion;
    forall id
      ensures id in x.supporting <==> id in y.supporting
      ensures id in x.contradicting <==> id in y.contradicting
    {
      FoldNames(prior, s, now, id);
      FoldNames(prior, t, now, id);
    }
  }

  lemma SameFold(prior: Option<Assertion>, s: seq<Observation>, t: seq<Observation>, now: Moment)
    requires (forall o :: o in s <==> o in t) && s != [] && t != []
    ensures Fold(prior, s, now).Some? && Fold(prior, t, now).Some?
    ensures var x, y := Fold(prior, s, now).value, Fold(prior, t, now).value;
            SameVerdict(x.assertion, y.assertion) && x.abnormalSince == y.abnormalSince && x.normalSince == y.normalSince
  {
    assert Fold(prior, s, now).Some? && Fold(prior, t, now).Some?;
    hide Fold, Strongest, Latest;
    var x, y := Fold(prior, s, now).value.assertion, Fold(prior, t, now).value.assertion;
    FoldIsStrongest(prior, s, now);
    FoldIsStrongest(prior, t, now);
    StrongestIsOne(prior, s, t, x, y);
    FoldIsLatest(prior, s, now);
    FoldIsLatest(prior, t, now);
    LatestIsOne(prior, s, t, now, x, y);
    FoldFlags(prior, s, now);
    FoldFlags(prior, t, now);
    assert AnyAbnormal(s) == AnyAbnormal(t);
    SameIds(prior, s, t, now);
  }

  lemma SameObservationsSameVerdict(prior: Option<Assertion>, s: seq<Observation>, t: seq<Observation>, now: Moment)
    requires forall o :: o in s <==> o in t
    ensures Conclude(prior, s, now).Some? == Conclude(prior, t, now).Some?
    ensures Conclude(prior, s, now).Some? ==> SameVerdict(Conclude(prior, s, now).value, Conclude(prior, t, now).value)
  {
    BothEmpty(s, t);
    if s != [] {
      SameFold(prior, s, t, now);
      FoldIsLatest(prior, s, now);
      FoldIsLatest(prior, t, now);
      hide Fold;
    }
  }

  lemma {:induction false} InOf(key: string, obs: seq<Observation>, o: Observation)
    ensures o in Of(key, obs) <==> o in obs && Key(o.subject, o.property) == key
  {
    if obs != [] {
      InInit(obs);
      InOf(key, obs[..|obs| - 1], o);
    }
  }

  lemma {:induction false} InObservations(incident: Option<Scope>, evidence: seq<Item>, o: Observation)
    ensures o in Observations(incident, evidence)
            <==> exists item :: item in evidence && o in Observe(incident, item, item.signals)
  {
    if evidence != [] {
      InInit(evidence);
      InObservations(incident, evidence[..|evidence| - 1], o);
    }
  }

  /** The verdicts depend on which items there are, not on their order or on how often one is listed. */
  lemma EvidenceOrderIsIrrelevant(
    incident: Option<Scope>, evidence: seq<Item>, other: seq<Item>, previous: seq<Assertion>, now: Moment, key: string)
    requires forall item :: item in evidence <==> item in other
    ensures Asserted(incident, evidence, previous, now, key).Some? == Asserted(incident, other, previous, now, key).Some?
    ensures Asserted(incident, evidence, previous, now, key).Some? ==>
              SameVerdict(Asserted(incident, evidence, previous, now, key).value, Asserted(incident, other, previous, now, key).value)
  {
    var s, t := Of(key, Observations(incident, evidence)), Of(key, Observations(incident, other));
    forall o
      ensures o in s <==> o in t
    {
      InOf(key, Observations(incident, evidence), o);
      InOf(key, Observations(incident, other), o);
      InObservations(incident, evidence, o);
      InObservations(incident, other, o);
    }
    SameObservationsSameVerdict(Prior(previous, key), s, t, now);
  }

  // ---------------------------------------------------------------- contradiction

  /**
   An assertion is contradicted when something normal and nothing abnormal was seen since the
   round before, or when it was already and the whole evidence shows nothing abnormal.
   */
  lemma ContradictedIff(prior: Option<Assertion>, obs: seq<Observation>, now: Moment)
    requires Conclude(prior, obs, now).Some?
    ensures Conclude(prior, obs, now).value.status == Contradicted
            <==> || (prior.Some? && prior.value.lastSeen != 0 && Conclude(prior, obs, now).value.state == "abnormal"
                     && AnySince(prior, obs, now, ShowsNormal) && !AnySince(prior, obs, now, ShowsAbnormal))
                 || (prior.Some? && prior.value.status == Contradicted && !AnyAbnormal(obs))
  {
    FoldFlags(prior, obs, now);
  }

  ghost predicate Dated(obs: seq<Observation>) {
    forall o :: o in obs ==> o.signal.observedAt != 0
  }

  /**
   Reading the same evidence once more keeps a contradiction exactly when that evidence shows
   nothing abnormal for the group; otherwise the old abnormal signal revives the assertion.
   */
  lemma ContradictionLastsIff(prior: Option<Assertion>, obs: seq<Observation>, now: Moment, later: Moment)
    requires Dated(obs)
    requires Conclude(prior, obs, now).Some? && Conclude(prior, obs, now).value.status == Contradicted
    ensures Conclude(Conclude(prior, obs, now), obs, later).Some?
    ensures Conclude(Conclude(prior, obs, now), obs, later).value.status == Contradicted <==> !AnyAbnormal(obs)
  {
    var a := Conclude(prior, obs, now);
    FoldIsLatest(prior, obs, now);
    forall o | o in obs
      ensures !Since(a, o.signal, later)
    {
      assert SeenAt(o.signal, later) == SeenAt(o.signal, now) <= a.value.lastSeen;
    }
    ContradictedIff(a, obs, later);
  }

  // ---------------------------------------------------------------- the first time

  function FirstIn(incident: Option<Scope>, key: string, evidence: seq<Item>): Option<Observation> {
    var obs := Of(key, Observations(incident, evidence));
    if obs == [] then None else Some(obs[0])
  }

  function Lead(incident: Option<Scope>, key: string, item: Item): Option<Observation> {
    var obs := Of(key, Observe(incident, item, item.signals));
    if obs == [] then None else Some(obs[0])
  }

  lemma {:induction false} OfSplits(key: string, s: seq<Observation>, t: seq<Observation>)
    ensures Of(key, s + t) == Of(key, s) + Of(key, t)
  {
    hide Key;
    if t == [] {
      assert s + t == s;
    } else {
      OfSplits(key, s, t[..|t| - 1]);
      assert (s + t)[..|s + t| - 1] == s + t[..|t| - 1];
    }
  }

  lemma FirstOfMore(incident: Option<Scope>, key: string, evidence: seq<Item>)
    requires evidence != []
    ensures var init, last := evidence[..|evidence| - 1], evidence[|evidence| - 1];
            FirstIn(incident, key, evidence)
            == if FirstIn(incident, key, init).Some? then FirstIn(incident, key, init) else Lead(incident, key, last)
  {
    var init, last := evidence[..|evidence| - 1], evidence[|evidence| - 1];
    OfSplits(key, Observations(incident, init), Observe(incident, last, last.signals));
  }

  /** The first observation is the lead of the first item that has one. */
  lemma {:induction false} FirstIsALead(incident: Option<Scope>, key: string, evidence: seq<Item>)
    ensures FirstIn(incident, key, evidence).None? <==> forall item :: item in evidence ==> Lead(incident, key, item).None?
    ensures FirstIn(incident, key, evidence).Some? ==>
              exists item :: item in evidence && Lead(incident, key, item) == FirstIn(incident, key, evidence)
    ensures evidence != [] && Lead(incident, key, evidence[0]).Some? ==>
              FirstIn(incident, key, evidence) == Lead(incident, key, evidence[0])
  {
    if evidence == [] {
      assert FirstIn(incident, key, evidence).None?;
    } else {
      hide FirstIn, Lead;
      InInit(evidence);
      FirstOfMore(incident, key, evidence);
      FirstIsALead(incident, key, evidence[..|evidence| - 1]);
    }
  }

  lemma {:induction false} FoldKeepsFirst(obs: seq<Observation>, now: Moment)
    requires obs != []
    ensures Fold(None, obs, now).Some? && Fold(None, obs, now).value.assertion.firstSeen == SeenAt(obs[0].signal, now)
  {
    if |obs| > 1 {
      FoldKeepsFirst(obs[..|obs| - 1], now);
    }
  }

  /** When a new assertion was first seen, by the order of the evidence. */
  function FirstSeen(incident: Option<Scope>, key: string, evidence: seq<Item>, now: Moment): int {
    var first := FirstIn(incident, key, evidence);
    if first.Some? then SeenAt(first.value.signal, now) else 0
  }

  lemma FirstSeenIsTheFirst(incident: Option<Scope>, evidence: seq<Item>, previous: seq<Assertion>, now: Moment, key: string)
    requires Prior(previous, key).None? && Asserted(incident, evidence, previous, now, key).Some?
    ensures Asserted(incident, evidence, previous, now, key).value.firstSeen == FirstSeen(incident, key, evidence, now)
  {
    FoldKeepsFirst(Of(key, Observations(incident, evidence)), now);
  }

  ghost predicate LeadsAgree(incident: Option<Scope>, key: string, evidence: seq<Item>, now: Moment) {
    forall x, y :: x in evidence && y in evidence && Lead(incident, key, x).Some? && Lead(incident, key, y).Some? ==>
      SeenAt(Lead(incident, key, x).value.signal, now) == SeenAt(Lead(incident, key, y).value.signal, now)
  }

  lemma AgreeingLeads(incident: Option<Scope>, key: string, evidence: seq<Item>, other: seq<Item>, now: Moment)
    requires LeadsAgree(incident, key, evidence, now) && multiset(other) == multiset(evidence)
    ensures FirstSeen(incident, key, other, now) == FirstSeen(incident, key, evidence, now)
  {
    hide FirstIn, Lead;
    assert forall item :: item in other <==> item in multiset(other);
    assert forall item :: item in evidence <==> item in multiset(evidence);
    FirstIsALead(incident, key, other);
    FirstIsALead(incident, key, evidence);
  }

  lemma AnyLeadCanComeFirst(incident: Option<Scope>, key: string, evidence: seq<Item>, x: Item, now: Moment) returns (other: seq<Item>)
    requires x in evidence && Lead(incident, key, x).Some?
    ensures multiset(other) == multiset(evidence)
    ensures FirstSeen(incident, key, other, now) == SeenAt(Lead(incident, key, x).value.signal, now)
  {
    hide FirstIn, Lead;
    var i :| 0 <= i < |evidence| && evidence[i] == x;
    other := [x] + (evidence[..i] + evidence[i + 1..]);
    MultisetWithout(evidence, i);
    FirstIsALead(incident, key, other);
  }

  /** The time at which a new assertion was first seen is the same for every order of the items exactly when their leads agree. */
  lemma FirstSeenIgnoresOrderIff(incident: Option<Scope>, key: string, evidence: seq<Item>, now: Moment)
    ensures (forall other :: multiset(other) == multiset(evidence) ==>
               FirstSeen(incident, key, other, now) == FirstSeen(incident, key, evidence, now))
            <==> LeadsAgree(incident, key, evidence, now)
  {
    hide FirstSeen, Lead;
    forall other | LeadsAgree(incident, key, evidence, now) && multiset(other) == multiset(evidence)
      ensures FirstSeen(incident, key, other, now) == FirstSeen(incident, key, evidence, now)
    {
      AgreeingLeads(incident, key, evidence, other, now);
    }
    forall x | x in evidence && Lead(incident, key, x).Some?
      ensures exists other :: multiset(other) == multiset(evidence)
                              && FirstSeen(incident, key, other, now) == SeenAt(Lead(incident, key, x).value.signal, now)
    {
      var other := AnyLeadCanComeFirst(incident, key, evidence, x, now);
    }
  }

  // ---------------------------------------------------------------- one round

  predicate AssertionLeq(a: Assertion, b: Assertion) {
    if a.subject == b.subject then StringLeq(a.property, b.property) else StringLeq(a.subject, b.subject)
  }

  lemma AssertionOrder()
    ensures TotalPreorder(AssertionLeq)
  {
    StringOrder();
    hide StringLeq;
  }

  /** No two assertions of a round are about the same group. */
  predicate OnePerGroup(s: seq<Assertion>) {
    forall i, j :: 0 <= i < j < |s| ==> KeyOf(s[i]) != KeyOf(s[j])
  }

  lemma {:induction false} PriorIs(s: seq<Assertion>, key: string)
    ensures Prior(s, key).Some? ==> Prior(s, key).value in s && KeyOf(Prior(s, key).value) == key
    ensures Prior(s, key).None? ==> forall a :: a in s ==> KeyOf(a) != key
  {
    hide KeyOf;
    if s != [] {
      InInit(s);
      var init, last := s[..|s| - 1], s[|s| - 1];
      PriorIs(init, key);
      assert Prior(s, key) == if KeyOf(last) == key then Some(last) else Prior(init, key);
      assert forall a :: a in s ==> a in init || a == last;
    }
  }

  /** Listing the same groups in another order finds the same assertions. */
  lemma PriorIgnoresOrder(s: seq<Assertion>, t: seq<Assertion>, key: string)
    requires OnePerGroup(s) && forall a :: a in s <==> a in t
    ensures Prior(s, key) == Prior(t, key)
  {
    hide Key;
    PriorIs(s, key);
    PriorIs(t, key);
  }

  lemma OnePerGroupSorted(s: seq<Assertion>, t: seq<Assertion>)
    requires OnePerGroup(s) && multiset(s) == multiset(t)
    ensures OnePerGroup(t)
  {
    hide KeyOf;
    assert Distinct(s) && forall a, b :: a in s && b in s && KeyOf(a) == KeyOf(b) ==> a == b;
    assert forall a :: a in s <==> a in multiset(s);
    assert forall a :: a in t <==> a in multiset(t);
    DistinctIffSize(s);
    DistinctIffSize(t);
    assert Elements(s) == Elements(t);
    assert |s| == |multiset(s)| && |t| == |multiset(t)|;
    assert forall i :: 0 <= i < |t| ==> t[i] in s;
  }

  lemma AbsorbKeepsGroup(prior: Option<Assertion>, t: Option<Track>, o: Observation, now: Moment)
    ensures var a, b := Absorb(prior, t, o, now).assertion, if t.Some? then t.value.assertion else Opened(o, now);
            a.subject == b.subject && a.property == b.property
  {
    hide Confidence, Since;
  }

  lemma {:induction false} FoldKeepsKey(prior: Option<Assertion>, obs: seq<Observation>, now: Moment, key: string)
    requires prior.Some? ==> KeyOf(prior.value) == key
    requires forall o :: o in obs ==> Key(o.subject, o.property) == key
    ensures Fold(prior, obs, now).Some? ==> KeyOf(Fold(prior, obs, now).value.assertion) == key
  {
    if obs != [] {
      InInit(obs);
      FoldKeepsKey(prior, obs[..|obs| - 1], now, key);
      AbsorbKeepsGroup(prior, Fold(prior, obs[..|obs| - 1], now), obs[|obs| - 1], now);
      hide Absorb, Key;
    }
  }

  /** The groups as the loops update them. */
  function TrackAt(groups: map<string, Assertion>, abnormal: set<string>, normal: set<string>, key: string): Option<Track> {
    if key in groups then Some(Track(groups[key], key in abnormal, key in normal)) else None
  }

  ghost predicate Tracking(
    groups: map<string, Assertion>, abnormal: set<string>, normal: set<string>,
    previous: seq<Assertion>, obs: seq<Observation>, now: Moment)
  {
    forall key :: TrackAt(groups, abnormal, normal, key) == Fold(Prior(previous, key), Of(key, obs), now)
  }

  lemma FoldStep(prior: Option<Assertion>, obs: seq<Observation>, o: Observation, now: Moment)
    ensures Fold(prior, obs + [o], now) == Some(Absorb(prior, Fold(prior, obs, now), o, now))
  {
    hide Absorb;
    assert (obs + [o])[..|obs + [o]| - 1] == obs;
  }

  lemma OfStep(key: string, obs: seq<Observation>, o: Observation)
    ensures Of(key, obs + [o]) == if Key(o.subject, o.property) == key then Of(key, obs) + [o] else Of(key, obs)
  {
    hide Key;
    assert (obs + [o])[..|obs + [o]| - 1] == obs;
  }

  lemma TrackingSteps(
    groups: map<string, Assertion>, abnormal: set<string>, normal: set<string>,
    later: map<string, Assertion>, laterAbnormal: set<string>, laterNormal: set<string>,
    previous: seq<Assertion>, obs: seq<Observation>, o: Observation, now: Moment)
    requires Tracking(groups, abnormal, normal, previous, obs, now)
    requires var key := Key(o.subject, o.property);
             && TrackAt(later, laterAbnormal, laterNormal, key)
                == Some(Absorb(Prior(previous, key), TrackAt(groups, abnormal, normal, key), o, now))
             && forall k :: k != key ==> TrackAt(later, laterAbnormal, laterNormal, k) == TrackAt(groups, abnormal, normal, k)
    ensures Tracking(later, laterAbnormal, laterNormal, previous, obs + [o], now)
  {
    hide Key, Absorb, Fold, Of, TrackAt, Prior;
    forall k
      ensures TrackAt(later, laterAbnormal, laterNormal, k) == Fold(Prior(previous, k), Of(k, obs + [o]), now)
    {
      OfStep(k, obs, o);
      FoldStep(Prior(previous, k), Of(k, obs), o, now);
    }
  }

  /** One signal enters its group, which is opened when it is the first. */
  method TakeSignal(
    subject: string, property: string, signal: Signal, priorSeen: map<string, int>,
    before: map<string, Assertion>, abnormal: set<string>, normal: set<string>, now: Moment, ghost previous: seq<Assertion>)
    returns (groups: map<string, Assertion>, abnormalSince: set<string>, normalSince: set<string>)
    requires forall k :: k in priorSeen <==> Prior(previous, k).Some?
    requires forall k :: k in priorSeen ==> priorSeen[k] == Prior(previous, k).value.lastSeen
    requires abnormal <= before.Keys && normal <= before.Keys
    ensures var o, key := Observation(subject, property, signal), Key(subject, property);
            && abnormalSince <= groups.Keys && normalSince <= groups.Keys
            && TrackAt(groups, abnormalSince, normalSince, key)
               == Some(Absorb(Prior(previous, key), TrackAt(before, abnormal, normal, key), o, now))
            && forall k :: k != key ==> TrackAt(groups, abnormalSince, normalSince, k) == TrackAt(before, abnormal, normal, k)
  {
    hide Key, Confidence;
    abnormalSince, normalSince := abnormal, normal;
    var key := Key(subject, property);
    var observedAt := if signal.observedAt == 0 then now else signal.observedAt;
    var assertion;
    if key in before {
      assertion := before[key];
    } else {
      assertion := Assertion(subject, property, "normal", 0.0, [], [], observedAt, 0, Active);
    }
    if assertion.lastSeen == 0 || observedAt > assertion.lastSeen {
      assertion := assertion.(lastSeen := observedAt);
    }
    var observedSincePrior := key !in priorSeen || priorSeen[key] == 0 || observedAt > priorSeen[key];
    if signal.direction == ShowsAbnormal {
      var confidence := Confidence(signal);
      if confidence >= assertion.confidence {
        assertion := assertion.(state := "abnormal", confidence := confidence);
      }
      assertion := assertion.(supporting := WithId(assertion.supporting, signal.id), status := Active);
      if observedSincePrior {
        abnormalSince := abnormalSince + {key};
      }
    } else if signal.direction == ShowsNormal {
      assertion := assertion.(contradicting := WithId(assertion.contradicting, signal.id));
      if observedSincePrior {
        normalSince := normalSince + {key};
      }
    }
    groups := before[key := assertion];
  }

  lemma {:induction false} OfHasKey(key: string, obs: seq<Observation>)
    ensures forall o :: o in Of(key, obs) ==> Key(o.subject, o.property) == key
  {
    forall o | o in Of(key, obs)
      ensures Key(o.subject, o.property) == key
    {
      InOf(key, obs, o);
    }
  }

  lemma AssertedHasKey(incident: Option<Scope>, evidence: seq<Item>, previous: seq<Assertion>, now: Moment, key: string)
    ensures Asserted(incident, evidence, previous, now, key).Some? ==>
              KeyOf(Asserted(incident, evidence, previous, now, key).value) == key
  {
    hide Key;
    PriorIs(previous, key);
    OfHasKey(key, Observations(incident, evidence));
    FoldKeepsKey(Prior(previous, key), Of(key, Observations(incident, evidence)), now, key);
  }

  method OpenGroups(previous: seq<Assertion>, ghost now: Moment)
    returns (groups: map<string, Assertion>, priorSeen: map<string, int>)
    ensures Tracking(groups, {}, {}, previous, [], now)
    ensures forall key :: key in priorSeen <==> Prior(previous, key).Some?
    ensures forall key :: key in priorSeen ==> priorSeen[key] == Prior(previous, key).value.lastSeen
  {
    hide KeyOf;
    groups, priorSeen := map[], map[];
    for i := 0 to |previous|
      invariant groups.Keys == priorSeen.Keys
      invariant forall key :: Prior(previous[..i], key) == if key in groups then Some(groups[key]) else None
      invariant forall key :: key in priorSeen ==> priorSeen[key] == groups[key].lastSeen
    {
      assert previous[..i + 1][..i] == previous[..i];
      var key := KeyOf(previous[i]);
      groups, priorSeen := groups[key := previous[i]], priorSeen[key := previous[i].lastSeen];
    }
    assert previous[..|previous|] == previous;
  }

  method CloseGroups(
    groups: map<string, Assertion>, abnormalSince: set<string>, normalSince: set<string>, priorSeen: map<string, int>,
    now: Moment, ghost incident: Option<Scope>, ghost evidence: seq<Item>, ghost previous: seq<Assertion>)
    returns (out: seq<Assertion>)
    requires Tracking(groups, abnormalSince, normalSince, previous, Observations(incident, evidence), now)
    requires forall key :: key in priorSeen <==> Prior(previous, key).Some?
    requires forall key :: key in priorSeen ==> priorSeen[key] == Prior(previous, key).value.lastSeen
    ensures OnePerGroup(out)
    ensures forall key :: Prior(out, key) == Asserted(incident, evidence, previous, now, key)
  {
    hide KeyOf, Fold, Of, Observations, Prior;
    var names := Iterate(groups.Keys);
    out := [];
    for i := 0 to |names|
      invariant |out| == i
      invariant forall k :: 0 <= k < i ==>
                  Asserted(incident, evidence, previous, now, names[k]) == Some(out[k]) && KeyOf(out[k]) == names[k]
    {
      var key := names[i];
      assert key in Elements(names);
      var assertion := groups[key];
      assert TrackAt(groups, abnormalSince, normalSince, key) == Some(Track(assertion, key in abnormalSince, key in normalSince));
      AssertedHasKey(incident, evidence, previous, now, key);
      if assertion.lastSeen == 0 {
        assertion := assertion.(lastSeen := assertion.firstSeen);
      }
      if key in priorSeen && priorSeen[key] != 0 && assertion.state == "abnormal" && key in normalSince && key !in abnormalSince {
        assertion := assertion.(status := Contradicted);
      }
      if assertion.status == Active && assertion.lastSeen < now - STALE_AFTER {
        assertion := assertion.(status := Stale);
      }
      out := out + [assertion];
    }
    forall key
      ensures Prior(out, key) == Asserted(incident, evidence, previous, now, key)
    {
      PriorIs(out, key);
      assert TrackAt(groups, abnormalSince, normalSince, key).Some? <==> key in Elements(names);
    }
  }

  /**
   One round. The result is sorted, holds one assertion for each group that the evidence or the
   round before knows, and each is the one that its own observations make of its own prior.
   */
  method BuildStateAssertions(incident: Option<Scope>, evidence: seq<Item>, previous: seq<Assertion>, now: Moment)
    returns (out: seq<Assertion>)
    ensures Ordered(AssertionLeq, out) && OnePerGroup(out)
    ensures forall key :: Prior(out, key) == Asserted(incident, evidence, previous, now, key)
  {
    hide Key, KeyOf, StringLeq, Property, Subject, Confidence, Absorb, Fold, Of, Prior, TrackAt;
    var groups, priorSeen := OpenGroups(previous, now);
    var abnormalSince: set<string>, normalSince: set<string> := {}, {};
    ghost var obs: seq<Observation> := [];
    for i := 0 to |evidence|
      invariant obs == Observations(incident, evidence[..i])
      invariant Tracking(groups, abnormalSince, normalSince, previous, obs, now)
      invariant abnormalSince <= groups.Keys && normalSince <= groups.Keys
    {
      var item := evidence[i];
      ghost var before := obs;
      for j := 0 to |item.signals|
        invariant obs == before + Observe(incident, item, item.signals[..j])
        invariant Tracking(groups, abnormalSince, normalSince, previous, obs, now)
        invariant abnormalSince <= groups.Keys && normalSince <= groups.Keys
      {
        assert item.signals[..j + 1][..j] == item.signals[..j];
        var signal := item.signals[j];
        var property := Property(signal.name);
        if property != "" {
          ghost var o := Observation(Subject(incident, item, signal), property, signal);
          ghost var g, a, n := groups, abnormalSince, normalSince;
          groups, abnormalSince, normalSince :=
            TakeSignal(Subject(incident, item, signal), property, signal, priorSeen, groups, abnormalSince, normalSince, now, previous);
          TrackingSteps(g, a, n, groups, abnormalSince, normalSince, previous, obs, o, now);
          obs := obs + [o];
        }
      }
      assert item.signals[..|item.signals|] == item.signals;
      assert evidence[..i + 1][..i] == evidence[..i];
    }
    assert evidence[..|evidence|] == evidence;
    var listed := CloseGroups(groups, abnormalSince, normalSince, priorSeen, now, incident, evidence, previous);
    out := Sort(AssertionLeq, listed);
    AssertionOrder();
    SortOrders(AssertionLeq, listed);
    SortPermutes(AssertionLeq, listed);
    OnePerGroupSorted(listed, out);
    forall key
      ensures Prior(out, key) == Asserted(incident, evidence, previous, now, key)
    {
      PriorIgnoresOrder(listed, out, key);
    }
  }

  lemma TieIsSameGroup(a: Assertion, b: Assertion)
    requires AssertionLeq(a, b) && AssertionLeq(b, a)
    ensures KeyOf(a) == KeyOf(b)
  {
    StringLeqTotal(a.subject, b.subject);
    StringLeqTotal(a.property, b.property);
  }

  /** Sorted and one for each group, there is only one such list. */
  lemma ListIsUnique(s: seq<Assertion>, t: seq<Assertion>)
    requires Ordered(AssertionLeq, s) && Ordered(AssertionLeq, t) && OnePerGroup(s) && OnePerGroup(t)
    requires forall key :: Prior(s, key) == Prior(t, key)
    ensures s == t
  {
    hide KeyOf, StringLeq;
    AssertionOrder();
    assert Distinct(s) && Distinct(t);
    forall a
      ensures a in s <==> a in t
    {
      PriorIs(s, KeyOf(a));
      PriorIs(t, KeyOf(a));
      assert forall b, c :: b in s && c in s && KeyOf(b) == KeyOf(c) ==> b == c;
      assert forall b, c :: b in t && c in t && KeyOf(b) == KeyOf(c) ==> b == c;
    }
    SameElements(s, t);
    forall a, b | a in s && b in s && AssertionLeq(a, b) && AssertionLeq(b, a)
      ensures a == b
    {
      TieIsSameGroup(a, b);
    }
    OrderedUnique(AssertionLeq, s, t);
  }

  // ---------------------------------------------------------------- a contradiction that does not last

  /**
   The next round over the same dated evidence keeps a contradiction exactly when no item of it
   shows the group abnormal. The evidence of an incident only grows, so the abnormal signal that
   was contradicted is still there.
   */
  lemma ContradictionSurvivesIff(
    incident: Option<Scope>, evidence: seq<Item>, previous: seq<Assertion>, out: seq<Assertion>, now: Moment, later: Moment, key: string)
    requires Prior(out, key) == Asserted(incident, evidence, previous, now, key)
    requires Dated(Of(key, Observations(incident, evidence)))
    requires Prior(out, key).Some? && Prior(out, key).value.status == Contradicted
    ensures Asserted(incident, evidence, out, later, key).Some?
    ensures Asserted(incident, evidence, out, later, key).value.status == Contradicted
            <==> !AnyAbnormal(Of(key, Observations(incident, evidence)))
  {
    ContradictionLastsIff(Prior(previous, key), Of(key, Observations(incident, evidence)), now, later);
  }

  const HIGH := Signal("high", "cpu_throttling", ShowsAbnormal, 1.0, 1.0, 1.0, 1_000, "checkout", "checkout")
  const LOW := Signal("low", "cpu_throttling", ShowsNormal, 1.0, 1.0, 1.0, 2_000, "checkout", "checkout")
  const THROTTLED := Item("checkout", "checkout", [HIGH])
  const RECOVERED := Item("checkout", "checkout", [LOW])
  const GROUP := Key("checkout", "cpu_throttling")
  const RAISED := Assertion("checkout", "cpu_throttling", "abnormal", 1.0, ["high"], [], 1_000, 1_000, Active)
  const CLOSED := RAISED.(contradicting := ["low"], lastSeen := 2_000, status := Contradicted)

  const SEEN_HIGH := Observation("checkout", "cpu_throttling", HIGH)
  const SEEN_LOW := Observation("checkout", "cpu_throttling", LOW)

  lemma SampleReadings()
    ensures Observe(None, THROTTLED, [HIGH]) == [SEEN_HIGH] && Observe(None, RECOVERED, [LOW]) == [SEEN_LOW]
  {
    assert Lower("cpu_throttling") == "cpu_throttling";
    assert Property("cpu_throttling") == "cpu_throttling";
    PlainIsNormal("checkout");
    hide Lower, Property, Trim;
    assert [HIGH][..0] == [] && [LOW][..0] == [];
    assert Observe(None, THROTTLED, []) == [] && Observe(None, RECOVERED, []) == [];
  }

  lemma SampleObservations()
    ensures Of(GROUP, Observations(None, [THROTTLED])) == [SEEN_HIGH]
    ensures Of(GROUP, Observations(None, [THROTTLED, RECOVERED])) == [SEEN_HIGH, SEEN_LOW]
  {
    SampleReadings();
    hide Observe, Key;
    assert [THROTTLED][..0] == [] && [THROTTLED, RECOVERED][..1] == [THROTTLED];
    assert Observations(None, []) == [] && Observations(None, [THROTTLED]) == [SEEN_HIGH];
    assert Observations(None, [THROTTLED, RECOVERED]) == [SEEN_HIGH, SEEN_LOW];
    OfStep(GROUP, [], SEEN_HIGH);
    OfStep(GROUP, [SEEN_HIGH], SEEN_LOW);
    assert [] + [SEEN_HIGH] == [SEEN_HIGH] && [SEEN_HIGH] + [SEEN_LOW] == [SEEN_HIGH, SEEN_LOW];
    assert Of(GROUP, []) == [];
  }

  lemma FoldOfSample(prior: Option<Assertion>, now: Moment)
    requires prior.Some?
    ensures Fold(prior, [SEEN_HIGH, SEEN_LOW], now)
            == Some(Absorb(prior, Some(Absorb(prior, Some(Track(prior.value, false, false)), SEEN_HIGH, now)), SEEN_LOW, now))
  {
    hide Absorb;
    assert [] + [SEEN_HIGH] == [SEEN_HIGH] && [SEEN_HIGH] + [SEEN_LOW] == [SEEN_HIGH, SEEN_LOW];
    FoldStep(prior, [], SEEN_HIGH, now);
    FoldStep(prior, [SEEN_HIGH], SEEN_LOW, now);
  }

  /** The sample evidence contradicts an assertion last seen before its normal sample, and revives one last seen with it. */
  lemma SampleVerdicts()
    ensures Conclude(None, [SEEN_HIGH], 1_500) == Some(RAISED)
    ensures Conclude(Some(RAISED), [SEEN_HIGH, SEEN_LOW], 2_500) == Some(CLOSED)
    ensures Conclude(Some(CLOSED), [SEEN_HIGH, SEEN_LOW], 3_500) == Some(CLOSED.(status := Active))
  {
    assert Confidence(HIGH) == 1.0;
    assert WithId([], "high") == ["high"] && WithId([], "low") == ["low"];
    FoldStep(None, [], SEEN_HIGH, 1_500);
    assert [] + [SEEN_HIGH] == [SEEN_HIGH];
    FoldOfSample(Some(RAISED), 2_500);
    FoldOfSample(Some(CLOSED), 3_500);
    hide Confidence, WithId;
  }

  /** Three rounds: abnormal at first, then contradicted by a normal sample, and active again although nothing new was collected. */
  lemma ContradictionIsRevived()
    ensures Asserted(None, [THROTTLED], [], 1_500, GROUP) == Some(RAISED)
    ensures Asserted(None, [THROTTLED, RECOVERED], [RAISED], 2_500, GROUP) == Some(CLOSED)
    ensures Asserted(None, [THROTTLED, RECOVERED], [CLOSED], 3_500, GROUP) == Some(CLOSED.(status := Active))
  {
    SampleObservations();
    SampleVerdicts();
    assert Prior([RAISED], GROUP) == Some(RAISED) && Prior([CLOSED], GROUP) == Some(CLOSED);
    hide Key, Of, Observations, Conclude;
  }

  // ---------------------------------------------------------------- staleness

  /** Something normal and nothing abnormal has been seen since the round before saw the abnormal state. */
  predicate Contradicts(prior: Option<Assertion>, obs: seq<Observation>, now: Moment, state: string) {
    prior.Some? && prior.value.lastSeen != 0 && state == "abnormal"
    && AnySince(prior, obs, now, ShowsNormal) && !AnySince(prior, obs, now, ShowsAbnormal)
  }

  /** What is not contradicted is stale when it was last seen more than ten minutes ago, and only an abnormal signal makes it active again. */
  lemma StaleIff(prior: Option<Assertion>, obs: seq<Observation>, now: Moment)
    requires Conclude(prior, obs, now).Some?
    ensures var a := Conclude(prior, obs, now).value;
            a.status == Stale
            <==> !Contradicts(prior, obs, now, a.state)
                 && if AnyAbnormal(obs) || prior.None? || prior.value.status == Active then a.lastSeen < now - STALE_AFTER
                    else prior.value.status == Stale
  {
    FoldFlags(prior, obs, now);
  }
}
