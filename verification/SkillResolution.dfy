/**
 Resolving the Brain's Skill requests for one turn (agent/brain_skills.go:285-384): mandatory
 phase Skills first, then the requests in order, each with everything it depends on, as long
 as the budget of optional Skills allows.
 */
module SkillResolution {
  import opened Domain
  import opened Sequences
  import opened SkillGraph

  datatype Request = Request(skillId: string, reason: string, trigger: string, byBrain: bool, turn: string)

  datatype Rejection = UnknownSkill | InvalidSelectionReason | IncompatiblePhase | OptionalBudgetExhausted

  datatype Selection = Selection(selected: map<string, Request>, optional: nat, rejected: seq<(Request, Rejection)>)

  /** What a resolution offers the turn: the active Skills in order and the audit of what was turned down. */
  datatype Bundle = Bundle(order: seq<string>, selected: map<string, Request>, rejected: seq<(Request, Rejection)>)

  predicate Blank(s: string) {
    forall k :: 0 <= k < |s| ==> s[k] in " \t\n\r"
  }

  predicate SupportsPhase(s: Skill, phase: Phase) {
    phase in s.phases
  }

  // ---------------------------------------------------------------- the selection as a fold over the requests

  function Mandatory(c: Catalog, phase: Phase): set<string> {
    set id | id in c && c[id].mandatory && SupportsPhase(c[id], phase)
  }

  function MandatoryRequest(id: string, turn: string): Request {
    Request(id, "mandatory phase procedure", "PHASE_ENTRY", false, turn)
  }

  function MandatoryRequests(ids: set<string>, turn: string): map<string, Request> {
    map id | id in ids :: MandatoryRequest(id, turn)
  }

  function Initially(c: Catalog, phase: Phase, turn: string): Selection {
    Selection(MandatoryRequests(Mandatory(c, phase), turn), 0, [])
  }

  /** Everything a Skill needs, itself included. */
  ghost function Closure(c: Catalog, id: string): set<string> {
    set x | x in c && Reaches(Declared(c), id, x)
  }

  function OptionalAmong(c: Catalog, ids: set<string>): set<string> {
    set id | id in ids && id in c && !c[id].mandatory
  }

  function Stamped(request: Request, turn: string): Request {
    if Blank(request.turn) then request.(turn := turn) else request
  }

  /** A dependency is selected on behalf of the request that needs it. */
  function SelectedFor(request: Request, id: string): Request {
    if id == request.skillId then request
    else Request(id, "dependency of " + request.skillId, request.trigger, false, request.turn)
  }

  /** Why a request is turned down, if it is. */
  ghost function Verdict(c: Catalog, phase: Phase, max: int, s: Selection, request: Request): Option<Rejection> {
    if request.skillId !in c then Some(UnknownSkill)
    else if request.reason == "" || request.trigger == "" || !request.byBrain then Some(InvalidSelectionReason)
    else if !SupportsPhase(c[request.skillId], phase) then Some(IncompatiblePhase)
    else if max >= 0 && s.optional + |OptionalAmong(c, Closure(c, request.skillId) - s.selected.Keys)| > max
    then Some(OptionalBudgetExhausted)
    else None
  }

  ghost function Take(c: Catalog, phase: Phase, max: int, turn: string, s: Selection, request: Request): Selection {
    var request := Stamped(request, turn);
    var rejection := Verdict(c, phase, max, s, request);
    if rejection.Some? then s.(rejected := s.rejected + [(request, rejection.value)])
    else
      var added := Closure(c, request.skillId) - s.selected.Keys;
      s.(selected := s.selected + map id | id in added :: SelectedFor(request, id),
         optional := s.optional + |OptionalAmong(c, added)|)
  }

  ghost function TakeAll(c: Catalog, phase: Phase, max: int, turn: string, requests: seq<Request>): Selection {
    if requests == [] then Initially(c, phase, turn)
    else Take(c, phase, max, turn, TakeAll(c, phase, max, turn, requests[..|requests| - 1]), requests[|requests| - 1])
  }

  /** Request k is accepted when its turn comes. */
  ghost predicate Accepted(c: Catalog, phase: Phase, max: int, turn: string, requests: seq<Request>, k: nat)
    requires k < |requests|
  {
    Verdict(c, phase, max, TakeAll(c, phase, max, turn, requests[..k]), Stamped(requests[k], turn)).None?
  }

  ghost predicate Conflicting(c: Catalog, active: set<string>) {
    exists id, other :: id in active && id in c && other in c[id].conflicts && other in active
  }

  // ---------------------------------------------------------------- the loops

  function Added(c: Catalog, ids: seq<string>, selected: map<string, Request>): set<string> {
    OptionalAmong(c, Elements(ids) - selected.Keys)
  }

  lemma AddedStep(c: Catalog, ids: seq<string>, id: string, selected: map<string, Request>)
    requires id !in ids && id in c
    ensures |Added(c, ids + [id], selected)| == |Added(c, ids, selected)| + if id !in selected && !c[id].mandatory then 1 else 0
  {
    assert Elements(ids + [id]) == Elements(ids) + {id};
    if id !in selected && !c[id].mandatory {
      assert Added(c, ids + [id], selected) == Added(c, ids, selected) + {id};
      assert id !in Added(c, ids, selected);
    } else {
      assert Added(c, ids + [id], selected) == Added(c, ids, selected);
    }
  }

  /** Count the optional Skills a request would add. */
  method CountOptional(c: Catalog, needed: seq<string>, selected: map<string, Request>) returns (count: nat)
    requires Distinct(needed) && forall k :: 0 <= k < |needed| ==> needed[k] in c
    ensures count == |Added(c, needed, selected)|
  {
    count := 0;
    var k := 0;
    assert Added(c, [], selected) == {};
    while k < |needed|
      invariant 0 <= k <= |needed|
      invariant count == |Added(c, needed[..k], selected)|
    {
      var id := needed[k];
      assert needed[..k + 1] == needed[..k] + [id];
      AddedStep(c, needed[..k], id, selected);
      if id !in selected && !c[id].mandatory {
        count := count + 1;
      }
      k := k + 1;
    }
    assert needed[..k] == needed;
  }

  ghost predicate Grown(request: Request, ids: set<string>, selected: map<string, Request>, grown: map<string, Request>) {
    && grown.Keys == selected.Keys + ids
    && forall id :: id in grown ==> grown[id] == if id in selected then selected[id] else SelectedFor(request, id)
  }

  method AddNeeded(request: Request, needed: seq<string>, selected: map<string, Request>) returns (grown: map<string, Request>)
    ensures grown == selected + map id | id in Elements(needed) - selected.Keys :: SelectedFor(request, id)
  {
    grown := selected;
    var k := 0;
    while k < |needed|
      invariant 0 <= k <= |needed|
      invariant Grown(request, Elements(needed[..k]), selected, grown)
    {
      var id := needed[k];
      assert needed[..k + 1] == needed[..k] + [id];
      assert Elements(needed[..k + 1]) == Elements(needed[..k]) + {id};
      if id !in grown {
        grown := grown[id := SelectedFor(request, id)];
      }
      k := k + 1;
    }
    assert needed[..k] == needed;
    GrownIs(request, Elements(needed), selected, grown);
  }

  lemma GrownIs(request: Request, ids: set<string>, selected: map<string, Request>, grown: map<string, Request>)
    requires Grown(request, ids, selected, grown)
    ensures grown == selected + map id | id in ids - selected.Keys :: SelectedFor(request, id)
  {
  }

  method TakeRequest(c: Catalog, phase: Phase, max: int, turn: string, s: Selection, request: Request) returns (r: Selection)
    requires ValidCatalog(c)
    ensures r == Take(c, phase, max, turn, s, request)
  {
    var stamped := Stamped(request, turn);
    var id := stamped.skillId;
    if id !in c {
      return s.(rejected := s.rejected + [(stamped, UnknownSkill)]);
    }
    if stamped.reason == "" || stamped.trigger == "" || !stamped.byBrain {
      return s.(rejected := s.rejected + [(stamped, InvalidSelectionReason)]);
    }
    if !SupportsPhase(c[id], phase) {
      return s.(rejected := s.rejected + [(stamped, IncompatiblePhase)]);
    }
    var needed := DependencyClosure(c, id);
    ClosureElements(c, id, needed);
    var count := CountOptional(c, needed, s.selected);
    if max >= 0 && s.optional + count > max {
      return s.(rejected := s.rejected + [(stamped, OptionalBudgetExhausted)]);
    }
    var grown := AddNeeded(stamped, needed, s.selected);
    r := s.(selected := grown, optional := s.optional + count);
  }

  lemma ClosureElements(c: Catalog, id: string, order: seq<string>)
    requires id in c && forall x :: x in order <==> Reaches(Declared(c), id, x)
    ensures Elements(order) == Closure(c, id)
    ensures forall k :: 0 <= k < |order| ==> order[k] in c
  {
    forall x | x in order
      ensures x in c
    {
      var p :| Path(Declared(c), p) && p[0] == id && p[|p| - 1] == x;
    }
  }

  lemma OneMore(ids: set<string>, id: string, turn: string)
    ensures MandatoryRequests(ids + {id}, turn) == MandatoryRequests(ids, turn)[id := MandatoryRequest(id, turn)]
  {
  }

  method SelectMandatory(c: Catalog, phase: Phase, turn: string) returns (selected: map<string, Request>)
    ensures selected == Initially(c, phase, turn).selected
  {
    selected := map[];
    var names := Iterate(c.Keys);
    ghost var chosen: set<string> := {};
    assert MandatoryRequests(chosen, turn) == map[];
    var k := 0;
    while k < |names|
      invariant 0 <= k <= |names| && selected == MandatoryRequests(chosen, turn)
      invariant forall id :: id in chosen <==> id in Mandatory(c, phase) && id in names[..k]
    {
      assert names[..k + 1] == names[..k] + [names[k]];
      assert names[k] in Elements(names);
      if c[names[k]].mandatory && SupportsPhase(c[names[k]], phase) {
        OneMore(chosen, names[k], turn);
        chosen := chosen + {names[k]};
        selected := selected[names[k] := MandatoryRequest(names[k], turn)];
      }
      k := k + 1;
    }
    assert names[..k] == names;
    assert forall id :: id in c ==> id in Elements(names);
    assert chosen == Mandatory(c, phase);
  }

  method FindConflict(c: Catalog, active: set<string>) returns (found: bool)
    requires active <= c.Keys
    ensures found <==> Conflicting(c, active)
  {
    var names := Iterate(active);
    var k := 0;
    while k < |names|
      invariant 0 <= k <= |names|
      invariant forall i, other :: 0 <= i < k && other in c[names[i]].conflicts ==> other !in active
    {
      assert names[k] in Elements(names);
      var conflicts := c[names[k]].conflicts;
      var j := 0;
      while j < |conflicts|
        invariant 0 <= j <= |conflicts|
        invariant forall i :: 0 <= i < j ==> conflicts[i] !in active
      {
        if conflicts[j] in active {
          return true;
        }
        j := j + 1;
      }
      k := k + 1;
    }
    assert forall id :: id in active ==> id in Elements(names);
    found := false;
  }

  /** None stands for the error return: a blank turn, nothing mandatory to offer, or a conflict. */
  method Resolve(c: Catalog, phase: Phase, requests: seq<Request>, max: int, turn: string) returns (bundle: Option<Bundle>)
    requires ValidCatalog(c)
    ensures var s := TakeAll(c, phase, max, turn, requests);
            && (bundle.Some? <==> !Blank(turn) && s.selected != map[] && !Conflicting(c, s.selected.Keys))
            && (bundle.Some? ==> bundle.value.selected == s.selected && bundle.value.rejected == s.rejected
                                 && s.selected.Keys <= c.Keys && Ordering(c, s.selected.Keys, bundle.value.order))
  {
    if Blank(turn) {
      return None;
    }
    var selected := SelectMandatory(c, phase, turn);
    var s := Selection(selected, 0, []);
    var k := 0;
    while k < |requests|
      invariant 0 <= k <= |requests|
      invariant s == TakeAll(c, phase, max, turn, requests[..k])
    {
      assert requests[..k + 1][..k] == requests[..k];
      s := TakeRequest(c, phase, max, turn, s, requests[k]);
      k := k + 1;
    }
    assert requests[..k] == requests;
    SelectionFacts(c, phase, max, turn, requests);
    if s.selected == map[] {
      return None;
    }
    var conflict := FindConflict(c, s.selected.Keys);
    if conflict {
      return None;
    }
    var names := Iterate(s.selected.Keys);
    var ordered := OrderSelection(c, s.selected.Keys, names);
    TopologicalOrderIff(c, s.selected.Keys, names);
    bundle := Some(Bundle(ordered.value, s.selected, s.rejected));
  }

  // ---------------------------------------------------------------- what a resolution guarantees

  /** Every phase Skill is in; the optional Skills are exactly the counted ones, and within budget. */
  ghost predicate Budgeted(c: Catalog, phase: Phase, max: int, s: Selection) {
    && s.selected.Keys <= c.Keys && Mandatory(c, phase) <= s.selected.Keys
    && s.optional == |OptionalAmong(c, s.selected.Keys)| && (max >= 0 ==> s.optional <= max)
  }

  lemma TakeKeepsBudget(c: Catalog, phase: Phase, max: int, turn: string, s: Selection, request: Request)
    requires Budgeted(c, phase, max, s)
    ensures Budgeted(c, phase, max, Take(c, phase, max, turn, s, request))
    ensures s.selected.Keys <= Take(c, phase, max, turn, s, request).selected.Keys
  {
    var stamped := Stamped(request, turn);
    var t := Take(c, phase, max, turn, s, request);
    if Verdict(c, phase, max, s, stamped).None? {
      var added := Closure(c, stamped.skillId) - s.selected.Keys;
      assert t.selected.Keys == s.selected.Keys + added;
      assert OptionalAmong(c, t.selected.Keys) == OptionalAmong(c, s.selected.Keys) + OptionalAmong(c, added);
      assert OptionalAmong(c, s.selected.Keys) !! OptionalAmong(c, added);
    }
  }

  lemma {:induction false} SelectionFacts(c: Catalog, phase: Phase, max: int, turn: string, requests: seq<Request>)
    ensures Budgeted(c, phase, max, TakeAll(c, phase, max, turn, requests))
    decreases |requests|
  {
    if requests == [] {
      assert Initially(c, phase, turn).selected.Keys == Mandatory(c, phase);
      assert OptionalAmong(c, Mandatory(c, phase)) == {};
    } else {
      var n := |requests| - 1;
      SelectionFacts(c, phase, max, turn, requests[..n]);
      TakeKeepsBudget(c, phase, max, turn, TakeAll(c, phase, max, turn, requests[..n]), requests[n]);
    }
  }

  lemma TakeAddsClosure(c: Catalog, phase: Phase, max: int, turn: string, s: Selection, request: Request)
    requires Verdict(c, phase, max, s, Stamped(request, turn)).None?
    ensures Closure(c, request.skillId) <= Take(c, phase, max, turn, s, request).selected.Keys
  {
  }

  /** An accepted request has everything it depends on active, whatever was requested after it. */
  lemma {:induction false} AcceptedRequestIsClosed(c: Catalog, phase: Phase, max: int, turn: string, requests: seq<Request>, k: nat)
    requires k < |requests| && Accepted(c, phase, max, turn, requests, k)
    ensures Closure(c, requests[k].skillId) <= TakeAll(c, phase, max, turn, requests).selected.Keys
    decreases |requests|
  {
    hide Budgeted, Verdict, Take;
    var n := |requests| - 1;
    SelectionFacts(c, phase, max, turn, requests[..n]);
    TakeKeepsBudget(c, phase, max, turn, TakeAll(c, phase, max, turn, requests[..n]), requests[n]);
    if k < n {
      assert requests[..n][..k] == requests[..k];
      AcceptedRequestIsClosed(c, phase, max, turn, requests[..n], k);
    } else {
      TakeAddsClosure(c, phase, max, turn, TakeAll(c, phase, max, turn, requests[..n]), requests[n]);
    }
  }

  /** Nothing is active but the phase's own Skills and what accepted requests need. */
  lemma {:induction false} NothingElseIsActive(c: Catalog, phase: Phase, max: int, turn: string, requests: seq<Request>, id: string)
    returns (k: int)
    requires id in TakeAll(c, phase, max, turn, requests).selected && id !in Mandatory(c, phase)
    ensures 0 <= k < |requests| && Accepted(c, phase, max, turn, requests, k) && id in Closure(c, requests[k].skillId)
    decreases |requests|
  {
    var n := |requests| - 1;
    var before := TakeAll(c, phase, max, turn, requests[..n]);
    if id in before.selected {
      k := NothingElseIsActive(c, phase, max, turn, requests[..n], id);
      assert requests[..n][..k] == requests[..k];
    } else {
      k := n;
    }
  }

  /** The requests that were accepted. */
  ghost function AcceptedOnly(c: Catalog, phase: Phase, max: int, turn: string, requests: seq<Request>): seq<Request> {
    if requests == [] then []
    else
      var n := |requests| - 1;
      AcceptedOnly(c, phase, max, turn, requests[..n])
      + if Accepted(c, phase, max, turn, requests, n) then [requests[n]] else []
  }

  lemma TakeIgnoresAudit(c: Catalog, phase: Phase, max: int, turn: string, s: Selection, request: Request)
    ensures Verdict(c, phase, max, s.(rejected := []), Stamped(request, turn)) == Verdict(c, phase, max, s, Stamped(request, turn))
    ensures Verdict(c, phase, max, s, Stamped(request, turn)).None? ==>
              Take(c, phase, max, turn, s.(rejected := []), request) == Take(c, phase, max, turn, s, request).(rejected := [])
    ensures Verdict(c, phase, max, s, Stamped(request, turn)).Some? ==>
              Take(c, phase, max, turn, s, request).(rejected := []) == s.(rejected := [])
  {
  }

  /** Leaving out the rejected requests changes nothing but the audit of rejections. */
  lemma {:induction false} RejectedRequestsLeaveNoTrace(c: Catalog, phase: Phase, max: int, turn: string, requests: seq<Request>)
    ensures TakeAll(c, phase, max, turn, AcceptedOnly(c, phase, max, turn, requests))
         == TakeAll(c, phase, max, turn, requests).(rejected := [])
    decreases |requests|
  {
    if requests != [] {
      var n := |requests| - 1;
      var kept := AcceptedOnly(c, phase, max, turn, requests[..n]);
      RejectedRequestsLeaveNoTrace(c, phase, max, turn, requests[..n]);
      TakeIgnoresAudit(c, phase, max, turn, TakeAll(c, phase, max, turn, requests[..n]), requests[n]);
      if Accepted(c, phase, max, turn, requests, n) {
        assert (kept + [requests[n]])[..|kept|] == kept;
      } else {
        assert kept + [] == kept;
      }
    }
  }

  lemma NothingNewIsAccepted(c: Catalog, phase: Phase, max: int, earlier: Selection, s: Selection, request: Request)
    requires Verdict(c, phase, max, earlier, request).None? && (max >= 0 ==> s.optional <= max)
    requires OptionalAmong(c, Closure(c, request.skillId) - s.selected.Keys) == {}
    ensures Verdict(c, phase, max, s, request).None?
  {
  }

  lemma AddNothing(request: Request, selected: map<string, Request>, added: set<string>)
    requires added == {}
    ensures selected + (map id | id in added :: SelectedFor(request, id)) == selected
  {
  }

  lemma NothingNewIsFree(c: Catalog, phase: Phase, max: int, turn: string, earlier: Selection, s: Selection, request: Request)
    requires Budgeted(c, phase, max, s) && Verdict(c, phase, max, earlier, Stamped(request, turn)).None?
    requires Closure(c, request.skillId) <= s.selected.Keys
    ensures Take(c, phase, max, turn, s, request) == s
  {
    var stamped := Stamped(request, turn);
    var added := Closure(c, stamped.skillId) - s.selected.Keys;
    assert added == {};
    assert OptionalAmong(c, added) == {};
    NothingNewIsAccepted(c, phase, max, earlier, s, stamped);
    AddNothing(stamped, s.selected, added);
  }

  /** Asking again for something active costs no budget and is never refused for it. */
  lemma RepeatedRequestIsFree(c: Catalog, phase: Phase, max: int, turn: string, requests: seq<Request>, k: nat)
    requires k < |requests| && Accepted(c, phase, max, turn, requests, k)
    ensures Take(c, phase, max, turn, TakeAll(c, phase, max, turn, requests), requests[k])
         == TakeAll(c, phase, max, turn, requests)
  {
    SelectionFacts(c, phase, max, turn, requests);
    AcceptedRequestIsClosed(c, phase, max, turn, requests, k);
    NothingNewIsFree(c, phase, max, turn, TakeAll(c, phase, max, turn, requests[..k]), TakeAll(c, phase, max, turn, requests), requests[k]);
  }

  /** Everything an active Skill requires is active too. */
  ghost predicate RequirementsActive(c: Catalog, active: set<string>) {
    forall id, needed :: id in active && id in c && needed in c[id].requires_ ==> needed in active
  }

  lemma ClosureIsClosed(c: Catalog, root: string, id: string, needed: string)
    requires ReferencesKnown(c) && root in c && id in Closure(c, root) && needed in c[id].requires_
    ensures needed in Closure(c, root)
  {
    ReachesFurther(Declared(c), root, id, needed);
  }

  ghost predicate BundleClosed(c: Catalog, phase: Phase, max: int, turn: string, requests: seq<Request>) {
    RequirementsActive(c, TakeAll(c, phase, max, turn, requests).selected.Keys)
  }

  /**
   The bundles of a phase are closed under requirements, for any requests and any budget, if
   and only if its mandatory Skills are.
   */
  lemma ClosedIffMandatoryClosed(c: Catalog, phase: Phase, max: int, turn: string)
    requires ReferencesKnown(c)
    ensures (forall requests :: BundleClosed(c, phase, max, turn, requests)) <==> RequirementsActive(c, Mandatory(c, phase))
  {
    assert TakeAll(c, phase, max, turn, []).selected.Keys == Mandatory(c, phase);
    assert BundleClosed(c, phase, max, turn, []) == RequirementsActive(c, Mandatory(c, phase));
    if RequirementsActive(c, Mandatory(c, phase)) {
      forall requests
        ensures BundleClosed(c, phase, max, turn, requests)
      {
        RequirementsStayActive(c, phase, max, turn, requests);
      }
    }
  }

  lemma RequirementsStayActive(c: Catalog, phase: Phase, max: int, turn: string, requests: seq<Request>)
    requires ReferencesKnown(c) && RequirementsActive(c, Mandatory(c, phase))
    ensures BundleClosed(c, phase, max, turn, requests)
  {
    hide Take, Verdict, ReferencesKnown;
    SelectionFacts(c, phase, max, turn, requests);
    var active := TakeAll(c, phase, max, turn, requests).selected.Keys;
    forall id, needed | id in active && id in c && needed in c[id].requires_
      ensures needed in active
    {
      if id !in Mandatory(c, phase) {
        var k := NothingElseIsActive(c, phase, max, turn, requests, id);
        AcceptedIsKnown(c, phase, max, turn, requests, k);
        AcceptedRequestIsClosed(c, phase, max, turn, requests, k);
        ClosureIsClosed(c, requests[k].skillId, id, needed);
      }
    }
  }

  lemma AcceptedIsKnown(c: Catalog, phase: Phase, max: int, turn: string, requests: seq<Request>, k: nat)
    requires k < |requests| && Accepted(c, phase, max, turn, requests, k)
    ensures requests[k].skillId in c
  {
    hide TakeAll;
  }

  lemma TwoSkillsAreAcyclic(phase: Phase)
    ensures ValidCatalog(map["brain-kernel" := Skill([], [], false, []), "core" := Skill(["brain-kernel"], [], true, [phase])])
  {
    var c := map["brain-kernel" := Skill([], [], false, []), "core" := Skill(["brain-kernel"], [], true, [phase])];
    var order := ["brain-kernel", "core"];
    assert order[0] == "brain-kernel" && order[1] == "core";
    assert Elements(order) == c.Keys;
    OrderExcludesCycles(Declared(c), order);
  }

  /** A mandatory Skill is activated without what it requires: only requests are closed under dependencies. */
  lemma MandatoryIsNotClosed(phase: Phase, turn: string, max: int)
    ensures var c := map["brain-kernel" := Skill([], [], false, []), "core" := Skill(["brain-kernel"], [], true, [phase])];
            && ValidCatalog(c)
            && TakeAll(c, phase, max, turn, []).selected.Keys == {"core"}
            && "brain-kernel" in Closure(c, "core")
  {
    var c := map["brain-kernel" := Skill([], [], false, []), "core" := Skill(["brain-kernel"], [], true, [phase])];
    assert Path(Declared(c), ["core", "brain-kernel"]);
    TwoSkillsAreAcyclic(phase);
  }

  // ---------------------------------------------------------------- the budget

  /**
   A known request of the Brain for the right phase is turned down exactly when the Skills that
   would then be active hold more optional ones than the budget; a negative budget is none.
   */
  lemma BudgetRejectionIff(c: Catalog, phase: Phase, max: int, s: Selection, request: Request)
    requires Budgeted(c, phase, max, s)
    ensures Verdict(c, phase, max, s, request) == Some(OptionalBudgetExhausted)
            <==> && request.skillId in c && request.reason != "" && request.trigger != "" && request.byBrain
                 && phase in c[request.skillId].phases
                 && 0 <= max < |OptionalAmong(c, s.selected.Keys + Closure(c, request.skillId))|
  {
    var added := Closure(c, request.skillId) - s.selected.Keys;
    assert OptionalAmong(c, s.selected.Keys + Closure(c, request.skillId))
        == OptionalAmong(c, s.selected.Keys) + OptionalAmong(c, added);
    assert OptionalAmong(c, s.selected.Keys) !! OptionalAmong(c, added);
  }
}
