/**
 The window of past messages shown to the model (agent/brain_graph.go:592-621, 702-795):
 cut the history into complete units, keep the longest suffix of units that fits.

 A string stands for its bytes. Only that the projection of a bare tool request is not blank
 matters below, so its JSON text is abbreviated.
 */
module MessageHistory {
  import opened Domain
  import opened Sequences

  datatype Role = SystemRole | UserRole | AssistantRole | ToolRole

  datatype Call = Call(id: string, name: string, arguments: string)

  datatype Message = Message(role: Role, content: string, reasoning: string, calls: seq<Call>, toolCallId: string)

  /** A request with all its results, or a single message. */
  type Unit = seq<Message>

  const EMPTY_RESULT := "{" + "\"class\":\"ERROR\",\"status\":\"ERROR\",\"summary\":\"tool returned an empty result payload\"}"

  const TRUNCATED := "\n[tool result projection truncated]"

  const MAX_CONTENT := 24576

  predicate Blank(s: string) {
    forall k :: 0 <= k < |s| ==> s[k] in " \t\n\r"
  }

  function Projection(calls: seq<Call>): string {
    "{" + "\"type\":\"assistant_tool_calls\"" + Summaries(calls) + "}"
  }

  function Summaries(calls: seq<Call>): string {
    if calls == [] then "" else Summaries(calls[..|calls| - 1]) + "," + calls[|calls| - 1].id + ":" + calls[|calls| - 1].name
  }

  // ---------------------------------------------------------------- cutting the history into units

  predicate EmptyAnswer(m: Message) {
    m.role == AssistantRole && Blank(m.content) && m.calls == []
  }

  function EnsureContent(m: Message): Message {
    if m.role == AssistantRole && Blank(m.content) && m.calls != [] then m.(content := Projection(m.calls)) else m
  }

  function CleanResult(m: Message): Message {
    m.(reasoning := "", content := if Blank(m.content) then EMPTY_RESULT else m.content)
  }

  predicate Requests(m: Message, id: string) {
    exists k :: 0 <= k < |m.calls| && m.calls[k].id == id
  }

  predicate Answers(request: Message, value: Option<Message>) {
    value.Some? && value.value.role == ToolRole && Requests(request, value.value.toolCallId)
  }

  /** How many messages from the front answer the request, without a gap. */
  function Run(request: Message, values: seq<Option<Message>>): (n: nat)
    ensures n <= |values|
    ensures forall k :: 0 <= k < n ==> Answers(request, values[k])
    ensures n < |values| ==> !Answers(request, values[n])
  {
    if values == [] || !Answers(request, values[0]) then 0 else 1 + Run(request, values[1..])
  }

  function Results(values: seq<Option<Message>>): (results: seq<Message>)
    requires forall k :: 0 <= k < |values| ==> values[k].Some?
    ensures |results| == |values|
  {
    seq(|values|, k requires 0 <= k < |values| => CleanResult(values[k].value))
  }

  function Units(values: seq<Option<Message>>): seq<Unit> {
    if values == [] then []
    else if values[0].None? then Units(values[1..])
    else
      var m := EnsureContent(values[0].value.(reasoning := ""));
      if EmptyAnswer(values[0].value) || m.role == ToolRole then Units(values[1..])
      else if m.role == AssistantRole && m.calls != [] then
        var n := Run(m, values[1..]);
        var rest := Units(values[1 + n..]);
        if n == |m.calls| then [[m] + Results(values[1..1 + n])] + rest else rest
      else [[m]] + Units(values[1..])
  }

  lemma ResultsStep(values: seq<Option<Message>>, m: Message)
    requires forall k :: 0 <= k < |values| ==> values[k].Some?
    ensures Results(values + [Some(m)]) == Results(values) + [CleanResult(m)]
  {
  }

  method CollectResults(request: Message, values: seq<Option<Message>>, start: nat) returns (unit: Unit, cursor: nat)
    requires start <= |values|
    ensures cursor == start + Run(request, values[start..]) <= |values|
    ensures unit == [request] + Results(values[start..cursor])
  {
    hide CleanResult;
    unit, cursor := [request], start;
    while cursor < |values| && Answers(request, values[cursor])
      invariant start <= cursor <= |values|
      invariant Run(request, values[start..]) == cursor - start + Run(request, values[cursor..])
      invariant forall k :: start <= k < cursor ==> values[k].Some?
      invariant unit == [request] + Results(values[start..cursor])
    {
      assert values[cursor..][1..] == values[cursor + 1..];
      assert values[start..cursor + 1] == values[start..cursor] + [values[cursor]];
      ResultsStep(values[start..cursor], values[cursor].value);
      unit := unit + [CleanResult(values[cursor].value)];
      cursor := cursor + 1;
    }
  }

  lemma EnsureKeepsKind(m: Message)
    ensures EnsureContent(m.(reasoning := "")).role == m.role && EnsureContent(m.(reasoning := "")).calls == m.calls
  {
  }

  /** The unit that starts at `index`, if one does, and where the reading goes on. */
  method ReadUnit(values: seq<Option<Message>>, index: nat) returns (unit: Option<Unit>, next: nat)
    requires index < |values|
    ensures index < next <= |values|
    ensures Units(values[index..]) == (if unit.Some? then [unit.value] else []) + Units(values[next..])
  {
    hide Results, EnsureContent, EmptyAnswer;
    ghost var rest := values[index..];
    assert rest[1..] == values[index + 1..];
    if values[index].Some? {
      EnsureKeepsKind(values[index].value);
    }
    if values[index].None? || EmptyAnswer(values[index].value) || values[index].value.role == ToolRole {
      return None, index + 1;
    }
    var m := EnsureContent(values[index].value.(reasoning := ""));
    if m.role == AssistantRole && |m.calls| > 0 {
      var found, cursor := CollectResults(m, values, index + 1);
      assert values[index + 1..cursor] == rest[1..1 + Run(m, rest[1..])];
      assert values[cursor..] == rest[1 + Run(m, rest[1..])..];
      return if |found| - 1 == |m.calls| then Some(found) else None, cursor;
    }
    return Some([m]), index + 1;
  }

  method CompleteUnits(values: seq<Option<Message>>) returns (units: seq<Unit>)
    ensures units == Units(values)
  {
    hide Units;
    units := [];
    var index := 0;
    assert values[0..] == values;
    while index < |values|
      invariant 0 <= index <= |values|
      invariant Units(values) == units + Units(values[index..])
    {
      var unit, next := ReadUnit(values, index);
      if unit.Some? {
        units := units + [unit.value];
      }
      index := next;
    }
    assert values[index..] == [];
    NoUnits();
  }

  lemma NoUnits()
    ensures Units([]) == []
  {
  }

  // ---------------------------------------------------------------- fitting the units into the window

  function Truncated(m: Message): Message {
    if |m.content| > MAX_CONTENT then m.(content := m.content[..MAX_CONTENT] + TRUNCATED) else m
  }

  function CallsSize(calls: seq<Call>): nat {
    if calls == [] then 0
    else CallsSize(calls[..|calls| - 1]) + |calls[|calls| - 1].id| + |calls[|calls| - 1].name| + |calls[|calls| - 1].arguments|
  }

  /** The size of a message as it is shown, that is, after truncation. */
  function Size(m: Message): nat {
    |Truncated(m).content| + CallsSize(m.calls)
  }

  function UnitSize(unit: Unit): nat {
    if unit == [] then 0 else UnitSize(unit[..|unit| - 1]) + Size(unit[|unit| - 1])
  }

  function Items(units: seq<Unit>): nat {
    if units == [] then 0 else |units[0]| + Items(units[1..])
  }

  function Bytes(units: seq<Unit>): nat {
    if units == [] then 0 else UnitSize(units[0]) + Bytes(units[1..])
  }

  function Shown(unit: Unit): Unit {
    seq(|unit|, k requires 0 <= k < |unit| => Truncated(unit[k]))
  }

  function Flatten(units: seq<Unit>): seq<Message> {
    if units == [] then [] else Shown(units[0]) + Flatten(units[1..])
  }

  predicate Fits(units: seq<Unit>, maxItems: int, maxBytes: int) {
    Items(units) <= maxItems && Bytes(units) <= maxBytes
  }

  /** `k` is where the longest suffix of complete units within both budgets starts. */
  predicate LongestFit(units: seq<Unit>, maxItems: int, maxBytes: int, k: nat) {
    k <= |units| && Fits(units[k..], maxItems, maxBytes)
    && forall j :: 0 <= j < k ==> !Fits(units[j..], maxItems, maxBytes)
  }

  lemma FitStart(units: seq<Unit>, k: nat)
    requires k < |units|
    ensures Items(units[k..]) == |units[k]| + Items(units[k + 1..]) && Bytes(units[k..]) == UnitSize(units[k]) + Bytes(units[k + 1..])
  {
    assert units[k..][1..] == units[k + 1..];
  }

  /** Whatever does not fit does not fit with more in front of it. */
  lemma {:induction false} LongerIsBigger(units: seq<Unit>, j: nat, k: nat)
    requires j <= k <= |units|
    ensures Items(units[k..]) <= Items(units[j..]) && Bytes(units[k..]) <= Bytes(units[j..])
    decreases k - j
  {
    if j < k {
      FitStart(units, j);
      LongerIsBigger(units, j + 1, k);
    }
  }

  method MeasureUnit(unit: Unit) returns (size: nat)
    ensures size == UnitSize(unit)
  {
    size := 0;
    var k := 0;
    while k < |unit|
      invariant 0 <= k <= |unit| && size == UnitSize(unit[..k])
    {
      assert unit[..k + 1][..k] == unit[..k];
      size := size + Size(unit[k]);
      k := k + 1;
    }
    assert unit[..k] == unit;
  }

  method FindStart(units: seq<Unit>, maxItems: int, maxBytes: int) returns (start: nat)
    requires maxItems > 0 && maxBytes > 0
    ensures LongestFit(units, maxItems, maxBytes, start)
  {
    var used, items := 0, 0;
    start := |units|;
    while start > 0
      invariant 0 <= start <= |units| && items == Items(units[start..]) <= maxItems && used == Bytes(units[start..]) <= maxBytes
      decreases start
    {
      FitStart(units, start - 1);
      var unit := units[start - 1];
      var size := MeasureUnit(unit);
      if items + |unit| > maxItems || used + size > maxBytes {
        forall j | 0 <= j < start
          ensures !Fits(units[j..], maxItems, maxBytes)
        {
          LongerIsBigger(units, j, start - 1);
        }
        return;
      }
      used, items, start := used + size, items + |unit|, start - 1;
    }
  }

  method Concatenate(units: seq<Unit>) returns (selected: seq<Message>)
    ensures selected == Flatten(units)
  {
    selected := [];
    var index := 0;
    while index < |units|
      invariant 0 <= index <= |units|
      invariant Flatten(units) == selected + Flatten(units[index..])
    {
      assert units[index..][1..] == units[index + 1..];
      selected := selected + Shown(units[index]);
      index := index + 1;
    }
  }

  method BoundedHistory(values: seq<Option<Message>>, maxItems: int, maxBytes: int) returns (selected: seq<Message>)
    ensures selected == Bounded(values, maxItems, maxBytes)
  {
    if maxItems <= 0 || maxBytes <= 0 {
      return [];
    }
    var units := CompleteUnits(values);
    var start := FindStart(units, maxItems, maxBytes);
    StartIsLongestFit(units, maxItems, maxBytes, |units|);
    LongestFitIsUnique(units, maxItems, maxBytes, start, Start(units, maxItems, maxBytes, |units|));
    selected := Concatenate(units[start..]);
  }

  lemma LongestFitIsUnique(units: seq<Unit>, maxItems: int, maxBytes: int, j: nat, k: nat)
    requires LongestFit(units, maxItems, maxBytes, j) && LongestFit(units, maxItems, maxBytes, k)
    ensures j == k
  {
  }

  /** The window as a function: the units from the start that `BoundedHistory` finds. */
  function Start(units: seq<Unit>, maxItems: int, maxBytes: int, k: nat): (start: nat)
    requires k <= |units| && Fits(units[k..], maxItems, maxBytes)
    ensures start <= k && Fits(units[start..], maxItems, maxBytes)
  {
    if k == 0 || !Fits(units[k - 1..], maxItems, maxBytes) then k else Start(units, maxItems, maxBytes, k - 1)
  }

  function Bounded(values: seq<Option<Message>>, maxItems: int, maxBytes: int): seq<Message> {
    if maxItems <= 0 || maxBytes <= 0 then []
    else Flatten(Units(values)[Start(Units(values), maxItems, maxBytes, |Units(values)|)..])
  }

  lemma {:induction false} StartIsLongestFit(units: seq<Unit>, maxItems: int, maxBytes: int, k: nat)
    requires k <= |units| && Fits(units[k..], maxItems, maxBytes)
    ensures LongestFit(units, maxItems, maxBytes, Start(units, maxItems, maxBytes, k))
    decreases k
  {
    if k == 0 {
    } else if !Fits(units[k - 1..], maxItems, maxBytes) {
      forall j | 0 <= j < k
        ensures !Fits(units[j..], maxItems, maxBytes)
      {
        LongerIsBigger(units, j, k - 1);
      }
    } else {
      StartIsLongestFit(units, maxItems, maxBytes, k - 1);
    }
  }

  // ---------------------------------------------------------------- what every unit looks like

  /** Exactly as many results as requests, every result answering one of them; or one message that is no result. */
  predicate CompleteUnit(unit: Unit) {
    && unit != [] && unit[0].role != ToolRole && Settled(unit[0])
    && (if unit[0].role == AssistantRole && unit[0].calls != []
        then |unit| == 1 + |unit[0].calls|
        else |unit| == 1)
    && forall k :: 1 <= k < |unit| ==> unit[k].role == ToolRole && Requests(unit[0], unit[k].toolCallId) && Settled(unit[k])
  }

  /** Reading the message again would not change it. */
  predicate Settled(m: Message) {
    && m.reasoning == "" && (m.role in {AssistantRole, ToolRole} ==> !Blank(m.content))
  }

  lemma ProjectionIsNotBlank(calls: seq<Call>)
    ensures !Blank(Projection(calls))
  {
    assert Projection(calls)[0] == '{';
  }

  lemma CleanResultIsSettled(m: Message)
    requires m.role == ToolRole
    ensures Settled(CleanResult(m)) && CleanResult(m).role == ToolRole && CleanResult(m).toolCallId == m.toolCallId
  {
    assert EMPTY_RESULT[0] == '{';
  }

  lemma RequestUnitIsComplete(m: Message, values: seq<Option<Message>>)
    requires m.role == AssistantRole && m.calls != [] && Settled(m) && Run(m, values) == |m.calls|
    ensures CompleteUnit([m] + Results(values[..Run(m, values)]))
  {
    hide CleanResult;
    var n := Run(m, values);
    var unit := [m] + Results(values[..n]);
    forall k | 1 <= k < |unit|
      ensures unit[k].role == ToolRole && Requests(m, unit[k].toolCallId) && Settled(unit[k])
    {
      assert unit[k] == CleanResult(values[k - 1].value) && Answers(m, values[k - 1]);
      CleanResultIsSettled(values[k - 1].value);
    }
  }

  lemma EnsuredIsSettled(m: Message)
    requires !EmptyAnswer(m) && m.role != ToolRole
    ensures Settled(EnsureContent(m.(reasoning := "")))
  {
    ProjectionIsNotBlank(m.calls);
  }

  /** Every unit is complete, whatever the history holds. */
  lemma {:induction false} UnitsAreComplete(values: seq<Option<Message>>, k: nat)
    requires k < |Units(values)|
    ensures CompleteUnit(Units(values)[k])
    decreases |values|
  {
    hide CompleteUnit, Settled, Results, EnsureContent;
    if values[0].None? || EmptyAnswer(values[0].value) || values[0].value.role == ToolRole {
      SkipFirst(values);
      UnitsAreComplete(values[1..], k);
    } else {
      var m := EnsureContent(values[0].value.(reasoning := ""));
      EnsuredIsSettled(values[0].value);
      EnsureKeepsKind(values[0].value);
      if m.role == AssistantRole && m.calls != [] {
        var n := Run(m, values[1..]);
        assert values[1..1 + n] == values[1..][..n];
        if n != |m.calls| {
          UnitsAreComplete(values[1 + n..], k);
        } else if k > 0 {
          UnitsAreComplete(values[1 + n..], k - 1);
        } else {
          RequestUnitIsComplete(m, values[1..]);
        }
      } else if k > 0 {
        UnitsAreComplete(values[1..], k - 1);
      } else {
        SingleIsComplete(m);
      }
    }
  }

  lemma SkipFirst(values: seq<Option<Message>>)
    requires values != [] && (values[0].None? || EmptyAnswer(values[0].value) || values[0].value.role == ToolRole)
    ensures Units(values) == Units(values[1..])
  {
  }

  lemma SingleIsComplete(m: Message)
    requires Settled(m) && m.role != ToolRole && !(m.role == AssistantRole && m.calls != [])
    ensures CompleteUnit([m])
  {
  }

  // ---------------------------------------------------------------- no orphans, every call answered

  /** Where a shown result comes from: an earlier request of the same unit, with only results in between. */
  ghost predicate HasRequest(shown: seq<Message>, k: nat)
    requires k < |shown|
  {
    exists j :: 0 <= j < k && shown[j].role == AssistantRole && Requests(shown[j], shown[k].toolCallId)
                && forall i :: j < i <= k ==> shown[i].role == ToolRole
  }

  ghost predicate AllComplete(units: seq<Unit>) {
    forall i :: 0 <= i < |units| ==> CompleteUnit(units[i])
  }

  lemma UnitHasRequest(unit: Unit, rest: seq<Message>, k: nat)
    requires CompleteUnit(unit) && 1 <= k < |unit|
    ensures HasRequest(Shown(unit) + rest, k)
  {
    var shown := Shown(unit) + rest;
    assert shown[0].role == unit[0].role && shown[0].calls == unit[0].calls;
    assert shown[k].toolCallId == unit[k].toolCallId;
    assert Requests(unit[0], unit[k].toolCallId) && Requests(shown[0], shown[k].toolCallId);
    forall i | 0 < i <= k
      ensures shown[i].role == ToolRole
    {
      assert shown[i].role == unit[i].role;
    }
  }

  lemma LaterHasRequest(first: seq<Message>, rest: seq<Message>, k: nat)
    requires k < |rest| && HasRequest(rest, k)
    ensures HasRequest(first + rest, |first| + k)
  {
    var j :| 0 <= j < k && rest[j].role == AssistantRole && Requests(rest[j], rest[k].toolCallId)
             && forall i :: j < i <= k ==> rest[i].role == ToolRole;
    var all := first + rest;
    assert all[|first| + j] == rest[j] && all[|first| + k] == rest[k];
    forall i | |first| + j < i <= |first| + k
      ensures all[i].role == ToolRole
    {
      assert all[i] == rest[i - |first|];
    }
  }

  lemma {:induction false} NoOrphans(units: seq<Unit>, k: nat)
    requires AllComplete(units) && k < |Flatten(units)| && Flatten(units)[k].role == ToolRole
    ensures HasRequest(Flatten(units), k)
    decreases |units|
  {
    hide HasRequest, CompleteUnit;
    var first, rest := Shown(units[0]), Flatten(units[1..]);
    assert CompleteUnit(units[0]);
    if k < |first| {
      assert first[k].role == units[0][k].role;
      OpeningIsNoResult(units[0]);
      UnitHasRequest(units[0], rest, k);
    } else {
      NoOrphans(units[1..], k - |first|);
      LaterHasRequest(first, rest, k - |first|);
    }
  }

  lemma OpeningIsNoResult(unit: Unit)
    requires CompleteUnit(unit)
    ensures unit != [] && unit[0].role != ToolRole
  {
  }

  /** The window never shows a tool result without the request it answers right before it. */
  lemma WindowHasNoOrphans(values: seq<Option<Message>>, maxItems: int, maxBytes: int, k: nat)
    requires k < |Bounded(values, maxItems, maxBytes)| && Bounded(values, maxItems, maxBytes)[k].role == ToolRole
    ensures HasRequest(Bounded(values, maxItems, maxBytes), k)
  {
    var units := Units(values);
    var start := Start(units, maxItems, maxBytes, |units|);
    WindowIsComplete(values, start);
    NoOrphans(units[start..], k);
  }

  lemma WindowIsComplete(values: seq<Option<Message>>, start: nat)
    requires start <= |Units(values)|
    ensures AllComplete(Units(values)[start..])
  {
    forall i | start <= i < |Units(values)|
      ensures CompleteUnit(Units(values)[i])
    {
      UnitsAreComplete(values, i);
    }
  }

  function CallIds(m: Message): seq<string> {
    seq(|m.calls|, k requires 0 <= k < |m.calls| => m.calls[k].id)
  }

  function ResultIds(unit: Unit): seq<string>
    requires unit != []
  {
    seq(|unit| - 1, k requires 0 <= k < |unit| - 1 => unit[k + 1].toolCallId)
  }

  /** Every call has a result. */
  predicate AllAnswered(unit: Unit)
    requires unit != []
  {
    forall k :: 0 <= k < |unit[0].calls| ==> unit[0].calls[k].id in ResultIds(unit)
  }

  lemma CompleteIds(unit: Unit)
    requires CompleteUnit(unit) && unit[0].role == AssistantRole && unit[0].calls != []
    ensures |CallIds(unit[0])| == |ResultIds(unit)| && Elements(ResultIds(unit)) <= Elements(CallIds(unit[0]))
    ensures AllAnswered(unit) <==> Elements(CallIds(unit[0])) <= Elements(ResultIds(unit))
  {
    forall id | id in ResultIds(unit)
      ensures id in CallIds(unit[0])
    {
      var k :| 0 <= k < |unit| - 1 && ResultIds(unit)[k] == id;
      assert Requests(unit[0], unit[k + 1].toolCallId);
      var j :| 0 <= j < |unit[0].calls| && unit[0].calls[j].id == id;
      assert CallIds(unit[0])[j] == id;
    }
    if AllAnswered(unit) {
      forall id | id in CallIds(unit[0])
        ensures id in ResultIds(unit)
      {
        var k :| 0 <= k < |unit[0].calls| && CallIds(unit[0])[k] == id;
      }
    }
    if Elements(CallIds(unit[0])) <= Elements(ResultIds(unit)) {
      forall k | 0 <= k < |unit[0].calls|
        ensures unit[0].calls[k].id in ResultIds(unit)
      {
        assert CallIds(unit[0])[k] in Elements(CallIds(unit[0]));
      }
    }
  }

  /**
   The code counts results; it does not look for one per call. With distinct call IDs every
   call of a shown request has a result exactly when no result is repeated.
   */
  lemma AllAnsweredIffResultsDistinct(unit: Unit)
    requires CompleteUnit(unit) && unit[0].role == AssistantRole && unit[0].calls != [] && Distinct(CallIds(unit[0]))
    ensures AllAnswered(unit) <==> Distinct(ResultIds(unit))
  {
    hide AllAnswered, ResultIds, CallIds, Distinct;
    var calls, results := Elements(CallIds(unit[0])), Elements(ResultIds(unit));
    CompleteIds(unit);
    DistinctIffSize(CallIds(unit[0]));
    DistinctIffSize(ResultIds(unit));
    SubsetSize(results, calls);
    if AllAnswered(unit) {
      assert results == calls;
    }
  }

  /** Two results for one call pass for an answer to two. */
  lemma RepeatedResultHidesMissingOne()
    returns (values: seq<Option<Message>>)
    ensures |Units(values)| == 1 && Units(values)[0] != [] && !AllAnswered(Units(values)[0])
  {
    var request := Message(AssistantRole, "look", "", [Call("a", "t", ""), Call("b", "t", "")], "");
    var result := Message(ToolRole, "done", "", [], "a");
    values := [Some(request), Some(result), Some(result)];
    assert request.(reasoning := "") == request && !Blank(request.content) by {
      assert request.content[0] == 'l';
    }
    assert !Blank(result.content) by {
      assert result.content[0] == 'd';
    }
    assert Requests(request, "a") by {
      assert request.calls[0].id == "a";
    }
    assert values[1..][1..][1..] == [];
    assert Run(request, values[1..][1..]) == 1;
    assert Run(request, values[1..]) == 2;
    assert values[1 + 2..] == [];
    var unit := [request] + Results(values[1..1 + 2]);
    assert Units(values) == [unit];
    assert ResultIds(unit) == ["a", "a"];
    assert unit[0].calls[1].id == "b" && "b"[0] != "a"[0];
    assert "b" !in ResultIds(unit);
  }

  // ---------------------------------------------------------------- reading the window again

  function Given(shown: seq<Message>): seq<Option<Message>> {
    seq(|shown|, k requires 0 <= k < |shown| => Some(shown[k]))
  }

  function ShownUnits(units: seq<Unit>): seq<Unit> {
    seq(|units|, k requires 0 <= k < |units| => Shown(units[k]))
  }

  /** Cutting twice changes nothing: the suffix is put on again in the same place. */
  lemma TruncationIsIdempotent(m: Message)
    ensures Truncated(Truncated(m)) == Truncated(m)
    ensures Size(Truncated(m)) == Size(m)
    ensures Settled(m) ==> Settled(Truncated(m))
  {
    if |m.content| > MAX_CONTENT {
      var cut := m.content[..MAX_CONTENT] + TRUNCATED;
      assert cut[..MAX_CONTENT] == m.content[..MAX_CONTENT];
      assert cut[MAX_CONTENT + 1] == TRUNCATED[1] == '[';
    }
  }

  lemma ShownIsComplete(unit: Unit)
    requires CompleteUnit(unit)
    ensures CompleteUnit(Shown(unit)) && Shown(Shown(unit)) == Shown(unit)
  {
    forall k | 0 <= k < |unit|
      ensures Truncated(Shown(unit)[k]) == Shown(unit)[k] && (Settled(unit[k]) ==> Settled(Shown(unit)[k]))
      ensures Shown(unit)[k].role == unit[k].role && Shown(unit)[k].calls == unit[k].calls
      ensures Shown(unit)[k].toolCallId == unit[k].toolCallId
    {
      TruncationIsIdempotent(unit[k]);
    }
    forall k | 1 <= k < |unit|
      ensures Requests(Shown(unit)[0], Shown(unit)[k].toolCallId)
    {
      assert Requests(unit[0], unit[k].toolCallId);
    }
  }

  lemma {:induction false} ShownSize(unit: Unit)
    ensures UnitSize(Shown(unit)) == UnitSize(unit)
  {
    if unit != [] {
      var n := |unit| - 1;
      ShownSize(unit[..n]);
      assert Shown(unit)[..n] == Shown(unit[..n]);
      TruncationIsIdempotent(unit[n]);
    }
  }

  /** A settled message is read as it is. */
  lemma SettledIsRead(m: Message)
    requires Settled(m) && m.role != ToolRole
    ensures EnsureContent(m.(reasoning := "")) == m && !EmptyAnswer(m)
  {
    assert m.(reasoning := "") == m;
  }

  /** The results of a complete unit are read up to its end and not beyond, since no unit opens with a result. */
  lemma {:induction false} RunStopsAtUnit(request: Message, results: seq<Message>, rest: seq<Option<Message>>)
    requires forall k :: 0 <= k < |results| ==> results[k].role == ToolRole && Requests(request, results[k].toolCallId)
    requires rest != [] ==> rest[0].Some? && rest[0].value.role != ToolRole
    ensures Run(request, Given(results) + rest) == |results|
    decreases |results|
  {
    if results == [] {
      assert Given(results) + rest == rest;
    } else {
      RunStopsAtUnit(request, results[1..], rest);
      assert (Given(results) + rest)[1..] == Given(results[1..]) + rest;
      assert (Given(results) + rest)[0] == Some(results[0]);
    }
  }

  lemma SettledResults(results: seq<Message>)
    requires forall k :: 0 <= k < |results| ==> results[k].role == ToolRole && Settled(results[k])
    ensures Results(Given(results)) == results
  {
    forall k | 0 <= k < |results|
      ensures Results(Given(results))[k] == results[k]
    {
      assert results[k].(reasoning := "") == results[k];
    }
  }

  lemma RequestStep(values: seq<Option<Message>>, m: Message)
    requires values != [] && values[0] == Some(m) && EnsureContent(m.(reasoning := "")) == m && !EmptyAnswer(m)
    requires m.role == AssistantRole && m.calls != [] && Run(m, values[1..]) == |m.calls|
    ensures Units(values) == [[m] + Results(values[1..1 + |m.calls|])] + Units(values[1 + |m.calls|..])
  {
    hide Results, EnsureContent, EmptyAnswer;
  }

  lemma RequestIsRead(m: Message, results: seq<Message>, rest: seq<Option<Message>>)
    requires CompleteUnit([m] + results) && m.role == AssistantRole && m.calls != []
    requires rest != [] ==> rest[0].Some? && rest[0].value.role != ToolRole
    ensures Units(Given([m] + results) + rest) == [[m] + results] + Units(rest)
  {
    hide Units, Results, EnsureContent, EmptyAnswer, Run;
    var unit := [m] + results;
    var values := Given(unit) + rest;
    assert forall k :: 0 <= k < |results| ==> results[k] == unit[k + 1];
    SettledIsRead(m);
    assert values[0] == Some(m) && values[1..] == Given(results) + rest;
    RunStopsAtUnit(m, results, rest);
    SettledResults(results);
    RequestStep(values, m);
    assert values[1..1 + |results|] == Given(results) && values[1 + |results|..] == rest;
  }

  lemma SingleIsRead(m: Message, rest: seq<Option<Message>>)
    requires CompleteUnit([m]) && !(m.role == AssistantRole && m.calls != [])
    ensures Units(Given([m]) + rest) == [[m]] + Units(rest)
  {
    hide EnsureContent, EmptyAnswer;
    SettledIsRead(m);
    assert (Given([m]) + rest)[1..] == rest;
  }

  lemma UnitIsRead(unit: Unit, rest: seq<Option<Message>>)
    requires CompleteUnit(unit) && (rest != [] ==> rest[0].Some? && rest[0].value.role != ToolRole)
    ensures Units(Given(unit) + rest) == [unit] + Units(rest)
  {
    hide Units;
    assert [unit[0]] + unit[1..] == unit;
    if unit[0].role == AssistantRole && unit[0].calls != [] {
      RequestIsRead(unit[0], unit[1..], rest);
    } else {
      assert unit == [unit[0]];
      SingleIsRead(unit[0], rest);
    }
  }

  lemma {:induction false} UnitsAreReadBack(units: seq<Unit>)
    requires AllComplete(units)
    ensures Units(Given(Flatten(units))) == ShownUnits(units)
    decreases |units|
  {
    hide CompleteUnit;
    if units != [] {
      var rest := Flatten(units[1..]);
      UnitsAreReadBack(units[1..]);
      assert CompleteUnit(units[0]);
      ShownIsComplete(units[0]);
      OpensWithRequest(units[1..]);
      assert Given(Shown(units[0]) + rest) == Given(Shown(units[0])) + Given(rest);
      UnitIsRead(Shown(units[0]), Given(rest));
      assert ShownUnits(units) == [Shown(units[0])] + ShownUnits(units[1..]);
    }
  }

  lemma OpensWithRequest(units: seq<Unit>)
    requires AllComplete(units)
    ensures Flatten(units) != [] ==> Flatten(units)[0].role != ToolRole
  {
    if units != [] {
      assert CompleteUnit(units[0]);
      assert Shown(units[0])[0].role == units[0][0].role;
    }
  }

  lemma {:induction false} ShownUnitsMeasure(units: seq<Unit>)
    ensures Items(ShownUnits(units)) == Items(units) && Bytes(ShownUnits(units)) == Bytes(units)
  {
    if units != [] {
      ShownUnitsMeasure(units[1..]);
      ShownSize(units[0]);
      assert ShownUnits(units)[1..] == ShownUnits(units[1..]);
    }
  }

  lemma {:induction false} ShownTwice(units: seq<Unit>)
    requires AllComplete(units)
    ensures Flatten(ShownUnits(units)) == Flatten(units)
  {
    if units != [] {
      ShownTwice(units[1..]);
      assert CompleteUnit(units[0]);
      ShownIsComplete(units[0]);
      assert ShownUnits(units)[1..] == ShownUnits(units[1..]);
    }
  }

  /** Feeding a window back in yields the same window: nothing is lost, cut again or regrouped. */
  lemma WindowIsIdempotent(values: seq<Option<Message>>, maxItems: int, maxBytes: int)
    ensures var window := Bounded(values, maxItems, maxBytes);
            Bounded(Given(window), maxItems, maxBytes) == window
  {
    hide Units, Flatten;
    if maxItems > 0 && maxBytes > 0 {
      var units := Units(values);
      var start := Start(units, maxItems, maxBytes, |units|);
      var kept := units[start..];
      WindowIsComplete(values, start);
      UnitsAreReadBack(kept);
      ShownUnitsMeasure(kept);
      ShownTwice(kept);
      var again := ShownUnits(kept);
      StartIsLongestFit(again, maxItems, maxBytes, |again|);
      assert again[0..] == again;
      assert Start(again, maxItems, maxBytes, |again|) == 0;
      assert Bounded(Given(Flatten(kept)), maxItems, maxBytes) == Flatten(again);
    }
  }

  // ---------------------------------------------------------------- which messages start a unit

  /** The calls of the first message are answered by exactly the messages that follow it. */
  ghost predicate AnsweredNext(values: seq<Option<Message>>)
    requires values != [] && values[0].Some?
  {
    var m := values[0].value;
    && |m.calls| < |values|
    && (forall i :: 1 <= i <= |m.calls| ==> Answers(m, values[i]))
    && (|m.calls| + 1 < |values| ==> !Answers(m, values[|m.calls| + 1]))
  }

  /** A message that says something or asks for calls that are answered, and is itself no result. */
  ghost predicate StartsUnit(values: seq<Option<Message>>) {
    && values != [] && values[0].Some? && values[0].value.role != ToolRole
    && !(values[0].value.role == AssistantRole && Blank(values[0].value.content) && values[0].value.calls == [])
    && (values[0].value.role == AssistantRole && values[0].value.calls != [] ==> AnsweredNext(values))
  }

  /** A message as a unit holds it: without reasoning, and with its content unless that was blank. */
  predicate Kept(before: Message, after: Message) {
    && after.role == before.role && after.calls == before.calls && after.toolCallId == before.toolCallId
    && after.reasoning == "" && (!Blank(before.content) ==> after.content == before.content)
  }

  lemma {:induction false} RunIs(request: Message, values: seq<Option<Message>>, n: nat)
    requires n <= |values| && (forall k :: 0 <= k < n ==> Answers(request, values[k]))
    requires n < |values| ==> !Answers(request, values[n])
    ensures Run(request, values) == n
  {
    if n > 0 {
      assert Answers(request, values[0]);
      RunIs(request, values[1..], n - 1);
    }
  }

  lemma RunIsAnsweredNext(values: seq<Option<Message>>)
    requires values != [] && values[0].Some?
    ensures Run(values[0].value, values[1..]) == |values[0].value.calls| <==> AnsweredNext(values)
  {
    hide Answers;
    var m, rest := values[0].value, values[1..];
    if AnsweredNext(values) {
      RunIs(m, rest, |m.calls|);
    }
    if Run(m, rest) == |m.calls| {
      forall i | 1 <= i <= |m.calls|
        ensures Answers(m, values[i])
      {
        assert rest[i - 1] == values[i];
      }
    }
  }

  lemma {:induction false} ResultsStartNothing(values: seq<Option<Message>>, n: nat)
    requires n <= |values| && forall k :: 0 <= k < n ==> values[k].Some? && values[k].value.role == ToolRole
    ensures Units(values) == Units(values[n..])
    decreases n
  {
    if n == 0 {
      assert values[0..] == values;
    } else {
      SkipFirst(values);
      ResultsStartNothing(values[1..], n - 1);
      assert values[1..][n - 1..] == values[n..];
    }
  }

  /**
   The units message by message: each message either starts one unit, itself and the results
   that answer it, or none, whatever stands before it; and a unit keeps what its messages say.
   */
  lemma UnitsByMessage(values: seq<Option<Message>>)
    requires values != []
    ensures !StartsUnit(values) ==> Units(values) == Units(values[1..])
    ensures StartsUnit(values) ==> FirstUnit(values)
  {
    if values[0].None? || EmptyAnswer(values[0].value) || values[0].value.role == ToolRole {
      SkipFirst(values);
    } else {
      UnitsOfFirst(values);
      EnsureKeepsKind(values[0].value);
      RunIsAnsweredNext(values);
      if values[0].value.role == AssistantRole && values[0].value.calls != [] {
        SameRun(values[0].value, EnsureContent(values[0].value.(reasoning := "")), values[1..]);
        AfterTheResults(values, Run(values[0].value, values[1..]));
        if AnsweredNext(values) {
          RequestIsKept(values);
        }
      }
      hide Units, Run, Results, AnsweredNext, EnsureContent, Answers;
    }
  }

  /** The first message starts the first unit, which keeps it and its results; the other units are those of the rest. */
  ghost predicate FirstUnit(values: seq<Option<Message>>)
    requires values != [] && values[0].Some?
  {
    && Units(values) != [] && Units(values)[1..] == Units(values[1..])
    && var m, unit := values[0].value, Units(values)[0];
    && |unit| == 1 + (if m.role == AssistantRole then |m.calls| else 0) <= |values|
    && forall i :: 0 <= i < |unit| ==> values[i].Some? && Kept(values[i].value, unit[i])
  }

  lemma AfterTheResults(values: seq<Option<Message>>, n: nat)
    requires values != [] && values[0].Some? && n == Run(values[0].value, values[1..])
    ensures Units(values[1..]) == Units(values[1 + n..])
  {
    hide Units;
    assert values[1..][n..] == values[1 + n..];
    assert forall k :: 0 <= k < n ==> Answers(values[0].value, values[1..][k]);
    ResultsStartNothing(values[1..], n);
  }

  /** What a request unit holds. */
  lemma RequestIsKept(values: seq<Option<Message>>)
    requires values != [] && values[0].Some? && Run(values[0].value, values[1..]) == |values[0].value.calls|
    ensures var m := values[0].value;
            var unit := [EnsureContent(m.(reasoning := ""))] + Results(values[1..1 + |m.calls|]);
            forall i :: 0 <= i < |unit| ==> values[i].Some? && Kept(values[i].value, unit[i])
  {
    hide Run;
    var m := values[0].value;
    var unit := [EnsureContent(m.(reasoning := ""))] + Results(values[1..1 + |m.calls|]);
    forall i | 0 <= i < |unit|
      ensures values[i].Some? && Kept(values[i].value, unit[i])
    {
      if i > 0 {
        assert Answers(m, values[1..][i - 1]);
        assert unit[i] == CleanResult(values[i].value);
      }
    }
  }

  lemma UnitsOfFirst(values: seq<Option<Message>>)
    requires values != [] && values[0].Some? && !EmptyAnswer(values[0].value) && values[0].value.role != ToolRole
    ensures var m := EnsureContent(values[0].value.(reasoning := ""));
            var n := Run(m, values[1..]);
            Units(values)
            == if m.role == AssistantRole && m.calls != []
               then (if n == |m.calls| then [[m] + Results(values[1..1 + n])] else []) + Units(values[1 + n..])
               else [[m]] + Units(values[1..])
  {
    EnsureKeepsKind(values[0].value);
  }

  lemma {:induction false} SameRun(a: Message, b: Message, values: seq<Option<Message>>)
    requires a.calls == b.calls
    ensures Run(a, values) == Run(b, values)
  {
    if values != [] {
      assert Answers(a, values[0]) == Answers(b, values[0]);
      SameRun(a, b, values[1..]);
    }
  }

  // ---------------------------------------------------------------- what the window holds

  /** The bytes of the messages as they are shown: content and calls. */
  function Weight(shown: seq<Message>): nat {
    if shown == [] then 0
    else
      var last := shown[|shown| - 1];
      Weight(shown[..|shown| - 1]) + |last.content| + CallsSize(last.calls)
  }

  lemma {:induction false} WeightSplits(a: seq<Message>, b: seq<Message>)
    ensures Weight(a + b) == Weight(a) + Weight(b)
  {
    if b == [] {
      assert a + b == a;
    } else {
      var n := |b| - 1;
      WeightSplits(a, b[..n]);
      assert (a + b)[..|a + b| - 1] == a + b[..n];
    }
  }

  lemma {:induction false} UnitWeighs(unit: Unit)
    ensures Weight(Shown(unit)) == UnitSize(unit)
  {
    hide Truncated, CallsSize;
    if unit != [] {
      var n := |unit| - 1;
      UnitWeighs(unit[..n]);
      assert Shown(unit)[..n] == Shown(unit[..n]);
      TruncatedCalls(unit[n]);
    }
  }

  lemma TruncatedCalls(m: Message)
    ensures Truncated(m).calls == m.calls
  {
  }

  lemma {:induction false} WindowWeighs(units: seq<Unit>)
    ensures Weight(Flatten(units)) == Bytes(units) && |Flatten(units)| == Items(units)
  {
    hide Shown, UnitSize;
    if units != [] {
      WindowWeighs(units[1..]);
      UnitWeighs(units[0]);
      WeightSplits(Shown(units[0]), Flatten(units[1..]));
      ShownLength(units[0]);
    }
  }

  lemma ShownLength(unit: Unit)
    ensures |Shown(unit)| == |unit|
  {
  }

  /** The window is the suffix of the units that starts at this place; every longer suffix is over a budget. */
  ghost predicate WindowStartsAt(values: seq<Option<Message>>, maxItems: int, maxBytes: int, start: nat) {
    && start <= |Units(values)| && Bounded(values, maxItems, maxBytes) == Flatten(Units(values)[start..])
    && forall j :: 0 <= j < start ==>
         |Flatten(Units(values)[j..])| > maxItems || Weight(Flatten(Units(values)[j..])) > maxBytes
  }

  /** What is shown stays within both budgets, message by message and byte by byte, and one unit more would not. */
  lemma WindowIsWithinBudgets(values: seq<Option<Message>>, maxItems: int, maxBytes: int)
    ensures maxItems <= 0 || maxBytes <= 0 ==> Bounded(values, maxItems, maxBytes) == []
    ensures maxItems > 0 && maxBytes > 0 ==>
              && |Bounded(values, maxItems, maxBytes)| <= maxItems && Weight(Bounded(values, maxItems, maxBytes)) <= maxBytes
              && exists start: nat :: WindowStartsAt(values, maxItems, maxBytes, start)
  {
    hide Units, Flatten, Start, Weight, Bytes, Items;
    if maxItems > 0 && maxBytes > 0 {
      var units := Units(values);
      NothingFits(units);
      var start := Start(units, maxItems, maxBytes, |units|);
      StartIsLongestFit(units, maxItems, maxBytes, |units|);
      WindowWeighs(units[start..]);
      forall j | 0 <= j < start
        ensures |Flatten(units[j..])| > maxItems || Weight(Flatten(units[j..])) > maxBytes
      {
        WindowWeighs(units[j..]);
      }
      assert WindowStartsAt(values, maxItems, maxBytes, start);
    }
  }

  lemma NothingFits(units: seq<Unit>)
    ensures Items(units[|units|..]) == 0 && Bytes(units[|units|..]) == 0
  {
  }
}
