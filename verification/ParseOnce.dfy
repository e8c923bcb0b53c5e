/**
 The Drain3 sidecar's request cache (drain3-sidecar/server.py:32-112), the client that
 retries a batch over a WebSocket (retrieval/websocket.go:43-116), and why one client call
 advances the template miner at most once.

 Times are milliseconds. The miner is any function from its state and a message to its next
 state and a result; the sidecar's clock is assumed not to run backwards between requests.
 */
module ParseOnce {
  import opened Domain

  const MAX_BATCH := 500

  const MAX_CACHE := 5000

  const CACHE_TTL := 600_000

  // ---------------------------------------------------------------- frames and the miner

  datatype Record = NotAnObject | Record(id: string, message: Option<string>)

  /** A decoded request; `Unreadable` stands for an oversized or undecodable one. */
  datatype Frame = Unreadable | Frame(version: string, kind: string, requestId: string, records: Option<seq<Record>>)

  datatype Response<R> = Parsed(requestId: string, results: seq<(string, R)>) | Refused(requestId: string)

  datatype Entry<R> = Entry(id: string, time: int, response: Response<R>)

  /** One advance of the miner, as history: the cached entry and the records that produced it. */
  datatype Application<R> = Application(entry: Entry<R>, records: seq<Record>)

  type Miner<!M, !R> = (M, string) -> (M, R)

  predicate ValidRecord(r: Record) {
    r.Record? && r.id != "" && r.message.Some?
  }

  predicate AllValid(records: seq<Record>) {
    forall k :: 0 <= k < |records| ==> ValidRecord(records[k])
  }

  predicate ValidBatch(records: Option<seq<Record>>) {
    records.Some? && |records.value| <= MAX_BATCH && AllValid(records.value)
  }

  predicate WellFormed(f: Frame) {
    f.Frame? && f.version == "1" && f.kind == "parse_batch" && f.requestId != ""
  }

  function FrameId(f: Frame): string {
    if f.Frame? then f.requestId else ""
  }

  /** The miner after a batch, and the batch's results, record by record. */
  function Mine<M, R>(step: Miner<M, R>, m: M, records: seq<Record>): (r: (M, seq<(string, R)>))
    requires AllValid(records)
    ensures |r.1| == |records| && forall k :: 0 <= k < |records| ==> r.1[k].0 == records[k].id
  {
    if records == [] then (m, [])
    else
      var (before, results) := Mine(step, m, records[..|records| - 1]);
      var last := records[|records| - 1];
      assert ValidRecord(last);
      var (after, result) := step(before, last.message.value);
      (after, results + [(last.id, result)])
  }

  /** Records are mined in order: what a record yields depends on the records before it alone. */
  lemma {:induction false} MinedInOrder<M, R>(step: Miner<M, R>, m: M, records: seq<Record>, k: nat)
    requires AllValid(records) && k < |records|
    ensures AllValid(records[..k]) && records[k].message.Some?
    ensures Mine(step, m, records).1[..k] == Mine(step, m, records[..k]).1
    ensures Mine(step, m, records).1[k] == (records[k].id, step(Mine(step, m, records[..k]).0, records[k].message.value).1)
    decreases |records|
  {
    var n := |records| - 1;
    if k < n {
      MinedInOrder(step, m, records[..n], k);
      assert records[..n][..k] == records[..k];
    } else {
      assert ValidRecord(records[n]);
    }
  }

  // ---------------------------------------------------------------- the server as a function

  datatype ServerState<M, R> = ServerState(cache: seq<Entry<R>>, miner: M, log: seq<Application<R>>, clock: int)

  /** Drop entries from the old end while there are too many of them or the oldest is too old. */
  function Prune<R>(cache: seq<Entry<R>>, now: int): seq<Entry<R>> {
    if cache == [] || (|cache| <= MAX_CACHE && now - cache[0].time <= CACHE_TTL) then cache else Prune(cache[1..], now)
  }

  function Lookup<R>(cache: seq<Entry<R>>, id: string): (found: Option<Response<R>>)
    ensures found.Some? ==> exists k :: 0 <= k < |cache| && cache[k].id == id && cache[k].response == found.value
    ensures found.None? ==> forall k :: 0 <= k < |cache| ==> cache[k].id != id
  {
    if cache == [] then None else if cache[0].id == id then Some(cache[0].response) else Lookup(cache[1..], id)
  }

  /** A well-formed request once the cache has been pruned: answered from it, refused, or applied. */
  function Respond<M, R>(step: Miner<M, R>, s: ServerState<M, R>, f: Frame): (ServerState<M, R>, Response<R>)
    requires f.Frame?
  {
    var known := Lookup(s.cache, f.requestId);
    if known.Some? then (s, known.value)
    else if !ValidBatch(f.records) then (s, Refused(f.requestId))
    else
      var (miner, results) := Mine(step, s.miner, f.records.value);
      var entry := Entry(f.requestId, s.clock, Parsed(f.requestId, results));
      (s.(cache := s.cache + [entry], miner := miner, log := s.log + [Application(entry, f.records.value)]), entry.response)
  }

  function Pruned<M, R>(s: ServerState<M, R>, now: int): ServerState<M, R> {
    s.(cache := Prune(s.cache, now), clock := now)
  }

  function Handle<M, R>(step: Miner<M, R>, s: ServerState<M, R>, f: Frame, now: int): (ServerState<M, R>, Response<R>) {
    if !WellFormed(f) then (s, Refused(FrameId(f))) else Respond(step, Pruned(s, now), f)
  }

  /** The sidecar process: an ordered cache, the miner, and (as ghost state) everything ever applied. */
  class Server<M, R> {
    const step: Miner<M, R>
    var cache: seq<Entry<R>>
    var miner: M
    var clock: int
    ghost var log: seq<Application<R>>

    constructor (step: Miner<M, R>, miner: M)
      ensures this.step == step && View() == ServerState([], miner, [], 0)
    {
      this.step := step;
      this.miner := miner;
      cache, log, clock := [], [], 0;
    }

    ghost function View(): ServerState<M, R>
      reads this
    {
      ServerState(cache, miner, log, clock)
    }

    method PruneCache(now: int)
      modifies this`cache
      ensures cache == Prune(old(cache), now)
    {
      while cache != []
        invariant Prune(cache, now) == Prune(old(cache), now)
        decreases |cache|
      {
        if |cache| <= MAX_CACHE && now - cache[0].time <= CACHE_TTL {
          break;
        }
        cache := cache[1..];
      }
    }

    /** Nothing is mined unless the whole batch is valid; None stands for the raised error. */
    method ParseBatch(records: Option<seq<Record>>) returns (results: Option<seq<(string, R)>>)
      modifies this`miner
      ensures results.Some? <==> ValidBatch(records)
      ensures results.Some? ==> (miner, results.value) == Mine(step, old(miner), records.value)
      ensures results.None? ==> miner == old(miner)
    {
      if records.None? || |records.value| > MAX_BATCH {
        return None;
      }
      var k := 0;
      while k < |records.value|
        invariant 0 <= k <= |records.value|
        invariant forall j :: 0 <= j < k ==> ValidRecord(records.value[j])
      {
        if records.value[k].NotAnObject? || records.value[k].id == "" || records.value[k].message.None? {
          return None;
        }
        k := k + 1;
      }
      var found: seq<(string, R)> := [];
      k := 0;
      while k < |records.value|
        invariant 0 <= k <= |records.value|
        invariant (miner, found) == Mine(step, old(miner), records.value[..k])
      {
        assert records.value[..k + 1][..k] == records.value[..k];
        var (after, result) := step(miner, records.value[k].message.value);
        miner := after;
        found := found + [(records.value[k].id, result)];
        k := k + 1;
      }
      assert records.value[..k] == records.value;
      results := Some(found);
    }

    method Find(id: string) returns (found: Option<Response<R>>)
      ensures found == Lookup(cache, id)
    {
      var k := 0;
      while k < |cache|
        invariant 0 <= k <= |cache|
        invariant Lookup(cache, id) == Lookup(cache[k..], id)
      {
        assert cache[k..][1..] == cache[k + 1..];
        if cache[k].id == id {
          return Some(cache[k].response);
        }
        k := k + 1;
      }
      found := None;
    }

    method Answer(f: Frame) returns (response: Response<R>)
      requires f.Frame?
      modifies this`cache, this`miner, this`log
      ensures (View(), response) == Respond(step, old(View()), f)
    {
      var known := Find(f.requestId);
      if known.Some? {
        return known.value;
      }
      var results := ParseBatch(f.records);
      if results.None? {
        return Refused(f.requestId);
      }
      response := Parsed(f.requestId, results.value);
      cache := cache + [Entry(f.requestId, clock, response)];
      log := log + [Application(Entry(f.requestId, clock, response), f.records.value)];
    }

    method Prepare(now: int)
      modifies this`cache, this`clock
      ensures View() == Pruned(old(View()), now)
    {
      clock := now;
      PruneCache(now);
    }

    method Handler(f: Frame, now: int) returns (response: Response<R>)
      modifies this
      ensures (View(), response) == Handle(step, old(View()), f, now)
    {
      if !WellFormed(f) {
        return Refused(FrameId(f));
      }
      Prepare(now);
      response := Answer(f);
    }
  }

  // ---------------------------------------------------------------- what pruning leaves

  ghost predicate Sorted<R>(cache: seq<Entry<R>>) {
    forall i, j :: 0 <= i <= j < |cache| ==> cache[i].time <= cache[j].time
  }

  lemma {:induction false} PruneIsSuffix<R>(cache: seq<Entry<R>>, now: int)
    ensures |Prune(cache, now)| <= |cache| && Prune(cache, now) == cache[|cache| - |Prune(cache, now)|..]
    decreases |cache|
  {
    if cache != [] {
      PruneIsSuffix(cache[1..], now);
    }
  }

  /** An entry is kept exactly when it is young enough and among the newest 5000. */
  lemma {:induction false} PruneKeepsExactly<R>(cache: seq<Entry<R>>, now: int, i: nat)
    requires Sorted(cache) && i < |cache|
    ensures |Prune(cache, now)| <= MAX_CACHE
    ensures i >= |cache| - |Prune(cache, now)| <==> now - cache[i].time <= CACHE_TTL && |cache| - i <= MAX_CACHE
    decreases |cache|
  {
    PruneIsSuffix(cache, now);
    PruneIsSuffix(cache[1..], now);
    if |cache| <= MAX_CACHE && now - cache[0].time <= CACHE_TTL {
    } else {
      if i > 0 {
        PruneKeepsExactly(cache[1..], now, i - 1);
      } else if |cache| > 1 {
        PruneKeepsExactly(cache[1..], now, 0);
      }
    }
  }

  predicate Expired<R>(e: Entry<R>, now: int) {
    now - e.time > CACHE_TTL
  }

  /** Among the newest 5000 entries, whatever stands before an expired one is expired too. */
  predicate ExpiredFirst<R>(cache: seq<Entry<R>>, now: int) {
    forall i, j :: 0 <= i < j < |cache| && |cache| - i <= MAX_CACHE && Expired(cache[j], now) ==> Expired(cache[i], now)
  }

  /**
   For any cache, in whatever order its times stand: pruning leaves only fresh entries if and
   only if the expired ones come first among the newest 5000.
   */
  lemma {:induction false} PruneLeavesFreshIff<R>(cache: seq<Entry<R>>, now: int)
    ensures (forall e :: e in Prune(cache, now) ==> !Expired(e, now)) <==> ExpiredFirst(cache, now)
    decreases |cache|
  {
    if cache == [] {
    } else if |cache| <= MAX_CACHE && now - cache[0].time <= CACHE_TTL {
      FirstIsFresh(cache, now);
    } else {
      PruneLeavesFreshIff(cache[1..], now);
      DropKeepsOrder(cache, now);
    }
  }

  lemma FreshAfterFresh<R>(cache: seq<Entry<R>>, now: int, j: nat)
    requires ExpiredFirst(cache, now) && 0 < j < |cache| <= MAX_CACHE && !Expired(cache[0], now)
    ensures !Expired(cache[j], now)
  {
  }

  lemma FirstIsFresh<R>(cache: seq<Entry<R>>, now: int)
    requires 0 < |cache| <= MAX_CACHE && !Expired(cache[0], now)
    ensures (forall e :: e in cache ==> !Expired(e, now)) <==> ExpiredFirst(cache, now)
  {
    if ExpiredFirst(cache, now) {
      forall j | 0 <= j < |cache|
        ensures !Expired(cache[j], now)
      {
        if j > 0 {
          FreshAfterFresh(cache, now, j);
        }
      }
    } else {
      var i, j :| 0 <= i < j < |cache| && |cache| - i <= MAX_CACHE && Expired(cache[j], now) && !Expired(cache[i], now);
      assert cache[j] in cache;
    }
  }

  lemma DropKeepsOrder<R>(cache: seq<Entry<R>>, now: int)
    requires cache != [] && (|cache| > MAX_CACHE || Expired(cache[0], now))
    ensures ExpiredFirst(cache, now) <==> ExpiredFirst(cache[1..], now)
  {
    if ExpiredFirst(cache, now) {
      forall i, j | 0 <= i < j < |cache[1..]| && |cache[1..]| - i <= MAX_CACHE && Expired(cache[1..][j], now)
        ensures Expired(cache[1..][i], now)
      {
        assert cache[1..][i] == cache[i + 1] && cache[1..][j] == cache[j + 1];
      }
    }
    if ExpiredFirst(cache[1..], now) {
      forall i, j | 0 <= i < j < |cache| && |cache| - i <= MAX_CACHE && Expired(cache[j], now)
        ensures Expired(cache[i], now)
      {
        if i > 0 {
          assert cache[1..][i - 1] == cache[i] && cache[1..][j - 1] == cache[j];
        }
      }
    }
  }

  /** With a clock that was set back, an expired entry survives behind a younger one. */
  lemma PruneNeedsMonotoneClock<R>(response: Response<R>)
    ensures var cache := [Entry("a", 1_000_000, response), Entry("b", 0, response)];
            Prune(cache, 1_000_001) == cache && 1_000_001 - cache[1].time > CACHE_TTL
  {
  }

  // ---------------------------------------------------------------- the invariant of every run

  function Entries<R>(log: seq<Application<R>>): seq<Entry<R>> {
    seq(|log|, i requires 0 <= i < |log| => log[i].entry)
  }

  /** Two applications of one request lie more than the TTL or at least 5000 other applications apart. */
  ghost predicate Spaced<R>(log: seq<Application<R>>) {
    forall i, j :: 0 <= i < j < |log| && log[i].entry.id == log[j].entry.id ==>
      log[j].entry.time - log[i].entry.time > CACHE_TTL || j - i > MAX_CACHE
  }

  /** What is no longer cached was too old or too far back when it was dropped, and still is. */
  ghost predicate Forgotten<M, R>(s: ServerState<M, R>) {
    forall i :: 0 <= i < |s.log| - |s.cache| ==>
      s.clock - s.log[i].entry.time > CACHE_TTL || |s.log| - i > MAX_CACHE
  }

  ghost predicate Good<M, R>(s: ServerState<M, R>) {
    && |s.cache| <= |s.log| && s.cache == Entries(s.log)[|s.log| - |s.cache|..]
    && Sorted(Entries(s.log)) && (forall i :: 0 <= i < |s.log| ==> s.log[i].entry.time <= s.clock)
    && Forgotten(s) && Spaced(s.log)
  }

  lemma {:induction false} PruneIsBounded<R>(cache: seq<Entry<R>>, now: int)
    ensures |Prune(cache, now)| <= MAX_CACHE
    decreases |cache|
  {
    if cache != [] {
      PruneIsBounded(cache[1..], now);
    }
  }

  lemma PruneDropsOnlyForgotten<M, R>(s: ServerState<M, R>, now: int, i: nat)
    requires Good(s) && s.clock <= now && i < |s.log| - |Prune(s.cache, now)| && |Prune(s.cache, now)| <= |s.cache|
    ensures now - s.log[i].entry.time > CACHE_TTL || |s.log| - i > MAX_CACHE
  {
    hide Spaced;
    var base := |s.log| - |s.cache|;
    if i >= base {
      assert s.cache[i - base] == s.log[i].entry;
      CacheIsSorted(s);
      PruneKeepsExactly(s.cache, now, i - base);
    }
  }

  lemma CacheIsSorted<M, R>(s: ServerState<M, R>)
    requires Good(s)
    ensures Sorted(s.cache)
  {
    hide Spaced, Forgotten;
  }

  lemma PruneKeepsForgotten<M, R>(s: ServerState<M, R>, now: int)
    requires Good(s) && s.clock <= now
    ensures Forgotten(Pruned(s, now))
    ensures forall k :: 0 <= k < |Prune(s.cache, now)| ==> now - Prune(s.cache, now)[k].time <= CACHE_TTL
  {
    hide Spaced, Sorted;
    var kept := Prune(s.cache, now);
    var base := |s.cache| - |kept|;
    PruneIsSuffix(s.cache, now);
    CacheIsSorted(s);
    forall k | 0 <= k < |kept|
      ensures now - kept[k].time <= CACHE_TTL
    {
      PruneKeepsExactly(s.cache, now, base + k);
      assert kept[k] == s.cache[base + k];
    }
    forall i | 0 <= i < |s.log| - |kept|
      ensures now - s.log[i].entry.time > CACHE_TTL || |s.log| - i > MAX_CACHE
    {
      PruneDropsOnlyForgotten(s, now, i);
    }
  }

  /** After pruning at most 5000 entries are left, all of them within the TTL. */
  lemma PruneKeepsGood<M, R>(s: ServerState<M, R>, now: int)
    requires Good(s) && s.clock <= now
    ensures Good(Pruned(s, now))
    ensures |Prune(s.cache, now)| <= MAX_CACHE
    ensures forall k :: 0 <= k < |Prune(s.cache, now)| ==> now - Prune(s.cache, now)[k].time <= CACHE_TTL
  {
    PruneIsBounded(s.cache, now);
    PruneIsSuffix(s.cache, now);
    PruneKeepsForgotten(s, now);
  }

  /** A request that is not cached was never applied within the TTL and the last 5000 applications. */
  lemma MissMeansForgotten<M, R>(s: ServerState<M, R>, id: string, i: nat)
    requires Good(s) && Lookup(s.cache, id).None? && i < |s.log| && s.log[i].entry.id == id
    ensures s.clock - s.log[i].entry.time > CACHE_TTL || |s.log| - i > MAX_CACHE
  {
    var base := |s.log| - |s.cache|;
    forall k | base <= k < |s.log|
      ensures s.log[k].entry.id != id
    {
      assert s.cache[k - base] == s.log[k].entry;
    }
  }

  lemma AppendKeepsSuffix<M, R>(s: ServerState<M, R>, a: Application<R>)
    requires Good(s)
    ensures Entries(s.log + [a]) == Entries(s.log) + [a.entry]
    ensures s.cache + [a.entry] == Entries(s.log + [a])[|s.log| - |s.cache|..]
  {
    assert Entries(s.log + [a]) == Entries(s.log) + [a.entry];
  }

  lemma AppendKeepsSpaced<M, R>(s: ServerState<M, R>, a: Application<R>)
    requires Good(s) && Lookup(s.cache, a.entry.id).None? && a.entry.time == s.clock
    ensures Spaced(s.log + [a])
  {
    forall i | 0 <= i < |s.log| && s.log[i].entry.id == a.entry.id
      ensures s.clock - s.log[i].entry.time > CACHE_TTL || |s.log| - i > MAX_CACHE
    {
      MissMeansForgotten(s, a.entry.id, i);
    }
  }

  lemma AppendKeepsGood<M, R>(s: ServerState<M, R>, miner: M, a: Application<R>)
    requires Good(s) && Lookup(s.cache, a.entry.id).None? && a.entry.time == s.clock
    ensures Good(s.(cache := s.cache + [a.entry], miner := miner, log := s.log + [a]))
  {
    AppendKeepsSuffix(s, a);
    AppendKeepsSpaced(s, a);
    hide Spaced, Lookup;
  }

  lemma HandleKeepsGood<M, R>(step: Miner<M, R>, s: ServerState<M, R>, f: Frame, now: int)
    requires Good(s) && s.clock <= now
    ensures Good(Handle(step, s, f, now).0)
    ensures s.log <= Handle(step, s, f, now).0.log && Handle(step, s, f, now).0.clock <= now
  {
    if WellFormed(f) {
      PruneKeepsGood(s, now);
      var p := Pruned(s, now);
      if Lookup(p.cache, f.requestId).None? && ValidBatch(f.records) {
        var (miner, results) := Mine(step, p.miner, f.records.value);
        AppendKeepsGood(p, miner, Application(Entry(f.requestId, now, Parsed(f.requestId, results)), f.records.value));
      }
    }
  }

  // ---------------------------------------------------------------- any sequence of arrivals

  datatype Arrival = Arrival(frame: Frame, time: int)

  function Serve<M, R>(step: Miner<M, R>, s: ServerState<M, R>, arrivals: seq<Arrival>): ServerState<M, R> {
    if arrivals == [] then s
    else
      var last := arrivals[|arrivals| - 1];
      Handle(step, Serve(step, s, arrivals[..|arrivals| - 1]), last.frame, last.time).0
  }

  function Reply<M, R>(step: Miner<M, R>, s: ServerState<M, R>, arrivals: seq<Arrival>, k: nat): Response<R>
    requires k < |arrivals|
  {
    Handle(step, Serve(step, s, arrivals[..k]), arrivals[k].frame, arrivals[k].time).1
  }

  ghost predicate Timely<M, R>(s: ServerState<M, R>, arrivals: seq<Arrival>) {
    && (forall k :: 0 <= k < |arrivals| ==> s.clock <= arrivals[k].time)
    && (forall j, k :: 0 <= j <= k < |arrivals| ==> arrivals[j].time <= arrivals[k].time)
  }

  lemma {:induction false} ServeKeepsGood<M, R>(step: Miner<M, R>, s: ServerState<M, R>, arrivals: seq<Arrival>)
    requires Good(s) && Timely(s, arrivals)
    ensures Good(Serve(step, s, arrivals)) && s.log <= Serve(step, s, arrivals).log
    ensures arrivals != [] ==> Serve(step, s, arrivals).clock <= arrivals[|arrivals| - 1].time
    decreases |arrivals|
  {
    if arrivals != [] {
      var n := |arrivals| - 1;
      ServeKeepsGood(step, s, arrivals[..n]);
      HandleKeepsGood(step, Serve(step, s, arrivals[..n]), arrivals[n].frame, arrivals[n].time);
    }
  }

  lemma {:induction false} LaterLogExtends<M, R>(step: Miner<M, R>, s: ServerState<M, R>, arrivals: seq<Arrival>, k: nat)
    requires Good(s) && Timely(s, arrivals) && k <= |arrivals|
    ensures Serve(step, s, arrivals[..k]).log <= Serve(step, s, arrivals).log
    decreases |arrivals|
  {
    var n := |arrivals| - 1;
    if k == |arrivals| {
      assert arrivals[..k] == arrivals;
    } else {
      assert arrivals[..n][..k] == arrivals[..k];
      LaterLogExtends(step, s, arrivals[..n], k);
      ServeKeepsGood(step, s, arrivals[..n]);
      HandleKeepsGood(step, Serve(step, s, arrivals[..n]), arrivals[n].frame, arrivals[n].time);
    }
  }

  lemma HandleAppends<M, R>(step: Miner<M, R>, s: ServerState<M, R>, f: Frame, now: int)
    ensures var t := Handle(step, s, f, now).0;
            t.log == s.log || (WellFormed(f) && |t.log| == |s.log| + 1 && t.log[..|s.log|] == s.log
                               && t.log[|s.log|].entry.id == f.requestId && t.log[|s.log|].entry.time == now
                               && f.records == Some(t.log[|s.log|].records))
  {
  }

  /** Every application was made for some arrival, at the time of that arrival and from its records. */
  lemma {:induction false} ApplicationHasArrival<M, R>(
    step: Miner<M, R>, s: ServerState<M, R>, arrivals: seq<Arrival>, i: nat) returns (k: nat)
    requires |s.log| <= i < |Serve(step, s, arrivals).log|
    ensures k < |arrivals| && WellFormed(arrivals[k].frame)
    ensures var a := Serve(step, s, arrivals).log[i];
            a.entry.id == arrivals[k].frame.requestId && a.entry.time == arrivals[k].time && arrivals[k].frame.records == Some(a.records)
    decreases |arrivals|
  {
    var n := |arrivals| - 1;
    var before := Serve(step, s, arrivals[..n]);
    HandleAppends(step, before, arrivals[n].frame, arrivals[n].time);
    if i < |before.log| {
      k := ApplicationHasArrival(step, s, arrivals[..n], i);
    } else {
      k := n;
    }
  }

  lemma CachedReplyIsAnApplication<M, R>(s: ServerState<M, R>, id: string) returns (i: nat)
    requires Good(s) && Lookup(s.cache, id).Some?
    ensures i < |s.log| && s.log[i].entry.id == id && s.log[i].entry.response == Lookup(s.cache, id).value
  {
    hide Sorted, Spaced, Forgotten;
    var k :| 0 <= k < |s.cache| && s.cache[k].id == id && s.cache[k].response == Lookup(s.cache, id).value;
    i := |s.log| - |s.cache| + k;
    assert s.cache[k] == s.log[i].entry;
  }

  /** A positive reply is the stored response of an application of that very request. */
  lemma ReplyIsAnApplication<M, R>(step: Miner<M, R>, s: ServerState<M, R>, f: Frame, now: int) returns (i: nat)
    requires Good(s) && s.clock <= now && Handle(step, s, f, now).1.Parsed? && WellFormed(f)
    ensures i < |Handle(step, s, f, now).0.log|
    ensures Handle(step, s, f, now).0.log[i].entry.id == f.requestId
    ensures Handle(step, s, f, now).0.log[i].entry.response == Handle(step, s, f, now).1
  {
    hide Good, Mine;
    PruneKeepsGood(s, now);
    var p := Pruned(s, now);
    if Lookup(p.cache, f.requestId).Some? {
      i := CachedReplyIsAnApplication(p, f.requestId);
    } else {
      i := |s.log|;
    }
  }

  // ---------------------------------------------------------------- the miner is the fold of the applications

  predicate LogValid<R>(log: seq<Application<R>>) {
    forall i :: 0 <= i < |log| ==> AllValid(log[i].records)
  }

  function MinerAfter<M, R>(step: Miner<M, R>, m: M, log: seq<Application<R>>): M
    requires LogValid(log)
  {
    if log == [] then m else Mine(step, MinerAfter(step, m, log[..|log| - 1]), log[|log| - 1].records).0
  }

  /** The miner has advanced by the logged applications and nothing else, and each response is what its own advance computed. */
  ghost predicate Faithful<M, R>(step: Miner<M, R>, m: M, s: ServerState<M, R>) {
    && LogValid(s.log) && s.miner == MinerAfter(step, m, s.log)
    && forall i :: 0 <= i < |s.log| ==>
         s.log[i].entry.response == Parsed(s.log[i].entry.id, Mine(step, MinerAfter(step, m, s.log[..i]), s.log[i].records).1)
  }

  lemma HandleKeepsFaithful<M, R>(step: Miner<M, R>, m: M, s: ServerState<M, R>, f: Frame, now: int)
    requires Faithful(step, m, s)
    ensures Faithful(step, m, Handle(step, s, f, now).0)
  {
    var t := Handle(step, s, f, now).0;
    if t.log != s.log {
      var n := |s.log|;
      assert t.log[..n] == s.log;
      forall i | 0 <= i <= n
        ensures t.log[i].entry.response
             == Parsed(t.log[i].entry.id, Mine(step, MinerAfter(step, m, t.log[..i]), t.log[i].records).1)
      {
        if i < n {
          assert t.log[..i] == s.log[..i];
        }
      }
    }
  }

  lemma {:induction false} ServeKeepsFaithful<M, R>(step: Miner<M, R>, m: M, s: ServerState<M, R>, arrivals: seq<Arrival>)
    requires Faithful(step, m, s)
    ensures Faithful(step, m, Serve(step, s, arrivals))
    decreases |arrivals|
  {
    if arrivals != [] {
      var n := |arrivals| - 1;
      ServeKeepsFaithful(step, m, s, arrivals[..n]);
      HandleKeepsFaithful(step, m, Serve(step, s, arrivals[..n]), arrivals[n].frame, arrivals[n].time);
    }
  }

  // ---------------------------------------------------------------- the client

  const MAX_ATTEMPTS := 5

  const STEP_TIMEOUT := 10_000

  /** Four backoffs and five times dialling, writing and reading, each at its limit. */
  const RETRY_WINDOW := 157_500

  /** The wait before attempt k: half a second, doubled each time, at most ten seconds. */
  function Backoff(attempt: nat): nat
    requires attempt > 0
  {
    var doubled := 500 * Power2(attempt - 1);
    if doubled < 10_000 then doubled else 10_000
  }

  function Power2(n: nat): nat {
    if n == 0 then 1 else 2 * Power2(n - 1)
  }

  datatype ReplyKind<R> = ParseResult(results: seq<(string, R)>) | ErrorReply | OtherType

  /**
   What one attempt meets: a cancelled wait, the dial, the write, what is read in answer to the
   oldest unanswered frame on the connection (if anything), and how long each took.
   */
  datatype Attempt<R> = Attempt(
    cancelled: bool, dialed: bool, written: bool, answer: Frame -> Option<(string, ReplyKind<R>)>,
    dialTime: nat, writeTime: nat, readTime: nat)

  predicate WithinTimeouts<R>(a: Attempt<R>) {
    a.dialTime <= STEP_TIMEOUT && a.writeTime <= STEP_TIMEOUT && a.readTime <= STEP_TIMEOUT
  }

  datatype Outcome<R> = Parses(results: seq<(string, R)>) | BatchTooLarge | WaitCancelled | WrongReply | Exhausted

  datatype Stats = Stats(attempts: nat, retries: nat, reconnects: nat, batches: nat, records: nat)

  /** The attempt ends the call: its wait is cancelled, or a whole answer comes back. */
  predicate Decisive<R>(request: Frame, connected: bool, a: Attempt<R>, k: nat) {
    (k > 0 && a.cancelled) || ((connected || a.dialed) && a.written && a.answer(request).Some?)
  }

  function Verdict<R>(request: Frame, a: Attempt<R>, k: nat): Outcome<R>
    requires (k > 0 && a.cancelled) || a.answer(request).Some?
  {
    if k > 0 && a.cancelled then WaitCancelled
    else if a.answer(request).value.0 != FrameId(request) || !a.answer(request).value.1.ParseResult? then WrongReply
    else Parses(a.answer(request).value.1.results)
  }

  /** The first decisive attempt settles the call. */
  function Settle<R>(request: Frame, connected: bool, env: seq<Attempt<R>>, k: nat): Outcome<R>
    decreases |env| - k
  {
    if k >= |env| then Exhausted
    else if Decisive(request, k == 0 && connected, env[k], k) then Verdict(request, env[k], k)
    else Settle(request, connected, env, k + 1)
  }

  lemma SettleStep<R>(request: Frame, connected: bool, env: seq<Attempt<R>>, k: nat)
    ensures k >= |env| ==> Settle(request, connected, env, k) == Exhausted
    ensures k < |env| ==>
              Settle(request, connected, env, k)
              == if Decisive(request, k == 0 && connected, env[k], k) then Verdict(request, env[k], k)
                 else Settle(request, connected, env, k + 1)
  {
  }

  ghost predicate SentWithin(sends: seq<int>, start: int, finish: int) {
    forall k :: 0 <= k < |sends| ==> start <= sends[k] <= finish
  }

  lemma NothingSent(start: int, finish: int)
    ensures SentWithin([], start, finish)
  {
  }

  lemma SentLonger(sends: seq<int>, start: int, middle: int, finish: int)
    requires SentWithin(sends, start, middle) && middle <= finish
    ensures SentWithin(sends, start, finish)
  {
  }

  lemma SentLater(sends: seq<int>, more: seq<int>, start: int, middle: int, finish: int)
    requires SentWithin(sends, start, middle) && SentWithin(more, middle, finish) && start <= middle <= finish
    ensures SentWithin(sends + more, start, finish)
  {
  }

  class WSParser<R> {
    var connected: bool
    var everConnected: bool
    var stats: Stats
    /** The frames written on the open connection whose answer has not been read, oldest first. */
    var wire: seq<Frame>

    constructor ()
      ensures Valid() && !connected && stats == Stats(0, 0, 0, 0, 0)
    {
      connected, everConnected := false, false;
      stats := Stats(0, 0, 0, 0, 0);
      wire := [];
    }

    /** No call leaves an unread answer behind for the next one to take for its own. */
    ghost predicate Valid()
      reads this
    {
      (connected ==> wire == [] && everConnected) && stats.retries <= stats.attempts
    }

    method Connect(dialed: bool)
      requires Valid()
      modifies this
      ensures Valid() && connected == (old(connected) || dialed)
      ensures stats == if !old(connected) && dialed && old(everConnected)
                       then old(stats).(reconnects := old(stats).reconnects + 1) else old(stats)
    {
      if connected || !dialed {
        return;
      }
      if everConnected {
        stats := stats.(reconnects := stats.reconnects + 1);
      }
      everConnected, connected := true, true;
      wire := [];
    }

    method Close()
      modifies this`connected
      ensures !connected
    {
      connected := false;
    }

    /** One attempt: connect if need be, write the request, read one answer; any failure closes the connection. */
    method Exchange(request: Frame, a: Attempt<R>, ghost start: int)
      returns (reply: Option<(string, ReplyKind<R>)>, ghost sent: seq<int>, ghost finish: int)
      requires Valid() && WithinTimeouts(a)
      modifies this
      ensures Valid() && connected == reply.Some?
      ensures reply == if (old(connected) || a.dialed) && a.written then a.answer(request) else None
      ensures |sent| <= 1 && start <= finish <= start + 3 * STEP_TIMEOUT
      ensures SentWithin(sent, start, finish)
      ensures stats == old(stats).(reconnects := stats.reconnects)
    {
      sent, finish := [], start + a.dialTime;
      Connect(a.dialed);
      if !connected {
        return None, sent, finish;
      }
      sent := [finish];
      wire := wire + [request];
      finish := finish + a.writeTime;
      if !a.written {
        Close();
        return None, sent, finish;
      }
      finish := finish + a.readTime;
      reply := a.answer(wire[0]);
      if reply.None? {
        Close();
        return None, sent, finish;
      }
      wire := wire[1..];
    }

    /**
     The first decisive attempt settles the call; without one it gives up. Every copy of the
     request leaves within the retry window, and at most five leave.
     */
    method ParseBatch(request: Frame, size: nat, env: seq<Attempt<R>>, ghost start: int)
      returns (outcome: Outcome<R>, ghost sends: seq<int>, ghost finish: int)
      requires Valid() && |env| == MAX_ATTEMPTS && forall k :: 0 <= k < |env| ==> WithinTimeouts(env[k])
      modifies this
      ensures Valid()
      ensures outcome == if size == 0 then Parses([]) else if size > MAX_BATCH then BatchTooLarge
                         else Settle(request, old(connected), env, 0)
      ensures size == 0 || size > MAX_BATCH ==> sends == [] && stats == old(stats)
      ensures |sends| <= MAX_ATTEMPTS && start <= finish <= start + RETRY_WINDOW
      ensures SentWithin(sends, start, finish)
      ensures stats.batches == old(stats).batches + (if outcome.Parses? && size > 0 then 1 else 0)
      ensures stats.records == old(stats).records + (if outcome.Parses? then size else 0)
      ensures 0 < size <= MAX_BATCH ==> connected == (outcome.Parses? || outcome.WrongReply?)
    {
      hide Settle, WindowOf, Backoff, SentWithin;
      NoWindow();
      sends, finish := [], start;
      NothingSent(start, start);
      if size == 0 {
        return Parses([]), sends, finish;
      }
      if size > MAX_BATCH {
        return BatchTooLarge, sends, finish;
      }
      var attempt := 0;
      while attempt < MAX_ATTEMPTS
        invariant 0 <= attempt <= MAX_ATTEMPTS && Valid()
        invariant connected == (attempt == 0 && old(connected))
        invariant Settle(request, old(connected), env, 0) == Settle(request, old(connected), env, attempt)
        invariant |sends| <= attempt && start <= finish <= start + WindowOf(attempt) <= start + RETRY_WINDOW
        invariant SentWithin(sends, start, finish)
        invariant stats.batches == old(stats).batches && stats.records == old(stats).records
      {
        WindowFits(attempt + 1);
        SettleStep(request, old(connected), env, attempt);
        stats := stats.(attempts := stats.attempts + 1);
        if attempt > 0 {
          stats := stats.(retries := stats.retries + 1);
          SentLonger(sends, start, finish, finish + Backoff(attempt));
          finish := finish + Backoff(attempt);
          if env[attempt].cancelled {
            return WaitCancelled, sends, finish;
          }
        }
        var reply, sent, done := Exchange(request, env[attempt], finish);
        SentLater(sends, sent, start, finish, done);
        sends, finish := sends + sent, done;
        if reply.Some? {
          if reply.value.0 != FrameId(request) || !reply.value.1.ParseResult? {
            return WrongReply, sends, finish;
          }
          stats := stats.(batches := stats.batches + 1, records := stats.records + size);
          return Parses(reply.value.1.results), sends, finish;
        }
        attempt := attempt + 1;
      }
      SettleStep(request, old(connected), env, attempt);
      outcome := Exhausted;
    }
  }

  /** The longest that the first k attempts can take. */
  function WindowOf(k: nat): nat {
    if k == 0 then 0 else WindowOf(k - 1) + (if k > 1 then Backoff(k - 1) else 0) + 3 * STEP_TIMEOUT
  }

  lemma NoWindow()
    ensures WindowOf(0) == 0
  {
  }

  /** The worst case over five attempts is 157.5 seconds, well inside the cache's ten minutes. */
  lemma WindowFits(k: nat)
    requires 0 < k <= MAX_ATTEMPTS
    ensures WindowOf(k) == WindowOf(k - 1) + (if k > 1 then Backoff(k - 1) else 0) + 3 * STEP_TIMEOUT
    ensures WindowOf(k) <= WindowOf(MAX_ATTEMPTS) == RETRY_WINDOW < CACHE_TTL
  {
    assert Power2(0) == 1 && Power2(1) == 2 && Power2(2) == 4 && Power2(3) == 8;
    assert Backoff(1) == 500 && Backoff(2) == 1000 && Backoff(3) == 2000 && Backoff(4) == 4000;
    assert WindowOf(1) == 30_000 && WindowOf(2) == 60_500 && WindowOf(3) == 91_500 && WindowOf(4) == 123_500;
  }

  // ---------------------------------------------------------------- one call, one application

  /** Every copy of the request that the sidecar handles left within the call's window and arrived at most `delay` later. */
  ghost predicate CopiesOf(arrivals: seq<Arrival>, request: Frame, sends: seq<int>, delay: nat)
    requires request.Frame?
  {
    forall k :: 0 <= k < |arrivals| && FrameId(arrivals[k].frame) == request.requestId ==>
      arrivals[k].frame == request && exists t :: t in sends && t <= arrivals[k].time <= t + delay
  }

  ghost predicate Fresh<R>(log: seq<Application<R>>, id: string) {
    forall i :: 0 <= i < |log| ==> log[i].entry.id != id
  }

  lemma CopiesApplyOnce<M, R>(step: Miner<M, R>, s: ServerState<M, R>, arrivals: seq<Arrival>, request: Frame,
                              sends: seq<int>, start: int, delay: nat, i: nat, j: nat)
    requires Good(s) && Timely(s, arrivals) && WellFormed(request) && Fresh(s.log, request.requestId)
    requires SentWithin(sends, start, start + RETRY_WINDOW) && RETRY_WINDOW + delay <= CACHE_TTL
    requires CopiesOf(arrivals, request, sends, delay)
    requires |Serve(step, s, arrivals).log| - |s.log| <= MAX_CACHE
    requires i <= j < |Serve(step, s, arrivals).log|
    requires Serve(step, s, arrivals).log[i].entry.id == Serve(step, s, arrivals).log[j].entry.id == request.requestId
    ensures i == j && Some(Serve(step, s, arrivals).log[i].records) == request.records
  {
    ServeKeepsGood(step, s, arrivals);
    var k := ApplicationHasArrival(step, s, arrivals, i);
    var l := ApplicationHasArrival(step, s, arrivals, j);
    assert start <= arrivals[k].time && arrivals[l].time <= start + CACHE_TTL;
  }

  /**
   However often a batch is resent, whichever replies are lost, whatever other clients do in
   between and however late the last copy is handled (up to 442.5 seconds after it was sent):
   the miner is advanced by this batch at most once, and every positive reply carries exactly
   the results that one advance computed.
   */
  lemma OneCallOneApplication<M, R>(step: Miner<M, R>, m: M, s: ServerState<M, R>, arrivals: seq<Arrival>, request: Frame,
                                    sends: seq<int>, start: int, delay: nat)
    requires Good(s) && Faithful(step, m, s) && Timely(s, arrivals) && WellFormed(request) && Fresh(s.log, request.requestId)
    requires SentWithin(sends, start, start + RETRY_WINDOW) && RETRY_WINDOW + delay <= CACHE_TTL
    requires CopiesOf(arrivals, request, sends, delay)
    requires |Serve(step, s, arrivals).log| - |s.log| <= MAX_CACHE
    ensures var log := Serve(step, s, arrivals).log;
            forall i, j :: 0 <= i < |log| && 0 <= j < |log| && log[i].entry.id == log[j].entry.id == request.requestId ==> i == j
    ensures Faithful(step, m, Serve(step, s, arrivals))
    ensures forall k :: 0 <= k < |arrivals| && arrivals[k].frame == request && Reply(step, s, arrivals, k).Parsed? ==>
              exists i :: AnsweredBy(step, m, Serve(step, s, arrivals), request, i, Reply(step, s, arrivals, k))
  {
    var log := Serve(step, s, arrivals).log;
    forall i, j | 0 <= i < |log| && 0 <= j < |log| && log[i].entry.id == log[j].entry.id == request.requestId
      ensures i == j
    {
      CopiesApplyOnce(step, s, arrivals, request, sends, start, delay, if i < j then i else j, if i < j then j else i);
    }
    ServeKeepsFaithful(step, m, s, arrivals);
    forall k | 0 <= k < |arrivals| && arrivals[k].frame == request && Reply(step, s, arrivals, k).Parsed?
      ensures exists i :: AnsweredBy(step, m, Serve(step, s, arrivals), request, i, Reply(step, s, arrivals, k))
    {
      var i := ReplyComesFromLog(step, s, arrivals, k);
      CopiesApplyOnce(step, s, arrivals, request, sends, start, delay, i, i);
      assert AnsweredBy(step, m, Serve(step, s, arrivals), request, i, Reply(step, s, arrivals, k));
    }
  }

  /** The reply holds the results of application i, which mined exactly the request's records. */
  ghost predicate AnsweredBy<M, R>(step: Miner<M, R>, m: M, s: ServerState<M, R>, request: Frame, i: nat, reply: Response<R>)
    requires request.Frame?
  {
    && i < |s.log| && s.log[i].entry.id == request.requestId && request.records == Some(s.log[i].records) && LogValid(s.log)
    && reply == Parsed(request.requestId, Mine(step, MinerAfter(step, m, s.log[..i]), s.log[i].records).1)
  }

  lemma ReplyComesFromLog<M, R>(step: Miner<M, R>, s: ServerState<M, R>, arrivals: seq<Arrival>, k: nat) returns (i: nat)
    requires Good(s) && Timely(s, arrivals) && k < |arrivals| && WellFormed(arrivals[k].frame) && Reply(step, s, arrivals, k).Parsed?
    ensures i < |Serve(step, s, arrivals).log|
    ensures Serve(step, s, arrivals).log[i].entry.id == arrivals[k].frame.requestId
    ensures Serve(step, s, arrivals).log[i].entry.response == Reply(step, s, arrivals, k)
  {
    ServeKeepsGood(step, s, arrivals[..k]);
    var before := Serve(step, s, arrivals[..k]);
    assert before.clock <= arrivals[k].time;
    i := ReplyIsAnApplication(step, before, arrivals[k].frame, arrivals[k].time);
    assert arrivals[..k + 1][..k] == arrivals[..k];
    assert Serve(step, s, arrivals[..k + 1]) == Handle(step, before, arrivals[k].frame, arrivals[k].time).0;
    LaterLogExtends(step, s, arrivals, k + 1);
  }

  // ---------------------------------------------------------------- what the client hands on

  /** A response of the sidecar as the client reads it. */
  function OnTheWire<R>(response: Response<R>): (string, ReplyKind<R>) {
    match response
    case Parsed(id, results) => (id, ParseResult(results))
    case Refused(id) => (id, ErrorReply)
  }

  /**
   The wire: what is read in answer to a frame is what the sidecar answered to a copy of that
   frame. That the frame is the call's own is not assumed: `Exchange` reads the answer to the
   oldest unanswered frame, and no call leaves one behind for the next.
   */
  ghost predicate Wired<M, R>(step: Miner<M, R>, s: ServerState<M, R>, arrivals: seq<Arrival>, env: seq<Attempt<R>>) {
    forall a, f :: a in env && a.answer(f).Some? ==> exists k :: Answer(step, s, arrivals, f, a, k)
  }

  ghost predicate Answer<M, R>(step: Miner<M, R>, s: ServerState<M, R>, arrivals: seq<Arrival>, f: Frame, a: Attempt<R>, k: int) {
    0 <= k < |arrivals| && arrivals[k].frame == f && a.answer(f) == Some(OnTheWire(Reply(step, s, arrivals, k)))
  }

  lemma {:induction false} SettledByAnAttempt<R>(request: Frame, connected: bool, env: seq<Attempt<R>>, k: nat)
    requires Settle(request, connected, env, k).Parses?
    ensures exists a :: a in env && a.answer(request) == Some((FrameId(request), ParseResult(Settle(request, connected, env, k).results)))
    decreases |env| - k
  {
    if Decisive(request, k == 0 && connected, env[k], k) {
      assert env[k] in env;
    } else {
      SettledByAnAttempt(request, connected, env, k + 1);
    }
  }

  /**
   What `ParseBatch` returns to its caller is what the one application of the batch computed:
   the client's outcome and the sidecar's log, over lost replies, reconnects and late copies.
   */
  lemma ReturnedResultsAreTheApplication<M, R>(
    step: Miner<M, R>, m: M, s: ServerState<M, R>, arrivals: seq<Arrival>, request: Frame, sends: seq<int>, start: int, delay: nat,
    connected: bool, env: seq<Attempt<R>>)
    requires Good(s) && Faithful(step, m, s) && Timely(s, arrivals) && WellFormed(request) && Fresh(s.log, request.requestId)
    requires SentWithin(sends, start, start + RETRY_WINDOW) && RETRY_WINDOW + delay <= CACHE_TTL
    requires CopiesOf(arrivals, request, sends, delay)
    requires |Serve(step, s, arrivals).log| - |s.log| <= MAX_CACHE
    requires Wired(step, s, arrivals, env)
    ensures var outcome := Settle(request, connected, env, 0);
            outcome.Parses? ==>
              exists i :: AnsweredBy(step, m, Serve(step, s, arrivals), request, i, Parsed(request.requestId, outcome.results))
  {
    hide AnsweredBy, Good, Faithful, Timely, CopiesOf, Fresh;
    var outcome := Settle(request, connected, env, 0);
    if outcome.Parses? {
      SettledByAnAttempt(request, connected, env, 0);
      var a :| a in env && a.answer(request) == Some((request.requestId, ParseResult(outcome.results)));
      var k :| Answer(step, s, arrivals, request, a, k);
      OneCallOneApplication(step, m, s, arrivals, request, sends, start, delay);
      assert Reply(step, s, arrivals, k) == Parsed(request.requestId, outcome.results);
    }
  }
}
