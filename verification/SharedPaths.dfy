/**
 The paths of the causal search as the source stores them (reasoning/candidates.go:589-608).
 `path = append(path, nodeID)` writes into the array of the caller's slice while that has room,
 and the finished slice is stored without a copy, so the branches below one node can share an
 array. `CausalPath` is the search over values; here is which of its paths are read back intact.
 */
module SharedPaths {
  import opened Domain
  import opened Text
  import opened Sequences
  import opened Sorting
  import opened CausalModel
  import opened CausalPath

  // ---------------------------------------------------------------- slices

  /** Every array that was ever allocated; its length is its capacity. */
  type Heap = seq<seq<string>>

  datatype Slice = Slice(block: nat, len: nat)

  const NIL := Slice(0, 0)

  /** The capacity a full slice of some length grows to. */
  type Growth = nat -> nat

  ghost predicate Grows(grow: Growth) {
    forall n: nat :: n < grow(n)
  }

  /** How Go's append grows a slice of strings, up to a few hundred elements. */
  function Doubling(n: nat): nat {
    if n == 0 then 1 else 2 * n
  }

  predicate Valid(h: Heap, s: Slice) {
    s.len > 0 ==> s.block < |h| && s.len <= |h[s.block]|
  }

  function Cap(h: Heap, s: Slice): nat
    requires Valid(h, s)
  {
    if s.len == 0 then 0 else |h[s.block]|
  }

  function Read(h: Heap, s: Slice): (values: seq<string>)
    requires Valid(h, s)
    ensures |values| == s.len
  {
    if s.len == 0 then [] else h[s.block][..s.len]
  }

  function Blank(n: nat): seq<string> {
    seq(n, _ => "")
  }

  /** The same arrays with the same capacities, and perhaps more of them. */
  predicate Extends(h: Heap, k: Heap) {
    |h| <= |k| && forall a :: 0 <= a < |h| ==> |k[a]| == |h[a]|
  }

  function Append(grow: Growth, h: Heap, s: Slice, x: string): (r: (Heap, Slice))
    requires Valid(h, s) && Grows(grow)
    ensures Extends(h, r.0) && Valid(r.0, r.1) && r.1.len == s.len + 1
  {
    if s.len < Cap(h, s) then (h[s.block := h[s.block][s.len := x]], Slice(s.block, s.len + 1))
    else (h + [Read(h, s) + [x] + Blank(grow(s.len) - s.len - 1)], Slice(|h|, s.len + 1))
  }

  /** The capacity after `n` single appends to nothing. */
  function Room(grow: Growth, n: nat): (room: nat)
    requires Grows(grow)
    ensures room >= n
  {
    if n == 0 then 0
    else
      var room := Room(grow, n - 1);
      if n - 1 < room then room else grow(n - 1)
  }

  /** The length at which the array of a slice of length `n` was allocated: the last full length before. */
  function Base(grow: Growth, n: nat): (base: nat)
    requires Grows(grow)
    ensures base <= n && (n > 0 ==> base < n)
  {
    if n == 0 then 0 else if Room(grow, n - 1) == n - 1 then n - 1 else Base(grow, n - 1)
  }

  lemma {:induction false} RoomKeeps(grow: Growth, n: nat, m: nat)
    requires Grows(grow) && n <= m <= Room(grow, n)
    ensures Room(grow, m) == Room(grow, n)
    decreases m
  {
    if n < m {
      RoomKeeps(grow, n, m - 1);
    }
  }

  lemma {:induction false} RoomIsMonotone(grow: Growth, n: nat, m: nat)
    requires Grows(grow) && n <= m
    ensures Room(grow, n) <= Room(grow, m)
    decreases m
  {
    if n < m {
      RoomIsMonotone(grow, n, m - 1);
    }
  }

  /** A slice shares its array with its prefix of length n + 1 exactly when it still fits. */
  lemma {:induction false} BaseOrRoom(grow: Growth, n: nat, m: nat)
    requires Grows(grow) && n < m
    ensures Base(grow, m) <= n <==> m <= Room(grow, n + 1)
    decreases m
  {
    if m > n + 1 {
      BaseOrRoom(grow, n, m - 1);
      if m - 1 <= Room(grow, n + 1) {
        RoomKeeps(grow, n + 1, m - 1);
      } else {
        RoomIsMonotone(grow, n + 1, m - 1);
      }
    }
  }

  lemma SpareBeyondBase(grow: Growth, d: nat, m: nat)
    requires Grows(grow) && Base(grow, m) < d < m
    ensures Room(grow, d) > d
  {
    BaseOrRoom(grow, d - 1, m);
  }

  // ---------------------------------------------------------------- the walk over slices

  function Shared(grow: Growth, g: Graph, h: Heap, s: Slice, seen: set<string>, id: string): (r: (Heap, seq<Slice>))
    requires Valid(h, s) && Grows(grow)
    ensures Extends(h, r.0)
    decreases |g.observed - seen|, 0
  {
    if id in seen || id !in g.observed then (h, [])
    else
      CausalPath.Shrinks(g, seen, id);
      var (h1, s1) := Append(grow, h, s, id);
      var kids := Open(g, seen + {id}, Next(g, id));
      if kids == [] then (h1, if s1.len >= 2 then [s1] else [])
      else SharedAll(grow, g, h1, s1, seen + {id}, kids)
  }

  function SharedAll(grow: Growth, g: Graph, h: Heap, s: Slice, seen: set<string>, ids: seq<string>): (r: (Heap, seq<Slice>))
    requires Valid(h, s) && Grows(grow)
    ensures Extends(h, r.0)
    decreases |g.observed - seen|, |ids| + 1
  {
    if ids == [] then (h, [])
    else
      var (h1, first) := Shared(grow, g, h, s, seen, ids[0]);
      var (h2, rest) := SharedAll(grow, g, h1, s, seen, ids[1..]);
      (h2, first + rest)
  }

  /** From position `from` on, every node is the last that was open below its predecessors. */
  predicate LastFrom(g: Graph, p: seq<string>, from: nat)
    requires from > 0
  {
    forall d :: from <= d < |p| ==> LastOpen(g, p, d)
  }

  predicate LastOpen(g: Graph, p: seq<string>, d: nat)
    requires 0 < d < |p|
  {
    var kids := Open(g, Elements(p[..d]), Next(g, p[d - 1]));
    kids != [] && p[d] == kids[|kids| - 1]
  }

  function Later(a: nat, b: nat): nat {
    if a > b then a else b
  }

  /** What a piece of the walk leaves alone: other arrays, and its own array up to where it started. */
  predicate Spared(h: Heap, s: Slice, k: Heap)
    requires Valid(h, s)
  {
    && Extends(h, k)
    && (forall a :: 0 <= a < |h| && (a != s.block || s.len == Cap(h, s)) ==> k[a] == h[a])
    && Read(k, s) == Read(h, s)
  }

  /** A stored path lies in the array it started in while it fits there, and in a later one otherwise. */
  predicate Placed(h: Heap, s: Slice, k: Heap, sl: Slice, p: seq<string>)
    requires Valid(h, s)
  {
    && Valid(k, sl) && sl.len == |p| > s.len
    && (if |p| <= Cap(h, s) then sl.block == s.block else sl.block >= |h|)
  }

  predicate Intact(k: Heap, sl: Slice, p: seq<string>) {
    Valid(k, sl) && Read(k, sl) == p
  }

  /** What `Visited` says of one stored path. */
  ghost predicate Accounted(grow: Growth, g: Graph, h: Heap, s: Slice, k: Heap, sl: Slice, p: seq<string>)
    requires Valid(h, s) && Grows(grow)
  {
    Placed(h, s, k, sl, p) && (Intact(k, sl, p) <==> LastFrom(g, p, Later(s.len, Base(grow, |p|)) + 1))
  }

  /** What `VisitedAll` says of one, when the children end with `last`. */
  ghost predicate AccountedBelow(grow: Growth, g: Graph, h: Heap, s: Slice, k: Heap, sl: Slice, p: seq<string>, last: string)
    requires Valid(h, s) && Grows(grow)
  {
    && Placed(h, s, k, sl, p)
    && (Intact(k, sl, p) <==>
          (|p| <= Cap(h, s) ==> p[s.len] == last) && LastFrom(g, p, Later(s.len, Base(grow, |p|)) + 1))
  }

  predicate Holds(grow: Growth, h: Heap, s: Slice, path: seq<string>)
    requires Grows(grow)
  {
    Valid(h, s) && Read(h, s) == path && Cap(h, s) == Room(grow, |path|)
  }

  lemma AppendHolds(grow: Growth, h: Heap, s: Slice, path: seq<string>, x: string)
    requires Grows(grow) && Holds(grow, h, s, path)
    ensures var (h1, s1) := Append(grow, h, s, x);
            Holds(grow, h1, s1, path + [x]) && Spared(h, s, h1) && (s.len < Cap(h, s) ==> s1.block == s.block && h1[s.block][s.len] == x)
            && (s.len == Cap(h, s) ==> s1.block == |h| && |h1| == |h| + 1)
  {
  }

  lemma SparedTransitive(h: Heap, s: Slice, k: Heap, l: Heap)
    requires Valid(h, s) && Spared(h, s, k) && Spared(k, s, l)
    ensures Spared(h, s, l)
  {
  }

  /** What goes on below an appended node is spared by what was spared before it. */
  lemma SparedAbove(h: Heap, s: Slice, k: Heap, t: Slice, l: Heap)
    requires Valid(h, s) && Spared(h, s, k) && Valid(k, t) && t.len == s.len + 1 && Spared(k, t, l)
    requires s.len < Cap(h, s) ==> t.block == s.block
    requires s.len == Cap(h, s) ==> t.block == |h|
    ensures Spared(h, s, l)
    ensures s.len < Cap(h, s) ==> l[s.block][s.len] == k[s.block][s.len]
  {
    if s.len < Cap(h, s) {
      assert Read(l, t) == Read(k, t);
      assert l[s.block][..t.len][s.len] == k[s.block][..t.len][s.len];
      assert forall i :: 0 <= i < s.len ==> Read(l, s)[i] == Read(l, t)[i] == Read(k, t)[i] == Read(k, s)[i];
      assert Read(l, s) == Read(k, s);
    }
  }

  // ---------------------------------------------------------------- every stored path is accounted for

  /** The step from the children of a node to the node itself. */
  lemma FromBelow(grow: Growth, g: Graph, h: Heap, s: Slice, path: seq<string>, id: string, k: Heap, sl: Slice, p: seq<string>)
    requires Grows(grow) && Holds(grow, h, s, path) && path + [id] <= p && |p| > |path| + 1
    requires var (h1, s1) := Append(grow, h, s, id); var kids := Open(g, Elements(path + [id]), Next(g, id));
             kids != [] && AccountedBelow(grow, g, h1, s1, k, sl, p, kids[|kids| - 1])
    ensures Accounted(grow, g, h, s, k, sl, p)
  {
    hide Intact, Open, Append, Spared, Room;
    var n := |path|;
    AppendHolds(grow, h, s, path, id);
    BaseOrRoom(grow, n, |p|);
    assert p[..n + 1] == path + [id] && p[n] == id;
    var kids := Open(g, Elements(path + [id]), Next(g, id));
    assert LastOpen(g, p, n + 1) <==> p[n + 1] == kids[|kids| - 1];
    SplitFrom(g, p, n + 1);
  }

  lemma SplitFrom(g: Graph, p: seq<string>, d: nat)
    requires 0 < d < |p|
    ensures LastFrom(g, p, d) <==> LastOpen(g, p, d) && LastFrom(g, p, d + 1)
  {
  }

  /** A leaf is stored as it was written. */
  lemma LeafIsAccounted(grow: Growth, g: Graph, h: Heap, s: Slice, path: seq<string>, id: string)
    requires Grows(grow) && Holds(grow, h, s, path)
    ensures var (h1, s1) := Append(grow, h, s, id); Accounted(grow, g, h, s, h1, s1, path + [id])
  {
    AppendHolds(grow, h, s, path, id);
  }

  lemma {:induction false} SharedVisit(grow: Growth, g: Graph, h: Heap, s: Slice, path: seq<string>, seen: set<string>, id: string)
    requires Grows(grow) && Holds(grow, h, s, path) && seen == Elements(path)
    ensures var (k, slices) := Shared(grow, g, h, s, seen, id); var walks := Walk(g, path, seen, id);
            && Spared(h, s, k) && |slices| == |walks|
            && (forall i :: 0 <= i < |walks| ==> path + [id] <= walks[i] && Accounted(grow, g, h, s, k, slices[i], walks[i]))
            && (id in g.observed && id !in seen && s.len < Cap(h, s) ==> k[s.block][s.len] == id)
    decreases |g.observed - seen|, 0
  {
    hide Accounted, AccountedBelow, Append, Open, Spared, SharedAll, WalkAll, Room;
    if id in seen || id !in g.observed {
      NothingVisited(h, s);
    } else {
      Shrinks(g, seen, id);
      var (h1, s1) := Append(grow, h, s, id);
      var grown := path + [id];
      assert Elements(grown) == seen + {id};
      var kids := Open(g, seen + {id}, Next(g, id));
      AppendHolds(grow, h, s, path, id);
      if kids == [] {
        LeafIsAccounted(grow, g, h, s, path, id);
      } else {
        SharedVisitAll(grow, g, h1, s1, grown, seen + {id}, kids);
        var (k, slices) := SharedAll(grow, g, h1, s1, seen + {id}, kids);
        var walks := WalkAll(g, grown, seen + {id}, kids);
        SparedAbove(h, s, h1, s1, k);
        forall i | 0 <= i < |walks|
          ensures path + [id] <= walks[i] && Accounted(grow, g, h, s, k, slices[i], walks[i])
        {
          FromBelow(grow, g, h, s, path, id, k, slices[i], walks[i]);
        }
      }
    }
  }

  lemma LastChild(grow: Growth, g: Graph, h: Heap, s: Slice, path: seq<string>, k: Heap, sl: Slice, p: seq<string>, id: string)
    requires Grows(grow) && Holds(grow, h, s, path) && path + [id] <= p && Accounted(grow, g, h, s, k, sl, p)
    ensures path <= p && |p| > |path| && AccountedBelow(grow, g, h, s, k, sl, p, id)
  {
    hide Intact, LastFrom;
    assert p[|path|] == id;
  }

  lemma StillHolds(grow: Growth, h: Heap, s: Slice, path: seq<string>, k: Heap)
    requires Grows(grow) && Holds(grow, h, s, path) && Spared(h, s, k)
    ensures Holds(grow, k, s, path)
  {
  }

  lemma LaterChild(grow: Growth, g: Graph, h: Heap, s: Slice, h1: Heap, k: Heap, sl: Slice, p: seq<string>, last: string)
    requires Grows(grow) && Valid(h, s) && Spared(h, s, h1) && Valid(h1, s) && AccountedBelow(grow, g, h1, s, k, sl, p, last)
    ensures AccountedBelow(grow, g, h, s, k, sl, p, last)
  {
    hide Intact, LastFrom;
  }

  /**
   What later children do to a path stored below an earlier one: nothing if it has left the
   array, otherwise they overwrite its next node, with the same node only for a repeated child.
   */
  lemma EarlierChild(grow: Growth, g: Graph, h: Heap, s: Slice, path: seq<string>, h1: Heap, k: Heap, sl: Slice, p: seq<string>,
                     id: string, last: string, twin: Slice)
    requires Grows(grow) && Holds(grow, h, s, path) && path != [] && path + [id] <= p && Accounted(grow, g, h, s, h1, sl, p)
    requires Spared(h, s, h1) && Valid(h1, s) && Spared(h1, s, k)
    requires s.len < Cap(h, s) ==> k[s.block][s.len] == last
    requires id == last ==> AccountedBelow(grow, g, h1, s, k, twin, p, last)
    ensures path <= p && |p| > |path| && AccountedBelow(grow, g, h, s, k, sl, p, last)
  {
    hide LastFrom;
    assert p[|path|] == id;
    if |p| > Cap(h, s) {
      assert k[sl.block] == h1[sl.block];
    } else if id == last {
      assert twin == sl;
    } else {
      assert Read(k, sl)[s.len] == last;
    }
  }

  lemma {:induction false} WalkInAll(g: Graph, path: seq<string>, seen: set<string>, ids: seq<string>, id: string, p: seq<string>)
    requires id in ids && p in Walk(g, path, seen, id)
    ensures p in WalkAll(g, path, seen, ids)
    decreases |ids|
  {
    if id != ids[0] {
      WalkInAll(g, path, seen, ids[1..], id, p);
    }
  }

  /** Where the same path is stored again, when the first child is repeated as the last. */
  lemma Twin(g: Graph, path: seq<string>, seen: set<string>, ids: seq<string>, p: seq<string>, rest: seq<Slice>, first: Slice)
    returns (twin: Slice)
    requires |ids| > 1 && p in Walk(g, path, seen, ids[0]) && |rest| == |WalkAll(g, path, seen, ids[1..])|
    ensures ids[0] == ids[|ids| - 1] ==>
              exists j :: 0 <= j < |rest| && rest[j] == twin && WalkAll(g, path, seen, ids[1..])[j] == p
  {
    twin := first;
    if ids[0] == ids[|ids| - 1] {
      assert ids[0] == ids[1..][|ids| - 2];
      WalkInAll(g, path, seen, ids[1..], ids[0], p);
      var tail := WalkAll(g, path, seen, ids[1..]);
      var j :| 0 <= j < |tail| && tail[j] == p;
      twin := rest[j];
    }
  }

  lemma NothingVisited(h: Heap, s: Slice)
    requires Valid(h, s)
    ensures Spared(h, s, h)
  {
  }

  lemma {:induction false} SharedVisitAll(grow: Growth, g: Graph, h: Heap, s: Slice, path: seq<string>, seen: set<string>, ids: seq<string>)
    requires Grows(grow) && Holds(grow, h, s, path) && seen == Elements(path) && path != [] && ids != []
    requires forall x :: x in ids ==> x in g.observed && x !in seen
    ensures var (k, slices) := SharedAll(grow, g, h, s, seen, ids); var walks := WalkAll(g, path, seen, ids);
            && Spared(h, s, k) && |slices| == |walks|
            && (forall i :: 0 <= i < |walks| ==>
                  path <= walks[i] && |walks[i]| > |path| && AccountedBelow(grow, g, h, s, k, slices[i], walks[i], ids[|ids| - 1]))
            && (s.len < Cap(h, s) ==> k[s.block][s.len] == ids[|ids| - 1])
    decreases |g.observed - seen|, |ids| + 1
  {
    hide Accounted, AccountedBelow, Spared, Open, Walk, Shared, Extends;
    assert ids[0] in ids;
    SharedVisit(grow, g, h, s, path, seen, ids[0]);
    var (h1, first) := Shared(grow, g, h, s, seen, ids[0]);
    var head := Walk(g, path, seen, ids[0]);
    if |ids| == 1 {
      assert ids[1..] == [];
      forall i | 0 <= i < |head|
        ensures path <= head[i] && |head[i]| > |path| && AccountedBelow(grow, g, h, s, h1, first[i], head[i], ids[0])
      {
        LastChild(grow, g, h, s, path, h1, first[i], head[i], ids[0]);
      }
    } else {
      assert forall x :: x in ids[1..] ==> x in ids;
      StillHolds(grow, h, s, path, h1);
      SharedVisitAll(grow, g, h1, s, path, seen, ids[1..]);
      var (k, rest) := SharedAll(grow, g, h1, s, seen, ids[1..]);
      var tail := WalkAll(g, path, seen, ids[1..]);
      SparedTransitive(h, s, h1, k);
      assert ids[1..][|ids[1..]| - 1] == ids[|ids| - 1];
      forall i | 0 <= i < |tail|
        ensures AccountedBelow(grow, g, h, s, k, rest[i], tail[i], ids[|ids| - 1])
      {
        LaterChild(grow, g, h, s, h1, k, rest[i], tail[i], ids[|ids| - 1]);
      }
      forall i | 0 <= i < |head|
        ensures path <= head[i] && |head[i]| > |path| && AccountedBelow(grow, g, h, s, k, first[i], head[i], ids[|ids| - 1])
      {
        var twin := Twin(g, path, seen, ids, head[i], rest, first[i]);
        EarlierChild(grow, g, h, s, path, h1, k, first[i], head[i], ids[0], ids[|ids| - 1], twin);
      }
      assert (first + rest)[|first|..] == rest;
    }
  }

  // ---------------------------------------------------------------- what an array holds at the end

  /** The node in place i of the last walk, in search order, that is long enough to have one. */
  function LastAt(walks: seq<seq<string>>, i: nat): Option<string> {
    if walks == [] then None
    else if |walks[|walks| - 1]| > i then Some(walks[|walks| - 1][i])
    else LastAt(walks[..|walks| - 1], i)
  }

  lemma {:induction false} LastAtSplits(a: seq<seq<string>>, b: seq<seq<string>>, i: nat)
    ensures LastAt(a + b, i) == if LastAt(b, i).Some? then LastAt(b, i) else LastAt(a, i)
  {
    if b == [] {
      assert a + b == a;
    } else {
      LastAtSplits(a, b[..|b| - 1], i);
      assert (a + b)[..|a + b| - 1] == a + b[..|b| - 1];
    }
  }

  lemma {:induction false} LastAtSome(walks: seq<seq<string>>, i: nat)
    ensures LastAt(walks, i).Some? <==> exists k :: 0 <= k < |walks| && |walks[k]| > i
    ensures LastAt(walks, i).Some? ==> exists k :: 0 <= k < |walks| && |walks[k]| > i && walks[k][i] == LastAt(walks, i).value
  {
    if walks != [] {
      var n := |walks| - 1;
      LastAtSome(walks[..n], i);
      if |walks[n]| <= i {
        assert forall k :: 0 <= k < n ==> walks[..n][k] == walks[k];
      }
    }
  }

  /** The array a piece of the walk started in: from its start on, each place holds what was written there last. */
  ghost predicate Written(h: Heap, s: Slice, k: Heap, walks: seq<seq<string>>)
    requires Valid(h, s)
  {
    Extends(h, k) && (s.len < Cap(h, s) ==> forall i :: s.len <= i < Cap(h, s) ==>
      k[s.block][i] == if LastAt(walks, i).Some? then LastAt(walks, i).value else h[s.block][i])
  }

  lemma WrittenInTurn(h: Heap, s: Slice, k: Heap, l: Heap, a: seq<seq<string>>, b: seq<seq<string>>)
    requires Valid(h, s) && Valid(k, s) && Written(h, s, k, a) && Written(k, s, l, b)
    ensures Written(h, s, l, a + b)
  {
    if s.len < Cap(h, s) {
      forall i | s.len <= i < Cap(h, s)
        ensures l[s.block][i] == if LastAt(a + b, i).Some? then LastAt(a + b, i).value else h[s.block][i]
      {
        LastAtSplits(a, b, i);
      }
    }
  }

  /** Below an appended node: the node itself, and what is written beyond it. */
  lemma WrittenAbove(grow: Growth, h: Heap, s: Slice, path: seq<string>, id: string, k: Heap, walks: seq<seq<string>>)
    requires Grows(grow) && Holds(grow, h, s, path) && walks != []
    requires forall j :: 0 <= j < |walks| ==> path + [id] <= walks[j]
    requires var (h1, s1) := Append(grow, h, s, id); Extends(h, k) && Spared(h1, s1, k) && Written(h1, s1, k, walks)
    ensures Written(h, s, k, walks)
  {
    hide LastAt;
    AppendHolds(grow, h, s, path, id);
    var (h1, s1) := Append(grow, h, s, id);
    if s.len < Cap(h, s) {
      forall i | s.len <= i < Cap(h, s)
        ensures k[s.block][i] == if LastAt(walks, i).Some? then LastAt(walks, i).value else h[s.block][i]
      {
        LastAtSome(walks, i);
        if i == s.len {
          assert |walks[0]| > i;
          assert Read(k, s1)[i] == Read(h1, s1)[i] == id;
        }
      }
    }
  }

  lemma {:induction false} VisitWrites(grow: Growth, g: Graph, h: Heap, s: Slice, path: seq<string>, seen: set<string>, id: string)
    requires Grows(grow) && Holds(grow, h, s, path) && seen == Elements(path)
    ensures Written(h, s, Shared(grow, g, h, s, seen, id).0, Walk(g, path, seen, id))
    ensures path != [] && id in g.observed && id !in seen ==> Walk(g, path, seen, id) != []
    decreases |g.observed - seen|, 0
  {
    hide Written, Append, Open, SharedAll, WalkAll, Room;
    if id in seen || id !in g.observed {
      NothingWritten(h, s);
    } else {
      Shrinks(g, seen, id);
      var (h1, s1) := Append(grow, h, s, id);
      var grown := path + [id];
      assert Elements(grown) == seen + {id};
      var kids := Open(g, seen + {id}, Next(g, id));
      AppendHolds(grow, h, s, path, id);
      SharedVisit(grow, g, h, s, path, seen, id);
      if kids == [] {
        NothingWrittenBelow(h1, s1, [grown]);
        NothingVisited(h1, s1);
        if path != [] {
          WrittenAbove(grow, h, s, path, id, h1, [grown]);
        } else {
          NoRoomNothingWritten(h, s, h1, []);
        }
      } else {
        VisitAllWrites(grow, g, h1, s1, grown, seen + {id}, kids);
        SharedVisitAll(grow, g, h1, s1, grown, seen + {id}, kids);
        WrittenAbove(grow, h, s, path, id, SharedAll(grow, g, h1, s1, seen + {id}, kids).0, WalkAll(g, grown, seen + {id}, kids));
      }
    }
  }

  lemma NothingWritten(h: Heap, s: Slice)
    requires Valid(h, s)
    ensures Written(h, s, h, [])
  {
  }

  /** A walk that ends where the slice ends writes nothing beyond it. */
  lemma NothingWrittenBelow(h: Heap, s: Slice, walks: seq<seq<string>>)
    requires Valid(h, s) && |walks| == 1 && |walks[0]| == s.len
    ensures Written(h, s, h, walks)
  {
    assert walks[..0] == [];
  }

  lemma NoRoomNothingWritten(h: Heap, s: Slice, k: Heap, walks: seq<seq<string>>)
    requires Valid(h, s) && Extends(h, k) && s.len == Cap(h, s)
    ensures Written(h, s, k, walks)
  {
  }

  lemma {:induction false} VisitAllWrites(grow: Growth, g: Graph, h: Heap, s: Slice, path: seq<string>, seen: set<string>, ids: seq<string>)
    requires Grows(grow) && Holds(grow, h, s, path) && seen == Elements(path) && path != [] && ids != []
    requires forall x :: x in ids ==> x in g.observed && x !in seen
    ensures Written(h, s, SharedAll(grow, g, h, s, seen, ids).0, WalkAll(g, path, seen, ids))
    ensures WalkAll(g, path, seen, ids) != []
    decreases |g.observed - seen|, |ids| + 1
  {
    hide Written, Open, Walk, Shared, Room;
    assert ids[0] in ids;
    VisitWrites(grow, g, h, s, path, seen, ids[0]);
    var (h1, first) := Shared(grow, g, h, s, seen, ids[0]);
    var head := Walk(g, path, seen, ids[0]);
    if |ids| == 1 {
      assert ids[1..] == [] && head + [] == head;
      NothingLeft(g, path, seen);
    } else {
      SharedVisit(grow, g, h, s, path, seen, ids[0]);
      assert forall x :: x in ids[1..] ==> x in ids;
      StillHolds(grow, h, s, path, h1);
      VisitAllWrites(grow, g, h1, s, path, seen, ids[1..]);
      WrittenInTurn(h, s, h1, SharedAll(grow, g, h1, s, seen, ids[1..]).0, head, WalkAll(g, path, seen, ids[1..]));
    }
  }

  // ---------------------------------------------------------------- what a stored path reads as

  /** The walks that pass through a prefix, in search order. */
  function Below(g: Graph, q: seq<string>): seq<seq<string>>
    requires q != []
  {
    Walk(g, q[..|q| - 1], Elements(q[..|q| - 1]), q[|q| - 1])
  }

  /**
   A found path as it is read at the end: up to the node that allocated its array it is itself,
   and from there on each place holds the node of the last walk below that node that is long enough.
   */
  function Reading(grow: Growth, g: Graph, p: seq<string>): (r: seq<string>)
    requires Grows(grow) && p != []
    ensures |r| == |p|
  {
    var q := p[..Base(grow, |p|) + 1];
    seq(|p|, i requires 0 <= i < |p| =>
      if i < |q| || LastAt(Below(g, q), i).None? then p[i] else LastAt(Below(g, q), i).value)
  }

  /** What is said of one stored path once it has left the array it started in. */
  ghost predicate ReadsAs(grow: Growth, g: Graph, h: Heap, s: Slice, k: Heap, sl: Slice, p: seq<string>)
    requires Valid(h, s) && Grows(grow)
  {
    Placed(h, s, k, sl, p) && (|p| > Cap(h, s) ==> Read(k, sl) == Reading(grow, g, p))
  }

  lemma FullBelow(grow: Growth, n: nat, m: nat)
    requires Grows(grow) && Room(grow, n) == n && n < m
    ensures Base(grow, m) >= n
    decreases m
  {
    if m > n + 1 && Room(grow, m - 1) != m - 1 {
      FullBelow(grow, n, m - 1);
    }
  }

  lemma LeafReadsAs(grow: Growth, g: Graph, h: Heap, s: Slice, path: seq<string>, id: string)
    requires Grows(grow) && Holds(grow, h, s, path)
    ensures var (h1, s1) := Append(grow, h, s, id); ReadsAs(grow, g, h, s, h1, s1, path + [id])
  {
    hide Below;
    AppendHolds(grow, h, s, path, id);
    if s.len == Cap(h, s) {
      FullBelow(grow, |path|, |path| + 1);
    }
  }

  /** A path that fits into the array its first new node allocated reads as what was written there. */
  lemma NewArrayReadsAs(grow: Growth, g: Graph, h: Heap, s: Slice, path: seq<string>, id: string, k: Heap, sl: Slice, p: seq<string>)
    requires Grows(grow) && Holds(grow, h, s, path) && s.len == Cap(h, s) && path + [id] <= p && |p| > |path| + 1
    requires var (h1, s1) := Append(grow, h, s, id);
             && Spared(h1, s1, k) && Placed(h1, s1, k, sl, p) && |p| <= Cap(h1, s1)
             && Written(h1, s1, k, Walk(g, path, Elements(path), id))
    requires p in Walk(g, path, Elements(path), id)
    ensures Read(k, sl) == Reading(grow, g, p)
  {
    hide Walk;
    var n := |path|;
    var (h1, s1) := Append(grow, h, s, id);
    AppendHolds(grow, h, s, path, id);
    BaseOrRoom(grow, n, |p|);
    FullBelow(grow, n, |p|);
    var q := p[..Base(grow, |p|) + 1];
    assert q == path + [id] && q[..n] == path && q[n] == id;
    var walks := Walk(g, path, Elements(path), id);
    assert Below(g, q) == walks;
    forall i | 0 <= i < |p|
      ensures Read(k, sl)[i] == Reading(grow, g, p)[i]
    {
      if i < n + 1 {
        assert Read(k, s1)[i] == Read(h1, s1)[i] == (path + [id])[i];
      } else {
        LastAtSome(walks, i);
        var j :| 0 <= j < |walks| && walks[j] == p;
        assert |walks[j]| > i;
      }
    }
  }

  lemma ReadsAsAbove(grow: Growth, g: Graph, h: Heap, s: Slice, path: seq<string>, id: string, k: Heap, sl: Slice, p: seq<string>)
    requires Grows(grow) && Holds(grow, h, s, path) && path + [id] <= p && |p| > |path| + 1 && Placed(h, s, k, sl, p)
    requires var (h1, s1) := Append(grow, h, s, id);
             Spared(h1, s1, k) && ReadsAs(grow, g, h1, s1, k, sl, p) && Written(h1, s1, k, Walk(g, path, Elements(path), id))
    requires p in Walk(g, path, Elements(path), id)
    ensures ReadsAs(grow, g, h, s, k, sl, p)
  {
    hide Walk, Reading, Written;
    var (h1, s1) := Append(grow, h, s, id);
    AppendHolds(grow, h, s, path, id);
    if s.len == Cap(h, s) && |p| <= Cap(h1, s1) {
      NewArrayReadsAs(grow, g, h, s, path, id, k, sl, p);
    }
  }

  lemma ReadsAsPlaced(grow: Growth, g: Graph, h: Heap, s: Slice, k: Heap, sl: Slice, p: seq<string>)
    requires Valid(h, s) && Grows(grow) && Accounted(grow, g, h, s, k, sl, p)
    ensures Placed(h, s, k, sl, p)
  {
    hide Intact, LastFrom;
  }

  lemma {:induction false} VisitReadsAs(grow: Growth, g: Graph, h: Heap, s: Slice, path: seq<string>, seen: set<string>, id: string)
    requires Grows(grow) && Holds(grow, h, s, path) && seen == Elements(path)
    ensures var (k, slices) := Shared(grow, g, h, s, seen, id); var walks := Walk(g, path, seen, id);
            |slices| == |walks| && forall i :: 0 <= i < |walks| ==> ReadsAs(grow, g, h, s, k, slices[i], walks[i])
    decreases |g.observed - seen|, 0
  {
    hide Accounted, AccountedBelow, Append, Open, Spared, SharedAll, WalkAll, Room, ReadsAs, Written, Placed, Reading;
    SharedVisit(grow, g, h, s, path, seen, id);
    if id in seen || id !in g.observed {
    } else {
      Shrinks(g, seen, id);
      var (h1, s1) := Append(grow, h, s, id);
      var grown := path + [id];
      assert Elements(grown) == seen + {id};
      var kids := Open(g, seen + {id}, Next(g, id));
      AppendHolds(grow, h, s, path, id);
      if kids == [] {
        LeafReadsAs(grow, g, h, s, path, id);
      } else {
        SharedVisitAll(grow, g, h1, s1, grown, seen + {id}, kids);
        VisitAllReadsAs(grow, g, h1, s1, grown, seen + {id}, kids);
        VisitAllWrites(grow, g, h1, s1, grown, seen + {id}, kids);
        var (k, slices) := SharedAll(grow, g, h1, s1, seen + {id}, kids);
        var walks := WalkAll(g, grown, seen + {id}, kids);
        forall i | 0 <= i < |walks|
          ensures ReadsAs(grow, g, h, s, k, slices[i], walks[i])
        {
          ReadsAsPlaced(grow, g, h, s, k, slices[i], walks[i]);
          assert walks[i] in walks;
          ReadsAsAbove(grow, g, h, s, path, id, k, slices[i], walks[i]);
        }
      }
    }
  }

  /** Later children leave what has left the array alone. */
  lemma ReadsAsEarlier(grow: Growth, g: Graph, h: Heap, s: Slice, h1: Heap, k: Heap, sl: Slice, p: seq<string>)
    requires Grows(grow) && Valid(h, s) && s.len > 0 && ReadsAs(grow, g, h, s, h1, sl, p)
    requires Spared(h, s, h1) && Valid(h1, s) && Spared(h1, s, k)
    ensures ReadsAs(grow, g, h, s, k, sl, p)
  {
    hide Reading;
    if |p| > Cap(h, s) {
      assert k[sl.block] == h1[sl.block];
    }
  }

  lemma ReadsAsLater(grow: Growth, g: Graph, h: Heap, s: Slice, h1: Heap, k: Heap, sl: Slice, p: seq<string>)
    requires Grows(grow) && Valid(h, s) && Spared(h, s, h1) && Valid(h1, s) && ReadsAs(grow, g, h1, s, k, sl, p)
    ensures ReadsAs(grow, g, h, s, k, sl, p)
  {
    hide Reading;
  }

  lemma {:induction false} VisitAllReadsAs(grow: Growth, g: Graph, h: Heap, s: Slice, path: seq<string>, seen: set<string>, ids: seq<string>)
    requires Grows(grow) && Holds(grow, h, s, path) && seen == Elements(path) && path != [] && ids != []
    requires forall x :: x in ids ==> x in g.observed && x !in seen
    ensures var (k, slices) := SharedAll(grow, g, h, s, seen, ids); var walks := WalkAll(g, path, seen, ids);
            |slices| == |walks| && forall i :: 0 <= i < |walks| ==> ReadsAs(grow, g, h, s, k, slices[i], walks[i])
    decreases |g.observed - seen|, |ids| + 1
  {
    hide Accounted, AccountedBelow, Spared, Open, Walk, Shared, Extends, ReadsAs, Room;
    assert ids[0] in ids;
    SharedVisit(grow, g, h, s, path, seen, ids[0]);
    VisitReadsAs(grow, g, h, s, path, seen, ids[0]);
    var (h1, first) := Shared(grow, g, h, s, seen, ids[0]);
    var head := Walk(g, path, seen, ids[0]);
    if |ids| == 1 {
      assert ids[1..] == [];
    } else {
      assert forall x :: x in ids[1..] ==> x in ids;
      StillHolds(grow, h, s, path, h1);
      SharedVisitAll(grow, g, h1, s, path, seen, ids[1..]);
      VisitAllReadsAs(grow, g, h1, s, path, seen, ids[1..]);
      var (k, rest) := SharedAll(grow, g, h1, s, seen, ids[1..]);
      var tail := WalkAll(g, path, seen, ids[1..]);
      forall i | 0 <= i < |tail|
        ensures ReadsAs(grow, g, h, s, k, rest[i], tail[i])
      {
        ReadsAsLater(grow, g, h, s, h1, k, rest[i], tail[i]);
      }
      forall i | 0 <= i < |head|
        ensures ReadsAs(grow, g, h, s, k, first[i], head[i])
      {
        ReadsAsEarlier(grow, g, h, s, h1, k, first[i], head[i]);
      }
      assert (first + rest)[|first|..] == rest;
    }
  }

  // ---------------------------------------------------------------- all roots, and what is read back

  /** The walks from the roots, each from a fresh slice. */
  function SharedCandidates(grow: Growth, g: Graph, roots: seq<string>): (r: (Heap, seq<Slice>))
    requires Grows(grow)
  {
    if roots == [] then ([], [])
    else
      var (h, before) := SharedCandidates(grow, g, roots[..|roots| - 1]);
      var (k, slices) := Shared(grow, g, h, NIL, {}, roots[|roots| - 1]);
      (k, before + slices)
  }

  ghost predicate AccountedFor(grow: Growth, g: Graph, h: Heap, sl: Slice, p: seq<string>)
    requires Grows(grow)
  {
    && p != [] && Valid(h, sl) && sl.len == |p|
    && (Read(h, sl) == p <==> LastFrom(g, p, Base(grow, |p|) + 1))
  }

  lemma FromRoot(grow: Growth, g: Graph, h: Heap, k: Heap, sl: Slice, p: seq<string>)
    requires Grows(grow) && Accounted(grow, g, h, NIL, k, sl, p)
    ensures AccountedFor(grow, g, k, sl, p)
  {
    hide LastFrom;
  }

  lemma RootsDoNotMeet(grow: Growth, g: Graph, h: Heap, k: Heap, sl: Slice, p: seq<string>)
    requires Grows(grow) && Spared(h, NIL, k) && AccountedFor(grow, g, h, sl, p)
    ensures AccountedFor(grow, g, k, sl, p)
  {
    hide LastFrom;
    assert k[sl.block] == h[sl.block];
  }

  /**
   Every path the search finds is stored with its length, and is read back as it was found if
   and only if, from the point where its array was allocated, it took the last open child each time.
   */
  lemma {:induction false} StoredPathIsIntactIff(grow: Growth, g: Graph, roots: seq<string>)
    requires Grows(grow)
    ensures var (h, slices) := SharedCandidates(grow, g, roots); var found := Candidates(g, roots);
            |slices| == |found| && forall i :: 0 <= i < |found| ==> AccountedFor(grow, g, h, slices[i], found[i])
    decreases |roots|
  {
    if roots != [] {
      hide AccountedFor, Accounted, Spared, Walk, Shared, Extends, Room;
      var n := |roots| - 1;
      StoredPathIsIntactIff(grow, g, roots[..n]);
      var (h, before) := SharedCandidates(grow, g, roots[..n]);
      var (k, slices) := Shared(grow, g, h, NIL, {}, roots[n]);
      var found, walks := Candidates(g, roots[..n]), Walk(g, [], {}, roots[n]);
      SharedVisit(grow, g, h, NIL, [], {}, roots[n]);
      forall i | 0 <= i < |found|
        ensures AccountedFor(grow, g, k, before[i], found[i])
      {
        RootsDoNotMeet(grow, g, h, k, before[i], found[i]);
      }
      forall i | 0 <= i < |walks|
        ensures AccountedFor(grow, g, k, slices[i], walks[i])
      {
        FromRoot(grow, g, h, k, slices[i], walks[i]);
      }
    }
  }

  function ReadAll(h: Heap, slices: seq<Slice>): seq<seq<string>>
    requires forall i :: 0 <= i < |slices| ==> Valid(h, slices[i])
  {
    seq(|slices|, i requires 0 <= i < |slices| => Read(h, slices[i]))
  }

  /** The list of paths as the source sorts it. */
  function Stored(grow: Growth, g: Graph, roots: seq<string>): (stored: seq<seq<string>>)
    requires Grows(grow)
    ensures |stored| == |Candidates(g, roots)|
    ensures forall i :: 0 <= i < |stored| ==> stored[i] != [] && |stored[i]| == |Candidates(g, roots)[i]|
  {
    StoredPathIsIntactIff(grow, g, roots);
    var (h, slices) := SharedCandidates(grow, g, roots);
    ReadAll(h, slices)
  }

  lemma StoredAt(grow: Growth, g: Graph, roots: seq<string>, i: nat)
    requires Grows(grow) && i < |Candidates(g, roots)|
    ensures var p := Candidates(g, roots)[i];
            p != [] && (Stored(grow, g, roots)[i] == p <==> LastFrom(g, p, Base(grow, |p|) + 1))
  {
    hide LastFrom, Candidates, SharedCandidates;
    StoredPathIsIntactIff(grow, g, roots);
    var (h, slices) := SharedCandidates(grow, g, roots);
    assert AccountedFor(grow, g, h, slices[i], Candidates(g, roots)[i]);
  }

  /** The source's list is the list of found paths if and only if each of them kept to the last open children. */
  lemma StoredIsFoundIff(grow: Growth, g: Graph, roots: seq<string>)
    requires Grows(grow)
    ensures Stored(grow, g, roots) == Candidates(g, roots) <==>
              forall p :: p in Candidates(g, roots) ==> LastFrom(g, p, Base(grow, |p|) + 1)
  {
    hide LastFrom, Candidates, Stored, Base;
    var found, stored := Candidates(g, roots), Stored(grow, g, roots);
    forall i | 0 <= i < |found|
      ensures found[i] in found && (stored[i] == found[i] <==> LastFrom(g, found[i], Base(grow, |found[i]|) + 1))
    {
      StoredAt(grow, g, roots, i);
    }
    if forall p :: p in found ==> LastFrom(g, p, Base(grow, |p|) + 1) {
      assert forall i :: 0 <= i < |found| ==> stored[i] == found[i];
    } else {
      var p :| p in found && !LastFrom(g, p, Base(grow, |p|) + 1);
      var i :| 0 <= i < |found| && found[i] == p;
      assert stored[i] != found[i];
    }
  }

  /** No node of a walk at a length with spare capacity has two different open children. */
  ghost predicate NoBranchWithSpareRoom(grow: Growth, g: Graph)
    requires Grows(grow)
  {
    forall q :: q != [] && Simple(g, q) && Room(grow, |q|) > |q| ==> OneOpenChild(g, q)
  }

  predicate OneOpenChild(g: Graph, q: seq<string>)
    requires q != []
  {
    var kids := Open(g, Elements(q), Next(g, q[|q| - 1]));
    forall i, j :: 0 <= i < |kids| && 0 <= j < |kids| ==> kids[i] == kids[j]
  }

  lemma OnlyChildIsLast(g: Graph, p: seq<string>, d: nat)
    requires Simple(g, p) && 0 < d < |p| && OneOpenChild(g, p[..d])
    ensures LastOpen(g, p, d)
  {
    assert p[..d][d - 1] == p[d - 1];
    assert p[d] in Next(g, p[d - 1]) && p[d] !in p[..d];
  }

  lemma PrefixIsSimple(g: Graph, p: seq<string>, d: nat)
    requires Simple(g, p) && d <= |p|
    ensures Simple(g, p[..d])
  {
  }

  lemma UnbranchedKeepsToLast(grow: Growth, g: Graph, p: seq<string>)
    requires Grows(grow) && NoBranchWithSpareRoom(grow, g) && Simple(g, p)
    ensures LastFrom(g, p, Base(grow, |p|) + 1)
  {
    hide Simple, OneOpenChild, LastOpen, Base, Room;
    forall d | Base(grow, |p|) + 1 <= d < |p|
      ensures LastOpen(g, p, d)
    {
      SpareBeyondBase(grow, d, |p|);
      PrefixIsSimple(g, p, d);
      assert |p[..d]| == d;
      OnlyChildIsLast(g, p, d);
    }
  }

  /** Without such branches the source stores exactly the paths it finds. */
  lemma UnbranchedIsIntact(grow: Growth, g: Graph, roots: seq<string>)
    requires Grows(grow) && NoBranchWithSpareRoom(grow, g)
    ensures Stored(grow, g, roots) == Candidates(g, roots)
  {
    hide Simple, LastFrom, NoBranchWithSpareRoom, Candidates, Base;
    forall p | p in Candidates(g, roots)
      ensures LastFrom(g, p, Base(grow, |p|) + 1)
    {
      FoundIsSimple(g, roots, p);
      UnbranchedKeepsToLast(grow, g, p);
    }
    StoredIsFoundIff(grow, g, roots);
  }

  lemma FoundIsSimple(g: Graph, roots: seq<string>, p: seq<string>)
    requires p in Candidates(g, roots)
    ensures Simple(g, p)
  {
    CandidatesAreMaximalPaths(g, roots, p);
  }

  // ---------------------------------------------------------------- the readings of all found paths

  ghost predicate ReadBack(grow: Growth, g: Graph, h: Heap, sl: Slice, p: seq<string>)
    requires Grows(grow)
  {
    p != [] && Valid(h, sl) && sl.len == |p| && Read(h, sl) == Reading(grow, g, p)
  }

  lemma ReadBackFromRoot(grow: Growth, g: Graph, h: Heap, k: Heap, sl: Slice, p: seq<string>)
    requires Grows(grow) && ReadsAs(grow, g, h, NIL, k, sl, p)
    ensures ReadBack(grow, g, k, sl, p)
  {
    hide Reading;
  }

  lemma ReadBackLater(grow: Growth, g: Graph, h: Heap, k: Heap, sl: Slice, p: seq<string>)
    requires Grows(grow) && Spared(h, NIL, k) && ReadBack(grow, g, h, sl, p)
    ensures ReadBack(grow, g, k, sl, p)
  {
    hide Reading;
    assert k[sl.block] == h[sl.block];
  }

  ghost predicate AllReadBack(grow: Growth, g: Graph, h: Heap, slices: seq<Slice>, found: seq<seq<string>>)
    requires Grows(grow)
  {
    |slices| == |found| && forall i :: 0 <= i < |found| ==> ReadBack(grow, g, h, slices[i], found[i])
  }

  lemma AllReadBackJoined(grow: Growth, g: Graph, h: Heap, a: seq<Slice>, found: seq<seq<string>>, b: seq<Slice>, walks: seq<seq<string>>)
    requires Grows(grow) && AllReadBack(grow, g, h, a, found) && AllReadBack(grow, g, h, b, walks)
    ensures AllReadBack(grow, g, h, a + b, found + walks)
  {
    hide ReadBack;
  }

  lemma RootReadsBack(grow: Growth, g: Graph, h: Heap, root: string)
    requires Grows(grow)
    ensures var (k, slices) := Shared(grow, g, h, NIL, {}, root);
            Spared(h, NIL, k) && AllReadBack(grow, g, k, slices, Walk(g, [], {}, root))
  {
    hide Accounted, Spared, Walk, Shared, ReadBack, ReadsAs, Extends;
    var (k, slices) := Shared(grow, g, h, NIL, {}, root);
    var walks := Walk(g, [], {}, root);
    SharedVisit(grow, g, h, NIL, [], {}, root);
    VisitReadsAs(grow, g, h, NIL, [], {}, root);
    forall i | 0 <= i < |walks|
      ensures ReadBack(grow, g, k, slices[i], walks[i])
    {
      ReadBackFromRoot(grow, g, h, k, slices[i], walks[i]);
    }
  }

  lemma {:induction false} SlicesReadBack(grow: Growth, g: Graph, roots: seq<string>)
    requires Grows(grow)
    ensures AllReadBack(grow, g, SharedCandidates(grow, g, roots).0, SharedCandidates(grow, g, roots).1, Candidates(g, roots))
    decreases |roots|
  {
    hide ReadBack, Spared, Walk, Shared, Extends;
    if roots != [] {
      var n := |roots| - 1;
      SlicesReadBack(grow, g, roots[..n]);
      var (h, before) := SharedCandidates(grow, g, roots[..n]);
      var (k, slices) := Shared(grow, g, h, NIL, {}, roots[n]);
      var found := Candidates(g, roots[..n]);
      RootReadsBack(grow, g, h, roots[n]);
      forall i | 0 <= i < |found|
        ensures ReadBack(grow, g, k, before[i], found[i])
      {
        ReadBackLater(grow, g, h, k, before[i], found[i]);
      }
      AllReadBackJoined(grow, g, k, before, found, slices, Walk(g, [], {}, roots[n]));
    }
  }

  /** Every stored path, intact or not: the source's list is the list of readings. */
  lemma StoredIsReading(grow: Growth, g: Graph, roots: seq<string>)
    requires Grows(grow)
    ensures |Stored(grow, g, roots)| == |Candidates(g, roots)|
    ensures forall i :: 0 <= i < |Candidates(g, roots)| ==>
              Candidates(g, roots)[i] != [] && Stored(grow, g, roots)[i] == Reading(grow, g, Candidates(g, roots)[i])
  {
    hide Reading, Candidates, SharedCandidates;
    SlicesReadBack(grow, g, roots);
    var (h, slices) := SharedCandidates(grow, g, roots);
    forall i | 0 <= i < |Candidates(g, roots)|
      ensures Candidates(g, roots)[i] != [] && Stored(grow, g, roots)[i] == Reading(grow, g, Candidates(g, roots)[i])
    {
      assert ReadBack(grow, g, h, slices[i], Candidates(g, roots)[i]);
    }
  }

  // ---------------------------------------------------------------- what the source returns

  /** Its choice among the stored paths. */
  function Chosen(grow: Growth, pattern: Pattern, g: Graph, roots: seq<string>): seq<string>
    requires Grows(grow)
  {
    var stored := Stored(grow, g, roots);
    if stored == [] then [] else Best(pattern, stored)
  }

  /** The search over slices returns a strongest path whenever every stored path is intact. */
  lemma ChosenIsStrongest(grow: Growth, pattern: Pattern, evidence: seq<Item>, roots: seq<string>)
    requires Grows(grow) && Elements(roots) == AdmissionNodes(pattern)
    requires forall p :: Eligible(pattern, evidence, p) ==> LastFrom(GraphOf(pattern, evidence), p, Base(grow, |p|) + 1)
    ensures var path := Chosen(grow, pattern, GraphOf(pattern, evidence), roots);
            && (path == [] <==> forall p :: !Eligible(pattern, evidence, p))
            && (path != [] ==> Strongest(pattern, evidence, path))
  {
    hide LastFrom, Eligible, AdmissionNodes, Candidates, GraphOf, Best, Strongest, Stored, Base, Room;
    var g := GraphOf(pattern, evidence);
    forall p | p in Candidates(g, roots)
      ensures LastFrom(g, p, Base(grow, |p|) + 1)
    {
      CandidatesAreEligible(pattern, evidence, roots, p);
    }
    StoredIsFoundIff(grow, g, roots);
    BestCandidateIsStrongest(pattern, evidence, roots);
  }

  /** Something is returned whenever there is an eligible path. */
  lemma NothingChosenIff(grow: Growth, pattern: Pattern, evidence: seq<Item>, roots: seq<string>)
    requires Grows(grow) && Elements(roots) == AdmissionNodes(pattern)
    ensures Chosen(grow, pattern, GraphOf(pattern, evidence), roots) == [] <==> forall p :: !Eligible(pattern, evidence, p)
  {
    hide Eligible, AdmissionNodes, GraphOf, Candidates, Strongest, Better;
    BestCandidateIsStrongest(pattern, evidence, roots);
  }

  lemma ReadingIsIdempotent(grow: Growth, g: Graph, p: seq<string>, r: seq<string>)
    requires Grows(grow) && p != [] && r == Reading(grow, g, p)
    ensures Reading(grow, g, r) == r
  {
    hide Below, LastAt;
    var b := Base(grow, |p|) + 1;
    assert r[..b] == p[..b];
  }

  lemma ReadingIsObserved(grow: Growth, g: Graph, p: seq<string>)
    requires Grows(grow) && p != [] && Simple(g, p)
    ensures forall i :: 0 <= i < |p| ==> Reading(grow, g, p)[i] in g.observed
  {
    hide Walk;
    var q := p[..Base(grow, |p|) + 1];
    var n := |q| - 1;
    PrefixIsSimple(g, p, n);
    assert q[..n] == p[..n] && (n > 0 ==> q[n] in Next(g, p[..n][n - 1]));
    var walks := Below(g, q);
    forall i | 0 <= i < |p|
      ensures Reading(grow, g, p)[i] in g.observed
    {
      if i > n && LastAt(walks, i).Some? {
        LastAtSome(walks, i);
        var k :| 0 <= k < |walks| && |walks[k]| > i && walks[k][i] == LastAt(walks, i).value;
        assert walks[k] in Walk(g, q[..n], Elements(q[..n]), q[n]);
        WalkSound(g, q[..n], Elements(q[..n]), q[n], walks[k]);
      }
    }
  }

  lemma ReadingIsNulFree(grow: Growth, pattern: Pattern, evidence: seq<Item>, q: seq<string>)
    requires Grows(grow) && Eligible(pattern, evidence, q) && q != []
    requires forall node :: node in pattern.nodes ==> NUL !in node.id
    ensures NulFree(Reading(grow, GraphOf(pattern, evidence), q))
  {
    hide AdmissionNodes, Reading, Observes;
    ReadingIsObserved(grow, GraphOf(pattern, evidence), q);
    ObservedAreNodes(pattern, evidence);
  }

  lemma StrongestIsNulFree(pattern: Pattern, evidence: seq<Item>, p: seq<string>)
    requires Strongest(pattern, evidence, p) && forall node :: node in pattern.nodes ==> NUL !in node.id
    ensures NulFree(p)
  {
    hide AdmissionNodes, Better, Observes;
    ObservedAreNodes(pattern, evidence);
  }

  /** No eligible path reads, at the end, as something better than p. */
  ghost predicate NothingReadsBetter(grow: Growth, pattern: Pattern, evidence: seq<Item>, p: seq<string>)
    requires Grows(grow) && p != []
  {
    forall q :: q != [] && Eligible(pattern, evidence, q) ==> !Better(pattern, Reading(grow, GraphOf(pattern, evidence), q), p)
  }

  lemma ChosenIsReading(grow: Growth, pattern: Pattern, evidence: seq<Item>, roots: seq<string>)
    returns (q: seq<string>)
    requires Grows(grow) && Elements(roots) == AdmissionNodes(pattern) && Candidates(GraphOf(pattern, evidence), roots) != []
    ensures q != [] && Eligible(pattern, evidence, q)
    ensures Chosen(grow, pattern, GraphOf(pattern, evidence), roots) == Reading(grow, GraphOf(pattern, evidence), q)
    ensures forall r :: r != [] && Eligible(pattern, evidence, r) ==>
              !Better(pattern, Reading(grow, GraphOf(pattern, evidence), r), Reading(grow, GraphOf(pattern, evidence), q))
  {
    hide Eligible, AdmissionNodes, GraphOf, Candidates, Better, Reading, Stored;
    var g := GraphOf(pattern, evidence);
    var found, stored := Candidates(g, roots), Stored(grow, g, roots);
    StoredIsReading(grow, g, roots);
    var best := Best(pattern, stored);
    var k :| 0 <= k < |stored| && stored[k] == best;
    q := found[k];
    CandidatesAreEligible(pattern, evidence, roots, q);
    forall r | r != [] && Eligible(pattern, evidence, r)
      ensures !Better(pattern, Reading(grow, g, r), best)
    {
      CandidatesAreEligible(pattern, evidence, roots, r);
      var j :| 0 <= j < |found| && found[j] == r;
      NothingBeatsBest(pattern, stored, j);
    }
  }

  lemma IntactIff(grow: Growth, pattern: Pattern, evidence: seq<Item>, roots: seq<string>, p: seq<string>)
    requires Grows(grow) && Elements(roots) == AdmissionNodes(pattern) && p != [] && Eligible(pattern, evidence, p)
    ensures var g := GraphOf(pattern, evidence); Reading(grow, g, p) == p <==> LastFrom(g, p, Base(grow, |p|) + 1)
    ensures Candidates(GraphOf(pattern, evidence), roots) != []
  {
    hide Eligible, AdmissionNodes, GraphOf, Candidates, Reading, Stored, LastFrom, Base;
    var g := GraphOf(pattern, evidence);
    CandidatesAreEligible(pattern, evidence, roots, p);
    var i :| 0 <= i < |Candidates(g, roots)| && Candidates(g, roots)[i] == p;
    StoredAt(grow, g, roots, i);
    StoredIsReading(grow, g, roots);
  }

  /**
   Exactly when the source returns the strongest path: it took the last open child at every
   step since its array was allocated, and no eligible path reads as something better at the end.
   */
  lemma StrongestIsReturnedIff(grow: Growth, pattern: Pattern, evidence: seq<Item>, roots: seq<string>, p: seq<string>)
    requires Grows(grow) && Elements(roots) == AdmissionNodes(pattern) && Strongest(pattern, evidence, p)
    requires forall node :: node in pattern.nodes ==> NUL !in node.id
    ensures Chosen(grow, pattern, GraphOf(pattern, evidence), roots) == p <==>
              LastFrom(GraphOf(pattern, evidence), p, Base(grow, |p|) + 1) && NothingReadsBetter(grow, pattern, evidence, p)
  {
    StrongestIsEligible(pattern, evidence, p);
    hide Eligible, AdmissionNodes, GraphOf, Candidates, Better, Reading, Chosen, LastFrom, Base, Strongest;
    var g := GraphOf(pattern, evidence);
    IntactIff(grow, pattern, evidence, roots, p);
    var q := ChosenIsReading(grow, pattern, evidence, roots);
    var chosen := Reading(grow, g, q);
    ReadingIsIdempotent(grow, g, q, chosen);
    if Reading(grow, g, p) == p && NothingReadsBetter(grow, pattern, evidence, p) {
      ReadingIsNulFree(grow, pattern, evidence, q);
      StrongestIsNulFree(pattern, evidence, p);
      TiesAreEqual(pattern, p, chosen);
    }
  }

  lemma StrongestIsEligible(pattern: Pattern, evidence: seq<Item>, p: seq<string>)
    requires Strongest(pattern, evidence, p)
    ensures p != [] && Eligible(pattern, evidence, p)
  {
  }

  /** The recursive closure of the source, over slices. */
  class SliceCollector {
    const grow: Growth
    const g: Graph
    var heap: Heap
    var paths: seq<Slice>

    constructor (grow: Growth, g: Graph)
      ensures this.grow == grow && this.g == g && heap == [] && paths == []
    {
      this.grow := grow;
      this.g := g;
      heap, paths := [], [];
    }

    method Visit(id: string, path: Slice, seen: set<string>)
      requires Grows(grow) && Valid(heap, path)
      modifies this
      ensures Extends(old(heap), heap)
      ensures heap == Shared(grow, g, old(heap), path, seen, id).0
      ensures paths == old(paths) + Shared(grow, g, old(heap), path, seen, id).1
      decreases |g.observed - seen|, 0
    {
      if id in seen || id !in g.observed {
        return;
      }
      Shrinks(g, seen, id);
      var (written, longer) := Append(grow, heap, path, id);
      heap := written;
      var expanded := VisitChildren(longer, seen + {id}, Next(g, id));
      if !expanded && longer.len >= 2 {
        paths := paths + [longer];
      }
    }

    method VisitChildren(path: Slice, seen: set<string>, children: seq<string>) returns (expanded: bool)
      requires Grows(grow) && Valid(heap, path)
      modifies this
      ensures Extends(old(heap), heap)
      ensures heap == SharedAll(grow, g, old(heap), path, seen, Open(g, seen, children)).0
      ensures paths == old(paths) + SharedAll(grow, g, old(heap), path, seen, Open(g, seen, children)).1
      ensures expanded <==> Open(g, seen, children) != []
      decreases |g.observed - seen|, 1
    {
      hide Shared, Open;
      expanded := false;
      var k := 0;
      ghost var end := SharedAll(grow, g, heap, path, seen, Open(g, seen, children));
      assert children[0..] == children;
      while k < |children|
        invariant 0 <= k <= |children| && Extends(old(heap), heap) && Valid(heap, path)
        invariant expanded || Open(g, seen, children) == Open(g, seen, children[k..])
        invariant expanded ==> Open(g, seen, children) != []
        invariant SharedAll(grow, g, heap, path, seen, Open(g, seen, children[k..])).0 == end.0
        invariant paths + SharedAll(grow, g, heap, path, seen, Open(g, seen, children[k..])).1 == old(paths) + end.1
      {
        ghost var rest := Open(g, seen, children[k + 1..]);
        OpenStep(g, seen, children, k);
        if children[k] in g.observed && children[k] !in seen {
          assert ([children[k]] + rest)[1..] == rest;
          expanded := true;
          Visit(children[k], path, seen);
        } else {
          assert [] + rest == rest;
        }
        k := k + 1;
      }
      assert children[k..] == [];
      NothingLeft(g, [], seen);
    }
  }

  lemma BestLeads(pattern: Pattern, paths: seq<seq<string>>)
    requires paths != [] && forall k :: 0 <= k < |paths| ==> paths[k] != []
    ensures Best(pattern, paths) in paths && forall q :: q in paths ==> q != [] && Leads(pattern, Best(pattern, paths), q)
  {
    hide Best, Better, Leads;
    var best := Best(pattern, paths);
    forall q | q in paths
      ensures q != [] && Leads(pattern, best, q)
    {
      var k :| 0 <= k < |paths| && paths[k] == q;
      NothingBeatsBest(pattern, paths, k);
      LeadsIff(pattern, best, q);
    }
  }

  /** The source's function: it returns its choice among the paths as they are stored at the end. */
  method ObservedPathOverSlices(pattern: Pattern, evidence: seq<Item>) returns (path: seq<string>, ghost roots: seq<string>)
    ensures Grows(Doubling) && Elements(roots) == AdmissionNodes(pattern)
    ensures path == Chosen(Doubling, pattern, GraphOf(pattern, evidence), roots)
    ensures var stored := Stored(Doubling, GraphOf(pattern, evidence), roots);
            path != [] ==> path in stored && forall q :: q in stored ==> q != [] && Leads(pattern, path, q)
  {
    var observed := CollectObserved(pattern, evidence);
    var g := GraphOf(pattern, evidence);
    assert g.observed == observed;
    var names := Iterate(AdmissionNodes(pattern));
    var collector := new SliceCollector(Doubling, g);
    var k := 0;
    while k < |names|
      invariant 0 <= k <= |names|
      invariant (collector.heap, collector.paths) == SharedCandidates(Doubling, g, names[..k])
    {
      assert names[..k + 1][..k] == names[..k];
      collector.Visit(names[k], NIL, {});
      k := k + 1;
    }
    assert names[..k] == names;
    StoredPathIsIntactIff(Doubling, g, names);
    var stored := ReadAll(collector.heap, collector.paths);
    assert stored == Stored(Doubling, g, names);
    path := if stored == [] then [] else Best(pattern, stored);
    roots := names;
    if stored != [] {
      BestLeads(pattern, stored);
    }
  }

  // ---------------------------------------------------------------- an ordinary pattern that goes wrong

  const R := CausalNode("r", "cause", "", ["r"], [])
  const A := CausalNode("a", "event", "", ["a"], [])
  const B := CausalNode("b", "event", "", ["b"], [])
  const D := CausalNode("d", "symptom", "", ["d"], [])

  /** r leads to a, a to b, and b to the symptom d and to e; all five are observed. */
  function Forked(kind: string): Pattern {
    Pattern("p", "cpu", true, [R, A, B, D, CausalNode("e", kind, "", ["e"], [])],
            [CausalEdge("r", "a"), CausalEdge("a", "b"), CausalEdge("b", "d"), CausalEdge("b", "e")])
  }

  const SEEN := [Item("i", "kubernetes", [Abnormal("r"), Abnormal("a"), Abnormal("b"), Abnormal("d"), Abnormal("e")], [])]

  lemma ForkedTable(kind: string)
    ensures Table(Forked(kind).nodes) == map["r" := R, "a" := A, "b" := B, "d" := D, "e" := CausalNode("e", kind, "", ["e"], [])]
  {
    hide Table;
    var none: seq<CausalNode> := [];
    NoTable();
    var last := CausalNode("e", kind, "", ["e"], []);
    TableStep(none, R);
    TableStep([R], A);
    TableStep([R, A], B);
    TableStep([R, A, B], D);
    TableStep([R, A, B, D], last);
    assert none + [R] == [R] && [R] + [A] == [R, A] && [R, A] + [B] == [R, A, B] && [R, A, B] + [D] == [R, A, B, D];
    assert [R, A, B, D] + [last] == Forked(kind).nodes;
  }

  lemma ForkedKnown(kind: string, id: string)
    ensures Known(Forked(kind), id) <==> id in {"r", "a", "b", "d", "e"}
  {
    hide Table;
    ForkedTable(kind);
  }

  lemma ForkedTargets(kind: string, from: string)
    ensures Targets(Forked(kind), Forked(kind).edges, from)
         == if from == "r" then ["a"] else if from == "a" then ["b"] else if from == "b" then ["d", "e"] else []
  {
    var p := Forked(kind);
    var e := p.edges;
    hide Known, Targets;
    ForkedKnown(kind, "r");
    ForkedKnown(kind, "a");
    ForkedKnown(kind, "b");
    ForkedKnown(kind, "d");
    ForkedKnown(kind, "e");
    var none: seq<CausalEdge> := [];
    TargetsStep(p, none, e[0], from);
    TargetsStep(p, [e[0]], e[1], from);
    TargetsStep(p, [e[0], e[1]], e[2], from);
    TargetsStep(p, [e[0], e[1], e[2]], e[3], from);
    NoTargets(p, from);
    assert none + [e[0]] == [e[0]] && [e[0]] + [e[1]] == [e[0], e[1]] && [e[0], e[1]] + [e[2]] == [e[0], e[1], e[2]];
    assert [e[0], e[1], e[2]] + [e[3]] == e;
  }

  lemma SmallSorts()
    ensures SortStrings([]) == [] && SortStrings(["a"]) == ["a"] && SortStrings(["b"]) == ["b"] && SortStrings(["d", "e"]) == ["d", "e"]
  {
    assert ["a"][1..] == [] && ["b"][1..] == [] && ["e"][1..] == [] && ["d", "e"][1..] == ["e"];
    assert Sort(StringLeq, ["e"]) == ["e"];
    assert StringLeq("d", "e");
  }

  lemma ForkedGraph(kind: string)
    ensures var g := GraphOf(Forked(kind), SEEN);
            && g.observed == {"r", "a", "b", "d", "e"} && Next(g, "r") == ["a"] && Next(g, "a") == ["b"]
            && Next(g, "b") == ["d", "e"] && Next(g, "d") == [] && Next(g, "e") == []
  {
    hide Observed, Targets, SortStrings;
    ForkedObserved(kind);
    SmallSorts();
    ForkedTargets(kind, "r");
    ForkedTargets(kind, "a");
    ForkedTargets(kind, "b");
    ForkedTargets(kind, "d");
    ForkedTargets(kind, "e");
  }

  lemma ForkedObserved(kind: string)
    ensures Observed(Forked(kind), SEEN) == {"r", "a", "b", "d", "e"}
  {
    hide Observes;
    var p := Forked(kind);
    var i := SEEN[0];
    forall node | node in p.nodes
      ensures Observes(i, node) && i in SEEN
    {
      assert i.signals[0] == Abnormal("r") && i.signals[1] == Abnormal("a") && i.signals[2] == Abnormal("b");
      assert i.signals[3] == Abnormal("d") && i.signals[4] == Abnormal("e");
      ShownIsObserved(i, node);
    }
    assert R in p.nodes && A in p.nodes && B in p.nodes && D in p.nodes && p.nodes[4] in p.nodes;
  }

  const RA: Heap := [["r"], ["r", "a"]]

  lemma LeafStep(g: Graph, h: Heap, s: Slice, seen: set<string>, id: string, k: Heap, sl: Slice)
    requires Grows(Doubling) && Valid(h, s) && id in g.observed && id !in seen && Next(g, id) == []
    requires Append(Doubling, h, s, id) == (k, sl) && sl.len >= 2
    ensures Shared(Doubling, g, h, s, seen, id) == (k, [sl])
  {
  }

  lemma InnerStep(g: Graph, h: Heap, s: Slice, seen: set<string>, id: string, k: Heap, sl: Slice, kids: seq<string>)
    requires Grows(Doubling) && Valid(h, s) && id in g.observed && id !in seen && kids != []
    requires Open(g, seen + {id}, Next(g, id)) == kids && Append(Doubling, h, s, id) == (k, sl)
    ensures Shared(Doubling, g, h, s, seen, id) == SharedAll(Doubling, g, k, sl, seen + {id}, kids)
  {
  }

  lemma TwoChildren(g: Graph, h: Heap, s: Slice, seen: set<string>, x: string, y: string, h1: Heap, h2: Heap, a: Slice, b: Slice)
    requires Grows(Doubling) && Valid(h, s) && Valid(h1, s) && Valid(h2, s)
    requires Shared(Doubling, g, h, s, seen, x) == (h1, [a]) && Shared(Doubling, g, h1, s, seen, y) == (h2, [b])
    ensures SharedAll(Doubling, g, h, s, seen, [x, y]) == (h2, [a, b])
  {
    hide Shared;
    OneChild(g, h1, s, seen, y);
    assert [x, y][1..] == [y] && [a] + [b] == [a, b];
  }

  function RABX(x: string): Heap {
    RA + [["r", "a", "b", x]]
  }

  lemma WriteFourth(w: string, x: string)
    ensures Grows(Doubling) && Append(Doubling, RABX(w), Slice(2, 3), x) == (RABX(x), Slice(2, 4))
  {
    var h := RABX(w);
    assert h[2] == ["r", "a", "b", w];
    assert h[2][3 := x] == ["r", "a", "b", x];
    assert h[2 := h[2][3 := x]] == RABX(x);
  }

  /** At [r, a, b] the array has room for a fourth node, and both branches write it there. */
  lemma ForkedBranches(g: Graph, seen: set<string>)
    requires g.observed == {"r", "a", "b", "d", "e"} && Next(g, "d") == [] && Next(g, "e") == [] && seen == {"r", "a", "b"}
    ensures Grows(Doubling)
    ensures SharedAll(Doubling, g, RABX(""), Slice(2, 3), seen, ["d", "e"]) == (RABX("e"), [Slice(2, 4), Slice(2, 4)])
  {
    hide Shared, SharedAll;
    WriteFourth("", "d");
    WriteFourth("d", "e");
    LeafStep(g, RABX(""), Slice(2, 3), seen, "d", RABX("d"), Slice(2, 4));
    LeafStep(g, RABX("d"), Slice(2, 3), seen, "e", RABX("e"), Slice(2, 4));
    TwoChildren(g, RABX(""), Slice(2, 3), seen, "d", "e", RABX("d"), RABX("e"), Slice(2, 4), Slice(2, 4));
  }

  lemma OneChild(g: Graph, h: Heap, s: Slice, seen: set<string>, id: string)
    requires Grows(Doubling) && Valid(h, s)
    ensures SharedAll(Doubling, g, h, s, seen, [id]) == Shared(Doubling, g, h, s, seen, id)
  {
    var (k, slices) := Shared(Doubling, g, h, s, seen, id);
    assert [id][1..] == [] && slices + [] == slices;
    assert SharedAll(Doubling, g, k, s, seen, []) == (k, []);
  }

  lemma OpenOne(g: Graph, seen: set<string>, id: string)
    requires id in g.observed && id !in seen
    ensures Open(g, seen, [id]) == [id]
  {
    assert [id][1..] == [];
  }

  lemma FirstThree()
    ensures Grows(Doubling) && Append(Doubling, [], NIL, "r") == ([["r"]], Slice(0, 1))
    ensures Append(Doubling, [["r"]], Slice(0, 1), "a") == (RA, Slice(1, 2))
    ensures Append(Doubling, RA, Slice(1, 2), "b") == (RABX(""), Slice(2, 3))
  {
    var none, one: Heap := [], [["r"]];
    assert Read(none, NIL) + ["r"] + Blank(0) == ["r"] && none + [["r"]] == one;
    assert Read(one, Slice(0, 1)) + ["a"] + Blank(0) == ["r", "a"] && one + [["r", "a"]] == RA;
    assert Read(RA, Slice(1, 2)) + ["b"] + Blank(1) == ["r", "a", "b", ""];
  }

  lemma ForkedWalk(g: Graph)
    requires g.observed == {"r", "a", "b", "d", "e"} && Next(g, "r") == ["a"] && Next(g, "a") == ["b"]
    requires Next(g, "b") == ["d", "e"] && Next(g, "d") == [] && Next(g, "e") == []
    ensures Grows(Doubling) && Shared(Doubling, g, [], NIL, {}, "r") == (RABX("e"), [Slice(2, 4), Slice(2, 4)])
  {
    hide Shared, SharedAll, Append;
    var abr := {"r", "a", "b"};
    assert {} + {"r"} == {"r"} && {"r"} + {"a"} == {"r", "a"} && {"r", "a"} + {"b"} == abr;
    FirstThree();
    ForkedBranches(g, abr);
    OpenOne(g, {"r"}, "a");
    OpenOne(g, {"r", "a"}, "b");
    OpenOne(g, abr, "e");
    assert ["d", "e"][1..] == ["e"] && Open(g, abr, ["d", "e"]) == ["d", "e"];
    InnerStep(g, RA, Slice(1, 2), {"r", "a"}, "b", RABX(""), Slice(2, 3), ["d", "e"]);
    OneChild(g, RA, Slice(1, 2), {"r", "a"}, "b");
    InnerStep(g, [["r"]], Slice(0, 1), {"r"}, "a", RA, Slice(1, 2), ["b"]);
    OneChild(g, [["r"]], Slice(0, 1), {"r"}, "a");
    InnerStep(g, [], NIL, {}, "r", [["r"]], Slice(0, 1), ["a"]);
  }

  lemma ForkedStored(g: Graph)
    requires g.observed == {"r", "a", "b", "d", "e"} && Next(g, "r") == ["a"] && Next(g, "a") == ["b"]
    requires Next(g, "b") == ["d", "e"] && Next(g, "d") == [] && Next(g, "e") == []
    ensures Grows(Doubling) && Stored(Doubling, g, ["r"]) == [["r", "a", "b", "e"], ["r", "a", "b", "e"]]
  {
    hide Shared;
    ForkedWalk(g);
    var roots := ["r"];
    assert roots[..0] == [];
    assert SharedCandidates(Doubling, g, roots[..0]) == ([], []);
    var slices := [Slice(2, 4), Slice(2, 4)];
    assert [] + slices == slices;
    assert SharedCandidates(Doubling, g, roots) == (RABX("e"), slices);
    assert ["r", "a", "b", "e"][..4] == ["r", "a", "b", "e"];
  }

  lemma DifferentWords()
    ensures "event" != "cause" && "symptom" != "cause" && "event" != "mechanism" && "symptom" != "mechanism" && "cause" != "mechanism"
  {
    assert "event"[0] == 'e' && "cause"[0] == 'c' && "symptom"[0] == 's' && "mechanism"[0] == 'm';
  }

  lemma PlainWords()
    ensures Plain("cause") && Plain("event") && Plain("symptom")
  {
  }

  lemma ForkedKinds(kind: string)
    requires kind == "event" || kind == "symptom"
    ensures IsKind(R, "cause") && !IsKind(R, "mechanism")
    ensures forall node :: node in Forked(kind).nodes && node != R ==> !IsKind(node, "cause") && !IsKind(node, "mechanism")
  {
    hide IsKind, Plain;
    PlainWords();
    DifferentWords();
    KindIs(R, "cause");
    KindIs(R, "mechanism");
    forall node | node in Forked(kind).nodes && node != R
      ensures !IsKind(node, "cause") && !IsKind(node, "mechanism")
    {
      assert node.kind == "event" || node.kind == "symptom";
      KindIs(node, "cause");
      KindIs(node, "mechanism");
    }
  }

  lemma ForkedAdmission(kind: string)
    requires kind == "event" || kind == "symptom"
    ensures AdmissionNodes(Forked(kind)) == {"r"}
  {
    hide Table, IsKind;
    var p := Forked(kind);
    ForkedKinds(kind);
    assert R in p.nodes && forall e :: e in p.edges ==> e.to != "r";
    assert RootCause(p, R);
    assert DirectNodes(p) == {"r"};
  }

  lemma SymptomPathIsEligible(kind: string)
    requires kind == "event" || kind == "symptom"
    ensures Eligible(Forked(kind), SEEN, ["r", "a", "b", "d"]) && Eligible(Forked(kind), SEEN, ["r", "a", "b", "e"])
  {
    hide GraphOf, AdmissionNodes;
    ForkedGraph(kind);
    ForkedAdmission(kind);
    var g := GraphOf(Forked(kind), SEEN);
    assert Simple(g, ["r", "a", "b", "d"]) && Stuck(g, ["r", "a", "b", "d"]);
    assert Simple(g, ["r", "a", "b", "e"]) && Stuck(g, ["r", "a", "b", "e"]);
  }

  lemma JoinStep(x: string, p: seq<string>)
    requires p != []
    ensures Join([x] + p) == x + [NUL] + Join(p)
  {
    assert ([x] + p)[1..] == p;
  }

  lemma {:induction false} SameStart(c: string, a: string, b: string)
    ensures StringLeq(c + a, c + b) == StringLeq(a, b)
    decreases |c|
  {
    hide StringLeq;
    if c == "" {
      assert c + a == a && c + b == b;
    } else {
      SameStart(c[1..], a, b);
      OneLetter(c[0], c[1..] + a, c[1..] + b);
      assert [c[0]] + (c[1..] + a) == c + a && [c[0]] + (c[1..] + b) == c + b;
    }
  }

  lemma OneLetter(x: char, a: string, b: string)
    ensures StringLeq([x] + a, [x] + b) == StringLeq(a, b)
  {
    assert ([x] + a)[1..] == a && ([x] + b)[1..] == b;
  }

  lemma SymptomPathIsBetter(kind: string)
    requires kind == "event" || kind == "symptom"
    ensures Better(Forked(kind), ["r", "a", "b", "d"], ["r", "a", "b", "e"])
  {
    hide Table;
    ForkedTable(kind);
    if EndsInSymptom(Forked(kind), ["r", "a", "b", "d"]) == EndsInSymptom(Forked(kind), ["r", "a", "b", "e"]) {
      var c := "r" + [NUL] + "a" + [NUL] + "b" + [NUL];
      forall x | x == "d" || x == "e"
        ensures Join(["r", "a", "b", x]) == c + x
      {
        JoinStep("b", [x]);
        JoinStep("a", ["b", x]);
        JoinStep("r", ["a", "b", x]);
        assert ["b"] + [x] == ["b", x] && ["a"] + ["b", x] == ["a", "b", x] && ["r"] + ["a", "b", x] == ["r", "a", "b", x];
      }
      SameStart(c, "e", "d");
      assert !StringLeq("e", "d");
    }
  }

  /**
   On this pattern the source returns the path to e although the path to the symptom d is
   stronger, and also when e is a symptom as well and comes later in the order of names.
   */
  lemma SiblingOverwritesPath(kind: string)
    requires kind == "event" || kind == "symptom"
    ensures Grows(Doubling) && AdmissionNodes(Forked(kind)) == {"r"}
    ensures Chosen(Doubling, Forked(kind), GraphOf(Forked(kind), SEEN), ["r"]) == ["r", "a", "b", "e"]
    ensures Eligible(Forked(kind), SEEN, ["r", "a", "b", "d"])
    ensures Better(Forked(kind), ["r", "a", "b", "d"], ["r", "a", "b", "e"])
    ensures !Strongest(Forked(kind), SEEN, ["r", "a", "b", "e"])
  {
    hide GraphOf, AdmissionNodes, Better, Eligible, Stored;
    ForkedAdmission(kind);
    ForkedGraph(kind);
    ForkedStored(GraphOf(Forked(kind), SEEN));
    SymptomPathIsEligible(kind);
    SymptomPathIsBetter(kind);
    var e := ["r", "a", "b", "e"];
    assert [e, e][..1] == [e];
  }
}
