/** Owner redistribution by all-to-all: rows held by the active ranks are spread evenly over
    all ranks and brought back. */
module Redistribution {
  import opened Patterns

  function Min(a: nat, b: nat): nat { if a < b then a else b }

  /** Number of common positions of two intervals. */
  function Overlap(a: nat, b: nat, c: nat, d: nat): nat {
    if Max(a, c) < Min(b, d) then Min(b, d) - Max(a, c) else 0
  }

  /** `total` rows, on `active` of `world` ranks to begin with. */
  datatype Layout = Layout(total: nat, active: nat, world: nat)
  {
    predicate Valid() { 0 < active <= world && total % active == 0 && total % world == 0 }
    function Held(): nat requires active > 0 { total / active }
    function Target(): nat requires world > 0 { total / world }
  }

  function Start(l: Layout, rank: nat): nat requires l.Valid() { rank * l.Held() }
  function Local(l: Layout, rank: nat): nat requires l.Valid() { if rank < l.active then l.Held() else 0 }

  /** Rows a rank sends to rank `j`. */
  function Outgoing(l: Layout, rank: nat, j: nat): nat
    requires l.Valid()
  {
    Overlap(Start(l, rank), Start(l, rank) + Local(l, rank), j * l.Target(), (j + 1) * l.Target())
  }

  /** Rows a rank receives from rank `j`. */
  function Incoming(l: Layout, rank: nat, j: nat): nat
    requires l.Valid()
  {
    if j < l.active then Overlap(j * l.Held(), (j + 1) * l.Held(), rank * l.Target(), (rank + 1) * l.Target()) else 0
  }

  /** What one rank expects is what the other sends. */
  lemma TablesTranspose(l: Layout, i: nat, j: nat)
    requires l.Valid()
    ensures Outgoing(l, i, j) == Incoming(l, j, i)
  {
    assert (i + 1) * l.Held() == i * l.Held() + l.Held();
  }

  function Sum(f: nat -> nat, n: nat): nat { if n == 0 then 0 else Sum(f, n - 1) + f(n - 1) }

  /** Overlaps with consecutive intervals of length `q` add up. */
  lemma {:induction false} OverlapsAddUp(a: nat, b: nat, q: nat, n: nat, f: nat -> nat)
    requires a <= b && forall j: nat :: f(j) == Overlap(a, b, j * q, (j + 1) * q)
    ensures Sum(f, n) == Overlap(a, b, 0, n * q)
  {
    if n > 0 {
      OverlapsAddUp(a, b, q, n - 1, f);
      assert (n - 1 + 1) * q == (n - 1) * q + q;
      assert f(n - 1) == Overlap(a, b, (n - 1) * q, n * q);
    }
  }

  lemma TilesTotal(l: Layout)
    requires l.Valid()
    ensures l.active * l.Held() == l.total == l.world * l.Target()
  {
  }

  lemma Within(n: nat, i: nat, p: nat, total: nat)
    requires i < n && n * p == total
    ensures i * p + p == (i + 1) * p <= total
  {
    assert (i + 1) * p <= n * p;
  }

  function OutTable(l: Layout, rank: nat): nat -> nat requires l.Valid() { j => Outgoing(l, rank, j) }
  function InTable(l: Layout, rank: nat): nat -> nat requires l.Valid() { j => Incoming(l, rank, j) }

  /** A rank sends all it holds. */
  lemma SendsAll(l: Layout, rank: nat)
    requires l.Valid() && rank < l.world
    ensures Sum(OutTable(l, rank), l.world) == Local(l, rank)
  {
    TilesTotal(l);
    var a, b := Start(l, rank), Start(l, rank) + Local(l, rank);
    OverlapsAddUp(a, b, l.Target(), l.world, OutTable(l, rank));
    if rank < l.active { Within(l.active, rank, l.Held(), l.total); }
  }

  /** And it receives exactly its share. */
  lemma ReceivesShare(l: Layout, rank: nat)
    requires l.Valid() && rank < l.world
    ensures Sum(InTable(l, rank), l.world) == l.Target()
  {
    TilesTotal(l);
    Within(l.world, rank, l.Target(), l.total);
    ShareAt(l, rank, rank * l.Target(), l.total);
  }

  lemma ShareAt(l: Layout, rank: nat, y: nat, total: nat)
    requires l.Valid() && y == rank * l.Target() && total == l.active * l.Held() && y + l.Target() <= total
    ensures Sum(InTable(l, rank), l.world) == l.Target()
  {
    NoMoreIncoming(l, rank, l.world);
    IncomingSum(l, rank, l.active, y, total);
    Inside(total, y, l.Target());
  }

  lemma Inside(total: nat, y: nat, q: nat)
    requires y + q <= total
    ensures Overlap(0, total, y, y + q) == q
  {
  }

  lemma {:induction false} IncomingSum(l: Layout, rank: nat, n: nat, y: nat, reach: nat)
    requires l.Valid() && n <= l.active && y == rank * l.Target() && reach == n * l.Held()
    ensures Sum(InTable(l, rank), n) == Overlap(0, reach, y, y + l.Target())
    decreases n
  {
    if n > 0 {
      var x := (n - 1) * l.Held();
      IncomingSum(l, rank, n - 1, y, x);
      IncomingAt(l, rank, n - 1, x, y);
      Next(n - 1, l.Held());
      Adjacent(x, l.Held(), y, y + l.Target());
    }
  }

  lemma IncomingAt(l: Layout, rank: nat, j: nat, x: nat, y: nat)
    requires l.Valid() && j < l.active && x == j * l.Held() && y == rank * l.Target()
    ensures InTable(l, rank)(j) == Overlap(x, x + l.Held(), y, y + l.Target())
  {
    Next(j, l.Held());
    Next(rank, l.Target());
  }

  lemma Next(i: nat, p: nat)
    ensures (i + 1) * p == i * p + p
  {
  }

  lemma Adjacent(x: nat, p: nat, c: nat, d: nat)
    ensures c <= d ==> Overlap(0, x, c, d) + Overlap(x, x + p, c, d) == Overlap(0, x + p, c, d)
  {
  }

  lemma {:induction false} NoMoreIncoming(l: Layout, rank: nat, n: nat)
    requires l.Valid() && l.active <= n
    ensures Sum(InTable(l, rank), n) == Sum(InTable(l, rank), l.active)
    decreases n
  {
    if l.active < n {
      NoMoreIncoming(l, rank, n - 1);
      assert InTable(l, rank)(n - 1) == 0;
    }
  }

  // ---- the collective ----

  /** Offset of the chunk for rank `j` in rank `i`'s buffer. */
  function Offset(splits: (nat, nat) -> nat, i: nat, j: nat): nat {
    if j == 0 then 0 else Offset(splits, i, j - 1) + splits(i, j - 1)
  }

  /** The chunk rank `i` sends to rank `j`. */
  function Chunk<T>(inputs: seq<seq<T>>, splits: (nat, nat) -> nat, i: nat, j: nat): seq<T>
    requires ChunkFits(inputs, splits, i, j)
  {
    inputs[i][Offset(splits, i, j)..Offset(splits, i, j) + splits(i, j)]
  }

  predicate ChunkFits<T>(inputs: seq<seq<T>>, splits: (nat, nat) -> nat, i: nat, j: nat) {
    i < |inputs| && Offset(splits, i, j) + splits(i, j) <= |inputs[i]|
  }

  ghost predicate SplitsFit<T>(inputs: seq<seq<T>>, splits: (nat, nat) -> nat, ranks: nat) {
    |inputs| == ranks && forall i: nat, j: nat | i < ranks && j < ranks :: ChunkFits(inputs, splits, i, j)
  }

  /** What rank `j` receives from the first `n` ranks, in rank order. */
  ghost function Received<T>(inputs: seq<seq<T>>, splits: (nat, nat) -> nat, ranks: nat, j: nat, n: nat): seq<T>
    requires SplitsFit(inputs, splits, ranks) && j < ranks && n <= ranks
  {
    if n == 0 then []
    else
      assert ChunkFits(inputs, splits, n - 1, j);
      Received(inputs, splits, ranks, j, n - 1) + Chunk(inputs, splits, n - 1, j)
  }

  /** What rank `j` expects of rank `i` is what that one sends. */
  ghost predicate Agreed(splits: (nat, nat) -> nat, expected: (nat, nat) -> nat, ranks: nat) {
    forall i: nat, j: nat | i < ranks && j < ranks :: splits(i, j) == expected(j, i)
  }

  /** `all_to_all_single` on all ranks at once. */
  method AllToAll<T>(inputs: seq<seq<T>>, splits: (nat, nat) -> nat, ghost expected: (nat, nat) -> nat, ranks: nat)
    returns (outputs: seq<seq<T>>)
    requires SplitsFit(inputs, splits, ranks) && Agreed(splits, expected, ranks)
    ensures |outputs| == ranks && forall j | 0 <= j < ranks :: outputs[j] == Received(inputs, splits, ranks, j, ranks)
  {
    outputs := [];
    for j := 0 to ranks
      invariant |outputs| == j && forall k | 0 <= k < j :: outputs[k] == Received(inputs, splits, ranks, k, ranks)
    {
      var buffer: seq<T> := [];
      for i := 0 to ranks
        invariant buffer == Received(inputs, splits, ranks, j, i)
      {
        assert ChunkFits(inputs, splits, i, j);
        buffer := buffer + Chunk(inputs, splits, i, j);
      }
      outputs := outputs + [buffer];
    }
  }

  // ---- between two contiguous layouts ----

  /** `count` ranks in a row hold `size` positions each, rank `i` from `start(i)` on. */
  datatype Tiling = Tiling(start: nat -> nat, size: nat, count: nat)

  ghost predicate StepsAt(t: Tiling, i: nat) { t.start(i + 1) == t.start(i) + t.size }

  ghost predicate Tiles(t: Tiling, total: nat) {
    t.start(0) == 0 && t.start(t.count) == total && forall i: nat :: StepsAt(t, i)
  }

  lemma {:induction false} TileInside(t: Tiling, i: nat, k: nat, total: nat)
    requires Tiles(t, total) && i < k
    ensures t.start(i) + t.size <= t.start(k)
    decreases k
  {
    assert StepsAt(t, i) && StepsAt(t, k - 1);
    if i + 1 < k { TileInside(t, i, k - 1, total); }
  }

  /** Where rank `i` ends: ranks past the tiling hold nothing. */
  function EndOf(t: Tiling, i: nat): nat { if i < t.count then t.start(i) + t.size else t.start(i) }

  function Piece<T>(all: seq<T>, lo: nat, hi: nat): seq<T> {
    if lo < hi <= |all| then all[lo..hi] else []
  }

  /** The ranks hold the rows by the tiling. */
  ghost predicate Holds<T>(all: seq<T>, parts: seq<seq<T>>, t: Tiling, ranks: nat) {
    |parts| == ranks && t.count <= ranks && Tiles(t, |all|) && forall i: nat | i < ranks :: HoldsAt(all, parts[i], t, i)
  }

  ghost predicate HoldsAt<T>(all: seq<T>, part: seq<T>, t: Tiling, i: nat) { part == Piece(all, t.start(i), EndOf(t, i)) }

  /** Rows that change hands between two tilings. */
  function Exchange(a: Tiling, b: Tiling): (nat, nat) -> nat {
    (i: nat, j: nat) => Common(a, b, i, j)
  }

  function Common(a: Tiling, b: Tiling, i: nat, j: nat): nat {
    if i < a.count && j < b.count then Overlap(a.start(i), a.start(i) + a.size, b.start(j), b.start(j) + b.size) else 0
  }

  lemma {:induction false} ExchangeOffset(a: Tiling, b: Tiling, total: nat, i: nat, j: nat)
    requires Tiles(b, total) && i < a.count && j <= b.count
    ensures Offset(Exchange(a, b), i, j) == Overlap(a.start(i), a.start(i) + a.size, 0, b.start(j))
  {
    if j > 0 {
      ExchangeOffset(a, b, total, i, j - 1);
      assert StepsAt(b, j - 1);
      assert Exchange(a, b)(i, j - 1) == Common(a, b, i, j - 1);
      OverlapGrows(a.start(i), a.size, b.start(j - 1), b.size);
    }
  }

  lemma OverlapGrows(x: nat, p: nat, y: nat, q: nat)
    ensures Overlap(x, x + p, 0, y) + Overlap(x, x + p, y, y + q) == Overlap(x, x + p, 0, y + q)
  {
  }

  lemma {:induction false} OffsetStops(a: Tiling, b: Tiling, i: nat, j: nat)
    ensures a.count <= i ==> Offset(Exchange(a, b), i, j) == 0
    ensures b.count <= j ==> Offset(Exchange(a, b), i, j) == Offset(Exchange(a, b), i, b.count)
    decreases j
  {
    if j > 0 {
      OffsetStops(a, b, i, j - 1);
      assert Exchange(a, b)(i, j - 1) == Common(a, b, i, j - 1);
    }
  }

  lemma ExchangeFits<T>(all: seq<T>, parts: seq<seq<T>>, a: Tiling, b: Tiling, ranks: nat)
    requires Holds(all, parts, a, ranks) && Tiles(b, |all|)
    ensures SplitsFit(parts, Exchange(a, b), ranks)
  {
    forall i: nat, j: nat | i < ranks && j < ranks
      ensures ChunkFits(parts, Exchange(a, b), i, j)
    {
      assert HoldsAt(all, parts[i], a, i);
      ChunkFitsAt(all, parts[i], a, b, i, j);
    }
  }

  lemma ChunkFitsAt<T>(all: seq<T>, part: seq<T>, a: Tiling, b: Tiling, i: nat, j: nat)
    requires HoldsAt(all, part, a, i) && Tiles(a, |all|) && Tiles(b, |all|)
    ensures Offset(Exchange(a, b), i, j) + Exchange(a, b)(i, j) <= |part|
  {
    assert Exchange(a, b)(i, j) == Common(a, b, i, j);
    OffsetStops(a, b, i, j);
    if i < a.count {
      TileInside(a, i, a.count, |all|);
      ExchangeOffset(a, b, |all|, i, if j < b.count then j else b.count);
      assert j < b.count ==> StepsAt(b, j);
    }
  }

  /** A chunk is the common stretch of the sender's rows and the receiver's. */
  ghost predicate Meets<T>(all: seq<T>, parts: seq<seq<T>>, splits: (nat, nat) -> nat, a: Tiling, y: nat, q: nat,
                           i: nat, j: nat)
  {
    ChunkFits(parts, splits, i, j)
    && Chunk(parts, splits, i, j) == Piece(all, Max(a.start(i), y), Min(a.start(i) + a.size, y + q))
  }

  lemma ChunkIs<T>(all: seq<T>, parts: seq<seq<T>>, a: Tiling, b: Tiling, i: nat, j: nat)
    requires i < |parts| && HoldsAt(all, parts[i], a, i) && Tiles(a, |all|) && Tiles(b, |all|) && i < a.count && j < b.count
    ensures Meets(all, parts, Exchange(a, b), a, b.start(j), b.size, i, j)
  {
    ChunkFitsAt(all, parts[i], a, b, i, j);
    ExchangeOffset(a, b, |all|, i, j);
    assert Exchange(a, b)(i, j) == Common(a, b, i, j);
    TileInside(a, i, a.count, |all|);
    TileInside(b, j, b.count, |all|);
    Stretch(all, a.start(i), a.size, b.start(j), b.size, Offset(Exchange(a, b), i, j), Exchange(a, b)(i, j));
  }

  lemma SliceOfSlice<T>(all: seq<T>, x: nat, y: nat, from: nat, len: nat)
    requires x <= y <= |all| && from + len <= y - x
    ensures all[x..y][from..from + len] == all[x + from..x + from + len]
  {
    var a, b := all[x..y][from..from + len], all[x + from..x + from + len];
    forall k | 0 <= k < |a|
      ensures a[k] == b[k]
    {
      assert a[k] == all[x..y][from + k] == all[x + (from + k)];
    }
  }

  lemma Stretch<T>(all: seq<T>, x: nat, p: nat, y: nat, q: nat, from: nat, len: nat)
    requires x + p <= |all| && y + q <= |all|
    requires from == Overlap(x, x + p, 0, y) && len == Overlap(x, x + p, y, y + q)
    ensures from + len <= |Piece(all, x, x + p)|
    ensures Piece(all, x, x + p)[from..from + len] == Piece(all, Max(x, y), Min(x + p, y + q))
  {
    if len > 0 {
      assert x + from == Max(x, y) && x + from + len == Min(x + p, y + q);
      SliceOfSlice(all, x, x + p, from, len);
    }
  }

  lemma Joined<T>(all: seq<T>, y: nat, q: nat, x: nat, p: nat)
    requires y + q <= |all| && x + p <= |all|
    ensures Piece(all, y, Min(x, y + q)) + Piece(all, Max(x, y), Min(x + p, y + q)) == Piece(all, y, Min(x + p, y + q))
  {
  }

  /** The chunks of the first `k` ranks make up the receiver's rows as far as they reach. */
  lemma {:induction false} ReceivedIs<T>(all: seq<T>, parts: seq<seq<T>>, splits: (nat, nat) -> nat, ranks: nat, a: Tiling,
                                         y: nat, q: nat, j: nat, k: nat)
    requires SplitsFit(parts, splits, ranks) && j < ranks && k <= ranks && k <= a.count && y + q <= |all|
    requires Tiles(a, |all|) && forall i: nat | i < k :: Meets(all, parts, splits, a, y, q, i, j)
    ensures Received(parts, splits, ranks, j, k) == Piece(all, y, Min(a.start(k), y + q))
    decreases k
  {
    if k == 0 {
      assert Piece(all, y, Min(a.start(0), y + q)) == [];
    } else {
      ReceivedIs(all, parts, splits, ranks, a, y, q, j, k - 1);
      TileInside(a, k - 1, a.count, |all|);
      ReceivesNext(all, parts, splits, ranks, a, y, q, j, k - 1);
    }
  }

  lemma ReceivesNext<T>(all: seq<T>, parts: seq<seq<T>>, splits: (nat, nat) -> nat, ranks: nat, a: Tiling,
                        y: nat, q: nat, j: nat, k: nat)
    requires SplitsFit(parts, splits, ranks) && j < ranks && k < ranks && y + q <= |all|
    requires Meets(all, parts, splits, a, y, q, k, j) && StepsAt(a, k) && a.start(k) + a.size <= |all|
    requires Received(parts, splits, ranks, j, k) == Piece(all, y, Min(a.start(k), y + q))
    ensures Received(parts, splits, ranks, j, k + 1) == Piece(all, y, Min(a.start(k + 1), y + q))
  {
    Joined(all, y, q, a.start(k), a.size);
  }

  /** Ranks that hold nothing add nothing. */
  lemma {:induction false} NothingAdded<T>(parts: seq<seq<T>>, a: Tiling, b: Tiling, ranks: nat, j: nat, k: nat)
    requires SplitsFit(parts, Exchange(a, b), ranks) && j < ranks && k <= ranks
    ensures a.count <= k ==> Received(parts, Exchange(a, b), ranks, j, k) == Received(parts, Exchange(a, b), ranks, j, a.count)
    ensures b.count <= j ==> Received(parts, Exchange(a, b), ranks, j, k) == []
    decreases k
  {
    if k > 0 && (a.count < k || b.count <= j) {
      NothingAdded(parts, a, b, ranks, j, k - 1);
      assert ChunkFits(parts, Exchange(a, b), k - 1, j) && Exchange(a, b)(k - 1, j) == Common(a, b, k - 1, j) == 0;
      assert Chunk(parts, Exchange(a, b), k - 1, j) == [];
    }
  }

  /** Exchanging by the overlaps turns one contiguous layout into the other. */
  lemma ExchangeMoves<T>(all: seq<T>, parts: seq<seq<T>>, a: Tiling, b: Tiling, ranks: nat, j: nat)
    requires Holds(all, parts, a, ranks) && Tiles(b, |all|) && b.count <= ranks && j < ranks
    ensures SplitsFit(parts, Exchange(a, b), ranks)
    ensures HoldsAt(all, Received(parts, Exchange(a, b), ranks, j, ranks), b, j)
  {
    ExchangeFits(all, parts, a, b, ranks);
    NothingAdded(parts, a, b, ranks, j, ranks);
    if j < b.count {
      forall i: nat | i < a.count
        ensures Meets(all, parts, Exchange(a, b), a, b.start(j), b.size, i, j)
      {
        assert HoldsAt(all, parts[i], a, i);
        ChunkIs(all, parts, a, b, i, j);
      }
      TileInside(b, j, b.count, |all|);
      ReceivedIs(all, parts, Exchange(a, b), ranks, a, b.start(j), b.size, j, a.count);
    }
  }

  // ---- there and back ----

  /** The rows as the active ranks hold them, and as all ranks do. */
  function Owned(l: Layout): Tiling requires l.Valid() { Tiling(i => i * l.Held(), l.Held(), l.active) }
  function Balanced(l: Layout): Tiling requires l.Valid() { Tiling(i => i * l.Target(), l.Target(), l.world) }

  lemma LayoutsTile(l: Layout)
    requires l.Valid()
    ensures Tiles(Owned(l), l.total) && Tiles(Balanced(l), l.total)
  {
    TilesTotal(l);
    forall i: nat
      ensures StepsAt(Owned(l), i)
    {
      Next(i, l.Held());
    }
    forall i: nat
      ensures StepsAt(Balanced(l), i)
    {
      Next(i, l.Target());
    }
  }

  /** The tables of the source are these exchanges. */
  lemma TablesAreExchanges(l: Layout, i: nat, j: nat)
    requires l.Valid() && i < l.world && j < l.world
    ensures Outgoing(l, i, j) == Exchange(Owned(l), Balanced(l))(i, j)
    ensures Incoming(l, i, j) == Exchange(Balanced(l), Owned(l))(i, j)
  {
    Next(i, l.Target());
    Next(j, l.Target());
    Next(j, l.Held());
    assert Exchange(Owned(l), Balanced(l))(i, j) == Common(Owned(l), Balanced(l), i, j);
    assert Exchange(Balanced(l), Owned(l))(i, j) == Common(Balanced(l), Owned(l), i, j);
  }

  function OutTables(l: Layout): (nat, nat) -> nat requires l.Valid() { (i, j) => Outgoing(l, i, j) }
  function InTables(l: Layout): (nat, nat) -> nat requires l.Valid() { (i, j) => Incoming(l, i, j) }

  lemma TablesAlike(l: Layout)
    requires l.Valid()
    ensures Alike(Exchange(Owned(l), Balanced(l)), OutTables(l), l.world)
    ensures Alike(Exchange(Balanced(l), Owned(l)), InTables(l), l.world)
    ensures Agreed(OutTables(l), InTables(l), l.world) && Agreed(InTables(l), OutTables(l), l.world)
  {
    forall i: nat, j: nat | i < l.world && j < l.world
      ensures OutTables(l)(i, j) == Exchange(Owned(l), Balanced(l))(i, j) == InTables(l)(j, i)
      ensures InTables(l)(i, j) == Exchange(Balanced(l), Owned(l))(i, j)
    {
      TablesAreExchanges(l, i, j);
      TablesTranspose(l, i, j);
    }
  }

  /** Two tables that agree between the ranks make the same exchange. */
  ghost predicate Alike(s: (nat, nat) -> nat, t: (nat, nat) -> nat, ranks: nat) {
    forall i: nat, j: nat | i < ranks && j < ranks :: s(i, j) == t(i, j)
  }

  lemma {:induction false} OffsetAlike(s: (nat, nat) -> nat, t: (nat, nat) -> nat, ranks: nat, i: nat, j: nat)
    requires Alike(s, t, ranks) && i < ranks && j <= ranks
    ensures Offset(s, i, j) == Offset(t, i, j)
  {
    if j > 0 { OffsetAlike(s, t, ranks, i, j - 1); }
  }

  lemma FitsAlike<T>(inputs: seq<seq<T>>, s: (nat, nat) -> nat, t: (nat, nat) -> nat, ranks: nat)
    requires Alike(s, t, ranks) && SplitsFit(inputs, s, ranks)
    ensures SplitsFit(inputs, t, ranks)
  {
    forall i: nat, j: nat | i < ranks && j < ranks
      ensures ChunkFits(inputs, t, i, j)
    {
      OffsetAlike(s, t, ranks, i, j);
      assert ChunkFits(inputs, s, i, j);
    }
  }

  lemma {:induction false} ReceivedAlike<T>(inputs: seq<seq<T>>, s: (nat, nat) -> nat, t: (nat, nat) -> nat, ranks: nat,
                                            j: nat, n: nat)
    requires Alike(s, t, ranks) && SplitsFit(inputs, s, ranks) && SplitsFit(inputs, t, ranks) && j < ranks && n <= ranks
    ensures Received(inputs, s, ranks, j, n) == Received(inputs, t, ranks, j, n)
    decreases n
  {
    if n > 0 {
      ReceivedAlike(inputs, s, t, ranks, j, n - 1);
      OffsetAlike(s, t, ranks, n - 1, j);
      assert ChunkFits(inputs, s, n - 1, j) && ChunkFits(inputs, t, n - 1, j);
    }
  }

  /** `distribute` gives every rank its contiguous slice of the rows; `restore` after it gives
      every rank its own rows back. */
  method DistributeAndRestore<T>(l: Layout, all: seq<T>, owned: seq<seq<T>>) returns (balanced: seq<seq<T>>, back: seq<seq<T>>)
    requires l.Valid() && |all| == l.total && Holds(all, owned, Owned(l), l.world)
    ensures |balanced| == l.world
    ensures forall j: nat | j < l.world :: IsSlice(all, balanced[j], j * l.Target(), l.Target())
    ensures back == owned
  {
    LayoutsTile(l);
    ExchangeFits(all, owned, Owned(l), Balanced(l), l.world);
    TablesAlike(l);
    FitsAlike(owned, Exchange(Owned(l), Balanced(l)), OutTables(l), l.world);
    balanced := AllToAll(owned, OutTables(l), InTables(l), l.world);
    forall j: nat | j < l.world
      ensures HoldsAt(all, balanced[j], Balanced(l), j)
    {
      ExchangeMoves(all, owned, Owned(l), Balanced(l), l.world, j);
      ReceivedAlike(owned, Exchange(Owned(l), Balanced(l)), OutTables(l), l.world, j, l.world);
    }
    ExchangeFits(all, balanced, Balanced(l), Owned(l), l.world);
    FitsAlike(balanced, Exchange(Balanced(l), Owned(l)), InTables(l), l.world);
    back := AllToAll(balanced, InTables(l), OutTables(l), l.world);
    forall i: nat | i < l.world
      ensures back[i] == owned[i]
    {
      ExchangeMoves(all, balanced, Balanced(l), Owned(l), l.world, i);
      ReceivedAlike(balanced, Exchange(Balanced(l), Owned(l)), InTables(l), l.world, i, l.world);
      assert HoldsAt(all, owned[i], Owned(l), i);
    }
    forall j: nat | j < l.world
      ensures IsSlice(all, balanced[j], j * l.Target(), l.Target())
    {
      TileInside(Balanced(l), j, l.world, |all|);
      PieceIsSlice(all, j * l.Target(), l.Target());
    }
  }

  ghost predicate IsSlice<T>(all: seq<T>, part: seq<T>, from: nat, n: nat) {
    from + n <= |all| && part == all[from..from + n]
  }

  lemma PieceIsSlice<T>(all: seq<T>, y: nat, q: nat)
    requires y + q <= |all|
    ensures IsSlice(all, Piece(all, y, y + q), y, q)
  {
  }
}
