/** Stop strings over a stream: text is cut before the first stop string, and what may
    still turn into one is withheld. */
module StopFilter {
  import opened Sequences
  import opened Patterns
  import opened K3Parser
  import K3StreamParser

  /** `_earliest_stop` */
  method EarliestStop(text: string, stops: seq<string>) returns (best: Option<nat>)
    ensures best == Earliest(text, stops)
  {
    best := None;
    for i := 0 to |stops|
      invariant IsEarliest(text, stops[..i], 0, best)
    {
      var idx := Find(text, stops[i]);
      EarliestSpec(text, [stops[i]], 0, idx);
      EarliestOfTwo(text, stops[..i], stops[i], best, idx);
      if idx.Some? && (best.None? || idx.value < best.value) {
        best := idx;
      }
      assert stops[..i + 1] == stops[..i] + [stops[i]];
    }
    assert stops[..|stops|] == stops;
    EarliestSpec(text, stops, 0, best);
  }

  lemma EarliestOfTwo(text: string, stops: seq<string>, s: string, best: Option<nat>, idx: Option<nat>)
    requires IsEarliest(text, stops, 0, best) && IsEarliest(text, [s], 0, idx)
    ensures IsEarliest(text, stops + [s], 0,
              if idx.Some? && (best.None? || idx.value < best.value) then idx else best)
  {
    forall j
      ensures AnyAt(text, j, stops + [s]) == (AnyAt(text, j, stops) || AnyAt(text, j, [s]))
    {
      if AnyAt(text, j, stops) {
        var t :| t in stops && OccursAt(text, j, t);
        assert t in stops + [s];
      }
      if AnyAt(text, j, [s]) { assert s in stops + [s]; }
    }
  }

  /** `_partial_stop_holdback` */
  method PartialStopHoldback(text: string, stops: seq<string>) returns (hold: nat)
    ensures IsHoldback(text, stops, hold)
  {
    hold := 0;
    for i := 0 to |stops|
      invariant IsHoldback(text, stops[..i], hold)
    {
      var s := stops[i];
      ghost var before := hold;
      var k := if |text| < |s| - 1 then |text| else |s| - 1;
      while k > 0
        invariant hold == before && k <= |text| && k < |s|
        invariant forall j: nat | 0 < j && k < j <= |text| && j < |s| :: text[|text| - j..] != s[..j]
      {
        if text[|text| - k..] == s[..k] {
          hold := if hold < k then k else hold;
          break;
        }
        k := k - 1;
      }
      K3StreamParser.HoldbackGrows(text, stops[..i], s, before, hold);
      assert stops[..i + 1] == stops[..i] + [s];
    }
    assert stops[..|stops|] == stops;
  }

  /** How the streaming loops use the two searches. */
  method Release(stops: seq<string>, text: string) returns (piece: string, pending: string, stopped: bool)
    ensures (Filter(pending, stopped), piece) == Released(stops, text)
  {
    var cut: Option<nat> := None;
    if stops != [] { cut := EarliestStop(text, stops); }
    EarliestSpec(text, stops, 0, cut);
    if cut.Some? {
      piece, pending, stopped := text[..cut.value], "", true;
    } else {
      var hold := PartialStopHoldback(text, stops);
      HoldbackIsScan(text, stops, hold);
      piece, pending, stopped := text[..|text| - hold], text[|text| - hold..], false;
    }
  }

  // ---- the filter as a transition function ----

  datatype Filter = Filter(pending: string, stopped: bool)

  /** Cut before a stop string, else release what cannot be part of one. */
  function Released(stops: seq<string>, text: string): (Filter, string) {
    EarliestBounds(text, stops, 0);
    match Earliest(text, stops)
    case Some(cut) => (Filter("", true), text[..cut])
    case None => (Filter(text[Scan(text, stops)..], false), text[..Scan(text, stops)])
  }

  /** One delta of the stream. */
  function Push(stops: seq<string>, f: Filter, delta: string): (Filter, string) {
    Released(stops, f.pending + delta)
  }

  /** The pieces released by the deltas of a stream; nothing is read after a stop string. */
  function Pieces(stops: seq<string>, f: Filter, deltas: seq<string>): (Filter, seq<string>)
    decreases |deltas|
  {
    if deltas == [] || f.stopped then (f, [])
    else
      var (g, piece) := Push(stops, f, deltas[0]);
      var (h, rest) := Pieces(stops, g, deltas[1..]);
      (h, [piece] + rest)
  }

  const FRESH := Filter("", false)

  /** Everything emitted, the held-back tail at the end of the stream included. */
  function Emitted(stops: seq<string>, deltas: seq<string>): string {
    Concat(Pieces(stops, FRESH, deltas).1) + Pieces(stops, FRESH, deltas).0.pending
  }

  /** The reference: the text before the first stop string. */
  function Cut(text: string, stops: seq<string>): string {
    EarliestBounds(text, stops, 0);
    match Earliest(text, stops)
    case Some(i) => text[..i]
    case None => text
  }

  /** Where a stop string properly inside another one ends, a shorter stop string that
      starts with the outer one has already been found. */
  ghost predicate ChunkSafe(stops: seq<string>) {
    forall s, t, o: nat {:trigger OccursAt(s, o, t)} |
      s in stops && t in stops && 0 < o && OccursAt(s, o, t) && o + |t| < |s| ::
      exists q | q in stops :: q <= s && |q| <= o + |t|
  }

  // ---- one delta ----

  /** Looking only at what is pending finds what a search of the whole text finds. */
  lemma EarliestInPending(stops: seq<string>, text: string, delta: string)
    ensures var k := Scan(text, stops);
            var found := Earliest(text[k..] + delta, stops);
            Earliest(text + delta, stops) == (if found.Some? then Some(k + found.value) else None)
  {
    var k := Scan(text, stops);
    var head, rest := text[..k], text[k..] + delta;
    assert text + delta == head + rest;
    ScanGrows(text, delta, stops);
    forall j | 0 <= j < k
      ensures !AnyAt(head + rest, j, stops)
    {
      NotCompatibleNotAt(head + rest, j, stops);
    }
    EarliestBehind(head, rest, stops);
  }

  lemma EarliestBehind(head: string, rest: string, stops: seq<string>)
    requires forall j | 0 <= j < |head| :: !AnyAt(head + rest, j, stops)
    ensures var found := Earliest(rest, stops);
            Earliest(head + rest, stops) == (if found.Some? then Some(|head| + found.value) else None)
  {
    var found := Earliest(rest, stops);
    EarliestSpec(rest, stops, 0, found);
    IsEarliestBehind(head, rest, stops, found);
    EarliestSpec(head + rest, stops, 0, if found.Some? then Some(|head| + found.value) else None);
  }

  lemma IsEarliestBehind(head: string, rest: string, stops: seq<string>, found: Option<nat>)
    requires (forall j | 0 <= j < |head| :: !AnyAt(head + rest, j, stops)) && IsEarliest(rest, stops, 0, found)
    ensures IsEarliest(head + rest, stops, 0, if found.Some? then Some(|head| + found.value) else None)
  {
    if found.Some? { AnyShifts(head, rest, found.value, stops); }
    forall j | |head| <= j <= |head + rest|
      ensures AnyAt(head + rest, j, stops) == AnyAt(rest, j - |head|, stops)
    {
      AnyShifts(head, rest, j - |head|, stops);
    }
  }

  lemma NotCompatibleNotAt(text: string, j: int, stops: seq<string>)
    requires !AnyCompatible(text, j, stops)
    ensures !AnyAt(text, j, stops)
  {
    if AnyAt(text, j, stops) { AnyAtIsCompatible(text, j, stops); }
  }

  /** The filter's state after a text without stop strings. */
  function After(stops: seq<string>, text: string): Filter { Filter(text[Scan(text, stops)..], false) }

  lemma PushAfter(stops: seq<string>, text: string, delta: string)
    ensures var (f, piece) := Push(stops, After(stops, text), delta);
      && f.stopped == Earliest(text + delta, stops).Some?
      && (f.stopped ==> f.pending == "" && text[..Scan(text, stops)] + piece == Cut(text + delta, stops))
      && (!f.stopped ==> f == After(stops, text + delta))
      && (!f.stopped ==> text[..Scan(text, stops)] + piece == (text + delta)[..Scan(text + delta, stops)])
  {
    EarliestInPending(stops, text, delta);
    var k := Scan(text, stops);
    assert text + delta == text[..k] + (text[k..] + delta);
    ScanGrows(text, delta, stops);
    PushBehind(stops, text[..k], text[k..] + delta);
  }

  /** Text in front of what is pending changes nothing. */
  lemma PushBehind(stops: seq<string>, head: string, rest: string)
    requires |head| <= Scan(head + rest, stops)
    requires var found := Earliest(rest, stops);
             Earliest(head + rest, stops) == (if found.Some? then Some(|head| + found.value) else None)
    ensures Cut(head + rest, stops) == head + Cut(rest, stops)
    ensures (head + rest)[..Scan(head + rest, stops)] == head + rest[..Scan(rest, stops)]
    ensures (head + rest)[Scan(head + rest, stops)..] == rest[Scan(rest, stops)..]
  {
    ScanDrops(head, rest, stops);
    EarliestBounds(rest, stops, 0);
    EarliestBounds(head + rest, stops, 0);
    SplitBehind(head, rest, Scan(rest, stops));
    if Earliest(rest, stops).Some? { SplitBehind(head, rest, Earliest(rest, stops).value); }
  }

  lemma SplitBehind(head: string, rest: string, n: nat)
    requires n <= |rest|
    ensures (head + rest)[..|head| + n] == head + rest[..n] && (head + rest)[|head| + n..] == rest[n..]
  {
  }

  // ---- whole streams ----

  lemma {:induction false} PiecesAfter(stops: seq<string>, text: string, deltas: seq<string>) returns (read: string)
    ensures var (f, pieces) := Pieces(stops, After(stops, text), deltas);
      && text <= read <= text + Concat(deltas)
      && text[..Scan(text, stops)] + (Concat(pieces) + f.pending) == (if f.stopped then Cut(read, stops) else read)
      && (f.stopped ==> Earliest(read, stops).Some?)
      && (!f.stopped ==> read == text + Concat(deltas) && (deltas != [] ==> Earliest(read, stops).None?))
    decreases |deltas|
  {
    var k := Scan(text, stops);
    if deltas == [] {
      read := text;
      assert text + "" == text && text[..k] + text[k..] == text;
    } else {
      PushAfter(stops, text, deltas[0]);
      var more := text + deltas[0];
      var (f, piece) := Push(stops, After(stops, text), deltas[0]);
      var (g, rest) := Pieces(stops, f, deltas[1..]);
      ConcatCons(text[..k], piece, rest, g.pending);
      Associates(text, deltas[0], Concat(deltas[1..]));
      if f.stopped {
        read := more;
        assert text[..k] + piece + "" == text[..k] + piece;
      } else {
        read := PiecesAfter(stops, more, deltas[1..]);
        if deltas[1..] == [] { assert Concat(deltas) == deltas[0]; }
      }
    }
  }

  lemma ConcatCons(head: string, piece: string, rest: seq<string>, tail: string)
    ensures head + (Concat([piece] + rest) + tail) == head + piece + (Concat(rest) + tail)
  {
    assert ([piece] + rest)[1..] == rest;
  }

  /** What is read of the stream: all of it, or as much as it takes to see a stop string. */
  lemma EmittedIs(stops: seq<string>, deltas: seq<string>) returns (read: string)
    ensures var stopped := Pieces(stops, FRESH, deltas).0.stopped;
      && read <= Concat(deltas)
      && Emitted(stops, deltas) == (if stopped then Cut(read, stops) else read)
      && (stopped ==> Earliest(read, stops).Some?)
      && (!stopped ==> read == Concat(deltas) && (deltas != [] ==> Earliest(read, stops).None?))
  {
    assert After(stops, "") == FRESH;
    read := PiecesAfter(stops, "", deltas);
    assert "" + Concat(deltas) == Concat(deltas);
    assert "" + Emitted(stops, deltas) == Emitted(stops, deltas);
  }

  /** For every chunking: what is emitted is a prefix of the text with no stop string in it,
      and all of the text unless a stop string was seen. */
  lemma EmittedIsCleanPrefix(stops: seq<string>, deltas: seq<string>)
    requires "" !in stops
    ensures Emitted(stops, deltas) <= Concat(deltas) && !Contains(Emitted(stops, deltas), stops)
    ensures Emitted(stops, deltas) == Concat(deltas) <==> !Pieces(stops, FRESH, deltas).0.stopped
  {
    var read := EmittedIs(stops, deltas);
    EarliestSpec(read, stops, 0, Earliest(read, stops));
    if Earliest(read, stops).Some? {
      BeforeEarliest(stops, read, Earliest(read, stops).value);
    }
  }

  lemma BeforeEarliest(stops: seq<string>, text: string, e: nat)
    requires "" !in stops && IsEarliest(text, stops, 0, Some(e))
    ensures e < |text| && !Contains(text[..e], stops)
  {
    forall j | 0 <= j <= e
      ensures !AnyAt(text[..e], j, stops)
    {
      assert text == text[..e] + text[e..];
      if AnyAt(text[..e], j, stops) { AnyAtExtends(text[..e], text[e..], j, stops); }
    }
  }

  /** While the stream goes on, no stop string that completes later, whatever follows,
      starts inside what has been emitted. */
  lemma NeverPassesAStop(stops: seq<string>, deltas: seq<string>, more: string)
    requires !Pieces(stops, FRESH, deltas).0.stopped
    ensures var out := Concat(Pieces(stops, FRESH, deltas).1);
            out <= Concat(deltas) && forall j | 0 <= j < |out| :: !AnyAt(Concat(deltas) + more, j, stops)
  {
    assert After(stops, "") == FRESH;
    RunningAfter(stops, "", deltas);
    var text := "" + Concat(deltas);
    assert text == Concat(deltas);
    var out := Concat(Pieces(stops, FRESH, deltas).1);
    assert ""[..0] + out == out;
    ScanGrows(text, more, stops);
    forall j | 0 <= j < |out|
      ensures !AnyAt(text + more, j, stops)
    {
      NotCompatibleNotAt(text + more, j, stops);
    }
  }

  lemma {:induction false} RunningAfter(stops: seq<string>, text: string, deltas: seq<string>)
    requires !Pieces(stops, After(stops, text), deltas).0.stopped
    ensures var all := text + Concat(deltas);
            text[..Scan(text, stops)] + Concat(Pieces(stops, After(stops, text), deltas).1) == all[..Scan(all, stops)]
    decreases |deltas|
  {
    var k := Scan(text, stops);
    if deltas == [] {
      assert text + "" == text && text[..k] + "" == text[..k];
    } else {
      PushAfter(stops, text, deltas[0]);
      var (f, piece) := Push(stops, After(stops, text), deltas[0]);
      RunningAfter(stops, text + deltas[0], deltas[1..]);
      Associates(text, deltas[0], Concat(deltas[1..]));
      var rest := Pieces(stops, f, deltas[1..]).1;
      ConcatCons(text[..k], piece, rest, "");
      assert Concat([piece] + rest) + "" == Concat([piece] + rest) && Concat(rest) + "" == Concat(rest);
    }
  }

  // ---- exactness ----

  /** A stop string found stays the first one when the text goes on. */
  lemma CutStable(stops: seq<string>, text: string, more: string)
    requires ChunkSafe(stops) && Earliest(text, stops).Some?
    ensures Earliest(text + more, stops) == Earliest(text, stops)
  {
    var e := Earliest(text, stops).value;
    EarliestSpec(text, stops, 0, Some(e));
    AnyAtExtends(text, more, e, stops);
    forall j | 0 <= j < e
      ensures !AnyAt(text + more, j, stops)
    {
      assert !AnyAt(text, j, stops);
      if AnyAt(text + more, j, stops) { WasThereBefore(stops, text, more, e, j); }
    }
    EarliestSpec(text + more, stops, 0, Some(e));
  }

  lemma WasThereBefore(stops: seq<string>, text: string, more: string, e: nat, j: nat)
    requires ChunkSafe(stops) && AnyAt(text, e, stops) && j < e && AnyAt(text + more, j, stops)
    ensures AnyAt(text, j, stops)
  {
    var s :| s in stops && OccursAt(text + more, j, s);
    var t :| t in stops && OccursAt(text, e, t);
    if j + |s| <= |text| {
      OccursExtends(text, more, j, s);
    } else {
      InsideOuter(text, more, e, j, s, t);
      var q :| q in stops && q <= s && |q| <= e - j + |t|;
      assert OccursAt(text, j, q);
    }
  }

  /** A string that ends within `text` lies properly inside one that does not. */
  lemma InsideOuter(text: string, more: string, e: nat, j: nat, s: string, t: string)
    requires OccursAt(text + more, j, s) && |text| < j + |s| && OccursAt(text, e, t) && j < e
    ensures OccursAt(s, e - j, t) && e - j + |t| < |s|
    ensures forall q | q <= s && |q| <= e - j + |t| :: OccursAt(text, j, q)
  {
    var whole, o := text + more, e - j;
    OccursExtends(text, more, e, t);
    SliceOfOccurrence(whole, j, s, o, |t|);
    forall q | q <= s && |q| <= o + |t|
      ensures OccursAt(text, j, q)
    {
      SliceOfOccurrence(whole, j, s, 0, |q|);
      OccursExtends(text, more, j, q);
    }
  }

  /** For chunk safe stop strings every chunking emits exactly the text before the first
      stop string, and stops exactly when there is one. */
  lemma EmittedIsCut(stops: seq<string>, deltas: seq<string>)
    requires ChunkSafe(stops)
    ensures Emitted(stops, deltas) == Cut(Concat(deltas), stops)
    ensures deltas != [] ==> Pieces(stops, FRESH, deltas).0.stopped == Earliest(Concat(deltas), stops).Some?
  {
    var read := EmittedIs(stops, deltas);
    var more := Concat(deltas)[|read|..];
    assert Concat(deltas) == read + more;
    if Earliest(read, stops).Some? {
      EarliestBounds(read, stops, 0);
      CutStable(stops, read, more);
    }
  }

  /** And for any stop strings, a text without them comes out whole. */
  lemma EmittedUncut(stops: seq<string>, deltas: seq<string>)
    requires !Contains(Concat(deltas), stops)
    ensures Emitted(stops, deltas) == Cut(Concat(deltas), stops)
  {
    var read := EmittedIs(stops, deltas);
    EarliestSpec(Concat(deltas), stops, 0, None);
    assert read + Concat(deltas)[|read|..] == Concat(deltas);
    FoundExtends(read, Concat(deltas)[|read|..], stops);
  }

  lemma FoundExtends(text: string, more: string, stops: seq<string>)
    ensures Earliest(text, stops).Some? ==> Contains(text + more, stops)
  {
    EarliestBounds(text, stops, 0);
    if Earliest(text, stops).Some? { AnyAtExtends(text, more, Earliest(text, stops).value, stops); }
  }

  /** Otherwise there are a text and two chunkings of it that emit different texts. */
  lemma UnsafeStopsDiffer(stops: seq<string>) returns (deltas: seq<string>)
    requires !ChunkSafe(stops)
    ensures Emitted(stops, deltas) != Cut(Concat(deltas), stops)
  {
    var s, t, o: nat :| s in stops && t in stops && 0 < o && OccursAt(s, o, t) && o + |t| < |s| &&
      !exists q | q in stops :: q <= s && |q| <= o + |t|;
    var n := o + |t|;
    deltas := [s[..n], s[n..]];
    assert Concat(deltas) == s by { ConcatPair(s[..n], s[n..]); }
    assert Cut(s, stops) == "" by { assert OccursAt(s, 0, s); EarliestSpec(s, stops, 0, Some(0)); }
    InnerStopReleases(stops, s, t, o);
  }

  /** Cut behind the inner stop string, the first chunk already lets text out. */
  lemma InnerStopReleases(stops: seq<string>, s: string, t: string, o: nat)
    requires t in stops && 0 < o && OccursAt(s, o, t) && o + |t| < |s|
    requires !exists q | q in stops :: q <= s && |q| <= o + |t|
    ensures Emitted(stops, [s[..o + |t|], s[o + |t|..]]) != ""
  {
    var n := o + |t|;
    var deltas := [s[..n], s[n..]];
    var head := s[..n];
    assert head[o..n] == t;
    assert AnyAt(head, o, stops);
    var e := Earliest(head, stops);
    EarliestSpec(head, stops, 0, e);
    assert !AnyAt(head, 0, stops);
    assert "" + head == head;
    var (f, piece) := Push(stops, FRESH, head);
    assert f.stopped && piece == head[..e.value];
    assert Pieces(stops, f, deltas[1..]) == (f, []);
    ConcatCons("", piece, [], "");
  }

  /** The filter is indifferent to chunking, for every text, exactly for chunk safe stop
      strings. */
  lemma StopFilterExactly(stops: seq<string>)
    ensures (forall deltas :: Emitted(stops, deltas) == Cut(Concat(deltas), stops)) <==> ChunkSafe(stops)
  {
    if ChunkSafe(stops) {
      forall deltas
        ensures Emitted(stops, deltas) == Cut(Concat(deltas), stops)
      {
        EmittedIsCut(stops, deltas);
      }
    } else {
      var deltas := UnsafeStopsDiffer(stops);
    }
  }

  /** Stop strings of one length are chunk safe. */
  lemma EqualLengthIsSafe(stops: seq<string>)
    requires forall s, t | s in stops && t in stops :: |s| == |t|
    ensures ChunkSafe(stops)
  {
  }
}
