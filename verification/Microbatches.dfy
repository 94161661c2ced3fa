/** Packing a prefill batch into ordered microbatches of bounded size. Only the sizes matter
    here: a fragment is so many tokens of one sequence. */
module Microbatches {
  import opened PrefillPipeline

  datatype Fragment = Fragment(seqIdx: nat, len: nat, last: bool)

  function Flatten(batches: seq<seq<Fragment>>): seq<Fragment> {
    if batches == [] then [] else batches[0] + Flatten(batches[1..])
  }

  function Size(fragments: seq<Fragment>): nat {
    if fragments == [] then 0 else fragments[0].len + Size(fragments[1..])
  }

  lemma {:induction false} FlattenAppends(batches: seq<seq<Fragment>>, more: seq<Fragment>)
    ensures Flatten(batches + [more]) == Flatten(batches) + more
  {
    if batches == [] {
      assert ([] + [more])[1..] == [] && [] + [more] == [more];
    } else {
      assert (batches + [more])[1..] == batches[1..] + [more];
      FlattenAppends(batches[1..], more);
    }
  }

  lemma {:induction false} SizeAppends(fragments: seq<Fragment>, f: Fragment)
    ensures Size(fragments + [f]) == Size(fragments) + f.len
  {
    if fragments == [] {
      assert fragments + [f] == [f] && [f][1..] == [];
    } else {
      assert (fragments + [f])[1..] == fragments[1..] + [f];
      SizeAppends(fragments[1..], f);
    }
  }

  /** The first `n` tokens of sequence `i`, its last fragment marked if that is all of it. */
  ghost predicate Part(fragments: seq<Fragment>, i: nat, n: nat, whole: bool) {
    && (forall f | f in fragments :: f.seqIdx == i && f.len > 0) && Size(fragments) == n
    && forall j | 0 <= j < |fragments| :: fragments[j].last <==> whole && j == |fragments| - 1
  }

  /** The fragments are those of the sequences one after the other, each cut somehow. */
  ghost predicate Covers(fragments: seq<Fragment>, lens: seq<nat>)
    decreases |lens|
  {
    if lens == [] then fragments == []
    else
      var i := |lens| - 1;
      exists k | 0 <= k <= |fragments| :: Covers(fragments[..k], lens[..i]) && Part(fragments[k..], i, lens[i], true)
  }

  lemma CoversGrows(fragments: seq<Fragment>, lens: seq<nat>, more: seq<Fragment>, n: nat)
    requires Covers(fragments, lens) && Part(more, |lens|, n, true)
    ensures Covers(fragments + more, lens + [n])
  {
    var all, ls, k := fragments + more, lens + [n], |fragments|;
    assert all[..k] == fragments && all[k..] == more && ls[..|lens|] == lens;
  }

  /** The fragments of the last sequence, behind those of the others. */
  lemma CoversSplits(fragments: seq<Fragment>, lens: seq<nat>) returns (front: seq<Fragment>, own: seq<Fragment>)
    requires Covers(fragments, lens) && lens != []
    ensures var i := |lens| - 1; fragments == front + own && Covers(front, lens[..i]) && Part(own, i, lens[i], true)
  {
    var i := |lens| - 1;
    var k :| 0 <= k <= |fragments| && Covers(fragments[..k], lens[..i]) && Part(fragments[k..], i, lens[i], true);
    front, own := fragments[..k], fragments[k..];
  }

  lemma CoversNext(fragments: seq<Fragment>, lens: seq<nat>, i: nat, more: seq<Fragment>)
    requires i < |lens| && Covers(fragments, lens[..i]) && Part(more, i, lens[i], true)
    ensures Covers(fragments + more, lens[..i + 1])
  {
    CoversGrows(fragments, lens[..i], more, lens[i]);
    assert lens[..i] + [lens[i]] == lens[..i + 1];
  }

  // ---- the packing ----

  /** A cell's batch; a dummy batch and a decode batch stay as they are. */
  datatype Batch = Batch(lens: seq<nat>, uncut: bool)

  /** What a worker is given: a batch as it is, a microbatch, or the dummy. */
  datatype Payload = Entire(batch: Batch) | Micro(fragments: seq<Fragment>) | Dummy

  predicate StaysWhole(b: Batch, maxTokens: nat) { b.uncut || maxTokens == 0 || b.lens == [] }

  /** `parts` are the fragments of a batch's microbatches: the sequences in order, cut only where
      a microbatch ends, and every microbatch but the last filled to the limit. */
  ghost predicate Packed(parts: seq<seq<Fragment>>, b: Batch, maxTokens: nat) {
    && parts != [] && Covers(Flatten(parts), b.lens) && (forall p | p in parts :: CutAtEnd(p))
    && if StaysWhole(b, maxTokens) then |parts| == 1 else Filled(parts, maxTokens)
  }

  ghost predicate CutAtEnd(p: seq<Fragment>) { forall j | 0 <= j < |p| - 1 :: p[j].last }

  ghost predicate Filled(parts: seq<seq<Fragment>>, maxTokens: nat) {
    && (forall k | 0 <= k < |parts| :: Size(parts[k]) <= maxTokens && (k < |parts| - 1 ==> Size(parts[k]) == maxTokens))
    && (|parts| > 1 ==> Size(parts[|parts| - 1]) > 0)
  }

  /** What is sent of them, and the metadata to fold by. */
  ghost predicate Shipped(rounds: CellRounds<Payload>, parts: seq<seq<Fragment>>, b: Batch, maxTokens: nat) {
    && |rounds| == |parts|
    && forall k | 0 <= k < |parts| ::
         && rounds[k].1 == Meta(parts[k])
         && rounds[k].0 == if StaysWhole(b, maxTokens) || parts == [[]] then Entire(b) else Micro(parts[k])
  }

  /** `prefill_microbatches` */
  method PrefillMicrobatches(b: Batch, maxTokens: nat) returns (result: CellRounds<Payload>, ghost parts: seq<seq<Fragment>>)
    ensures |result| > 1 <==> Splits(b, maxTokens)
    ensures Packed(parts, b, maxTokens) && Shipped(result, parts, b, maxTokens)
  {
    if StaysWhole(b, maxTokens) {
      var fragments := EntireFragments(b.lens);
      result, parts := [(Entire(b), Meta(fragments))], [fragments];
      assert Flatten(parts) == fragments + [] == fragments;
    } else {
      var batches := Pack(b.lens, maxTokens);
      parts := batches;
      if batches == [[]] { result := [(Entire(b), [])]; } else { result := ShipAll(batches); }
    }
    RoundsNeeded(parts, b, maxTokens);
  }

  /** Every sequence that has tokens, whole. */
  method EntireFragments(lens: seq<nat>) returns (fragments: seq<Fragment>)
    ensures Covers(fragments, lens) && CutAtEnd(fragments)
  {
    fragments := [];
    assert lens[..0] == [];
    for i := 0 to |lens|
      invariant Covers(fragments, lens[..i]) && forall f | f in fragments :: f.last
    {
      ghost var own := if lens[i] > 0 then [Fragment(i, lens[i], true)] else [];
      CoversNext(fragments, lens, i, own);
      if lens[i] > 0 { fragments := fragments + [Fragment(i, lens[i], true)]; } else { assert fragments + own == fragments; }
    }
    assert lens[..|lens|] == lens;
  }

  method ShipAll(batches: seq<seq<Fragment>>) returns (rounds: CellRounds<Payload>)
    ensures |rounds| == |batches| && forall k | 0 <= k < |rounds| :: rounds[k] == (Micro(batches[k]), Meta(batches[k]))
  {
    rounds := [];
    for k := 0 to |batches|
      invariant |rounds| == k && forall j | 0 <= j < k :: rounds[j] == (Micro(batches[j]), Meta(batches[j]))
    {
      rounds := rounds + [(Micro(batches[k]), Meta(batches[k]))];
    }
  }

  method Pack(lens: seq<nat>, maxTokens: nat) returns (result: seq<seq<Fragment>>)
    requires maxTokens > 0
    ensures result != [] && Covers(Flatten(result), lens) && Filled(result, maxTokens)
    ensures forall p | p in result :: CutAtEnd(p)
  {
    result := [];
    var batch: seq<Fragment> := [];
    ghost var flat: seq<Fragment> := [];
    assert lens[..0] == [];
    for i := 0 to |lens|
      invariant flat == Flatten(result) + batch && Covers(flat, lens[..i]) && Bounded(result, batch, maxTokens)
    {
      ghost var own;
      result, batch, own := Cut(result, batch, i, lens[i], maxTokens, flat);
      CoversNext(flat, lens, i, own);
      flat := flat + own;
    }
    assert lens[..|lens|] == lens;
    result := Last(result, batch, maxTokens);
  }

  /** The last microbatch, unless it is empty and not the only one. */
  method Last(done: seq<seq<Fragment>>, batch: seq<Fragment>, maxTokens: nat) returns (result: seq<seq<Fragment>>)
    requires maxTokens > 0 && Bounded(done, batch, maxTokens)
    ensures Flatten(result) == Flatten(done) + batch && Filled(result, maxTokens) && result != []
    ensures forall p | p in result :: CutAtEnd(p)
  {
    if batch != [] || done == [] {
      FlattenAppends(done, batch);
      result := done + [batch];
    } else {
      assert Flatten(done) + batch == Flatten(done);
      result := done;
    }
  }

  /** The closed microbatches are full, the open one is not and holds only sequences that end. */
  ghost predicate Bounded(result: seq<seq<Fragment>>, batch: seq<Fragment>, maxTokens: nat) {
    && Size(batch) < maxTokens && (batch != [] ==> Size(batch) > 0) && (forall f | f in batch :: f.last)
    && forall p | p in result :: Size(p) == maxTokens && CutAtEnd(p)
  }

  /** Cut one sequence at the remaining capacity, of which there is some: a microbatch is closed
      as soon as it is full. */
  method Cut(done: seq<seq<Fragment>>, current: seq<Fragment>, i: nat, len: nat, maxTokens: nat, ghost before: seq<Fragment>)
    returns (result: seq<seq<Fragment>>, batch: seq<Fragment>, ghost own: seq<Fragment>)
    requires maxTokens > 0 && before == Flatten(done) + current && Bounded(done, current, maxTokens)
    ensures before + own == Flatten(result) + batch && Part(own, i, len, true) && Bounded(result, batch, maxTokens)
  {
    result, batch, own := done, current, [];
    assert before + [] == before;
    var start := 0;
    while start < len
      invariant 0 <= start <= len && before + own == Flatten(result) + batch
      invariant Part(own, i, start, start == len) && Bounded(result, batch, maxTokens)
      decreases len - start
    {
      var room := maxTokens - Size(batch);
      var n := if room < len - start then room else len - start;
      var f := Fragment(i, n, start + n == len);
      SizeAppends(batch, f);
      SizeAppends(own, f);
      assert Flatten(result) + batch + [f] == Flatten(result) + (batch + [f]) && before + own + [f] == before + (own + [f]);
      batch, own, start := batch + [f], own + [f], start + n;
      if Size(batch) == maxTokens { result, batch := Close(result, batch); }
    }
  }

  method Close(done: seq<seq<Fragment>>, batch: seq<Fragment>) returns (result: seq<seq<Fragment>>, next: seq<Fragment>)
    ensures result == done + [batch] && next == [] && Flatten(result) + next == Flatten(done) + batch
  {
    FlattenAppends(done, batch);
    result, next := done + [batch], [];
  }

  // ---- how many rounds ----

  function Total(lens: seq<nat>): nat { if lens == [] then 0 else Total(lens[..|lens| - 1]) + lens[|lens| - 1] }

  lemma {:induction false} SizeSplits(a: seq<Fragment>, b: seq<Fragment>)
    ensures Size(a + b) == Size(a) + Size(b)
  {
    if a == [] {
      assert a + b == b;
    } else {
      assert (a + b)[1..] == a[1..] + b;
      SizeSplits(a[1..], b);
    }
  }

  lemma {:induction false} CoversSize(fragments: seq<Fragment>, lens: seq<nat>)
    requires Covers(fragments, lens)
    ensures Size(fragments) == Total(lens)
    decreases |lens|
  {
    if lens != [] {
      var front, own := CoversSplits(fragments, lens);
      CoversSize(front, lens[..|lens| - 1]);
      SizeSplits(front, own);
    }
  }

  lemma {:induction false} FilledSize(parts: seq<seq<Fragment>>, maxTokens: nat)
    requires parts != [] && Filled(parts, maxTokens)
    ensures Size(Flatten(parts)) == (|parts| - 1) * maxTokens + Size(parts[|parts| - 1])
  {
    SizeSplits(parts[0], Flatten(parts[1..]));
    if |parts| > 1 {
      FilledSize(parts[1..], maxTokens);
      assert (|parts| - 1) * maxTokens == maxTokens + (|parts| - 2) * maxTokens;
    }
  }

  predicate Splits(b: Batch, maxTokens: nat) { !StaysWhole(b, maxTokens) && Total(b.lens) > maxTokens }

  /** As few microbatches as the tokens need; more than one exactly if they exceed the limit. */
  lemma RoundsNeeded(parts: seq<seq<Fragment>>, b: Batch, maxTokens: nat)
    requires Packed(parts, b, maxTokens)
    ensures |parts| > 1 <==> Splits(b, maxTokens)
    ensures Splits(b, maxTokens) ==> (|parts| - 1) * maxTokens < Total(b.lens) <= |parts| * maxTokens
  {
    CoversSize(Flatten(parts), b.lens);
    if !StaysWhole(b, maxTokens) {
      FilledSize(parts, maxTokens);
      assert |parts| * maxTokens == (|parts| - 1) * maxTokens + maxTokens;
      if |parts| > 1 { assert (|parts| - 1) * maxTokens >= maxTokens; }
    }
  }

  // ---- exactly one last fragment per sequence ----

  function LastCount(fragments: seq<Fragment>, i: nat): nat {
    if fragments == [] then 0
    else (if fragments[0].seqIdx == i && fragments[0].last then 1 else 0) + LastCount(fragments[1..], i)
  }

  lemma {:induction false} LastCountSplits(a: seq<Fragment>, b: seq<Fragment>, i: nat)
    ensures LastCount(a + b, i) == LastCount(a, i) + LastCount(b, i)
  {
    if a == [] {
      assert a + b == b;
    } else {
      assert (a + b)[1..] == a[1..] + b;
      LastCountSplits(a[1..], b, i);
    }
  }

  lemma {:induction false} NoLast(fragments: seq<Fragment>, i: nat)
    requires forall f | f in fragments :: f.seqIdx != i || !f.last
    ensures LastCount(fragments, i) == 0
  {
    if fragments != [] { NoLast(fragments[1..], i); }
  }

  lemma PartCount(fragments: seq<Fragment>, i: nat, n: nat, j: nat)
    requires Part(fragments, i, n, true)
    ensures LastCount(fragments, j) == if j == i && n > 0 then 1 else 0
  {
    if fragments == [] {
    } else {
      var k := |fragments| - 1;
      var front, f := fragments[..k], fragments[k];
      assert fragments == front + [f];
      assert f in fragments;
      SizeAppends(front, f);
      LastCountSplits(front, [f], j);
      forall g | g in front
        ensures !g.last
      {
        var m :| 0 <= m < |front| && front[m] == g;
        assert fragments[m] == g;
      }
      NoLast(front, j);
      assert [f][1..] == [];
    }
  }

  lemma {:induction false} OneLastEach(fragments: seq<Fragment>, lens: seq<nat>, i: nat)
    requires Covers(fragments, lens)
    ensures LastCount(fragments, i) == if i < |lens| && lens[i] > 0 then 1 else 0
    decreases |lens|
  {
    if lens != [] {
      var last := |lens| - 1;
      var front, own := CoversSplits(fragments, lens);
      OneLastEach(front, lens[..last], i);
      PartCount(own, last, lens[last], i);
      LastCountSplits(front, own, i);
    }
  }

  /** The metadata the driver folds by. */
  function Meta(batch: seq<Fragment>): Fragments {
    seq(|batch|, j requires 0 <= j < |batch| => (batch[j].seqIdx, batch[j].last))
  }

  predicate MarksLast(batches: seq<seq<Fragment>>, i: nat, k: nat, row: nat) {
    k < |batches| && row < |batches[k]| && batches[k][row].seqIdx == i && batches[k][row].last
  }

  lemma {:induction false} LastInBatch(batch: seq<Fragment>, i: nat) returns (row: nat)
    ensures LastCount(batch, i) > 0 ==> row < |batch| && batch[row].seqIdx == i && batch[row].last
    ensures LastCount(batch, i) <= 1 ==>
      forall r | 0 <= r < |batch| && batch[r].seqIdx == i && batch[r].last :: LastCount(batch, i) == 1 && r == row
  {
    row := 0;
    if batch != [] {
      var rest := batch[1..];
      var r := LastInBatch(rest, i);
      if !(batch[0].seqIdx == i && batch[0].last) { row := r + 1; }
      assert forall j | 1 <= j < |batch| :: batch[j] == rest[j - 1];
    }
  }

  /** In which microbatch, and in which row of it, a sequence ends. */
  lemma {:induction false} LastPlace(batches: seq<seq<Fragment>>, i: nat) returns (k: nat, row: nat)
    requires LastCount(Flatten(batches), i) <= 1
    ensures LastCount(Flatten(batches), i) == 1 ==> MarksLast(batches, i, k, row)
    ensures forall k': nat, row': nat | MarksLast(batches, i, k', row') ::
              LastCount(Flatten(batches), i) == 1 && k' == k && row' == row
    decreases |batches|
  {
    k, row := 0, 0;
    if batches != [] {
      var b, rest := batches[0], batches[1..];
      LastCountSplits(b, Flatten(rest), i);
      var r := LastInBatch(b, i);
      var k', row' := LastPlace(rest, i);
      if LastCount(b, i) == 1 { row := r; } else { k, row := k' + 1, row'; }
      forall m: nat, n: nat | MarksLast(batches, i, m, n)
        ensures LastCount(Flatten(batches), i) == 1 && m == k && n == row
      {
        if m > 0 { assert MarksLast(rest, i, m - 1, n); }
      }
      if LastCount(b, i) == 0 && LastCount(Flatten(rest), i) == 1 { assert MarksLast(batches, i, k, row); }
    }
  }

  // ---- a batch in one piece ----

  /** If no sequence is cut and none is empty, the fragments are the sequences. */
  lemma {:induction false} UncutFragments(fragments: seq<Fragment>, lens: seq<nat>, i: nat)
    requires Covers(fragments, lens) && forall j | 0 <= j < |lens| :: lens[j] > 0
    requires forall f | f in fragments :: f.last
    ensures |fragments| == |lens| && (i < |lens| ==> fragments[i].seqIdx == i)
    decreases |lens|
  {
    if lens != [] {
      var last := |lens| - 1;
      var front, own := CoversSplits(fragments, lens);
      OneOwn(own, last, lens[last]) by { assert forall f | f in own :: f in fragments; }
      UncutFragments(front, lens[..last], i) by { assert forall f | f in front :: f in fragments; }
    }
  }

  lemma OneOwn(own: seq<Fragment>, i: nat, n: nat)
    requires Part(own, i, n, true) && n > 0 && forall f | f in own :: f.last
    ensures |own| == 1 && own[0].seqIdx == i
  {
    assert own != [];
    assert own[0] in own;
  }

  lemma {:induction false} EndsLast(fragments: seq<Fragment>, lens: seq<nat>)
    requires Covers(fragments, lens) && fragments != []
    ensures fragments[|fragments| - 1].last
    decreases |lens|
  {
    var front, own := CoversSplits(fragments, lens);
    if own == [] { EndsLast(front, lens[..|lens| - 1]); }
  }

  /** In a batch that needs no second round, sequence `i` is in row `i` if none is empty. */
  lemma OnePiece(parts: seq<seq<Fragment>>, b: Batch, maxTokens: nat, i: nat)
    requires Packed(parts, b, maxTokens) && |parts| == 1 && i < |b.lens| && forall j | 0 <= j < |b.lens| :: b.lens[j] > 0
    ensures MarksLast(parts, i, 0, i)
  {
    var p := parts[0];
    assert parts[1..] == [] && p in parts;
    assert Flatten(parts) == p + [] == p;
    if p != [] { EndsLast(p, b.lens); }
    forall f | f in p
      ensures f.last
    {
      var j :| 0 <= j < |p| && p[j] == f;
    }
    UncutFragments(p, b.lens, i);
  }

  // ---- the row of a sequence ----

  /** One cell's rounds: its microbatches, padded with dummies that carry no fragments. */
  function Padded(parts: seq<seq<Fragment>>, k: nat): Fragments {
    if k < |parts| then Meta(parts[k]) else []
  }

  predicate HasTokens(lens: seq<nat>, i: nat) { i < |lens| && lens[i] > 0 }

  /** For every packing of a group's sequences and any answers of its reporter: a sequence
      with tokens gets exactly the row its last fragment has in its round, whatever the other
      rounds and the dummies hold; one without tokens gets none. */
  lemma SequenceRow(lens: seq<nat>, parts: seq<seq<Fragment>>, feeds: seq<Feed>, n: nat, i: nat) returns (k: nat, row: nat)
    requires Covers(Flatten(parts), lens) && |parts| <= |feeds| && i < n
    requires forall r | 0 <= r < |feeds| :: feeds[r].fragments == Padded(parts, r)
    ensures HasTokens(lens, i) ==> MarksLast(parts, i, k, row)
    ensures var g := FoldFeeds(Blank(n), feeds);
      && g.tokens[i] == (if HasTokens(lens, i) then TokensAt(feeds[k].out, row) else [])
      && g.logprobs[i] == (if HasTokens(lens, i) then LogprobsAt(feeds[k].out, row) else [])
  {
    OneLastEach(Flatten(parts), lens, i);
    k, row := LastPlace(parts, i);
    forall k': nat, row': nat
      ensures LastAt(feeds, i, k', row') <==> MarksLast(parts, i, k', row')
    {
      if k' < |feeds| { assert feeds[k'].fragments == Padded(parts, k'); }
    }
    if HasTokens(lens, i) {
      assert LastAt(feeds, i, k, row);
      LastRowWins(Blank(n), feeds, i, k, row);
    } else {
      FeedsUntouched(Blank(n), feeds, i);
    }
  }
}
