/** There is only one way to pack a batch: filling every microbatch to the limit, and cutting
    sequences only there, leaves no choice. */
module PackingUnique {
  import opened Microbatches

  /** The fragments of the sequences from `i` on, of which `left` tokens are still to come. */
  predicate Runs(fragments: seq<Fragment>, lens: seq<nat>, i: nat, left: nat)
    requires i < |lens|
    decreases |lens| - i, left
  {
    if left == 0 then
      if i + 1 == |lens| then fragments == [] else Runs(fragments, lens, i + 1, lens[i + 1])
    else
      && fragments != [] && fragments[0].seqIdx == i && 0 < fragments[0].len <= left
      && (fragments[0].last <==> fragments[0].len == left) && Runs(fragments[1..], lens, i, left - fragments[0].len)
  }

  lemma {:induction false} PartRuns(own: seq<Fragment>, lens: seq<nat>, left: nat)
    requires lens != [] && Part(own, |lens| - 1, left, true)
    ensures Runs(own, lens, |lens| - 1, left)
    decreases |own|
  {
    if own != [] {
      assert own[0] in own;
      if |own| > 1 { assert own[1] in own && own[1..][0] == own[1]; }
      assert forall f | f in own[1..] :: f in own;
      PartRuns(own[1..], lens, left - own[0].len);
    }
  }

  lemma {:induction false} RunsGrows(fragments: seq<Fragment>, own: seq<Fragment>, lens: seq<nat>, i: nat, left: nat)
    requires i + 1 < |lens| && Runs(fragments, lens[..|lens| - 1], i, left) && Part(own, |lens| - 1, lens[|lens| - 1], true)
    ensures Runs(fragments + own, lens, i, left)
    decreases |lens| - i, left
  {
    if left > 0 {
      assert (fragments + own)[1..] == fragments[1..] + own;
      RunsGrows(fragments[1..], own, lens, i, left - fragments[0].len);
    } else if i + 2 == |lens| {
      assert fragments + own == own;
      PartRuns(own, lens, lens[i + 1]);
    } else {
      RunsGrows(fragments, own, lens, i + 1, lens[i + 1]);
    }
  }

  lemma {:induction false} CoversRuns(fragments: seq<Fragment>, lens: seq<nat>)
    requires lens != [] && Covers(fragments, lens)
    ensures Runs(fragments, lens, 0, lens[0])
    decreases |lens|
  {
    var front, own := CoversSplits(fragments, lens);
    if |lens| == 1 {
      assert front == [] && fragments == own;
      PartRuns(own, lens, lens[0]);
    } else {
      CoversRuns(front, lens[..|lens| - 1]);
      RunsGrows(front, own, lens, 0, lens[0]);
    }
  }

  /** Microbatches of which the first has `room` left. */
  ghost predicate Filling(parts: seq<seq<Fragment>>, room: nat, maxTokens: nat) {
    && parts != [] && (forall p | p in parts :: CutAtEnd(p))
    && Size(parts[0]) <= room && (|parts| > 1 ==> Size(parts[0]) == room)
    && (|parts| > 1 ==> Filled(parts[1..], maxTokens) && Size(parts[|parts| - 1]) > 0)
  }

  lemma {:induction false} NothingInEmpty(parts: seq<seq<Fragment>>)
    requires Flatten(parts) == [] && parts != [] && (|parts| > 1 ==> Size(parts[|parts| - 1]) > 0)
    ensures parts == [[]]
    decreases |parts|
  {
    if |parts| == 1 {
      assert Flatten(parts[1..]) == [] && parts == [parts[0]];
    } else {
      LastIsEmpty(parts);
    }
  }

  lemma {:induction false} LastIsEmpty(parts: seq<seq<Fragment>>)
    requires Flatten(parts) == [] && parts != []
    ensures parts[|parts| - 1] == []
    decreases |parts|
  {
    if |parts| > 1 { LastIsEmpty(parts[1..]); }
  }

  lemma {:induction false} RunsPositive(fragments: seq<Fragment>, lens: seq<nat>, i: nat, left: nat)
    requires i < |lens| && Runs(fragments, lens, i, left)
    ensures forall f | f in fragments :: f.len > 0
    decreases |lens| - i, left
  {
    if left > 0 {
      RunsPositive(fragments[1..], lens, i, left - fragments[0].len);
      assert forall f | f in fragments :: f == fragments[0] || f in fragments[1..];
    } else if i + 1 < |lens| {
      RunsPositive(fragments, lens, i + 1, lens[i + 1]);
    }
  }

  lemma Alone(parts: seq<seq<Fragment>>)
    ensures |parts| == 1 ==> Flatten(parts) == parts[0]
  {
    if |parts| == 1 { assert Flatten(parts) == parts[0] + Flatten(parts[1..]) && Flatten(parts[1..]) == []; }
  }

  lemma PositiveSize(fragments: seq<Fragment>)
    requires forall f | f in fragments :: f.len > 0
    ensures fragments == [] || Size(fragments) > 0
  {
    if fragments != [] { assert fragments[0] in fragments; }
  }

  /** Without room, the first microbatch is empty and another follows. */
  lemma NoRoom(parts: seq<seq<Fragment>>, lens: seq<nat>, i: nat, left: nat, maxTokens: nat)
    requires i < |lens| && left > 0 && Runs(Flatten(parts), lens, i, left) && Filling(parts, 0, maxTokens)
    ensures parts[0] == [] && |parts| > 1 && Filling(parts[1..], maxTokens, maxTokens)
    ensures Flatten(parts) == Flatten(parts[1..])
  {
    RunsPositive(Flatten(parts), lens, i, left);
    Alone(parts);
    assert forall f | f in parts[0] :: f in Flatten(parts);
    PositiveSize(parts[0]);
    assert Flatten(parts) == Flatten(parts[1..]);
    assert |parts| > 1;
    var rest := parts[1..];
    assert forall p | p in rest :: p in parts;
    assert |rest| > 1 ==> Size(rest[0]) == maxTokens;
    RestFilled(rest, maxTokens);
  }

  lemma RestFilled(rest: seq<seq<Fragment>>, maxTokens: nat)
    requires Filled(rest, maxTokens)
    ensures |rest| > 1 ==> Filled(rest[1..], maxTokens)
  {
  }

  /** With room, the first fragment takes all that is left of its sequence, or all the room. */
  lemma FirstFragment(parts: seq<seq<Fragment>>, lens: seq<nat>, i: nat, left: nat, room: nat, maxTokens: nat)
    returns (f: Fragment, next: seq<seq<Fragment>>)
    requires i < |lens| && left > 0 && room > 0 && Runs(Flatten(parts), lens, i, left) && Filling(parts, room, maxTokens)
    ensures f == Fragment(i, if left <= room then left else room, left <= room)
    ensures next != [] && parts == [[f] + next[0]] + next[1..] && Filling(next, room - f.len, maxTokens)
    ensures Runs(Flatten(next), lens, i, left - f.len)
  {
    Alone(parts);
    f := parts[0][0];
    next := [parts[0][1..]] + parts[1..];
    assert Flatten(parts)[0] == f && Size(parts[0]) == f.len + Size(parts[0][1..]);
    assert next[1..] == parts[1..] && parts == [parts[0]] + parts[1..] && parts[0] == [f] + parts[0][1..];
    assert Flatten(parts)[1..] == parts[0][1..] + Flatten(parts[1..]) == Flatten(next);
    NextCut(parts, next);
    if f.len < left { NotLast(parts, f, lens, i, left); }
  }

  lemma NextCut(parts: seq<seq<Fragment>>, next: seq<seq<Fragment>>)
    requires parts != [] && parts[0] != [] && next == [parts[0][1..]] + parts[1..] && forall p | p in parts :: CutAtEnd(p)
    ensures forall p | p in next :: CutAtEnd(p)
  {
    assert parts[0] in parts && CutAtEnd(parts[0]);
    assert CutAtEnd(parts[0][1..]);
    assert forall p | p in parts[1..] :: p in parts;
    assert forall p | p in next :: p == parts[0][1..] || p in parts[1..];
  }

  lemma NotLast(parts: seq<seq<Fragment>>, f: Fragment, lens: seq<nat>, i: nat, left: nat)
    requires i < |lens| && parts != [] && parts[0] != [] && f == parts[0][0] && 0 < f.len < left && CutAtEnd(parts[0])
    requires Flatten(parts) != [] && Flatten(parts)[0] == f && Runs(Flatten(parts), lens, i, left)
    ensures |parts| > 1 && Size(parts[0]) == f.len
  {
    assert !f.last && |parts[0]| == 1;
    assert parts[0] == [f] && parts[0][1..] == [];
    assert Runs(Flatten(parts)[1..], lens, i, left - f.len);
    Alone(parts);
  }

  lemma SameRest(p: seq<seq<Fragment>>, q: seq<seq<Fragment>>)
    requires p != [] && q != [] && p[0] == q[0] && p[1..] == q[1..]
    ensures p == q
  {
    assert p == [p[0]] + p[1..] && q == [q[0]] + q[1..];
  }

  lemma {:induction false} SameFilling(p: seq<seq<Fragment>>, q: seq<seq<Fragment>>, lens: seq<nat>, i: nat, left: nat,
                                       room: nat, maxTokens: nat)
    requires i < |lens| && Runs(Flatten(p), lens, i, left) && Runs(Flatten(q), lens, i, left)
    requires Filling(p, room, maxTokens) && Filling(q, room, maxTokens)
    ensures p == q
    decreases |lens| - i, left, |p|
  {
    if left == 0 {
      if i + 1 == |lens| {
        NothingInEmpty(p);
        NothingInEmpty(q);
      } else {
        SameFilling(p, q, lens, i + 1, lens[i + 1], room, maxTokens);
      }
    } else if room == 0 {
      NoRoom(p, lens, i, left, maxTokens);
      NoRoom(q, lens, i, left, maxTokens);
      SameFilling(p[1..], q[1..], lens, i, left, maxTokens, maxTokens);
      SameRest(p, q);
    } else {
      var f, p' := FirstFragment(p, lens, i, left, room, maxTokens);
      var g, q' := FirstFragment(q, lens, i, left, room, maxTokens);
      SameFilling(p', q', lens, i, left - f.len, room - f.len, maxTokens);
    }
  }

  /** The packing is determined by the batch and the limit. */
  lemma PackedUnique(p: seq<seq<Fragment>>, q: seq<seq<Fragment>>, b: Batch, maxTokens: nat)
    requires Packed(p, b, maxTokens) && Packed(q, b, maxTokens)
    ensures p == q
  {
    if b.lens == [] {
      assert Flatten(p[1..]) == Flatten(q[1..]) == [];
      assert p == [p[0]] && q == [q[0]];
    } else {
      CoversRuns(Flatten(p), b.lens);
      CoversRuns(Flatten(q), b.lens);
      var room := if StaysWhole(b, maxTokens) then Size(p[0]) + Size(q[0]) else maxTokens;
      PackedFills(p, b, maxTokens, room);
      PackedFills(q, b, maxTokens, room);
      SameFilling(p, q, b.lens, 0, b.lens[0], room, maxTokens);
    }
  }

  lemma PackedFills(p: seq<seq<Fragment>>, b: Batch, maxTokens: nat, room: nat)
    requires Packed(p, b, maxTokens) && (if StaysWhole(b, maxTokens) then Size(p[0]) <= room else room == maxTokens)
    ensures Filling(p, room, maxTokens)
  {
    if |p| > 1 { assert Filled(p[1..], maxTokens); }
  }
}
