/** The incremental detokenizer over byte-level tokens: each call decodes only the tail of
    the token list, and holds its delta back while the last character is unfinished. */
module Detokenizer {
  import opened Utf8
  import opened Patterns

  type Token = nat

  /** The bytes a token stands for. */
  type Vocabulary = Token -> seq<Byte>

  function Bytes(vocabulary: Vocabulary, ids: seq<Token>): seq<Byte> {
    if ids == [] then [] else vocabulary(ids[0]) + Bytes(vocabulary, ids[1..])
  }

  /** `tokenizer.decode` */
  function Text(vocabulary: Vocabulary, ids: seq<Token>): string { Decode(Bytes(vocabulary, ids)) }

  datatype Offsets = Offsets(prefix: nat, read: nat)

  /** `_incremental_detokenize` */
  function Advance(vocabulary: Vocabulary, ids: seq<Token>, o: Offsets): (Offsets, string)
    requires o.prefix <= o.read <= |ids|
  {
    var prefixText := Text(vocabulary, ids[o.prefix..o.read]);
    var newText := Text(vocabulary, ids[o.prefix..]);
    if |newText| > |prefixText| && !EndsBroken(newText) then
      (Offsets(o.read, |ids|), newText[|prefixText|..])
    else (o, "")
  }

  /** Both offsets stand on character boundaries, and no broken character was shown. */
  predicate Aligned(vocabulary: Vocabulary, ids: seq<Token>, o: Offsets) {
    && o.prefix <= o.read <= |ids|
    && Complete(Bytes(vocabulary, ids[..o.prefix])) && Complete(Bytes(vocabulary, ids[..o.read]))
    && !EndsBroken(Text(vocabulary, ids[..o.read]))
  }

  lemma {:induction false} BytesAppend(vocabulary: Vocabulary, a: seq<Token>, b: seq<Token>)
    ensures Bytes(vocabulary, a + b) == Bytes(vocabulary, a) + Bytes(vocabulary, b)
  {
    if a == [] {
      assert a + b == b;
    } else {
      assert (a + b)[1..] == a[1..] + b;
      BytesAppend(vocabulary, a[1..], b);
    }
  }

  /** On a boundary, token lists decode piece by piece. */
  lemma TextSplits(vocabulary: Vocabulary, a: seq<Token>, b: seq<Token>)
    requires Complete(Bytes(vocabulary, a))
    ensures Text(vocabulary, a + b) == Text(vocabulary, a) + Text(vocabulary, b)
    ensures Complete(Bytes(vocabulary, a + b)) == Complete(Bytes(vocabulary, b))
  {
    BytesAppend(vocabulary, a, b);
    DecodeSplits(Bytes(vocabulary, a), Bytes(vocabulary, b));
  }

  lemma AlignedGrows(vocabulary: Vocabulary, ids: seq<Token>, more: seq<Token>, o: Offsets)
    requires Aligned(vocabulary, ids, o)
    ensures Aligned(vocabulary, ids + more, o)
    ensures Text(vocabulary, (ids + more)[..o.read]) == Text(vocabulary, ids[..o.read])
  {
    assert (ids + more)[..o.prefix] == ids[..o.prefix] && (ids + more)[..o.read] == ids[..o.read];
  }

  /** The three texts around the offsets. */
  lemma AroundOffsets(vocabulary: Vocabulary, ids: seq<Token>, o: Offsets)
    requires Aligned(vocabulary, ids, o)
    ensures Text(vocabulary, ids[o.prefix..]) == Text(vocabulary, ids[o.prefix..o.read]) + Text(vocabulary, ids[o.read..])
    ensures Text(vocabulary, ids) == Text(vocabulary, ids[..o.read]) + Text(vocabulary, ids[o.read..])
    ensures Text(vocabulary, ids) == Text(vocabulary, ids[..o.prefix]) + Text(vocabulary, ids[o.prefix..])
    ensures Complete(Bytes(vocabulary, ids)) == Complete(Bytes(vocabulary, ids[o.prefix..]))
  {
    var head, mid, tail := ids[..o.prefix], ids[o.prefix..o.read], ids[o.read..];
    assert ids[..o.read] == head + mid && ids[o.prefix..] == mid + tail;
    assert ids == head + ids[o.prefix..] && ids == ids[..o.read] + tail;
    TextSplits(vocabulary, head, mid);
    TextSplits(vocabulary, head, ids[o.prefix..]);
    TextSplits(vocabulary, ids[..o.read], tail);
    TextSplits(vocabulary, mid, tail);
  }

  /** One call keeps the offsets aligned, its delta continues the text read so far, and it
      reads everything exactly when the whole text does not end in a broken character. */
  lemma AdvanceKeeps(vocabulary: Vocabulary, ids: seq<Token>, o: Offsets)
    requires Aligned(vocabulary, ids, o)
    ensures var (next, delta) := Advance(vocabulary, ids, o);
      && Aligned(vocabulary, ids, next)
      && Text(vocabulary, ids[..next.read]) == Text(vocabulary, ids[..o.read]) + delta
      && (Text(vocabulary, ids[..next.read]) == Text(vocabulary, ids) <==> !EndsBroken(Text(vocabulary, ids)))
  {
    AroundOffsets(vocabulary, ids, o);
    var newText, rest := Text(vocabulary, ids[o.prefix..]), Text(vocabulary, ids[o.read..]);
    if rest != "" {
      assert EndsBroken(newText) == EndsBroken(rest) == EndsBroken(Text(vocabulary, ids));
      if !EndsBroken(newText) {
        assert ids[..|ids|] == ids;
        if !Complete(Bytes(vocabulary, ids)) { IncompleteEndsBroken(Bytes(vocabulary, ids)); }
      }
    }
  }

  // ---- whole generations ----

  /** One call after each bundle of tokens. */
  function Deltas(vocabulary: Vocabulary, ids: seq<Token>, o: Offsets, bundles: seq<seq<Token>>): seq<string>
    requires o.prefix <= o.read <= |ids|
    decreases |bundles|
  {
    if bundles == [] then []
    else
      var more := ids + bundles[0];
      var (next, delta) := Advance(vocabulary, more, o);
      [delta] + Deltas(vocabulary, more, next, bundles[1..])
  }

  function Flatten(bundles: seq<seq<Token>>): seq<Token> {
    if bundles == [] then [] else bundles[0] + Flatten(bundles[1..])
  }

  /** `shown` is the text read so far; it is all of the text unless that ends broken. */
  predicate Shown(vocabulary: Vocabulary, ids: seq<Token>, o: Offsets, shown: string) {
    && Aligned(vocabulary, ids, o) && shown == Text(vocabulary, ids[..o.read])
    && (shown == Text(vocabulary, ids) <==> !EndsBroken(Text(vocabulary, ids)))
  }

  lemma ShownAdvances(vocabulary: Vocabulary, ids: seq<Token>, o: Offsets, shown: string, bundle: seq<Token>)
    requires Shown(vocabulary, ids, o, shown)
    ensures var (next, delta) := Advance(vocabulary, ids + bundle, o);
            Shown(vocabulary, ids + bundle, next, shown + delta)
  {
    AlignedGrows(vocabulary, ids, bundle, o);
    AdvanceKeeps(vocabulary, ids + bundle, o);
  }

  lemma ShownIsPrefix(vocabulary: Vocabulary, ids: seq<Token>, o: Offsets, shown: string)
    requires Shown(vocabulary, ids, o, shown)
    ensures shown <= Text(vocabulary, ids)
  {
    AroundOffsets(vocabulary, ids, o);
  }

  predicate AllUnlessBroken(shown: string, whole: string) {
    shown <= whole && (shown == whole <==> !EndsBroken(whole))
  }

  lemma {:induction false} DeltasContinue(vocabulary: Vocabulary, ids: seq<Token>, o: Offsets, shown: string,
                                          bundles: seq<seq<Token>>, all: seq<Token>)
    requires Shown(vocabulary, ids, o, shown) && all == ids + Flatten(bundles)
    ensures AllUnlessBroken(shown + Concat(Deltas(vocabulary, ids, o, bundles)), Text(vocabulary, all))
    decreases |bundles|
  {
    if bundles == [] {
      assert all == ids && shown + "" == shown;
      ShownIsPrefix(vocabulary, ids, o, shown);
    } else {
      var (next, delta) := Advance(vocabulary, ids + bundles[0], o);
      ShownAdvances(vocabulary, ids, o, shown, bundles[0]);
      ContinueWith(vocabulary, ids, o, shown, bundles, all, ids + bundles[0], next, delta);
    }
  }

  lemma ContinueWith(vocabulary: Vocabulary, ids: seq<Token>, o: Offsets, shown: string, bundles: seq<seq<Token>>,
                     all: seq<Token>, more: seq<Token>, next: Offsets, delta: string)
    requires bundles != [] && o.prefix <= o.read <= |ids| && all == ids + Flatten(bundles)
    requires more == ids + bundles[0] && (next, delta) == Advance(vocabulary, more, o)
    requires Shown(vocabulary, more, next, shown + delta)
    ensures AllUnlessBroken(shown + Concat(Deltas(vocabulary, ids, o, bundles)), Text(vocabulary, all))
    decreases |bundles|, 0
  {
    FlattenUnfolds(ids, bundles);
    DeltasContinue(vocabulary, more, next, shown + delta, bundles[1..], all);
    DeltasUnfold(vocabulary, ids, o, bundles, more, next, delta);
    ConcatOnto(shown, delta, Deltas(vocabulary, more, next, bundles[1..]));
  }

  lemma FlattenUnfolds(ids: seq<Token>, bundles: seq<seq<Token>>)
    requires bundles != []
    ensures ids + Flatten(bundles) == ids + bundles[0] + Flatten(bundles[1..])
  {
  }

  lemma DeltasUnfold(vocabulary: Vocabulary, ids: seq<Token>, o: Offsets, bundles: seq<seq<Token>>,
                     more: seq<Token>, next: Offsets, delta: string)
    requires bundles != [] && o.prefix <= o.read <= |ids|
    requires more == ids + bundles[0] && (next, delta) == Advance(vocabulary, more, o)
    ensures Deltas(vocabulary, ids, o, bundles) == [delta] + Deltas(vocabulary, more, next, bundles[1..])
  {
  }

  lemma ConcatOnto(shown: string, delta: string, rest: seq<string>)
    ensures shown + Concat([delta] + rest) == shown + delta + Concat(rest)
  {
    assert ([delta] + rest)[1..] == rest;
  }

  lemma StartAligned(vocabulary: Vocabulary)
    ensures Aligned(vocabulary, [], Offsets(0, 0)) && Text(vocabulary, []) == ""
  {
    assert Bytes(vocabulary, []) == [];
  }

  /** However the tokens are bundled, the deltas make up a prefix of the decoded text, and
      all of it if and only if the text does not end in a broken character. */
  lemma IncrementalIsFullDecode(vocabulary: Vocabulary, bundles: seq<seq<Token>>)
    ensures AllUnlessBroken(Concat(Deltas(vocabulary, [], Offsets(0, 0), bundles)), Text(vocabulary, Flatten(bundles)))
  {
    StartAligned(vocabulary);
    var none: seq<Token> := [];
    assert none[..0] == none;
    assert none + Flatten(bundles) == Flatten(bundles);
    DeltasContinue(vocabulary, none, Offsets(0, 0), "", bundles, Flatten(bundles));
    var text := Concat(Deltas(vocabulary, none, Offsets(0, 0), bundles));
    assert "" + text == text;
  }

  /** In particular a well formed text that does not end in U+FFFD comes out whole. */
  lemma WellFormedTextComesOut(vocabulary: Vocabulary, bundles: seq<seq<Token>>, text: string)
    requires Bytes(vocabulary, Flatten(bundles)) == Encode(text) && !EndsBroken(text)
    ensures Concat(Deltas(vocabulary, [], Offsets(0, 0), bundles)) == text
  {
    IncrementalIsFullDecode(vocabulary, bundles);
    RoundTrip(text);
  }
}
