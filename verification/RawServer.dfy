/** The generator of the raw streaming path, tied to the transition functions of RawStream. */
module RawServer {
  import opened Patterns
  import opened Detokenizer
  import opened Generations
  import opened StopFilter
  import opened RawStream
  import RawExact
  import Utf8

  /** What the yields show on one channel. */
  function Channel(shown: seq<Yield>, inReasoning: bool): string {
    if shown == [] then ""
    else (if shown[0].inReasoning == inReasoning then shown[0].text else "") + Channel(shown[1..], inReasoning)
  }

  lemma {:induction false} ChannelAppends(a: seq<Yield>, b: seq<Yield>, inReasoning: bool)
    ensures Channel(a + b, inReasoning) == Channel(a, inReasoning) + Channel(b, inReasoning)
  {
    if a == [] {
      assert a + b == b;
    } else {
      assert (a + b)[1..] == a[1..] + b;
      ChannelAppends(a[1..], b, inReasoning);
    }
  }

  /** A yield of `text`, if there is any. */
  function Piece(text: string, inReasoning: bool): seq<Yield> {
    if text == "" then [] else [Yield(text, inReasoning, [])]
  }

  lemma PieceShows(text: string, inReasoning: bool)
    ensures Channel(Piece(text, inReasoning), inReasoning) == text && Channel(Piece(text, inReasoning), !inReasoning) == ""
  {
    if text != "" { assert Piece(text, inReasoning)[1..] == []; }
  }

  /** Content handling of one delta: stop strings, then markers, then the held-back suffix. */
  method AnswerDelta(c: Setup, s: Raw) returns (t: Raw, shown: seq<Yield>)
    requires s.emitted <= |s.text|
    ensures t == Answer(c, s) && t.reasoning == s.reasoning && s.content <= t.content
    ensures shown == Piece(t.content[|s.content|..], false)
  {
    t := SearchAnswer(c, s);
    AnswerAdds(c, s);
    shown := Piece(t.content[|s.content|..], false);
  }

  method SearchAnswer(c: Setup, s: Raw) returns (t: Raw)
    requires s.emitted <= |s.text|
    ensures t == Answer(c, s)
  {
    var idx: Option<nat> := None;
    if c.stops != [] { idx := EarliestStop(s.text, c.stops); } else { EarliestSpec(s.text, c.stops, 0, None); }
    EarliestBounds(s.text, c.stops, 0);
    if idx.Some? { return ShowTo(s, idx.value).(stopped := true); }
    if s.holding { return s; }
    var midx: Option<nat> := None;
    if c.markers != [] { midx := EarliestStop(s.text, c.markers); } else { EarliestSpec(s.text, c.markers, 0, None); }
    EarliestBounds(s.text, c.markers, 0);
    if midx.Some? { return ShowTo(s, midx.value).(holding := true); }
    var hold := PartialStopHoldback(s.text, c.stops + c.markers);
    HoldbackIsSafe(s.text, c.stops + c.markers, hold);
    t := ShowTo(s, |s.text| - hold);
  }

  lemma AnswerAdds(c: Setup, s: Raw)
    requires s.emitted <= |s.text|
    ensures Answer(c, s).reasoning == s.reasoning && s.content <= Answer(c, s).content && Answer(c, s).active == s.active
  {
  }

  lemma Added(before: string, chunk: string)
    ensures before <= before + chunk && (before + chunk)[|before|..] == chunk
  {
  }

  /** Reasoning handling: up to the closing tag, or all but a partial one. */
  method ReasonDelta(c: Setup, s: Raw) returns (t: Raw, shown: seq<Yield>)
    requires s.emitted <= |s.text|
    ensures t == Reason(c, s) && s.reasoning <= t.reasoning && s.content <= t.content
    ensures shown == Piece(t.reasoning[|s.reasoning|..], true) + Piece(t.content[|s.content|..], false)
  {
    var close := FindFrom(s.text, c.thinkClose, s.emitted);
    if close.None? {
      var hold := PartialStopHoldback(s.text, [c.thinkClose]);
      t, shown := ReasonWaits(c, s, hold);
    } else {
      t, shown := ReasonCloses(c, s, close.value);
    }
  }

  method ReasonWaits(c: Setup, s: Raw, hold: nat) returns (t: Raw, shown: seq<Yield>)
    requires s.emitted <= |s.text| && FindFrom(s.text, c.thinkClose, s.emitted).None?
    requires IsHoldback(s.text, [c.thinkClose], hold)
    ensures t == Reason(c, s) && s.reasoning <= t.reasoning && t.content == s.content
    ensures shown == Piece(t.reasoning[|s.reasoning|..], true) + Piece(t.content[|s.content|..], false)
  {
    HoldbackIsSafe(s.text, [c.thinkClose], hold);
    var safe := Max(s.emitted, |s.text| - hold);
    Added(s.reasoning, s.text[s.emitted..safe]);
    t := s.(reasoning := s.reasoning + s.text[s.emitted..safe], emitted := safe);
    shown := Piece(s.text[s.emitted..safe], true);
    assert Piece(t.content[|s.content|..], false) == [];
  }

  method ReasonCloses(c: Setup, s: Raw, close: nat) returns (t: Raw, shown: seq<Yield>)
    requires s.emitted <= |s.text| && FindFrom(s.text, c.thinkClose, s.emitted) == Some(close)
    ensures t == Reason(c, s) && s.reasoning <= t.reasoning && s.content <= t.content
    ensures shown == Piece(t.reasoning[|s.reasoning|..], true) + Piece(t.content[|s.content|..], false)
  {
    var chunk := s.text[s.emitted..close];
    var u := Closed(c, s, close);
    var more;
    t, more := AnswerDelta(c, u);
    ClosesTo(c, s, close, u, t, chunk);
    shown := Piece(chunk, true) + more;
  }

  lemma ClosesTo(c: Setup, s: Raw, close: nat, u: Raw, t: Raw, chunk: string)
    requires s.emitted <= close <= |s.text| && FindFrom(s.text, c.thinkClose, s.emitted) == Some(close)
    requires u == Closed(c, s, close) && chunk == s.text[s.emitted..close] && t == Answer(c, u)
    ensures t == Reason(c, s) && s.reasoning <= t.reasoning && t.reasoning[|s.reasoning|..] == chunk
    ensures u.content == s.content <= t.content
  {
    AnswerAdds(c, u);
    Added(s.reasoning, chunk);
  }

  /** The closing tag at `close` has been passed. */
  function Closed(c: Setup, s: Raw, close: nat): (u: Raw)
    requires s.emitted <= |s.text| && FindFrom(s.text, c.thinkClose, s.emitted) == Some(close)
    ensures u.emitted <= |u.text| && u.text == s.text && u.content == s.content
  {
    s.(reasoning := s.reasoning + s.text[s.emitted..close], emitted := close + |c.thinkClose|, active := false)
  }

  /** The think channel is never opened again, and nothing is added to it once it is closed. */
  lemma StepChannels(c: Setup, s: Raw, delta: string)
    requires s.emitted <= |s.text|
    ensures var t := Step(c, s, delta); (t.active ==> s.active) && (!s.active ==> t.reasoning == s.reasoning)
  {
    if !s.active { AnswerAdds(c, s.(text := s.text + delta)); }
  }

  /** One nonempty delta of decoded text. */
  method TakeDelta(c: Setup, s: Raw, delta: string) returns (t: Raw, shown: seq<Yield>)
    requires s.emitted <= |s.text|
    ensures t == Step(c, s, delta) && s.reasoning <= t.reasoning && s.content <= t.content
    ensures shown == Piece(t.reasoning[|s.reasoning|..], true) + Piece(t.content[|s.content|..], false)
  {
    var u := s.(text := s.text + delta);
    if !s.active {
      t, shown := AnswerDelta(c, u);
      assert t.reasoning == s.reasoning && Piece(t.reasoning[|s.reasoning|..], true) == [];
      return;
    }
    if s.drop {
      var pos, needMore := SkipRedundantThinkOpeners(u.text, s.emitted);
      if needMore {
        t, shown := u.(emitted := pos), [];
        assert Piece(t.reasoning[|s.reasoning|..], true) == [] && Piece(t.content[|s.content|..], false) == [];
        return;
      }
      u := u.(emitted := pos, drop := false);
    }
    t, shown := ReasonDelta(c, u);
  }

  // ---- the loop over queue items ----

  datatype Outcome = Outcome(raw: Raw, ids: seq<Token>, error: Option<string>)

  /** The loop of `_stream_text_raw` from a given state on. */
  function Stream(c: Setup, vocabulary: Vocabulary, maxTokens: int, ids: seq<Token>, o: Offsets, s: Raw,
                  items: seq<Item>): Outcome
    requires o.prefix <= o.read <= |ids| && s.emitted <= |s.text|
    decreases |items|
  {
    if items == [] || s.stopped then Outcome(Flush(s), ids, None)
    else
      match items[0]
      case Failure(message) => Outcome(s, ids, Some(message))
      case Other => Stream(c, vocabulary, maxTokens, ids, o, s, items[1..])
      case Tokens(bundle) =>
        if maxTokens <= |ids| then Stream(c, vocabulary, maxTokens, ids, o, s, items[1..])
        else
          var more := ids + AtMost(bundle, maxTokens - |ids|);
          var (next, delta) := Advance(vocabulary, more, o);
          var t := if delta == "" then s else Step(c, s, delta);
          Stream(c, vocabulary, maxTokens, more, next, t, items[1..])
  }

  /** Without errors, the interleaved loop is the raw machine run on the detokenized deltas. */
  lemma {:induction false} StreamIsRun(c: Setup, vocabulary: Vocabulary, maxTokens: int, ids: seq<Token>, o: Offsets,
                                       s: Raw, items: seq<Item>)
    requires o.prefix <= o.read <= |ids| && s.emitted <= |s.text|
    requires forall i | 0 <= i < |items| :: !items[i].Failure?
    ensures var outcome := Stream(c, vocabulary, maxTokens, ids, o, s, items);
            outcome.error.None? && outcome.raw == RawExact.Run(c, s, Deltas(vocabulary, ids, o, Taken(items, maxTokens, |ids|)))
    decreases |items|
  {
    if items == [] || s.stopped {
    } else if !items[0].Tokens? || maxTokens <= |ids| {
      StreamIsRun(c, vocabulary, maxTokens, ids, o, s, items[1..]);
    } else {
      var bundle := AtMost(items[0].ids, maxTokens - |ids|);
      var (next, delta) := Advance(vocabulary, ids + bundle, o);
      var t := if delta == "" then s else Step(c, s, delta);
      StreamIsRun(c, vocabulary, maxTokens, ids + bundle, next, t, items[1..]);
      DeltasTaken(vocabulary, maxTokens, ids, o, items, bundle, next, delta);
      RunFirst(c, s, delta, Deltas(vocabulary, ids + bundle, next, Taken(items[1..], maxTokens, |ids + bundle|)));
    }
  }

  lemma DeltasTaken(vocabulary: Vocabulary, maxTokens: int, ids: seq<Token>, o: Offsets, items: seq<Item>,
                    bundle: seq<Token>, next: Offsets, delta: string)
    requires o.prefix <= o.read <= |ids| < maxTokens && items != [] && items[0].Tokens?
    requires bundle == AtMost(items[0].ids, maxTokens - |ids|) && (next, delta) == Advance(vocabulary, ids + bundle, o)
    ensures Deltas(vocabulary, ids, o, Taken(items, maxTokens, |ids|))
         == [delta] + Deltas(vocabulary, ids + bundle, next, Taken(items[1..], maxTokens, |ids + bundle|))
  {
    var bundles := Taken(items, maxTokens, |ids|);
    assert bundles != [] && bundles[0] == bundle && bundles[1..] == Taken(items[1..], maxTokens, |ids + bundle|);
    DeltasUnfold(vocabulary, ids, o, bundles, ids + bundle, next, delta);
  }

  lemma RunFirst(c: Setup, s: Raw, delta: string, rest: seq<string>)
    requires s.emitted <= |s.text| && !s.stopped
    ensures RawExact.Run(c, s, [delta] + rest) == RawExact.Run(c, if delta == "" then s else Step(c, s, delta), rest)
  {
    assert ([delta] + rest)[1..] == rest;
  }

  /** `_stream_text_raw`; `aborted` tells whether the engine was asked to abort. */
  method StreamTextRaw(c: Setup, vocabulary: Vocabulary, maxTokens: int, items: seq<Item>)
    returns (gen: Generation, shown: seq<Yield>, aborted: bool, error: Option<string>)
    ensures fresh(gen) && gen.Valid()
    ensures var outcome := Stream(c, vocabulary, maxTokens, [], Offsets(0, 0), Start(c), items);
      && error == outcome.error && aborted == outcome.raw.stopped && gen.tokenIds == outcome.ids
      && Channel(shown, true) == outcome.raw.reasoning && Channel(shown, false) == outcome.raw.content
      && OrEmpty(gen.reasoning) == outcome.raw.reasoning && gen.inReasoning == Thinks(outcome.raw)
    ensures error.None? && !aborted ==>
              gen.finishReason == if |gen.tokenIds| >= maxTokens then LengthReason else StopReason
    ensures error.None? && aborted ==> gen.finishReason == StopReason
  {
    gen := new Generation();
    shown, error := [], None;
    var s, i := Start(c), 0;
    ghost var outcome := Stream(c, vocabulary, maxTokens, [], Offsets(0, 0), s, items);
    assert items[0..] == items;
    while i < |items| && !s.stopped
      invariant 0 <= i <= |items| && fresh(gen) && gen.Valid() && s.emitted <= |s.text| && error.None?
      invariant Channel(shown, true) == s.reasoning && Channel(shown, false) == s.content
      invariant OrEmpty(gen.reasoning) == s.reasoning && gen.inReasoning == Thinks(s)
      invariant outcome == Stream(c, vocabulary, maxTokens, gen.tokenIds, gen.At(), s, items[i..])
      decreases |items| - i
    {
      var item := items[i];
      assert items[i..][0] == item && items[i..][1..] == items[i + 1..];
      i := i + 1;
      if item.Failure? {
        error := Some(item.message);
        aborted := false;
        return;
      }
      if item.Tokens? && |gen.tokenIds| < maxTokens {
        s, shown := TakeBundle(c, vocabulary, maxTokens, gen, s, shown, item.ids);
      }
    }
    aborted := s.stopped;
    shown := FlushAll(gen, s, shown);
    gen.finishReason := if !aborted && |gen.tokenIds| >= maxTokens then LengthReason else StopReason;
  }

  /** The end of the stream: what was held back is shown, unless a marker or a stop string holds it. */
  method FlushAll(gen: Generation, s: Raw, shown: seq<Yield>) returns (all: seq<Yield>)
    requires s.emitted <= |s.text| && Channel(shown, true) == s.reasoning && Channel(shown, false) == s.content
    requires OrEmpty(gen.reasoning) == s.reasoning && gen.inReasoning == Thinks(s)
    modifies gen`reasoning, gen`inReasoning
    ensures var t := Flush(s);
      && Channel(all, true) == t.reasoning && Channel(all, false) == t.content
      && OrEmpty(gen.reasoning) == t.reasoning && gen.inReasoning == Thinks(t)
  {
    var t := Flush(s);
    FlushAdds(s);
    var more := Piece(t.reasoning[|s.reasoning|..], true) + Piece(t.content[|s.content|..], false);
    Records(shown, s, t, more);
    Note(gen, s, t);
    all := shown + more;
    if t.holding && t.emitted == 0 {
      // A state-only update, so that a completion held back entirely still reports its tokens.
      StateOnly(all, gen.inReasoning);
      all := all + [Yield("", gen.inReasoning, [])];
    }
  }

  lemma StateOnly(shown: seq<Yield>, inReasoning: bool)
    ensures forall channel :: Channel(shown + [Yield("", inReasoning, [])], channel) == Channel(shown, channel)
  {
    var y := Yield("", inReasoning, []);
    forall channel
      ensures Channel(shown + [y], channel) == Channel(shown, channel)
    {
      ChannelAppends(shown, [y], channel);
      assert [y][1..] == [] && Channel([y], channel) == "" + "";
    }
  }

  /** One bundle of tokens, accepted up to the limit. */
  method TakeBundle(c: Setup, vocabulary: Vocabulary, maxTokens: int, gen: Generation, s: Raw, shown: seq<Yield>,
                    ids: seq<Token>) returns (t: Raw, all: seq<Yield>)
    requires gen.Valid() && |gen.tokenIds| < maxTokens && s.emitted <= |s.text|
    requires Channel(shown, true) == s.reasoning && Channel(shown, false) == s.content
    requires OrEmpty(gen.reasoning) == s.reasoning && gen.inReasoning == Thinks(s)
    modifies gen
    ensures gen.Valid() && gen.tokenIds == old(gen.tokenIds) + AtMost(ids, maxTokens - old(|gen.tokenIds|))
    ensures var (o, delta) := Advance(vocabulary, gen.tokenIds, old(gen.At()));
            gen.At() == o && t == (if delta == "" then s else Step(c, s, delta))
    ensures Channel(all, true) == t.reasoning && Channel(all, false) == t.content
    ensures OrEmpty(gen.reasoning) == t.reasoning && gen.inReasoning == Thinks(t)
  {
    gen.Extend(ids, maxTokens);
    var delta := gen.IncrementalDetokenize(vocabulary);
    if delta == "" { return s, shown; }
    var more;
    t, more := TakeDelta(c, s, delta);
    Records(shown, s, t, more);
    StepChannels(c, s, delta);
    Note(gen, s, t);
    all := shown + more;
  }

  /** Reasoning has been shown, and its end has not been seen. */
  predicate Thinks(s: Raw) { s.active && s.reasoning != "" }

  /** What the generation records of a step: reasoning shown, and whether it has ended. */
  method Note(gen: Generation, s: Raw, t: Raw)
    requires OrEmpty(gen.reasoning) == s.reasoning && gen.inReasoning == Thinks(s) && s.reasoning <= t.reasoning
    requires (t.active ==> s.active) && (!s.active ==> t.reasoning == s.reasoning)
    modifies gen`reasoning, gen`inReasoning
    ensures OrEmpty(gen.reasoning) == t.reasoning && gen.inReasoning == Thinks(t)
  {
    if s.reasoning != t.reasoning {
      gen.inReasoning := true;
      gen.reasoning := Some(t.reasoning);
    }
    if !t.active { gen.inReasoning := false; }
  }

  lemma Records(shown: seq<Yield>, s: Raw, t: Raw, more: seq<Yield>)
    requires Channel(shown, true) == s.reasoning && Channel(shown, false) == s.content
    requires s.reasoning <= t.reasoning && s.content <= t.content
    requires more == Piece(t.reasoning[|s.reasoning|..], true) + Piece(t.content[|s.content|..], false)
    ensures Channel(shown + more, true) == t.reasoning && Channel(shown + more, false) == t.content
  {
    var a, b := t.reasoning[|s.reasoning|..], t.content[|s.content|..];
    RecordsOn(shown, a, b, true);
    RecordsOn(shown, a, b, false);
  }

  lemma RecordsOn(shown: seq<Yield>, a: string, b: string, inReasoning: bool)
    ensures Channel(shown + (Piece(a, true) + Piece(b, false)), inReasoning)
         == Channel(shown, inReasoning) + (if inReasoning then a else b)
  {
    PieceShows(a, true);
    PieceShows(b, false);
    ChannelAppends(Piece(a, true), Piece(b, false), inReasoning);
    ChannelAppends(shown, Piece(a, true) + Piece(b, false), inReasoning);
    assert a + "" == a && "" + b == b;
  }

  lemma FlushAdds(s: Raw)
    requires s.emitted <= |s.text|
    ensures var t := Flush(s);
      && s.reasoning <= t.reasoning && s.content <= t.content && t.active == s.active
      && (!s.active ==> t.reasoning == s.reasoning)
  {
  }

  /** For every bundling of the tokens: the two channels carry the split of the decoded text. */
  lemma RawEndToEnd(c: Setup, vocabulary: Vocabulary, maxTokens: int, items: seq<Item>)
    requires c.Valid() && Exact(c)
    requires forall i | 0 <= i < |items| :: !items[i].Failure?
    requires !Utf8.EndsBroken(Text(vocabulary, AtMost(AllTokens(items), Room(maxTokens, 0))))
    ensures var raw := Stream(c, vocabulary, maxTokens, [], Offsets(0, 0), Start(c), items).raw;
            (raw.reasoning, raw.content) == Split(c, Text(vocabulary, AtMost(AllTokens(items), Room(maxTokens, 0))))
  {
    var bundles := Taken(items, maxTokens, 0);
    StreamIsRun(c, vocabulary, maxTokens, [], Offsets(0, 0), Start(c), items);
    TakenWithinLimit(items, maxTokens, 0);
    IncrementalIsFullDecode(vocabulary, bundles);
    RawExact.RawIsSplit(c, Deltas(vocabulary, [], Offsets(0, 0), bundles));
  }
}
