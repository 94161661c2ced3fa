/** The structured streaming path, from queue items to parsed deltas: detokenizer, stop
    filter and channel parser in sequence. */
module StructuredStream {
  import opened Sequences
  import opened Patterns
  import opened Utf8
  import opened Detokenizer
  import opened Generations
  import opened StopFilter
  import opened K3Types = K3Parser
  import K3Chunks
  import K3Full
  import K3Printing
  import K3RoundTrip
  import K3StreamParser

  /** The parser's `feed`, the tokens' bytes, the stop strings and the token limit. */
  datatype Config = Config(feed: (Parser, string) -> (Parser, seq<Delta>), vocabulary: Vocabulary, stops: seq<string>,
                           maxTokens: int)

  /** The parser in use is the K3 parser of grammar `g`. */
  ghost predicate Uses(c: Config, g: Grammar)
    requires g.WellFormed()
  {
    forall p, text :: Agree(c, g, p, text)
  }

  predicate Agree(c: Config, g: Grammar, p: Parser, text: string)
    requires g.WellFormed()
  {
    c.feed(p, text) == Feed(g, p, text)
  }

  /** Where each of the three stages stands. */
  datatype Stages = Stages(ids: seq<Token>, offsets: Offsets, filter: Filter, parser: Parser)
  {
    predicate Valid() { offsets.prefix <= offsets.read <= |ids| }
  }

  /** How a stream ends: what it showed, the tokens it accepted, and whether a stop string
      ended it; or the error it raised. */
  datatype Outcome = Outcome(deltas: seq<Delta>, ids: seq<Token>, stopped: bool, error: Option<string>)
  {
    function Behind(earlier: seq<Delta>): Outcome { this.(deltas := earlier + deltas) }
  }

  function Begin(parser: Parser): (s: Stages)
    ensures s.Valid()
  {
    Stages([], Offsets(0, 0), FRESH, parser)
  }

  /** One bundle of tokens through all stages. */
  function Bundle(c: Config, s: Stages, bundle: seq<Token>): (r: (Stages, seq<Delta>))
    requires s.Valid()
    ensures r.0.Valid() && r.0.ids == s.ids + bundle
  {
    var (o, delta) := Advance(c.vocabulary, s.ids + bundle, s.offsets);
    var (f, piece) := Push(c.stops, s.filter, delta);
    var (p, deltas) := c.feed(s.parser, piece);
    (Stages(s.ids + bundle, o, f, p), deltas)
  }

  /** The held-back tail goes through the parser, which is then closed. */
  function Close(c: Config, s: Stages): Outcome
  {
    var (q, deltas) := c.feed(s.parser, s.filter.pending);
    Outcome(deltas + Finish(q).1, s.ids, s.filter.stopped, None)
  }

  /** The loop of `_stream_structured_text` from a given state on. */
  function Stream(c: Config, s: Stages, items: seq<Item>): Outcome
    requires s.Valid()
    decreases |items|
  {
    if items == [] || s.filter.stopped then Close(c, s)
    else
      match items[0]
      case Failure(message) => Outcome([], s.ids, false, Some(message))
      case Other => Stream(c, s, items[1..])
      case Tokens(ids) =>
        if c.maxTokens <= |s.ids| then Stream(c, s, items[1..])
        else
          var (next, deltas) := Bundle(c, s, AtMost(ids, c.maxTokens - |s.ids|));
          Stream(c, next, items[1..]).Behind(deltas)
  }

  /** `_stream_structured_text`; `aborted` tells whether the engine was asked to abort. */
  method StreamStructuredText(c: Config, items: seq<Item>, parser: K3StreamParser.KimiK3StreamParser)
    returns (gen: Generation, shown: seq<Yield>, aborted: bool, error: Option<string>)
    requires parser.grammar.WellFormed() && Uses(c, parser.grammar)
    modifies parser
    ensures fresh(gen) && gen.Valid()
    ensures var outcome := Stream(c, Begin(old(parser.Model())), items);
      && error == outcome.error && aborted == outcome.stopped && gen.tokenIds == outcome.ids
      && gen.Kept() == Recorded(outcome.deltas, NOTHING)
      && shown == YieldsOf(outcome.deltas, []) + (if error.None? then [Yield("", gen.inReasoning, gen.toolCalls)] else [])
    ensures error.None? ==> gen.finishReason == Reason(aborted, |gen.tokenIds|, c.maxTokens)
    ensures error.None? ==> (gen.finishReason == LengthReason <==> !aborted && c.maxTokens <= |gen.tokenIds|)
    ensures error.None? ==> gen.finishReason in {LengthReason, StopReason}
  {
    gen := new Generation();
    shown, aborted, error := [], false, None;
    var pending, i := "", 0;
    ghost var s, done := Begin(parser.Model()), [];
    ghost var outcome := Stream(c, s, items);
    BehindNothing(outcome);
    assert items[0..] == items;
    while i < |items| && !aborted
      invariant 0 <= i <= |items| && fresh(gen) && s.Valid() && error.None?
      invariant s == StagesOf(gen, pending, aborted, parser)
      invariant shown == YieldsOf(done, []) && gen.Kept() == Recorded(done, NOTHING)
      invariant Remains(c, s, items[i..], done, outcome)
      decreases |items| - i
    {
      var item := items[i];
      assert items[i..][0] == item && items[i..][1..] == items[i + 1..];
      i := i + 1;
      if item.Failure? {
        error := Some(item.message);
        RemainsFails(c, s, items[i - 1..], done, outcome);
        return;
      }
      if item.Tokens? && |gen.tokenIds| < c.maxTokens {
        ghost var before := s;
        ghost var deltas;
        var more;
        pending, aborted, more, deltas := Take(c, gen, pending, parser, item.ids);
        s := StagesOf(gen, pending, aborted, parser);
        RemainsTakes(c, before, items[i - 1..], done, outcome, s, deltas);
        YieldsAppend(done, deltas, NOTHING);
        shown, done := shown + more, done + deltas;
      } else {
        RemainsSkips(c, s, items[i - 1..], done, outcome);
      }
    }
    var more := CloseStream(c, gen, pending, aborted, parser, done, items[i..], outcome);
    shown := shown + more;
  }

  /** Behind the loop: what is held back, the reason, and the yield that closes the stream. */
  method CloseStream(c: Config, gen: Generation, pending: string, stopped: bool, parser: K3StreamParser.KimiK3StreamParser,
                     ghost done: seq<Delta>, ghost items: seq<Item>, ghost outcome: Outcome)
    returns (shown: seq<Yield>)
    requires parser.grammar.WellFormed() && Uses(c, parser.grammar)
    requires gen.Valid() && gen.Kept() == Recorded(done, NOTHING) && (items == [] || stopped)
    requires Remains(c, StagesOf(gen, pending, stopped, parser), items, done, outcome)
    modifies gen, parser
    ensures gen.Valid() && gen.tokenIds == outcome.ids && outcome.error.None? && stopped == outcome.stopped
    ensures gen.Kept() == Recorded(outcome.deltas, NOTHING)
    ensures YieldsOf(done, []) + shown == YieldsOf(outcome.deltas, []) + [Yield("", gen.inReasoning, gen.toolCalls)]
    ensures gen.finishReason == Reason(stopped, |gen.tokenIds|, c.maxTokens)
  {
    ghost var s := StagesOf(gen, pending, stopped, parser);
    var last := FinishParser(c, parser, pending);
    RemainsCloses(c, s, items, done, outcome, last);
    YieldsAppend(done, last, NOTHING);
    var more := Show(gen, last);
    gen.finishReason := Reason(stopped, |gen.tokenIds|, c.maxTokens);
    shown := more + [Yield("", gen.inReasoning, gen.toolCalls)];
    Associates(YieldsOf(done, []), more, [Yield("", gen.inReasoning, gen.toolCalls)]);
  }

  method FeedParser(c: Config, parser: K3StreamParser.KimiK3StreamParser, text: string) returns (deltas: seq<Delta>)
    requires parser.grammar.WellFormed() && Uses(c, parser.grammar)
    modifies parser
    ensures (parser.Model(), deltas) == c.feed(old(parser.Model()), text)
  {
    assert Agree(c, parser.grammar, parser.Model(), text);
    deltas := parser.Feed(text);
  }

  /** The end of the stream: the held-back tail, and what the parser still holds. */
  method FinishParser(c: Config, parser: K3StreamParser.KimiK3StreamParser, text: string) returns (deltas: seq<Delta>)
    requires parser.grammar.WellFormed() && Uses(c, parser.grammar)
    modifies parser
    ensures var (p, tail) := c.feed(old(parser.Model()), text); deltas == tail + Finish(p).1
  {
    var tail := FeedParser(c, parser, text);
    var end := parser.Finish();
    deltas := tail + end;
  }

  function Reason(stopped: bool, tokens: nat, maxTokens: int): FinishReason {
    if stopped || tokens < maxTokens then StopReason else LengthReason
  }

  ghost function StagesOf(gen: Generation, pending: string, stopped: bool,
                          parser: K3StreamParser.KimiK3StreamParser): Stages
    reads gen, parser
  {
    Stages(gen.tokenIds, gen.At(), Filter(pending, stopped), parser.Model())
  }

  /** One bundle of tokens, accepted up to the limit. */
  method Take(c: Config, gen: Generation, pending: string, parser: K3StreamParser.KimiK3StreamParser, ids: seq<Token>)
    returns (rest: string, stopped: bool, shown: seq<Yield>, ghost deltas: seq<Delta>)
    requires parser.grammar.WellFormed() && Uses(c, parser.grammar)
    requires gen.Valid() && |gen.tokenIds| < c.maxTokens
    modifies gen, parser
    ensures gen.Valid() && gen.finishReason == old(gen.finishReason)
    ensures (StagesOf(gen, rest, stopped, parser), deltas)
         == Bundle(c, old(StagesOf(gen, pending, false, parser)), AtMost(ids, c.maxTokens - old(|gen.tokenIds|)))
    ensures shown == YieldsOf(deltas, old(gen.toolCalls)) && gen.Kept() == Recorded(deltas, old(gen.Kept()))
  {
    ghost var s := StagesOf(gen, pending, false, parser);
    var piece;
    ghost var delta;
    piece, rest, stopped, delta := Filtered(c, gen, pending, ids);
    ghost var o := gen.At();
    var parsed := FeedParser(c, parser, piece);
    BundleIs(c, s, AtMost(ids, c.maxTokens - |s.ids|), o, delta, Filter(rest, stopped), piece, parser.Model(), parsed);
    shown := Show(gen, parsed);
    deltas := parsed;
  }

  /** The first two stages: the text the bundle completes, and how much of it may pass. */
  method Filtered(c: Config, gen: Generation, pending: string, ids: seq<Token>)
    returns (piece: string, rest: string, stopped: bool, ghost delta: string)
    requires gen.Valid() && |gen.tokenIds| < c.maxTokens
    modifies gen`tokenIds, gen`prefixOffset, gen`readOffset
    ensures gen.Valid() && gen.tokenIds == old(gen.tokenIds) + AtMost(ids, c.maxTokens - old(|gen.tokenIds|))
    ensures (gen.At(), delta) == Advance(c.vocabulary, gen.tokenIds, old(gen.At()))
    ensures (Filter(rest, stopped), piece) == Push(c.stops, Filter(pending, false), delta)
  {
    gen.Extend(ids, c.maxTokens);
    var text := gen.IncrementalDetokenize(c.vocabulary);
    piece, rest, stopped := Release(c.stops, pending + text);
    delta := text;
  }

  /** The three stages, one after the other. */
  lemma BundleIs(c: Config, s: Stages, bundle: seq<Token>, o: Offsets, delta: string, f: Filter, piece: string,
                 p: Parser, deltas: seq<Delta>)
    requires s.Valid() && (o, delta) == Advance(c.vocabulary, s.ids + bundle, s.offsets)
    requires (f, piece) == Push(c.stops, s.filter, delta) && (p, deltas) == c.feed(s.parser, piece)
    ensures Bundle(c, s, bundle) == (Stages(s.ids + bundle, o, f, p), deltas)
  {
  }

  /** The inner loops that apply parsed deltas and yield them. */
  method Show(gen: Generation, deltas: seq<Delta>) returns (shown: seq<Yield>)
    modifies gen`toolCalls, gen`contentParts, gen`reasoning, gen`inReasoning
    ensures shown == YieldsOf(deltas, old(gen.toolCalls)) && gen.Kept() == Recorded(deltas, old(gen.Kept()))
  {
    shown := [];
    ghost var r := gen.Kept();
    for i := 0 to |deltas|
      invariant YieldsOf(deltas, r.calls) == shown + YieldsOf(deltas[i..], gen.toolCalls)
      invariant Recorded(deltas, r) == Recorded(deltas[i..], gen.Kept())
    {
      assert deltas[i..][0] == deltas[i] && deltas[i..][1..] == deltas[i + 1..];
      ghost var before := shown;
      var y := gen.ApplyParsedDelta(deltas[i]);
      shown := shown + [y];
      Associates(before, [y], YieldsOf(deltas[i + 1..], gen.toolCalls));
    }
    assert deltas[|deltas|..] == [];
  }

  // ---- the loop, one item at a time ----

  ghost predicate Remains(c: Config, s: Stages, items: seq<Item>, done: seq<Delta>, outcome: Outcome)
    requires s.Valid()
  {
    outcome == Stream(c, s, items).Behind(done)
  }

  lemma BehindNothing(o: Outcome)
    ensures o.Behind([]) == o
  {
    assert [] + o.deltas == o.deltas;
  }

  lemma RemainsFails(c: Config, s: Stages, items: seq<Item>, done: seq<Delta>, outcome: Outcome)
    requires s.Valid() && Remains(c, s, items, done, outcome)
    requires items != [] && items[0].Failure? && !s.filter.stopped
    ensures outcome == Outcome(done, s.ids, false, Some(items[0].message))
  {
    assert done + [] == done;
  }

  lemma RemainsSkips(c: Config, s: Stages, items: seq<Item>, done: seq<Delta>, outcome: Outcome)
    requires s.Valid() && Remains(c, s, items, done, outcome)
    requires items != [] && !items[0].Failure? && !s.filter.stopped
    requires !items[0].Tokens? || c.maxTokens <= |s.ids|
    ensures Remains(c, s, items[1..], done, outcome)
  {
  }

  lemma RemainsTakes(c: Config, s: Stages, items: seq<Item>, done: seq<Delta>, outcome: Outcome,
                     next: Stages, deltas: seq<Delta>)
    requires s.Valid() && Remains(c, s, items, done, outcome)
    requires items != [] && items[0].Tokens? && !s.filter.stopped && |s.ids| < c.maxTokens
    requires (next, deltas) == Bundle(c, s, AtMost(items[0].ids, c.maxTokens - |s.ids|))
    ensures Remains(c, next, items[1..], done + deltas, outcome)
  {
    Associates(done, deltas, Stream(c, next, items[1..]).deltas);
  }

  lemma RemainsCloses(c: Config, s: Stages, items: seq<Item>, done: seq<Delta>, outcome: Outcome, deltas: seq<Delta>)
    requires s.Valid() && Remains(c, s, items, done, outcome)
    requires (items == [] || s.filter.stopped) && deltas == Close(c, s).deltas
    ensures outcome == Outcome(done + deltas, s.ids, s.filter.stopped, None)
  {
  }

  // ---- the three stages one after the other ----

  predicate NoFailure(items: seq<Item>) {
    forall i | 0 <= i < |items| :: !items[i].Failure?
  }

  /** What the parser is fed, piece by piece, the held-back tail last. */
  function Feeds(stops: seq<string>, f: Filter, deltas: seq<string>): seq<string> {
    Pieces(stops, f, deltas).1 + [Pieces(stops, f, deltas).0.pending]
  }

  function FeedEach(c: Config, p: Parser, feeds: seq<string>): (Parser, seq<Delta>)
    decreases |feeds|
  {
    if feeds == [] then (p, [])
    else
      var (q, first) := c.feed(p, feeds[0]);
      var (r, rest) := FeedEach(c, q, feeds[1..]);
      (r, first + rest)
  }

  function ParseFrom(c: Config, p: Parser, feeds: seq<string>): seq<Delta> {
    FeedEach(c, p, feeds).1 + Finish(FeedEach(c, p, feeds).0).1
  }

  function DetokenizedDeltas(c: Config, s: Stages, items: seq<Item>): seq<string>
    requires s.Valid()
  {
    Deltas(c.vocabulary, s.ids, s.offsets, Taken(items, c.maxTokens, |s.ids|))
  }

  /** Without errors the interleaved loop shows what the stages show when each runs on all
      of the output of the one before. */
  lemma {:induction false} StreamIsPipeline(c: Config, s: Stages, items: seq<Item>)
    requires s.Valid() && NoFailure(items)
    ensures Pipelined(c, s, items, DetokenizedDeltas(c, s, items))
    decreases |items|
  {
    if items == [] || s.filter.stopped {
      PipelineEnds(c, s, items);
    } else if !items[0].Tokens? || c.maxTokens <= |s.ids| {
      StreamIsPipeline(c, s, items[1..]);
      PipelineSkips(c, s, items);
    } else {
      var next := Bundle(c, s, AtMost(items[0].ids, c.maxTokens - |s.ids|)).0;
      StreamIsPipeline(c, next, items[1..]);
      PipelineFollows(c, s, items, next);
    }
  }

  /** The outcome is that of the filter run over all the deltas, and then the parser run over
      all it released. */
  ghost predicate Pipelined(c: Config, s: Stages, items: seq<Item>, deltas: seq<string>)
    requires s.Valid()
  {
    var outcome := Stream(c, s, items);
    && outcome.deltas == ParseFrom(c, s.parser, Feeds(c.stops, s.filter, deltas))
    && outcome.stopped == Pieces(c.stops, s.filter, deltas).0.stopped && outcome.error.None?
  }

  lemma PipelineEnds(c: Config, s: Stages, items: seq<Item>)
    requires s.Valid() && (items == [] || s.filter.stopped)
    ensures Pipelined(c, s, items, DetokenizedDeltas(c, s, items))
  {
    FeedLast(c, s.parser, s.filter.pending);
    var none: seq<string> := [];
    assert none + [s.filter.pending] == [s.filter.pending];
  }

  lemma PipelineSkips(c: Config, s: Stages, items: seq<Item>)
    requires s.Valid() && items != [] && !s.filter.stopped && !items[0].Failure?
    requires !items[0].Tokens? || c.maxTokens <= |s.ids|
    requires Pipelined(c, s, items[1..], DetokenizedDeltas(c, s, items[1..]))
    ensures Pipelined(c, s, items, DetokenizedDeltas(c, s, items))
  {
    assert DetokenizedDeltas(c, s, items) == DetokenizedDeltas(c, s, items[1..]);
    assert Stream(c, s, items) == Stream(c, s, items[1..]);
  }

  lemma PipelineFollows(c: Config, s: Stages, items: seq<Item>, next: Stages)
    requires s.Valid() && items != [] && !s.filter.stopped && items[0].Tokens? && |s.ids| < c.maxTokens
    requires next == Bundle(c, s, AtMost(items[0].ids, c.maxTokens - |s.ids|)).0
    requires Pipelined(c, next, items[1..], DetokenizedDeltas(c, next, items[1..]))
    ensures Pipelined(c, s, items, DetokenizedDeltas(c, s, items))
  {
    var bundle := AtMost(items[0].ids, c.maxTokens - |s.ids|);
    var shown := Bundle(c, s, bundle).1;
    PipelineTakes(c, s, items, bundle, next, shown);
    StreamTakes(c, s, items, next, shown);
  }

  lemma FeedLast(c: Config, p: Parser, text: string)
    ensures FeedEach(c, p, [text]) == c.feed(p, text)
  {
    assert FeedEach(c, c.feed(p, text).0, [text][1..]) == (c.feed(p, text).0, []);
    assert c.feed(p, text).1 + [] == c.feed(p, text).1;
  }

  /** The first bundle goes through each stage before the rest does. */
  lemma PipelineTakes(c: Config, s: Stages, items: seq<Item>, bundle: seq<Token>, next: Stages, shown: seq<Delta>)
    requires s.Valid() && items != [] && items[0].Tokens?
    requires !s.filter.stopped && |s.ids| < c.maxTokens
    requires bundle == AtMost(items[0].ids, c.maxTokens - |s.ids|) && (next, shown) == Bundle(c, s, bundle)
    ensures var all, rest := DetokenizedDeltas(c, s, items), DetokenizedDeltas(c, next, items[1..]);
      && ParseFrom(c, s.parser, Feeds(c.stops, s.filter, all))
         == shown + ParseFrom(c, next.parser, Feeds(c.stops, next.filter, rest))
      && Pieces(c.stops, s.filter, all).0 == Pieces(c.stops, next.filter, rest).0
  {
    var rest := DetokenizedDeltas(c, next, items[1..]);
    var delta := BundleFirst(c, s, items, bundle, next, shown);
    FeedsFirst(c.stops, s.filter, delta, rest);
    var piece := Push(c.stops, s.filter, delta).1;
    ParseFirst(c, s.parser, piece, Feeds(c.stops, next.filter, rest));
  }

  lemma BundleFirst(c: Config, s: Stages, items: seq<Item>, bundle: seq<Token>, next: Stages, shown: seq<Delta>)
    returns (delta: string)
    requires s.Valid() && items != [] && items[0].Tokens? && |s.ids| < c.maxTokens
    requires bundle == AtMost(items[0].ids, c.maxTokens - |s.ids|) && (next, shown) == Bundle(c, s, bundle)
    ensures DetokenizedDeltas(c, s, items) == [delta] + DetokenizedDeltas(c, next, items[1..])
    ensures next.filter == Push(c.stops, s.filter, delta).0
    ensures (next.parser, shown) == c.feed(s.parser, Push(c.stops, s.filter, delta).1)
  {
    var (o, d) := Advance(c.vocabulary, s.ids + bundle, s.offsets);
    delta := d;
    DeltasFirst(c, s, items, bundle, o, delta);
  }

  lemma DeltasFirst(c: Config, s: Stages, items: seq<Item>, bundle: seq<Token>, o: Offsets, delta: string)
    requires s.Valid() && items != [] && items[0].Tokens? && |s.ids| < c.maxTokens
    requires bundle == AtMost(items[0].ids, c.maxTokens - |s.ids|)
    requires (o, delta) == Advance(c.vocabulary, s.ids + bundle, s.offsets)
    ensures DetokenizedDeltas(c, s, items)
         == [delta] + Deltas(c.vocabulary, s.ids + bundle, o, Taken(items[1..], c.maxTokens, |s.ids + bundle|))
  {
    TakenFirst(items, c.maxTokens, |s.ids|, bundle);
    DeltasFrom(c.vocabulary, s.ids, s.offsets, Taken(items, c.maxTokens, |s.ids|), bundle,
               Taken(items[1..], c.maxTokens, |s.ids + bundle|), o, delta);
  }

  lemma DeltasFrom(vocabulary: Vocabulary, ids: seq<Token>, from: Offsets, bundles: seq<seq<Token>>, bundle: seq<Token>,
                   rest: seq<seq<Token>>, o: Offsets, delta: string)
    requires from.prefix <= from.read <= |ids| && bundles != [] && bundles[0] == bundle && bundles[1..] == rest
    requires (o, delta) == Advance(vocabulary, ids + bundle, from)
    ensures Deltas(vocabulary, ids, from, bundles) == [delta] + Deltas(vocabulary, ids + bundle, o, rest)
  {
    DeltasUnfold(vocabulary, ids, from, bundles, ids + bundle, o, delta);
  }

  lemma TakenFirst(items: seq<Item>, maxTokens: int, have: nat, bundle: seq<Token>)
    requires items != [] && items[0].Tokens? && have < maxTokens && bundle == AtMost(items[0].ids, maxTokens - have)
    ensures var all := Taken(items, maxTokens, have);
            all != [] && all[0] == bundle && all[1..] == Taken(items[1..], maxTokens, have + |bundle|)
  {
  }

  lemma FeedsFirst(stops: seq<string>, f: Filter, delta: string, rest: seq<string>)
    requires !f.stopped
    ensures var (g, piece) := Push(stops, f, delta);
      && Feeds(stops, f, [delta] + rest) == [piece] + Feeds(stops, g, rest)
      && Pieces(stops, f, [delta] + rest) == (Pieces(stops, g, rest).0, [piece] + Pieces(stops, g, rest).1)
  {
    assert ([delta] + rest)[1..] == rest;
  }

  lemma ParseFirst(c: Config, p: Parser, piece: string, feeds: seq<string>)
    ensures ParseFrom(c, p, [piece] + feeds) == c.feed(p, piece).1 + ParseFrom(c, c.feed(p, piece).0, feeds)
  {
    assert ([piece] + feeds)[1..] == feeds;
    var (q, first) := c.feed(p, piece);
    var (r, rest) := FeedEach(c, q, feeds);
    Associates(first, rest, Finish(r).1);
  }

  // ---- end to end ----

  lemma {:induction false} ConcatSplits(a: seq<string>, b: seq<string>)
    ensures Concat(a + b) == Concat(a) + Concat(b)
  {
    if a == [] {
      assert a + b == b;
    } else {
      assert (a + b)[1..] == a[1..] + b;
      ConcatSplits(a[1..], b);
    }
  }

  lemma FeedsMakeEmitted(stops: seq<string>, deltas: seq<string>)
    ensures Concat(Feeds(stops, FRESH, deltas)) == Emitted(stops, deltas)
  {
    var pending := Pieces(stops, FRESH, deltas).0.pending;
    ConcatSplits(Pieces(stops, FRESH, deltas).1, [pending]);
    assert Concat([pending]) == pending + "" == pending;
  }

  /** The text of the tokens within the limit. */
  function WholeText(c: Config, items: seq<Item>): string {
    Text(c.vocabulary, AtMost(AllTokens(items), Room(c.maxTokens, 0)))
  }

  /** For every bundling of the tokens, the structured path shows exactly what parsing the
      decoded text in one piece shows, cut before the first stop string. */
  lemma EndToEnd(g: Grammar, c: Config, reasoningOpen: bool, items: seq<Item>)
    requires g.WellFormed() && Uses(c, g) && NoFailure(items) && !EndsBroken(WholeText(c, items))
    requires ChunkSafe(c.stops) || !Contains(WholeText(c, items), c.stops)
    requires !K3Chunks.LateOpener(g, Extend(Initial(reasoningOpen), Cut(WholeText(c, items), c.stops)))
    ensures var outcome := Stream(c, Begin(Initial(reasoningOpen)), items);
      && outcome.error.None?
      && Observed(outcome.deltas) == Observed(Parse(g, reasoningOpen, [Cut(WholeText(c, items), c.stops)]))
  {
    var s := Begin(Initial(reasoningOpen));
    var deltas := DetokenizedDeltas(c, s, items);
    StreamIsPipeline(c, s, items);
    TakenWithinLimit(items, c.maxTokens, 0);
    IncrementalIsFullDecode(c.vocabulary, Taken(items, c.maxTokens, 0));
    assert Concat(deltas) == WholeText(c, items);
    if ChunkSafe(c.stops) { EmittedIsCut(c.stops, deltas); } else { EmittedUncut(c.stops, deltas); }
    FeedsMakeEmitted(c.stops, deltas);
    FeedEachIsFeedAll(g, c, s.parser, Feeds(c.stops, FRESH, deltas));
    K3Chunks.ChunkInvariance(g, reasoningOpen, Feeds(c.stops, FRESH, deltas));
  }

  lemma {:induction false} FeedEachIsFeedAll(g: Grammar, c: Config, p: Parser, feeds: seq<string>)
    requires g.WellFormed() && Uses(c, g)
    ensures FeedEach(c, p, feeds) == FeedAll(g, p, feeds)
    decreases |feeds|
  {
    if feeds != [] {
      assert Agree(c, g, p, feeds[0]);
      FeedEachIsFeedAll(g, c, c.feed(p, feeds[0]).0, feeds[1..]);
    }
  }

  // ---- the finish reason ----

  /** A stream that meets no stop string takes all tokens up to the limit. */
  lemma {:induction false} TakesAll(c: Config, s: Stages, items: seq<Item>)
    requires s.Valid() && NoFailure(items) && !Stream(c, s, items).stopped
    ensures Stream(c, s, items).ids == s.ids + AtMost(AllTokens(items), Room(c.maxTokens, |s.ids|))
    decreases |items|
  {
    if items != [] && !s.filter.stopped {
      if !items[0].Tokens? || c.maxTokens <= |s.ids| {
        SkipsFirst(c, s, items);
        TakesAll(c, s, items[1..]);
      } else {
        var bundle := AtMost(items[0].ids, c.maxTokens - |s.ids|);
        var next := TakesFirst(c, s, items, bundle);
        TakesAll(c, next, items[1..]);
        AllSplits(s.ids, bundle, items[0].ids, AllTokens(items[1..]), c.maxTokens);
      }
    }
  }

  lemma SkipsFirst(c: Config, s: Stages, items: seq<Item>)
    requires s.Valid() && items != [] && !items[0].Failure? && !s.filter.stopped && (!items[0].Tokens? || c.maxTokens <= |s.ids|)
    ensures Stream(c, s, items) == Stream(c, s, items[1..])
    ensures var room := Room(c.maxTokens, |s.ids|); AtMost(AllTokens(items), room) == AtMost(AllTokens(items[1..]), room)
  {
    if items[0].Tokens? { assert AtMost(AllTokens(items), 0) == AtMost(AllTokens(items[1..]), 0); }
  }

  lemma TakesFirst(c: Config, s: Stages, items: seq<Item>, bundle: seq<Token>) returns (next: Stages)
    requires s.Valid() && items != [] && items[0].Tokens? && !s.filter.stopped && |s.ids| < c.maxTokens
    requires bundle == AtMost(items[0].ids, c.maxTokens - |s.ids|)
    ensures next.Valid() && next.ids == s.ids + bundle
    ensures Stream(c, s, items).ids == Stream(c, next, items[1..]).ids
    ensures Stream(c, s, items).stopped == Stream(c, next, items[1..]).stopped
  {
    next := Bundle(c, s, bundle).0;
  }

  lemma AllSplits(have: seq<Token>, bundle: seq<Token>, ids: seq<Token>, more: seq<Token>, maxTokens: int)
    requires |have| < maxTokens && bundle == AtMost(ids, maxTokens - |have|)
    ensures have + bundle + AtMost(more, Room(maxTokens, |have + bundle|)) == have + AtMost(ids + more, Room(maxTokens, |have|))
  {
    AtMostSplits(ids, more, maxTokens - |have|);
    Associates(have, bundle, AtMost(more, maxTokens - |have| - |bundle|));
  }

  /** The finish reason is length if and only if the text has no stop string and the limit is
      reached, however the tokens are bundled. */
  lemma LengthExactly(c: Config, p: Parser, items: seq<Item>)
    requires NoFailure(items) && "" !in c.stops && !EndsBroken(WholeText(c, items))
    ensures var outcome := Stream(c, Begin(p), items);
      && (outcome.stopped <==> Contains(WholeText(c, items), c.stops))
      && (Reason(outcome.stopped, |outcome.ids|, c.maxTokens) == LengthReason
          <==> !Contains(WholeText(c, items), c.stops) && c.maxTokens <= |AllTokens(items)|)
  {
    var s := Begin(p);
    var deltas := DetokenizedDeltas(c, s, items);
    StreamIsPipeline(c, s, items);
    TakenWithinLimit(items, c.maxTokens, 0);
    IncrementalIsFullDecode(c.vocabulary, Taken(items, c.maxTokens, 0));
    StopsExactlyAt(c.stops, deltas);
    if !Stream(c, s, items).stopped {
      TakesAll(c, s, items);
      assert [] + AtMost(AllTokens(items), Room(c.maxTokens, 0)) == AtMost(AllTokens(items), Room(c.maxTokens, 0));
    }
  }

  lemma StopsExactlyAt(stops: seq<string>, deltas: seq<string>)
    requires "" !in stops
    ensures Pieces(stops, FRESH, deltas).0.stopped <==> Contains(Concat(deltas), stops)
  {
    EmittedIsCleanPrefix(stops, deltas);
    var read := EmittedIs(stops, deltas);
    if Pieces(stops, FRESH, deltas).0.stopped { FoundStays(read, Concat(deltas), stops); }
  }

  lemma FoundStays(read: string, text: string, stops: seq<string>)
    requires read <= text && Earliest(read, stops).Some?
    ensures Contains(text, stops)
  {
    var i := Earliest(read, stops).value;
    EarliestSpec(read, stops, 0, Some(i));
    var stop :| stop in stops && OccursAt(read, i, stop);
    assert text == read + text[|read|..];
    OccursExtends(read, text[|read|..], i, stop);
    assert AnyAt(text, i, stops);
  }

  /** A printed message, cut into tokens and bundles in any way, reaches the client whole. */
  lemma MessageReachesClient(g: Grammar, c: Config, reasoningOpen: bool, d: K3RoundTrip.Document, items: seq<Item>)
    requires K3Printing.Printable(g) && Uses(c, g) && K3RoundTrip.CanPrint(g, reasoningOpen, d)
    requires !Contains(K3RoundTrip.Print(g, reasoningOpen, d), c.stops) && !EndsBroken(K3RoundTrip.Print(g, reasoningOpen, d))
    requires NoFailure(items) && |AllTokens(items)| <= c.maxTokens
    requires Bytes(c.vocabulary, AllTokens(items)) == Encode(K3RoundTrip.Print(g, reasoningOpen, d))
    ensures Observed(Stream(c, Begin(Initial(reasoningOpen)), items).deltas) == K3RoundTrip.Expected(d.pieces)
  {
    var text := K3RoundTrip.Print(g, reasoningOpen, d);
    Utf8.RoundTrip(text);
    assert AtMost(AllTokens(items), Room(c.maxTokens, 0)) == AllTokens(items);
    TextReachesClient(g, c, reasoningOpen, d, items, text);
  }

  lemma TextReachesClient(g: Grammar, c: Config, reasoningOpen: bool, d: K3RoundTrip.Document, items: seq<Item>, text: string)
    requires K3Printing.Printable(g) && Uses(c, g) && K3RoundTrip.CanPrint(g, reasoningOpen, d) && !Contains(text, c.stops)
    requires text == K3RoundTrip.Print(g, reasoningOpen, d)
    requires NoFailure(items) && WholeText(c, items) == text && !EndsBroken(text)
    ensures Observed(Stream(c, Begin(Initial(reasoningOpen)), items).deltas) == K3RoundTrip.Expected(d.pieces)
  {
    EarliestSpec(text, c.stops, 0, None);
    assert Concat([text]) == text;
    K3RoundTrip.RoundTrip(g, reasoningOpen, d, [text]);
    EndToEnd(g, c, reasoningOpen, items);
  }

  // ---- what the generation holds in the end ----

  /** `parse_generation` for a structured stream: nothing is parsed again. */
  function ParseGeneration(r: Record): K3Full.Parsed {
    K3Full.Parsed(K3Full.OrNone(Concat(r.contents)), r.reasoning, r.calls)
  }

  lemma {:induction false} RecordGathers(deltas: seq<Delta>, r: Record)
    ensures var m, after := K3Full.Gather(deltas), Recorded(deltas, r);
      && Concat(after.contents) == Concat(r.contents) + m.response && after.calls == r.calls + m.calls
      && OrEmpty(after.reasoning) == OrEmpty(r.reasoning) + m.reasoning
    decreases |deltas|
  {
    if deltas == [] {
      NothingGathered(r);
    } else {
      var next := Applied(deltas[0], r);
      RecordGathers(deltas[1..], next);
      OneGathered(deltas[0], r);
      var first, rest := K3Full.OfDelta(deltas[0]), K3Full.Gather(deltas[1..]);
      Associates(Concat(r.contents), first.response, rest.response);
      Associates(OrEmpty(r.reasoning), first.reasoning, rest.reasoning);
      Associates(r.calls, first.calls, rest.calls);
    }
  }

  lemma NothingGathered(r: Record)
    ensures Concat(r.contents) + "" == Concat(r.contents) && OrEmpty(r.reasoning) + "" == OrEmpty(r.reasoning)
    ensures r.calls + [] == r.calls
  {
  }

  lemma OneGathered(d: Delta, r: Record)
    ensures var m, after := K3Full.OfDelta(d), Applied(d, r);
      && Concat(after.contents) == Concat(r.contents) + m.response && after.calls == r.calls + m.calls
      && OrEmpty(after.reasoning) == OrEmpty(r.reasoning) + m.reasoning
  {
    if d.Content? {
      ConcatSplits(r.contents, [d.text]);
      assert Concat([d.text]) == d.text + "" by { assert [d.text][1..] == []; }
    }
  }

  /** A stream that shows something on the reasoning channel has a reasoning, which is not empty. */
  lemma {:induction false} ReasoningOrNone(deltas: seq<Delta>, r: Record)
    requires Speaks(deltas) && r.reasoning != Some("")
    ensures Recorded(deltas, r).reasoning == K3Full.OrNone(OrEmpty(Recorded(deltas, r).reasoning))
    decreases |deltas|
  {
    if deltas != [] {
      assert deltas[0] in deltas && forall d | d in deltas[1..] :: d in deltas;
      var next := Applied(deltas[0], r);
      assert next.reasoning != Some("");
      ReasoningOrNone(deltas[1..], next);
    }
  }

  /** For every bundling, the finished generation holds what `parse_full` finds in the text cut
      before the first stop string, if it takes the think channel to be open when it was. */
  lemma GenerationIsFullParse(g: Grammar, c: Config, reasoningOpen: bool, items: seq<Item>)
    requires g.WellFormed() && Uses(c, g) && NoFailure(items) && !EndsBroken(WholeText(c, items))
    requires ChunkSafe(c.stops) || !Contains(WholeText(c, items), c.stops)
    requires !K3Chunks.LateOpener(g, Extend(Initial(reasoningOpen), Cut(WholeText(c, items), c.stops)))
    requires K3Full.OpenAtStart(g, Cut(WholeText(c, items), c.stops)) == reasoningOpen
    ensures var outcome := Stream(c, Begin(Initial(reasoningOpen)), items);
            ParseGeneration(Recorded(outcome.deltas, NOTHING)) == K3Full.ParseFull(g, Cut(WholeText(c, items), c.stops))
  {
    var outcome := Stream(c, Begin(Initial(reasoningOpen)), items);
    EndToEnd(g, c, reasoningOpen, items);
    StreamSpeaks(g, c, Begin(Initial(reasoningOpen)), items);
    SameObserved(outcome.deltas, Parse(g, reasoningOpen, [Cut(WholeText(c, items), c.stops)]));
    RecordedIs(outcome.deltas);
  }

  lemma SameObserved(a: seq<Delta>, b: seq<Delta>)
    requires Observed(a) == Observed(b)
    ensures K3Full.Gather(a) == K3Full.Gather(b)
  {
    K3Full.GatherIsCollect(a);
    K3Full.GatherIsCollect(b);
  }

  lemma RecordedIs(deltas: seq<Delta>)
    requires Speaks(deltas)
    ensures var m := K3Full.Gather(deltas);
            ParseGeneration(Recorded(deltas, NOTHING)) ==
            K3Full.Parsed(K3Full.OrNone(m.response), K3Full.OrNone(m.reasoning), m.calls)
  {
    RecordGathers(deltas, NOTHING);
    ReasoningOrNone(deltas, NOTHING);
    FromNothing(K3Full.Gather(deltas), Recorded(deltas, NOTHING));
  }

  lemma FromNothing(m: K3Full.Message, after: Record)
    requires Concat(after.contents) == Concat(NOTHING.contents) + m.response && after.calls == NOTHING.calls + m.calls
    requires OrEmpty(after.reasoning) == OrEmpty(NOTHING.reasoning) + m.reasoning
    ensures Concat(after.contents) == m.response && after.calls == m.calls && OrEmpty(after.reasoning) == m.reasoning
  {
    assert Concat(NOTHING.contents) == "" && OrEmpty(NOTHING.reasoning) == "";
    assert "" + m.response == m.response && "" + m.reasoning == m.reasoning && [] + m.calls == m.calls;
  }

  lemma {:induction false} RunSpeaks(g: Grammar, p: Parser)
    requires g.WellFormed()
    ensures Speaks(Run(g, p).1)
    decreases |p.pending|
  {
    if p.pending != "" {
      StepSpeaks(g, p);
      var s := StepOnce(g, p);
      if s.progressed { RunSpeaks(g, s.parser); }
    }
  }

  lemma StepSpeaks(g: Grammar, p: Parser)
    requires g.WellFormed()
    ensures Speaks(StepOnce(g, p).deltas)
  {
    if p.state.Done? || p.state.Argument? {
    } else if p.state.Tools? || p.state.Call? {
      var (at, found) := Locate(p.pending, g.ContainerMarkers());
      ContainerSpeaks(g, p, p.pending[at..], found);
    } else {
      ChannelSpeaks(g, p);
    }
  }

  lemma ContainerSpeaks(g: Grammar, p: Parser, rest: string, found: Option<string>)
    requires g.sep != "" && (found.Some? ==> found.value <= rest && found.value != "")
    ensures Speaks(ContainerAt(g, p, rest, found).deltas)
  {
  }

  lemma ChannelSpeaks(g: Grammar, p: Parser)
    requires g.WellFormed() && InChannel(p.state)
    ensures Speaks(ChannelStep(g, p).deltas)
  {
  }

  lemma {:induction false} StreamSpeaks(g: Grammar, c: Config, s: Stages, items: seq<Item>)
    requires g.WellFormed() && Uses(c, g) && s.Valid()
    ensures Speaks(Stream(c, s, items).deltas)
    decreases |items|
  {
    if items == [] || s.filter.stopped {
      assert Agree(c, g, s.parser, s.filter.pending);
      RunSpeaks(g, Extend(s.parser, s.filter.pending));
    } else if items[0].Tokens? && |s.ids| < c.maxTokens {
      var bundle := AtMost(items[0].ids, c.maxTokens - |s.ids|);
      var (next, shown) := Bundle(c, s, bundle);
      BundleSpeaks(g, c, s, bundle);
      StreamSpeaks(g, c, next, items[1..]);
      StreamTakes(c, s, items, next, shown);
    } else if !items[0].Failure? {
      StreamSpeaks(g, c, s, items[1..]);
    }
  }

  lemma BundleSpeaks(g: Grammar, c: Config, s: Stages, bundle: seq<Token>)
    requires g.WellFormed() && Uses(c, g) && s.Valid()
    ensures Speaks(Bundle(c, s, bundle).1)
  {
    var delta := Advance(c.vocabulary, s.ids + bundle, s.offsets).1;
    var piece := Push(c.stops, s.filter, delta).1;
    assert Agree(c, g, s.parser, piece);
    RunSpeaks(g, Extend(s.parser, piece));
  }

  // ---- errors ----

  /** The first error item is read before any stop string is seen. */
  predicate FailsAt(c: Config, s: Stages, items: seq<Item>, k: nat)
    requires s.Valid()
  {
    && k < |items| && items[k].Failure? && NoFailure(items[..k])
    && !Pieces(c.stops, s.filter, DetokenizedDeltas(c, s, items[..k])).0.stopped
  }

  /** The outcome of a stream whose first error item is the k-th. */
  ghost predicate Fails(c: Config, s: Stages, items: seq<Item>, k: nat)
    requires s.Valid() && k < |items| && items[k].Failure?
  {
    var (f, pieces) := Pieces(c.stops, s.filter, DetokenizedDeltas(c, s, items[..k]));
    var outcome := Stream(c, s, items);
    && outcome.error == (if f.stopped then None else Some(items[k].message))
    && (!f.stopped ==> outcome.deltas == FeedEach(c, s.parser, pieces).1)
  }

  /** A stream raises an error exactly when it reads an error item before a stop string; by
      then it has shown what the text before that item makes the parser show. */
  lemma {:induction false} FailsExactly(c: Config, s: Stages, items: seq<Item>, k: nat)
    requires s.Valid() && k < |items| && items[k].Failure? && NoFailure(items[..k])
    ensures Stream(c, s, items).error == if FailsAt(c, s, items, k) then Some(items[k].message) else None
    ensures var pieces := Pieces(c.stops, s.filter, DetokenizedDeltas(c, s, items[..k])).1;
            FailsAt(c, s, items, k) ==> Stream(c, s, items).deltas == FeedEach(c, s.parser, pieces).1
  {
    FailsFrom(c, s, items, k);
  }

  lemma {:induction false} FailsFrom(c: Config, s: Stages, items: seq<Item>, k: nat)
    requires s.Valid() && k < |items| && items[k].Failure? && NoFailure(items[..k])
    ensures Fails(c, s, items, k)
    decreases |items|
  {
    if s.filter.stopped || k == 0 {
      FailsNow(c, s, items, k);
    } else {
      var front := items[..k];
      assert front[0] == items[0] && front[1..] == items[1..][..k - 1];
      if !items[0].Tokens? || c.maxTokens <= |s.ids| {
        FailsFrom(c, s, items[1..], k - 1);
        FailureSkips(c, s, items, k);
      } else {
        var next := Bundle(c, s, AtMost(items[0].ids, c.maxTokens - |s.ids|)).0;
        FailsFrom(c, next, items[1..], k - 1);
        FailureFollows(c, s, items, k, next);
      }
    }
  }

  lemma FailsNow(c: Config, s: Stages, items: seq<Item>, k: nat)
    requires s.Valid() && k < |items| && items[k].Failure? && (s.filter.stopped || k == 0)
    ensures Fails(c, s, items, k)
  {
    if k == 0 { assert items[..k] == []; }
  }

  lemma FailureSkips(c: Config, s: Stages, items: seq<Item>, k: nat)
    requires s.Valid() && 0 < k < |items| && items[k].Failure? && !s.filter.stopped && !items[0].Failure?
    requires (!items[0].Tokens? || c.maxTokens <= |s.ids|) && Fails(c, s, items[1..], k - 1)
    ensures Fails(c, s, items, k)
  {
    var front := items[..k];
    assert front[0] == items[0] && front[1..] == items[1..][..k - 1];
    assert DetokenizedDeltas(c, s, front) == DetokenizedDeltas(c, s, front[1..]);
    assert Stream(c, s, items) == Stream(c, s, items[1..]);
  }

  lemma FailureFollows(c: Config, s: Stages, items: seq<Item>, k: nat, next: Stages)
    requires s.Valid() && 0 < k < |items| && items[k].Failure? && !s.filter.stopped
    requires items[0].Tokens? && |s.ids| < c.maxTokens
    requires next == Bundle(c, s, AtMost(items[0].ids, c.maxTokens - |s.ids|)).0 && Fails(c, next, items[1..], k - 1)
    ensures Fails(c, s, items, k)
  {
    var front := items[..k];
    assert front[0] == items[0] && front[1..] == items[1..][..k - 1];
    var bundle := AtMost(items[0].ids, c.maxTokens - |s.ids|);
    var shown := Bundle(c, s, bundle).1;
    FailureTakes(c, s, front, bundle, next, shown);
    StreamTakes(c, s, items, next, shown);
  }

  lemma StreamTakes(c: Config, s: Stages, items: seq<Item>, next: Stages, shown: seq<Delta>)
    requires s.Valid() && items != [] && !s.filter.stopped && items[0].Tokens? && |s.ids| < c.maxTokens
    requires (next, shown) == Bundle(c, s, AtMost(items[0].ids, c.maxTokens - |s.ids|))
    ensures Stream(c, s, items) == Stream(c, next, items[1..]).Behind(shown)
  {
  }

  lemma FailureTakes(c: Config, s: Stages, items: seq<Item>, bundle: seq<Token>, next: Stages, shown: seq<Delta>)
    requires s.Valid() && items != [] && items[0].Tokens?
    requires !s.filter.stopped && |s.ids| < c.maxTokens
    requires bundle == AtMost(items[0].ids, c.maxTokens - |s.ids|) && (next, shown) == Bundle(c, s, bundle)
    ensures var all := Pieces(c.stops, s.filter, DetokenizedDeltas(c, s, items));
            var rest := Pieces(c.stops, next.filter, DetokenizedDeltas(c, next, items[1..]));
      && all.0 == rest.0
      && FeedEach(c, s.parser, all.1).1 == shown + FeedEach(c, next.parser, rest.1).1
  {
    var rest := DetokenizedDeltas(c, next, items[1..]);
    var delta := BundleFirst(c, s, items, bundle, next, shown);
    FeedsFirst(c.stops, s.filter, delta, rest);
    FeedFirst(c, s.parser, Push(c.stops, s.filter, delta).1, Pieces(c.stops, next.filter, rest).1);
  }

  lemma FeedFirst(c: Config, p: Parser, piece: string, feeds: seq<string>)
    ensures FeedEach(c, p, [piece] + feeds).1 == c.feed(p, piece).1 + FeedEach(c, c.feed(p, piece).0, feeds).1
  {
    assert ([piece] + feeds)[1..] == feeds;
  }
}
