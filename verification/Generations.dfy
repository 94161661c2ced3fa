/** What a request accumulates while it is streamed, and the queue items it reads. */
module Generations {
  import opened Sequences
  import opened Patterns
  import opened Detokenizer
  import opened K3Types = K3Parser
  import Utf8

  /** Items before the end-of-stream mark of a request queue. */
  datatype Item = Tokens(ids: seq<Token>) | Failure(message: string) | Other

  /** What one `yield` of a stream shows: the delta, its channel, and the calls so far. */
  datatype Yield = Yield(text: string, inReasoning: bool, calls: seq<ToolCall>)

  datatype FinishReason = Unset | StopReason | LengthReason

  /** What a stream of parsed deltas leaves behind. */
  datatype Record = Record(calls: seq<ToolCall>, contents: seq<string>, reasoning: Option<string>, inReasoning: bool)

  const NOTHING := Record([], [], None, false)

  class Generation {
    var tokenIds: seq<Token>
    var finishReason: FinishReason
    var prefixOffset: nat
    var readOffset: nat
    var toolCalls: seq<ToolCall>
    var contentParts: seq<string>
    var reasoning: Option<string>
    var inReasoning: bool

    ghost predicate Valid()
      reads this
    {
      prefixOffset <= readOffset <= |tokenIds|
    }

    function At(): Offsets
      reads this
    {
      Offsets(prefixOffset, readOffset)
    }

    function Kept(): Record
      reads this
    {
      Record(toolCalls, contentParts, reasoning, inReasoning)
    }

    constructor ()
      ensures Valid() && tokenIds == [] && At() == Offsets(0, 0) && finishReason.Unset? && Kept() == NOTHING
    {
      tokenIds, finishReason, prefixOffset, readOffset := [], Unset, 0, 0;
      toolCalls, contentParts, reasoning, inReasoning := [], [], None, false;
    }

    /** The serving-side accumulator never crosses the request limit. */
    method Extend(ids: seq<Token>, maxTokens: int)
      requires Valid() && |tokenIds| < maxTokens
      modifies `tokenIds
      ensures Valid() && |tokenIds| <= maxTokens
      ensures tokenIds == old(tokenIds) + AtMost(ids, maxTokens - old(|tokenIds|))
    {
      tokenIds := tokenIds + AtMost(ids, maxTokens - |tokenIds|);
    }

    /** `_incremental_detokenize` */
    method IncrementalDetokenize(vocabulary: Vocabulary) returns (delta: string)
      requires Valid()
      modifies `prefixOffset, `readOffset
      ensures Valid() && (At(), delta) == Advance(vocabulary, tokenIds, old(At()))
    {
      var prefixText := Text(vocabulary, tokenIds[prefixOffset..readOffset]);
      var newText := Text(vocabulary, tokenIds[prefixOffset..]);
      if |newText| > |prefixText| && !Utf8.EndsBroken(newText) {
        delta := newText[|prefixText|..];
        prefixOffset := readOffset;
        readOffset := |tokenIds|;
        return;
      }
      return "";
    }

    /** `_apply_parsed_delta` */
    method ApplyParsedDelta(parsed: Delta) returns (shown: Yield)
      modifies `toolCalls, `contentParts, `reasoning, `inReasoning
      ensures shown == YieldOf(parsed, old(toolCalls)) && Kept() == Applied(parsed, old(Kept()))
    {
      match parsed
      case Reasoning(text) =>
        inReasoning := true;
        reasoning := Some(OrEmpty(reasoning) + text);
        return Yield(text, true, toolCalls);
      case Content(text) =>
        inReasoning := false;
        contentParts := contentParts + [text];
        return Yield(text, false, toolCalls);
      case Called(call) =>
        inReasoning := false;
        toolCalls := toolCalls + [call];
        return Yield("", false, toolCalls);
    }
  }

  function OrEmpty(s: Option<string>): string { if s.Some? then s.value else "" }

  function AtMost(ids: seq<Token>, n: int): seq<Token>
    requires 0 <= n
  {
    if n < |ids| then ids[..n] else ids
  }

  function YieldOf(d: Delta, calls: seq<ToolCall>): Yield {
    match d
    case Reasoning(text) => Yield(text, true, calls)
    case Content(text) => Yield(text, false, calls)
    case Called(call) => Yield("", false, calls + [call])
  }

  function YieldsOf(deltas: seq<Delta>, calls: seq<ToolCall>): seq<Yield> {
    if deltas == [] then []
    else [YieldOf(deltas[0], calls)] + YieldsOf(deltas[1..], YieldOf(deltas[0], calls).calls)
  }

  /** The record after one more delta: its calls and its channel are those just shown. */
  function Applied(d: Delta, r: Record): Record {
    var y := YieldOf(d, r.calls);
    Record(y.calls, if d.Content? then r.contents + [d.text] else r.contents,
           if d.Reasoning? then Some(OrEmpty(r.reasoning) + d.text) else r.reasoning, y.inReasoning)
  }

  function Recorded(deltas: seq<Delta>, r: Record): Record
    decreases |deltas|
  {
    if deltas == [] then r else Recorded(deltas[1..], Applied(deltas[0], r))
  }

  lemma {:induction false} YieldsAppend(a: seq<Delta>, b: seq<Delta>, r: Record)
    ensures YieldsOf(a + b, r.calls) == YieldsOf(a, r.calls) + YieldsOf(b, Recorded(a, r).calls)
    ensures Recorded(a + b, r) == Recorded(b, Recorded(a, r))
    decreases |a|
  {
    if a == [] {
      assert a + b == b;
    } else {
      assert (a + b)[1..] == a[1..] + b;
      YieldsAppend(a[1..], b, Applied(a[0], r));
    }
  }

  // ---- bundles within the token limit ----

  /** The token bundles a stream accepts: nothing past the limit, and no call at all for
      items that bring no tokens or come after the limit is reached. */
  function Taken(items: seq<Item>, maxTokens: int, have: nat): seq<seq<Token>> {
    if items == [] then []
    else if !items[0].Tokens? || maxTokens <= have then Taken(items[1..], maxTokens, have)
    else
      var bundle := AtMost(items[0].ids, maxTokens - have);
      [bundle] + Taken(items[1..], maxTokens, have + |bundle|)
  }

  function AllTokens(items: seq<Item>): seq<Token> {
    if items == [] then [] else (if items[0].Tokens? then items[0].ids else []) + AllTokens(items[1..])
  }

  function Room(maxTokens: int, have: nat): nat { if have < maxTokens then maxTokens - have else 0 }

  lemma AtMostSplits(ids: seq<Token>, more: seq<Token>, room: nat)
    ensures var bundle := AtMost(ids, room);
            |bundle| <= room && bundle + AtMost(more, room - |bundle|) == AtMost(ids + more, room)
  {
  }

  /** Together the accepted bundles are the first tokens of the queue, up to the limit. */
  lemma {:induction false} TakenWithinLimit(items: seq<Item>, maxTokens: int, have: nat)
    ensures Flatten(Taken(items, maxTokens, have)) == AtMost(AllTokens(items), Room(maxTokens, have))
  {
    if items != [] {
      if !items[0].Tokens? {
        TakenWithinLimit(items[1..], maxTokens, have);
      } else if maxTokens <= have {
        TakenWithinLimit(items[1..], maxTokens, have);
        assert AtMost(AllTokens(items), 0) == [];
      } else {
        var bundle := AtMost(items[0].ids, maxTokens - have);
        TakenWithinLimit(items[1..], maxTokens, have + |bundle|);
        assert Taken(items, maxTokens, have)[1..] == Taken(items[1..], maxTokens, have + |bundle|);
        AtMostSplits(items[0].ids, AllTokens(items[1..]), maxTokens - have);
      }
    }
  }

  // ---- what the chat endpoint makes of the yields ----

  datatype ChatDelta = ReasoningContent(text: string) | ContentText(text: string) | ToolDelta(index: nat, call: ToolCall)

  function TextDelta(y: Yield): seq<ChatDelta> {
    if y.text == "" then [] else if y.inReasoning then [ReasoningContent(y.text)] else [ContentText(y.text)]
  }

  /** New calls are those past the ones already streamed, numbered on from there. */
  function NewCalls(calls: seq<ToolCall>, sent: nat): seq<ChatDelta>
    decreases |calls| - sent
  {
    if |calls| <= sent then [] else [ToolDelta(sent, calls[sent])] + NewCalls(calls, sent + 1)
  }

  /** The deltas the chat endpoint streams, given how many calls it has sent already. */
  function Chat(shown: seq<Yield>, sent: nat): seq<ChatDelta> {
    if shown == [] then []
    else TextDelta(shown[0]) + NewCalls(shown[0].calls, sent) + Chat(shown[1..], Max(sent, |shown[0].calls|))
  }

  function SentAfter(shown: seq<Yield>, sent: nat): nat {
    if shown == [] then sent else SentAfter(shown[1..], Max(sent, |shown[0].calls|))
  }

  /** Whether reasoning has been streamed. */
  predicate Thought(shown: seq<Yield>) { exists y | y in shown :: y.text != "" && y.inReasoning }

  /** Reasoning that the parse at the end has found, if none has been streamed. */
  function LateReasoning(shown: seq<Yield>, reasoning: Option<string>): seq<ChatDelta> {
    if reasoning.Some? && !Thought(shown) then [ReasoningContent(reasoning.value)] else []
  }

  datatype ChatReason = ToolCalls | Plain(reason: FinishReason)

  /** A chunk of the protocol carries what one yield brings; there is none for nothing. */
  function Chunk(deltas: seq<ChatDelta>): seq<seq<ChatDelta>> { if deltas == [] then [] else [deltas] }

  function Fresh(y: Yield, sent: nat, tools: bool): seq<ChatDelta> {
    TextDelta(y) + (if tools then NewCalls(y.calls, sent) else [])
  }

  function Chunks(shown: seq<Yield>, sent: nat, tools: bool): seq<seq<ChatDelta>> {
    if shown == [] then [] else Chunk(Fresh(shown[0], sent, tools)) + Chunks(shown[1..], Max(sent, |shown[0].calls|), tools)
  }

  /** What the parse at the end has in addition, with tools. */
  function Late(shown: seq<Yield>, reasoning: Option<string>, parsed: seq<ToolCall>): seq<ChatDelta> {
    LateReasoning(shown, reasoning) + NewCalls(parsed, SentAfter(shown, 0))
  }

  /** The part of the chat endpoint's `event_stream` that streams text and calls: the loop over
      the yields, then, with tools, one chunk for what the parse at the end has in addition. */
  method StreamChat(shown: seq<Yield>, tools: bool, finish: FinishReason, reasoning: Option<string>, parsed: seq<ToolCall>)
    returns (chunks: seq<seq<ChatDelta>>, reason: ChatReason)
    ensures chunks == Chunks(shown, 0, tools) + (if tools then Chunk(Late(shown, reasoning, parsed)) else [])
    ensures ContentSaid(Joined(chunks)) == Texts(shown, false)
    ensures ReasoningSaid(Joined(chunks))
         == Texts(shown, true) + (if tools && !Thought(shown) then OrEmpty(reasoning) else "")
    ensures reason == if tools && parsed != [] then ToolCalls else Plain(finish)
  {
    chunks := [];
    var sent: nat := 0;
    var thought := false;
    assert shown[0..] == shown && [] + Chunks(shown, 0, tools) == Chunks(shown, 0, tools);
    for i := 0 to |shown|
      invariant Chunks(shown, 0, tools) == chunks + Chunks(shown[i..], sent, tools)
      invariant SentAfter(shown, 0) == SentAfter(shown[i..], sent) && thought == Thought(shown[..i])
    {
      var y := shown[i];
      assert shown[i..][0] == y && shown[i..][1..] == shown[i + 1..] && shown[..i + 1] == shown[..i] + [y];
      ThoughtGrows(shown[..i], y);
      var delta := TextDelta(y);
      if tools {
        var calls := EnumerateNew(y.calls, sent);
        delta := delta + calls;
      } else {
        assert delta + [] == delta;
      }
      Associates(chunks, Chunk(delta), Chunks(shown[i + 1..], Max(sent, |y.calls|), tools));
      if y.text != "" && y.inReasoning { thought := true; }
      if delta != [] { chunks := chunks + [delta]; } else { assert chunks + [] == chunks; }
      if |y.calls| > sent { sent := |y.calls|; }
    }
    assert shown[|shown|..] == [] && shown[..|shown|] == shown && chunks + [] == chunks;
    reason := Plain(finish);
    if tools {
      var late := if reasoning.Some? && !thought then [ReasoningContent(reasoning.value)] else [];
      var rest := EnumerateNew(parsed, sent);
      late := late + rest;
      if late != [] { chunks := chunks + [late]; }
      if parsed != [] { reason := ToolCalls; }
    }
    StreamSays(shown, tools, reasoning, parsed, chunks);
  }

  // ---- what a client collects ----

  function ReasoningSaid(deltas: seq<ChatDelta>): string {
    if deltas == [] then ""
    else (if deltas[0].ReasoningContent? then deltas[0].text else "") + ReasoningSaid(deltas[1..])
  }

  function ContentSaid(deltas: seq<ChatDelta>): string {
    if deltas == [] then "" else (if deltas[0].ContentText? then deltas[0].text else "") + ContentSaid(deltas[1..])
  }

  function CallsSaid(deltas: seq<ChatDelta>): seq<(nat, ToolCall)> {
    if deltas == [] then []
    else (if deltas[0].ToolDelta? then [(deltas[0].index, deltas[0].call)] else []) + CallsSaid(deltas[1..])
  }

  /** The text of the yields of one channel. */
  function Texts(shown: seq<Yield>, inReasoning: bool): string {
    if shown == [] then ""
    else (if shown[0].inReasoning == inReasoning then shown[0].text else "") + Texts(shown[1..], inReasoning)
  }

  lemma {:induction false} ReasoningAppends(a: seq<ChatDelta>, b: seq<ChatDelta>)
    ensures ReasoningSaid(a + b) == ReasoningSaid(a) + ReasoningSaid(b)
  {
    if a == [] {
      assert a + b == b;
    } else {
      assert (a + b)[1..] == a[1..] + b;
      ReasoningAppends(a[1..], b);
    }
  }

  lemma {:induction false} ContentAppends(a: seq<ChatDelta>, b: seq<ChatDelta>)
    ensures ContentSaid(a + b) == ContentSaid(a) + ContentSaid(b)
  {
    if a == [] {
      assert a + b == b;
    } else {
      assert (a + b)[1..] == a[1..] + b;
      ContentAppends(a[1..], b);
    }
  }

  lemma {:induction false} CallsAppend(a: seq<ChatDelta>, b: seq<ChatDelta>)
    ensures CallsSaid(a + b) == CallsSaid(a) + CallsSaid(b)
  {
    if a == [] {
      assert a + b == b;
    } else {
      assert (a + b)[1..] == a[1..] + b;
      CallsAppend(a[1..], b);
    }
  }

  lemma SaidAppends(a: seq<ChatDelta>, b: seq<ChatDelta>)
    ensures ReasoningSaid(a + b) == ReasoningSaid(a) + ReasoningSaid(b) && ContentSaid(a + b) == ContentSaid(a) + ContentSaid(b)
    ensures CallsSaid(a + b) == CallsSaid(a) + CallsSaid(b)
  {
    ReasoningAppends(a, b);
    ContentAppends(a, b);
    CallsAppend(a, b);
  }

  lemma TextSaid(y: Yield)
    ensures ReasoningSaid(TextDelta(y)) == (if y.inReasoning then y.text else "")
    ensures ContentSaid(TextDelta(y)) == if y.inReasoning then "" else y.text
  {
    if y.text != "" { assert TextDelta(y)[1..] == []; }
  }

  lemma {:induction false} CallsSayNothing(calls: seq<ToolCall>, sent: nat)
    ensures ReasoningSaid(NewCalls(calls, sent)) == ContentSaid(NewCalls(calls, sent)) == ""
    decreases |calls| - sent
  {
    if sent < |calls| {
      CallsSayNothing(calls, sent + 1);
      assert NewCalls(calls, sent)[1..] == NewCalls(calls, sent + 1);
    }
  }

  lemma FreshSays(y: Yield, sent: nat, tools: bool)
    ensures ReasoningSaid(Fresh(y, sent, tools)) == (if y.inReasoning then y.text else "")
    ensures ContentSaid(Fresh(y, sent, tools)) == if y.inReasoning then "" else y.text
  {
    TextSaid(y);
    CallsSayNothing(y.calls, sent);
    SaidAppends(TextDelta(y), if tools then NewCalls(y.calls, sent) else []);
  }

  lemma {:induction false} ChunksSay(shown: seq<Yield>, sent: nat, tools: bool)
    ensures ReasoningSaid(Joined(Chunks(shown, sent, tools))) == Texts(shown, true)
    ensures ContentSaid(Joined(Chunks(shown, sent, tools))) == Texts(shown, false)
    decreases |shown|
  {
    if shown != [] {
      var next := Max(sent, |shown[0].calls|);
      var now, rest := Fresh(shown[0], sent, tools), Chunks(shown[1..], next, tools);
      ChunksSay(shown[1..], next, tools);
      JoinedAppends(Chunk(now), rest);
      OneChunk(now);
      FreshSays(shown[0], sent, tools);
      SaidAppends(now, Joined(rest));
    }
  }

  lemma LateSays(shown: seq<Yield>, reasoning: Option<string>, parsed: seq<ToolCall>)
    ensures ReasoningSaid(Late(shown, reasoning, parsed)) == (if !Thought(shown) then OrEmpty(reasoning) else "")
    ensures ContentSaid(Late(shown, reasoning, parsed)) == ""
  {
    var late := LateReasoning(shown, reasoning);
    if late != [] { assert late[1..] == []; }
    CallsSayNothing(parsed, SentAfter(shown, 0));
    SaidAppends(late, NewCalls(parsed, SentAfter(shown, 0)));
  }

  lemma StreamSays(shown: seq<Yield>, tools: bool, reasoning: Option<string>, parsed: seq<ToolCall>,
                   chunks: seq<seq<ChatDelta>>)
    requires chunks == Chunks(shown, 0, tools) + (if tools then Chunk(Late(shown, reasoning, parsed)) else [])
    ensures ContentSaid(Joined(chunks)) == Texts(shown, false)
    ensures ReasoningSaid(Joined(chunks))
         == Texts(shown, true) + (if tools && !Thought(shown) then OrEmpty(reasoning) else "")
  {
    var end := if tools then Chunk(Late(shown, reasoning, parsed)) else [];
    ChunksSay(shown, 0, tools);
    JoinedAppends(Chunks(shown, 0, tools), end);
    SaidAppends(Joined(Chunks(shown, 0, tools)), Joined(end));
    LateSays(shown, reasoning, parsed);
    OneChunk(Late(shown, reasoning, parsed));
  }

  // ---- and what the parser found ----

  function ReasoningIn(deltas: seq<Delta>): string {
    if deltas == [] then "" else (if deltas[0].Reasoning? then deltas[0].text else "") + ReasoningIn(deltas[1..])
  }

  function ContentIn(deltas: seq<Delta>): string {
    if deltas == [] then "" else (if deltas[0].Content? then deltas[0].text else "") + ContentIn(deltas[1..])
  }

  function CallsIn(deltas: seq<Delta>): seq<ToolCall> {
    if deltas == [] then [] else (if deltas[0].Called? then [deltas[0].call] else []) + CallsIn(deltas[1..])
  }

  /** Calls with their numbers, from `n` on. */
  function Enumerated(calls: seq<ToolCall>, n: nat): seq<(nat, ToolCall)> {
    seq(|calls|, i requires 0 <= i < |calls| => (n + i, calls[i]))
  }

  lemma {:induction false} NumberedSays(deltas: seq<Delta>, n: nat)
    ensures ReasoningSaid(Numbered(deltas, n)) == ReasoningIn(deltas) && ContentSaid(Numbered(deltas, n)) == ContentIn(deltas)
    ensures CallsSaid(Numbered(deltas, n)) == Enumerated(CallsIn(deltas), n)
    decreases |deltas|
  {
    if deltas != [] {
      match deltas[0]
      case Called(call) =>
        NumberedSays(deltas[1..], n + 1);
        SaidAppends([ToolDelta(n, call)], Numbered(deltas[1..], n + 1));
        OneCallSaid(n, call);
        assert Enumerated([call] + CallsIn(deltas[1..]), n) == [(n, call)] + Enumerated(CallsIn(deltas[1..]), n + 1);
      case _ =>
        var y := YieldOf(deltas[0], []);
        NumberedSays(deltas[1..], n);
        SaidAppends(TextDelta(y), Numbered(deltas[1..], n));
        TextSaid(y);
        if y.text != "" { assert TextDelta(y)[1..] == []; }
    }
  }

  lemma OneCallSaid(n: nat, call: ToolCall)
    ensures ReasoningSaid([ToolDelta(n, call)]) == ContentSaid([ToolDelta(n, call)]) == ""
    ensures CallsSaid([ToolDelta(n, call)]) == [(n, call)]
  {
    assert [ToolDelta(n, call)][1..] == [];
  }

  function Joined(chunks: seq<seq<ChatDelta>>): seq<ChatDelta> {
    if chunks == [] then [] else chunks[0] + Joined(chunks[1..])
  }

  lemma {:induction false} JoinedAppends(a: seq<seq<ChatDelta>>, b: seq<seq<ChatDelta>>)
    ensures Joined(a + b) == Joined(a) + Joined(b)
  {
    if a == [] {
      assert a + b == b;
    } else {
      assert (a + b)[1..] == a[1..] + b;
      JoinedAppends(a[1..], b);
      Associates(a[0], Joined(a[1..]), Joined(b));
    }
  }

  lemma OneChunk(deltas: seq<ChatDelta>)
    ensures Joined(Chunk(deltas)) == deltas
  {
    if deltas != [] { assert [deltas][1..] == [] && deltas + [] == deltas; }
  }

  /** With tools the chunks together carry the deltas one after the other. */
  lemma {:induction false} ChunksJoin(shown: seq<Yield>, sent: nat)
    ensures Joined(Chunks(shown, sent, true)) == Chat(shown, sent)
    decreases |shown|
  {
    if shown != [] {
      var now, rest := Fresh(shown[0], sent, true), Chunks(shown[1..], Max(sent, |shown[0].calls|), true);
      JoinedAppends(Chunk(now), rest);
      OneChunk(now);
      ChunksJoin(shown[1..], Max(sent, |shown[0].calls|));
    }
  }

  lemma ThoughtGrows(shown: seq<Yield>, y: Yield)
    ensures Thought(shown + [y]) == (Thought(shown) || (y.text != "" && y.inReasoning))
  {
    assert forall x :: x in shown + [y] <==> x in shown || x == y;
  }

  /** `enumerate(calls[sent:], sent)` */
  method EnumerateNew(calls: seq<ToolCall>, sent: nat) returns (deltas: seq<ChatDelta>)
    ensures deltas == NewCalls(calls, sent)
  {
    deltas := [];
    var i := sent;
    while i < |calls|
      invariant sent <= i && NewCalls(calls, sent) == deltas + NewCalls(calls, i)
    {
      var d := ToolDelta(i, calls[i]);
      assert deltas + ([d] + NewCalls(calls, i + 1)) == deltas + [d] + NewCalls(calls, i + 1);
      deltas := deltas + [d];
      i := i + 1;
    }
  }

  /** Each delta of the parser once, calls numbered in order. */
  function Numbered(deltas: seq<Delta>, n: nat): seq<ChatDelta> {
    if deltas == [] then []
    else
      match deltas[0]
      case Called(call) => [ToolDelta(n, call)] + Numbered(deltas[1..], n + 1)
      case _ => TextDelta(YieldOf(deltas[0], [])) + Numbered(deltas[1..], n)
  }

  /** No call is streamed twice or skipped, and the k-th call carries index k. */
  lemma {:induction false} CallsStreamedOnce(deltas: seq<Delta>, calls: seq<ToolCall>)
    ensures Chat(YieldsOf(deltas, calls), |calls|) == Numbered(deltas, |calls|)
    decreases |deltas|
  {
    if deltas != [] {
      var y := YieldOf(deltas[0], calls);
      CallsStreamedOnce(deltas[1..], y.calls);
      assert YieldsOf(deltas, calls)[1..] == YieldsOf(deltas[1..], y.calls);
      if deltas[0].Called? {
        assert NewCalls(y.calls, |calls| + 1) == [];
        assert NewCalls(y.calls, |calls|) == [ToolDelta(|calls|, deltas[0].call)];
      }
    }
  }

  lemma {:induction false} SentIsCalls(deltas: seq<Delta>, r: Record)
    ensures SentAfter(YieldsOf(deltas, r.calls), |r.calls|) == |Recorded(deltas, r).calls|
    decreases |deltas|
  {
    if deltas != [] {
      var next := Applied(deltas[0], r);
      SentIsCalls(deltas[1..], next);
      assert YieldsOf(deltas, r.calls)[1..] == YieldsOf(deltas[1..], next.calls);
    }
  }

  /** The parser never shows an empty text. */
  predicate Speaks(deltas: seq<Delta>) {
    forall d | d in deltas :: d.Called? || d.text != ""
  }

  lemma {:induction false} ReasoningShown(deltas: seq<Delta>, r: Record)
    requires Speaks(deltas) && r.reasoning.None?
    ensures Recorded(deltas, r).reasoning.Some? ==> Thought(YieldsOf(deltas, r.calls))
    decreases |deltas|
  {
    if deltas != [] {
      var y, next := YieldOf(deltas[0], r.calls), Applied(deltas[0], r);
      assert deltas[0] in deltas && forall d | d in deltas[1..] :: d in deltas;
      var shown := YieldsOf(deltas, r.calls);
      assert shown[0] == y && shown == [y] + YieldsOf(deltas[1..], y.calls);
      if deltas[0].Reasoning? {
        assert y in shown;
      } else {
        ReasoningShown(deltas[1..], next);
      }
    }
  }

  /** Behind a structured stream, whose last yield only closes it, the parse at the end has
      nothing left to send: the client gets every delta once, calls numbered from 0. */
  lemma ChatStreamsOnce(deltas: seq<Delta>)
    requires Speaks(deltas)
    ensures var r := Recorded(deltas, NOTHING);
            var shown := YieldsOf(deltas, []) + [Yield("", r.inReasoning, r.calls)];
            Late(shown, r.reasoning, r.calls) == [] && Joined(Chunks(shown, 0, true)) == Numbered(deltas, 0)
    ensures var r := Recorded(deltas, NOTHING);
            var said := Joined(Chunks(YieldsOf(deltas, []) + [Yield("", r.inReasoning, r.calls)], 0, true));
      && ReasoningSaid(said) == ReasoningIn(deltas) && ContentSaid(said) == ContentIn(deltas)
      && CallsSaid(said) == Enumerated(CallsIn(deltas), 0)
  {
    var r := Recorded(deltas, NOTHING);
    var none: seq<ToolCall> := [];
    var shown, last := YieldsOf(deltas, []), Yield("", r.inReasoning, r.calls);
    SentIsCalls(deltas, NOTHING);
    CallsStreamedOnce(deltas, none);
    LastYield(shown, last, 0);
    ReasoningShown(deltas, NOTHING);
    ThoughtGrows(shown, last);
    ChunksJoin(shown + [last], 0);
    NumberedSays(deltas, 0);
  }

  lemma {:induction false} LastYield(shown: seq<Yield>, last: Yield, sent: nat)
    requires last.text == "" && |last.calls| == SentAfter(shown, sent)
    ensures Chat(shown + [last], sent) == Chat(shown, sent) && SentAfter(shown + [last], sent) == SentAfter(shown, sent)
    decreases |shown|
  {
    if shown == [] {
      assert shown + [last] == [last] && [last][1..] == [];
      assert NewCalls(last.calls, sent) == [] && TextDelta(last) == [];
      assert Chat([last], sent) == [] + [] + Chat([], sent);
    } else {
      assert (shown + [last])[1..] == shown[1..] + [last];
      LastYield(shown[1..], last, Max(sent, |shown[0].calls|));
    }
  }
}
