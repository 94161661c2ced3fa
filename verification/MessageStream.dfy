/** The Anthropic streaming endpoint: how the deltas of a generation become server-sent
    events, and the grammar that every finished stream of them follows. */
module MessageStream {
  import opened Patterns
  import K3Types = K3Parser
  import opened Generations

  datatype Block = TextBlock | ToolBlock(name: string)

  datatype Reason = EndTurn | MaxTokens | ToolUse

  datatype Sse =
    | MessageStart
    | BlockStart(index: int, block: Block)
    | TextDelta(index: int, text: string)
    | InputDelta(index: int, arguments: K3Types.Arguments)
    | BlockStop(index: int)
    | MessageDelta(reason: Reason)
    | MessageStop
    | Error(message: string)

  // ---- the grammar, as an acceptor of its own ----

  datatype Phase =
    | Fresh
    | Between(blocks: nat)              // so many blocks, none open
    | Inside(blocks: nat, block: Block) // block number `blocks` is open
    | Ending
    | Over
    | Wrong

  function Follow(p: Phase, e: Sse): Phase {
    match (p, e)
    case (Fresh, MessageStart) => Between(0)
    case (Between(n), BlockStart(i, block)) => if i == n then Inside(n, block) else Wrong
    case (Inside(n, TextBlock), TextDelta(i, _)) => if i == n then p else Wrong
    case (Inside(n, ToolBlock(_)), InputDelta(i, _)) => if i == n then p else Wrong
    case (Inside(n, _), BlockStop(i)) => if i == n then Between(n + 1) else Wrong
    case (Between(n), MessageDelta(_)) => if n > 0 then Ending else Wrong
    case (Ending, MessageStop) => Over
    case _ => Wrong
  }

  function Run(p: Phase, events: seq<Sse>): Phase
    decreases |events|
  {
    if events == [] then p else Run(Follow(p, events[0]), events[1..])
  }

  lemma {:induction false} RunOn(p: Phase, a: seq<Sse>, b: seq<Sse>)
    ensures Run(p, a + b) == Run(Run(p, a), b)
    decreases |a|
  {
    if a == [] {
      assert a + b == b;
    } else {
      assert (a + b)[1..] == a[1..] + b;
      RunOn(Follow(p, a[0]), a[1..], b);
    }
  }

  // ---- what a client collects ----

  function Texts(events: seq<Sse>): string {
    if events == [] then "" else (if events[0].TextDelta? then events[0].text else "") + Texts(events[1..])
  }

  lemma {:induction false} TextsAppend(a: seq<Sse>, b: seq<Sse>)
    ensures Texts(a + b) == Texts(a) + Texts(b)
  {
    if a == [] {
      assert a + b == b;
    } else {
      assert (a + b)[1..] == a[1..] + b;
      TextsAppend(a[1..], b);
    }
  }

  /** A client that takes down each call, its name where the block opens and its arguments from
      the input that comes next, and each stop reason. */
  datatype Client = Client(pending: Option<string>, calls: seq<K3Types.ToolCall>, reasons: seq<Reason>)

  const SILENT := Client(None, [], [])

  function Listen(c: Client, e: Sse): Client {
    match e
    case BlockStart(_, ToolBlock(name)) => c.(pending := Some(name))
    case InputDelta(_, arguments) =>
      if c.pending.None? then c
      else c.(pending := None, calls := c.calls + [K3Types.ToolCall(c.pending.value, arguments)])
    case MessageDelta(reason) => c.(reasons := c.reasons + [reason])
    case _ => c
  }

  function Heard(c: Client, events: seq<Sse>): Client
    decreases |events|
  {
    if events == [] then c else Heard(Listen(c, events[0]), events[1..])
  }

  lemma {:induction false} HeardOn(c: Client, a: seq<Sse>, b: seq<Sse>)
    ensures Heard(c, a + b) == Heard(Heard(c, a), b)
    decreases |a|
  {
    if a == [] {
      assert a + b == b;
    } else {
      assert (a + b)[1..] == a[1..] + b;
      HeardOn(Listen(c, a[0]), a[1..], b);
    }
  }

  /** Visible text of the yields: what is not reasoning. */
  function Visible(shown: seq<Yield>): string {
    if shown == [] then "" else (if shown[0].inReasoning then "" else shown[0].text) + Visible(shown[1..])
  }

  /** One tool call as a block of its own. */
  function ToolEvents(call: K3Types.ToolCall, index: int): seq<Sse> {
    [BlockStart(index, ToolBlock(call.name)), InputDelta(index, call.arguments), BlockStop(index)]
  }

  function AllTools(calls: seq<K3Types.ToolCall>, index: int): seq<Sse>
    decreases |calls|
  {
    if calls == [] then [] else ToolEvents(calls[0], index) + AllTools(calls[1..], index + 1)
  }

  lemma {:induction false} ToolsRun(calls: seq<K3Types.ToolCall>, blocks: nat)
    ensures Run(Between(blocks), AllTools(calls, blocks)) == Between(blocks + |calls|) && Texts(AllTools(calls, blocks)) == ""
    decreases |calls|
  {
    if calls != [] {
      var first, rest := ToolEvents(calls[0], blocks), AllTools(calls[1..], blocks + 1);
      ToolsRun(calls[1..], blocks + 1);
      OneTool(calls[0], blocks);
      RunOn(Between(blocks), first, rest);
      TextsAppend(first, rest);
    }
  }

  lemma OneTool(call: K3Types.ToolCall, blocks: nat)
    ensures Run(Between(blocks), ToolEvents(call, blocks)) == Between(blocks + 1) && Texts(ToolEvents(call, blocks)) == ""
  {
    var a, b, c := BlockStart(blocks, ToolBlock(call.name)), InputDelta(blocks, call.arguments), BlockStop(blocks);
    assert [a, b, c][1..] == [b, c] && [b, c][1..] == [c] && [c][1..] == [];
    assert Run(Between(blocks), [a, b, c]) == Run(Inside(blocks, ToolBlock(call.name)), [b, c]);
    assert Run(Inside(blocks, ToolBlock(call.name)), [b, c]) == Run(Inside(blocks, ToolBlock(call.name)), [c]);
    assert Run(Inside(blocks, ToolBlock(call.name)), [c]) == Run(Between(blocks + 1), []);
    assert Texts([b, c]) == Texts([c]) == "";
  }

  /** A client hears exactly the calls, in order. */
  lemma {:induction false} ToolsHeard(calls: seq<K3Types.ToolCall>, index: int, c: Client)
    requires c.pending.None?
    ensures Heard(c, AllTools(calls, index)) == c.(calls := c.calls + calls)
    decreases |calls|
  {
    if calls == [] {
      assert c.calls + calls == c.calls;
    } else {
      var first, rest, next := ToolEvents(calls[0], index), AllTools(calls[1..], index + 1), c.(calls := c.calls + [calls[0]]);
      HeardOn(c, first, rest);
      OneToolHeard(calls[0], index, c);
      ToolsHeard(calls[1..], index + 1, next);
      assert c.calls + [calls[0]] + calls[1..] == c.calls + calls;
    }
  }

  lemma OneToolHeard(call: K3Types.ToolCall, index: int, c: Client)
    requires c.pending.None?
    ensures Heard(c, ToolEvents(call, index)) == c.(calls := c.calls + [call])
  {
    var events := ToolEvents(call, index);
    var one := Listen(c, events[0]);
    var two := Listen(one, events[1]);
    assert events[1..][0] == events[1] && events[1..][1..] == events[2..] && events[2..][0] == events[2];
    assert events[2..][1..] == [];
    assert Heard(two, events[2..]) == Heard(Listen(two, events[2]), []);
  }

  /** The events of one run, and what is known about them. */
  ghost predicate Written(events: seq<Sse>, phase: Phase, text: string, heard: Client) {
    Run(Fresh, events) == phase && Texts(events) == text && Heard(SILENT, events) == heard
  }

  lemma Writes(events: seq<Sse>, phase: Phase, text: string, heard: Client, e: Sse)
    requires Written(events, phase, text, heard)
    ensures Written(events + [e], Follow(phase, e), if e.TextDelta? then text + e.text else text, Listen(heard, e))
  {
    RunOn(Fresh, events, [e]);
    TextsAppend(events, [e]);
    HeardOn(SILENT, events, [e]);
    assert [e][1..] == [];
    assert Run(phase, [e]) == Run(Follow(phase, e), []);
    assert Heard(heard, [e]) == Heard(Listen(heard, e), []);
  }

  /** What a client is told: the calls, and one stop reason, `tool_use` if and only if there are
      calls, and `max_tokens` if and only if there are none and the generation ended on length. */
  ghost predicate ToldRight(heard: Client, shown: seq<Yield>, finish: FinishReason, tools: seq<K3Types.ToolCall>) {
    && heard.calls == tools && |heard.reasons| == 1
    && (heard.reasons[0] == ToolUse <==> tools != [])
    && (heard.reasons[0] == MaxTokens <==> tools == [] && shown != [] && finish.LengthReason?)
  }

  /** A finished stream: some blocks, those of the tools last, the reason, and the end. */
  ghost predicate Complete(events: seq<Sse>, shown: seq<Yield>, finish: FinishReason, tools: seq<K3Types.ToolCall>) {
    && Run(Fresh, events) == Over
    && exists head :: Run(Fresh, head) == Between(Blocks(shown, tools)) &&
         events == head + AllTools(tools, Blocks(shown, tools)) + [MessageDelta(ReasonFor(shown, finish, tools)), MessageStop]
  }

  /** A stream that breaks off: the error comes last, in place of the rest of the message. */
  ghost predicate BrokenOff(events: seq<Sse>, message: string) {
    && events != [] && events[|events| - 1] == Error(message)
    && Run(Fresh, events[..|events| - 1]) in {Between(0), Inside(0, TextBlock)}
  }

  /** `event_stream`: `shown` is what the text stream yields, `error` the error it raises,
      `calls` the calls parsed at the end. */
  method EventStream(shown: seq<Yield>, error: Option<string>, finish: FinishReason, useTools: bool, calls: seq<K3Types.ToolCall>)
    returns (events: seq<Sse>)
    ensures Texts(events) == Visible(shown)
    ensures error.None? ==> Complete(events, shown, finish, if useTools && shown != [] then calls else [])
    ensures error.None? ==> ToldRight(Heard(SILENT, events), shown, finish, if useTools && shown != [] then calls else [])
    ensures error.Some? ==> BrokenOff(events, error.value) && Heard(SILENT, events) == SILENT
  {
    events := [MessageStart];
    assert Written(events, Between(0), "", SILENT) by {
      assert [MessageStart][1..] == [];
      assert Run(Fresh, events) == Run(Between(0), []);
      assert Heard(SILENT, events) == Heard(SILENT, []);
    }
    var index, open;
    events, index, open := StreamTexts(shown, events);
    if error.Some? {
      Writes(events, TextPhase(open), Visible(shown), SILENT, Error(error.value));
      assert (events + [Error(error.value)])[..|events|] == events;
      return events + [Error(error.value)];
    }
    events := FinishMessage(shown, events, index, open, finish, if useTools && shown != [] then calls else []);
  }

  method FinishMessage(shown: seq<Yield>, start: seq<Sse>, from: int, open: bool, finish: FinishReason,
                       tools: seq<K3Types.ToolCall>)
    returns (events: seq<Sse>)
    requires Written(start, TextPhase(open), Visible(shown), SILENT) && open == Speaks(shown)
    requires from == if open then 0 else -1
    ensures Complete(events, shown, finish, tools) && Texts(events) == Visible(shown)
    ensures ToldRight(Heard(SILENT, events), shown, finish, tools)
  {
    var index;
    events, index := CloseText(shown, start, from, open, tools == []);
    ghost var head, blocks := events, index + 1;
    events := WriteTools(events, tools, index, Visible(shown));
    var reason := if tools != [] then ToolUse else if shown != [] && finish.LengthReason? then MaxTokens else EndTurn;
    ghost var told := Client(None, tools, []);
    Writes(events, Between(blocks + |tools|), Visible(shown), told, MessageDelta(reason));
    Writes(events + [MessageDelta(reason)], Ending, Visible(shown), Listen(told, MessageDelta(reason)), MessageStop);
    Pair(events, MessageDelta(reason), MessageStop);
    events := events + [MessageDelta(reason)] + [MessageStop];
  }

  lemma Pair(events: seq<Sse>, a: Sse, b: Sse)
    ensures events + [a] + [b] == events + [a, b]
  {
  }

  /** Whether anything visible was shown. */
  predicate Speaks(shown: seq<Yield>) { exists y | y in shown :: !y.inReasoning && y.text != "" }

  /** Blocks before the tools: a text block, which is there for certain when there are no tools. */
  function Blocks(shown: seq<Yield>, tools: seq<K3Types.ToolCall>): nat { if Speaks(shown) || tools == [] then 1 else 0 }

  /** `tool_use` exactly when there are calls, else whether the token limit was hit. */
  function ReasonFor(shown: seq<Yield>, finish: FinishReason, tools: seq<K3Types.ToolCall>): Reason {
    if tools != [] then ToolUse else if shown != [] && finish.LengthReason? then MaxTokens else EndTurn
  }

  /** The loop over the text stream. */
  method StreamTexts(shown: seq<Yield>, start: seq<Sse>) returns (events: seq<Sse>, index: int, open: bool)
    requires Written(start, Between(0), "", SILENT)
    ensures Written(events, TextPhase(open), Visible(shown), SILENT) && open == Speaks(shown)
    ensures index == if open then 0 else -1
  {
    events, index, open := start, -1, false;
    assert shown[..0] == [];
    for i := 0 to |shown|
      invariant Written(events, TextPhase(open), Visible(shown[..i]), SILENT) && open == Speaks(shown[..i])
      invariant index == if open then 0 else -1
    {
      var y := shown[i];
      assert shown[..i + 1] == shown[..i] + [y];
      VisibleGrows(shown[..i], y);
      SpeaksGrows(shown[..i], y);
      if y.inReasoning || y.text == "" { continue; }
      events, index, open := ShowText(events, index, open, y.text, Visible(shown[..i]));
    }
    assert shown[..|shown|] == shown;
  }

  /** Inside the text block, or before any block. */
  function TextPhase(open: bool): Phase { if open then Inside(0, TextBlock) else Between(0) }

  /** One visible delta; the first one opens the text block. */
  method ShowText(start: seq<Sse>, from: int, wasOpen: bool, text: string, ghost before: string)
    returns (events: seq<Sse>, index: int, open: bool)
    requires Written(start, TextPhase(wasOpen), before, SILENT) && from == if wasOpen then 0 else -1
    ensures Written(events, TextPhase(true), before + text, SILENT) && open && index == 0
  {
    events, index, open := start, from, wasOpen;
    if !open {
      index, open := index + 1, true;
      Writes(events, Between(0), before, SILENT, BlockStart(index, TextBlock));
      events := events + [BlockStart(index, TextBlock)];
    }
    Writes(events, Inside(0, TextBlock), before, SILENT, TextDelta(index, text));
    events := events + [TextDelta(index, text)];
  }

  lemma {:induction false} VisibleGrows(shown: seq<Yield>, y: Yield)
    ensures Visible(shown + [y]) == Visible(shown) + (if y.inReasoning then "" else y.text)
  {
    if shown == [] {
      assert shown + [y] == [y] && [y][1..] == [];
    } else {
      assert (shown + [y])[1..] == shown[1..] + [y];
      VisibleGrows(shown[1..], y);
    }
  }

  lemma SpeaksGrows(shown: seq<Yield>, y: Yield)
    ensures Speaks(shown + [y]) == (Speaks(shown) || (!y.inReasoning && y.text != ""))
  {
    assert forall x :: x in shown + [y] <==> x in shown || x == y;
  }

  /** Close the text block; without text and tools, an empty one is made. */
  method CloseText(shown: seq<Yield>, start: seq<Sse>, from: int, wasOpen: bool, noTools: bool)
    returns (events: seq<Sse>, index: int)
    requires Written(start, TextPhase(wasOpen), Visible(shown), SILENT) && wasOpen == Speaks(shown)
    requires from == if wasOpen then 0 else -1
    ensures index == if Speaks(shown) || noTools then 0 else -1
    ensures Written(events, Between(index + 1), Visible(shown), SILENT)
  {
    events, index := start, from;
    var open := wasOpen;
    if !open && noTools {
      index, open := index + 1, true;
      Writes(events, Between(0), Visible(shown), SILENT, BlockStart(index, TextBlock));
      events := events + [BlockStart(index, TextBlock)];
    }
    if open {
      Writes(events, Inside(0, TextBlock), Visible(shown), SILENT, BlockStop(index));
      events := events + [BlockStop(index)];
    }
  }

  /** One block per call. */
  method WriteTools(start: seq<Sse>, calls: seq<K3Types.ToolCall>, from: int, ghost text: string) returns (events: seq<Sse>)
    requires from >= -1 && Written(start, Between(from + 1), text, SILENT)
    ensures events == start + AllTools(calls, from + 1)
    ensures Written(events, Between(from + 1 + |calls|), text, Client(None, calls, []))
  {
    events := start;
    var index := from;
    ghost var blocks := from + 1;
    assert calls[0..] == calls;
    for i := 0 to |calls|
      invariant index == from + i
      invariant start + AllTools(calls, blocks) == events + AllTools(calls[i..], index + 1)
    {
      assert calls[i..][0] == calls[i] && calls[i..][1..] == calls[i + 1..];
      index := index + 1;
      var more := ToolEvents(calls[i], index);
      assert events + (more + AllTools(calls[i + 1..], index + 1)) == events + more + AllTools(calls[i + 1..], index + 1);
      events := events + more;
    }
    assert calls[|calls|..] == [] && events + [] == events;
    ToolsRun(calls, blocks);
    RunOn(Fresh, start, AllTools(calls, blocks));
    TextsAppend(start, AllTools(calls, blocks));
    HeardOn(SILENT, start, AllTools(calls, blocks));
    ToolsHeard(calls, blocks, SILENT);
    assert text + "" == text && SILENT.calls + calls == calls;
  }
}
