/** The whole text of a generation in one shot, and the Kimi K3 vocabulary. */
module K3Full {
  import opened Patterns
  import opened XtmlText
  import A = XtmlAttributes
  import opened K3Parser
  import opened K3Chunks
  import opened K3Grammar
  import opened K3Printing
  import opened K3RoundTrip

  /** `None` stands for an empty channel. */
  datatype Parsed = Parsed(content: Option<string>, reasoning: Option<string>, calls: seq<ToolCall>)

  function OrNone(s: string): Option<string> { if s == "" then None else Some(s) }

  /** A whole generation: what the channels hold in the end. */
  datatype Message = Message(reasoning: string, response: string, calls: seq<ToolCall>)

  function OfMessage(m: Message): Parsed { Parsed(OrNone(m.response), OrNone(m.reasoning), m.calls) }

  function Join(a: Message, b: Message): Message {
    Message(a.reasoning + b.reasoning, a.response + b.response, a.calls + b.calls)
  }

  function OfDelta(d: Delta): Message {
    match d
    case Reasoning(t) => Message(t, "", [])
    case Content(t) => Message("", t, [])
    case Called(call) => Message("", "", [call])
  }

  /** The three joins of `parse_full`. */
  function Gather(deltas: seq<Delta>): Message {
    if deltas == [] then Message("", "", []) else Join(OfDelta(deltas[0]), Gather(deltas[1..]))
  }

  /** The think channel is taken to be open when its closer comes before any opener. */
  function OpenAtStart(g: Grammar, text: string): bool {
    match Find(text, g.thinkClose)
    case None => false
    case Some(close) =>
      match Earliest(text, [g.thinkOpen, g.responseOpen, g.toolsOpen])
      case None => close < |text|
      case Some(first) => close < first
  }

  /** `parse_full` */
  function ParseFull(g: Grammar, text: string): Parsed
    requires g.WellFormed()
  {
    OfMessage(Gather(Parse(g, OpenAtStart(g, text), [text])))
  }

  // What is gathered depends only on what is observed.

  function OfAtom(a: Atom): Message {
    match a
    case ReasoningChar(c) => Message([c], "", [])
    case ContentChar(c) => Message("", [c], [])
    case CallAtom(call) => Message("", "", [call])
  }

  function Collect(atoms: seq<Atom>): Message {
    if atoms == [] then Message("", "", []) else Join(OfAtom(atoms[0]), Collect(atoms[1..]))
  }

  lemma {:induction false} CollectAppends(a: seq<Atom>, b: seq<Atom>)
    ensures Collect(a + b) == Join(Collect(a), Collect(b))
  {
    if a == [] {
      assert a + b == b;
    } else {
      assert (a + b)[1..] == a[1..] + b;
      CollectAppends(a[1..], b);
      JoinAssociates(OfAtom(a[0]), Collect(a[1..]), Collect(b));
    }
  }

  lemma JoinAssociates(a: Message, b: Message, c: Message)
    ensures Join(a, Join(b, c)) == Join(Join(a, b), c)
  {
  }

  lemma {:induction false} CollectDelta(d: Delta)
    ensures Collect(Atoms(d)) == OfDelta(d)
    decreases if d.Called? then 0 else |d.text|
  {
    if d.Called? {
      assert Atoms(d)[1..] == [];
    } else if d.text != "" {
      CollectDelta(d.(text := d.text[1..]));
      AtomsFirst(d);
      JoinFirst(d);
    }
  }

  lemma AtomsFirst(d: Delta)
    requires !d.Called? && d.text != ""
    ensures Atoms(d) != [] && Atoms(d)[1..] == Atoms(d.(text := d.text[1..]))
  {
  }

  lemma JoinFirst(d: Delta)
    requires !d.Called? && d.text != ""
    ensures Join(OfAtom(Atoms(d)[0]), OfDelta(d.(text := d.text[1..]))) == OfDelta(d)
  {
    assert [d.text[0]] + d.text[1..] == d.text;
  }

  lemma {:induction false} CollectCalls(calls: seq<ToolCall>)
    ensures Collect(CallAtoms(calls)) == Message("", "", calls)
  {
    if calls != [] {
      assert CallAtoms(calls)[1..] == CallAtoms(calls[1..]);
      CollectCalls(calls[1..]);
    }
  }

  lemma {:induction false} GatherIsCollect(deltas: seq<Delta>)
    ensures Gather(deltas) == Collect(Observed(deltas))
  {
    if deltas != [] {
      GatherIsCollect(deltas[1..]);
      CollectDelta(deltas[0]);
      CollectAppends(Atoms(deltas[0]), Observed(deltas[1..]));
    }
  }

  // ---- printed transcripts ----

  function Summary(x: Piece): Message {
    match x
    case Thought(_, _, text, _) => Message(text, "", [])
    case Answer(_, _, text, _) => Message("", text, [])
    case Calls(_, calls, _, _) => Message("", "", CallsMeant(calls))
    case Stray(_, _) => Message("", "", [])
  }

  /** All thoughts, all answers and all calls of a transcript. */
  function Meaning(pieces: seq<Piece>): Message {
    if pieces == [] then Message("", "", []) else Join(Summary(pieces[0]), Meaning(pieces[1..]))
  }

  lemma {:induction false} ExpectedCollects(pieces: seq<Piece>)
    ensures Collect(Expected(pieces)) == Meaning(pieces)
  {
    if pieces != [] {
      ExpectedCollects(pieces[1..]);
      CollectAppends(Told(pieces[0]), Expected(pieces[1..]));
      match pieces[0]
      case Thought(_, _, text, _) => CollectDelta(Reasoning(text));
      case Answer(_, _, text, _) => CollectDelta(Content(text));
      case Calls(_, calls, _, _) => CollectCalls(CallsMeant(calls));
      case Stray(_, _) =>
    }
  }

  /** What is printed shows where it starts: the prefix-opened thought is closed first, or the
      text opens a channel first, or it never closes a thought. */
  ghost predicate Telling(g: Grammar, reasoningOpen: bool, d: Document) {
    if reasoningOpen then d.pieces != [] && d.pieces[0].Thought? && d.pieces[0].closed && d.pieces[0].redundant == 0
    else
      || (d.pieces != [] && (d.pieces[0].Thought? || d.pieces[0].Calls? || (d.pieces[0].Answer? && d.pieces[0].marked)))
      || !Contains(Print(g, false, d), [g.thinkClose])
  }

  lemma OpenedFirst(g: Grammar, gap: string, opener: string, text: string)
    requires Blank(gap) && StartsAngled(g.thinkClose) && opener in [g.thinkOpen, g.responseOpen, g.toolsOpen]
    ensures !OpenAtStart(g, gap + opener + text)
  {
    var whole, openers := gap + opener + text, [g.thinkOpen, g.responseOpen, g.toolsOpen];
    assert whole == gap + (opener + text);
    assert OccursAt(whole, |gap|, opener) && opener in openers;
    FirstAt(whole, openers, |gap|);
    var close := Find(whole, g.thinkClose);
    EarliestSpec(whole, [g.thinkClose], 0, close);
    if close.Some? { BehindGap(gap, opener + text, close.value, g.thinkClose); }
  }

  lemma FirstAt(text: string, pats: seq<string>, i: nat)
    requires i <= |text| && AnyAt(text, i, pats)
    ensures Earliest(text, pats).Some? && Earliest(text, pats).value <= i
  {
    EarliestSpec(text, pats, 0, Earliest(text, pats));
  }

  lemma ClosedFirst(g: Grammar, body: string, rest: string)
    requires Printable(g) && !Contains(body, ThinkMarkers(g, false))
    ensures OpenAtStart(g, body + g.thinkClose + rest)
  {
    var text, active := body + g.thinkClose + rest, Active(g, Initial(true));
    MarkersAre(g, Initial(true), InThink, false, body);
    ActiveSeparated(g, Initial(true));
    LocateAfterPlain(body, g.thinkClose, rest, active);
    OnlyMarkerSoFar(text, active, |body|, g.thinkClose);
    EarliestSpec(text, [g.thinkClose], 0, Some(|body|));
    Targets(g);
    var openers := [g.thinkOpen, g.responseOpen, g.toolsOpen];
    var first := Earliest(text, openers);
    EarliestSpec(text, openers, 0, first);
    if first.Some? {
      var s :| s in openers && OccursAt(text, first.value, s);
      assert s in active && s != g.thinkClose;
    }
  }

  /** Up to the located marker no other marker occurs. */
  lemma OnlyMarkerSoFar(text: string, pats: seq<string>, at: nat, marker: string)
    requires Separated(pats) && Locate(text, pats) == (at, Some(marker))
    ensures OccursAt(text, at, marker) && marker in pats && marker != ""
    ensures forall j, s | 0 <= j <= at && s in pats && OccursAt(text, j, s) :: j == at && s == marker
  {
    ScanSpec(text, pats);
    forall j, s | 0 <= j <= at && s in pats && OccursAt(text, j, s)
      ensures j == at && s == marker
    {
      assert AnyAt(text, j, pats);
      AnyAtIsCompatible(text, j, pats);
      SamePlace(text, at, pats, marker, s);
    }
  }

  lemma StartRecognised(g: Grammar, reasoningOpen: bool, d: Document)
    requires Printable(g) && CanPrint(g, reasoningOpen, d) && Telling(g, reasoningOpen, d)
    ensures OpenAtStart(g, Print(g, reasoningOpen, d)) == reasoningOpen
  {
    var text := Print(g, reasoningOpen, d);
    if reasoningOpen {
      var x, rest := d.pieces[0], PrintRest(g, d.pieces[1..], d.gap, d.ending);
      assert text == x.text + g.thinkClose + rest;
      ClosedFirst(g, x.text, rest);
    } else if !Contains(text, [g.thinkClose]) {
      EarliestSpec(text, [g.thinkClose], 0, None);
    } else {
      var x, rest := d.pieces[0], PrintRest(g, d.pieces[1..], d.gap, d.ending);
      var opener, tail := OpenerPrinted(g, x, rest);
      assert g.thinkClose in g.ChannelMarkers();
      OpenedFirst(g, x.gap, opener, tail);
    }
  }

  lemma OpenerPrinted(g: Grammar, x: Piece, rest: string) returns (opener: string, tail: string)
    requires x.Thought? || x.Calls? || (x.Answer? && x.marked)
    ensures opener in [g.thinkOpen, g.responseOpen, g.toolsOpen] && PrintPiece(g, x, rest) == x.gap + opener + tail
  {
    match x
    case Thought(_, _, _, _) => opener, tail := g.thinkOpen, PrintThought(g, x) + rest;
    case Answer(_, _, text, closed) => opener, tail := g.responseOpen, PrintText(text, closed, g.responseClose) + rest;
    case Calls(_, calls, _, _) => opener, tail := g.toolsOpen, PrintCalls(g, calls, PrintToolsEnd(g, x, rest));
  }

  /** `parse_full` returns all thoughts, answers and calls of a printed transcript, when it
      takes the thought to be open if and only if it was. */
  lemma FullRoundTrip(g: Grammar, reasoningOpen: bool, d: Document)
    requires Printable(g) && CanPrint(g, reasoningOpen, d) && OpenAtStart(g, Print(g, reasoningOpen, d)) == reasoningOpen
    ensures ParseFull(g, Print(g, reasoningOpen, d)) == OfMessage(Meaning(d.pieces))
  {
    var text := Print(g, reasoningOpen, d);
    assert Concat([text]) == text;
    RoundTrip(g, reasoningOpen, d, [text]);
    GatherIsCollect(Parse(g, reasoningOpen, [text]));
    ExpectedCollects(d.pieces);
  }

  // ---- Kimi K3 ----

  /** What is needed of the word characters of the attribute pattern. */
  predicate PlainWords(isWord: A.WordClass) {
    A.IsWordText(isWord, "tool") && A.IsWordText(isWord, "key") && A.IsWordText(isWord, "type") &&
    !isWord('=') && !isWord(' ')
  }

  function KimiGrammar(isWord: A.WordClass): Grammar { Kimi(s => A.Attrs(isWord, s)) }

  lemma KimiPrintable(isWord: A.WordClass)
    requires PlainWords(isWord)
    ensures Printable(KimiGrammar(isWord))
  {
    var g := KimiGrammar(isWord);
    KimiWellFormed(g.attrs);
    PlainAngles();
    MarkersOpen(g);
    KimiCodes(g);
    CodesDiffer(g);
    SepSeparated();
    forall v
      ensures g.attrs(A.Attribute("tool", v)) == map["tool" := v]
    {
      A.OneAttribute(isWord, "tool", v);
    }
    forall v
      ensures g.attrs(ArgumentAttributes(v, None)) == map["key" := v]
    {
      A.OneAttribute(isWord, "key", v);
      assert A.Attribute("key", v) + "" == A.Attribute("key", v);
    }
    forall v, w
      ensures g.attrs(ArgumentAttributes(v, Some(w))) == map["key" := v, "type" := w]
    {
      A.TwoAttributes(isWord, "key", v, "type", w);
      TwoPrinted(v, w);
    }
  }

  lemma TwoPrinted(v: string, w: string)
    ensures ArgumentAttributes(v, Some(w)) == A.Attribute("key", v) + " " + A.Attribute("type", w)
  {
  }

  lemma MarkersOpen(g: Grammar)
    requires g == Kimi(g.attrs)
    ensures Angled(g)
  {
    MarkerShapes();
    PlainAngles();
  }

  /** The third character and the two after the opening bracket tell the markers apart. */
  predicate Coded(marker: string, kind: char, first: char, second: char) {
    10 <= |marker| && marker[2] == kind && marker[8] == first && marker[9] == second
  }

  lemma KimiCodes(g: Grammar)
    requires g == Kimi(g.attrs)
    ensures Coded(g.thinkOpen, 'o', 't', 'h') && Coded(g.responseOpen, 'o', 'r', 'e') && Coded(g.toolsOpen, 'o', 't', 'o')
    ensures Coded(g.thinkClose, 'c', '>', 't') && Coded(g.responseClose, 'c', '>', 'r')
    ensures Coded(g.messageClose, 'c', '>', 'm')
    ensures g.open[2] == 'o' && g.close[2] == 'c' && g.endOfMessage[2] == 'e'
  {
  }

  lemma CodesDiffer(g: Grammar)
    requires Coded(g.thinkOpen, 'o', 't', 'h') && Coded(g.responseOpen, 'o', 'r', 'e') && Coded(g.toolsOpen, 'o', 't', 'o')
    requires Coded(g.thinkClose, 'c', '>', 't') && Coded(g.responseClose, 'c', '>', 'r')
    requires Coded(g.messageClose, 'c', '>', 'm') && |g.endOfMessage| > 2 && g.endOfMessage[2] == 'e'
    ensures AllDiffer(g.ChannelMarkers())
  {
  }

  /** The round trip for the Kimi K3 vocabulary, streamed and in one shot. */
  lemma KimiRoundTrip(isWord: A.WordClass, reasoningOpen: bool, d: Document, chunks: seq<string>)
    requires PlainWords(isWord) && CanPrint(KimiGrammar(isWord), reasoningOpen, d)
    requires Concat(chunks) == Print(KimiGrammar(isWord), reasoningOpen, d)
    ensures Printable(KimiGrammar(isWord)) && MESSAGE_CLOSE == Tag(KimiGrammar(isWord), CLOSE, "message")
    ensures Observed(Parse(KimiGrammar(isWord), reasoningOpen, chunks)) == Expected(d.pieces)
    ensures Telling(KimiGrammar(isWord), reasoningOpen, d) ==>
              ParseFull(KimiGrammar(isWord), Concat(chunks)) == OfMessage(Meaning(d.pieces))
  {
    var g := KimiGrammar(isWord);
    KimiPrintable(isWord);
    RoundTrip(g, reasoningOpen, d, chunks);
    if Telling(g, reasoningOpen, d) {
      StartRecognised(g, reasoningOpen, d);
      FullRoundTrip(g, reasoningOpen, d);
    }
  }
}
