/** Transcripts of any channels in any order, printed as XTML and parsed back, however they are
    cut, and however they end. */
module K3RoundTrip {
  import opened Patterns
  import opened XtmlText
  import opened K3Parser
  import opened K3Chunks
  import opened K3Corner
  import opened K3Printing
  import Loop = StreamLoop

  /** A stretch of a transcript. `gap` is white space in front of it. A thought may start with
      redundant openers; an answer without its opener is plain text; what is not closed is ended
      by what follows. A stray closer closes nothing. */
  datatype Piece =
    | Thought(gap: string, redundant: nat, text: string, closed: bool)
    | Answer(gap: string, marked: bool, text: string, closed: bool)
    | Calls(gap: string, calls: seq<PrintedCall>, end: Gap, closed: bool)
    | Stray(gap: string, answer: bool)

  /** The message is closed, or marked as ended, and what comes after that is not read; or the
      input just ends, in an argument perhaps. */
  datatype Ending =
    | MessageEnds(after: string)
    | MessageMark(after: string)
    | InputEnds
    | ArgumentCut(argument: PrintedArgument)

  datatype Document = Document(pieces: seq<Piece>, gap: string, ending: Ending)

  // ---- on paper ----

  function Repeated(marker: string, n: nat): string { if n == 0 then "" else marker + Repeated(marker, n - 1) }

  function PrintText(text: string, closed: bool, closer: string): string { text + (if closed then closer else "") }

  /** A thought whose channel is open already. */
  function PrintThought(g: Grammar, x: Piece): string
    requires x.Thought?
  {
    Repeated(g.thinkOpen, x.redundant) + PrintText(x.text, x.closed, g.thinkClose)
  }

  /** A piece and what follows it. */
  function PrintPiece(g: Grammar, x: Piece, rest: string): string {
    match x
    case Thought(gap, _, _, _) => gap + g.thinkOpen + (PrintThought(g, x) + rest)
    case Answer(gap, marked, text, closed) =>
      (if marked then gap + g.responseOpen else "") + (PrintText(text, closed, g.responseClose) + rest)
    case Calls(gap, calls, _, _) => gap + g.toolsOpen + PrintCalls(g, calls, PrintToolsEnd(g, x, rest))
    case Stray(gap, answer) => gap + (if answer then g.responseClose else g.thinkClose) + rest
  }

  function PrintToolsEnd(g: Grammar, x: Piece, rest: string): string
    requires x.Calls?
  {
    if x.closed then PrintGap(g, x.end, Tag(g, g.close, "tools") + rest) else rest
  }

  function PrintEnding(g: Grammar, gap: string, e: Ending): string {
    match e
    case MessageEnds(after) => gap + g.messageClose + after
    case MessageMark(after) => gap + g.endOfMessage + after
    case InputEnds => gap
    case ArgumentCut(a) => gap + PrintGap(g, a.gap, Tag(g, g.open, ArgumentHeader(a.key, a.kind)) + a.raw)
  }

  function PrintRest(g: Grammar, pieces: seq<Piece>, gap: string, e: Ending): string {
    if pieces == [] then PrintEnding(g, gap, e) else PrintPiece(g, pieces[0], PrintRest(g, pieces[1..], gap, e))
  }

  /** With `reasoningOpen` the generation prefix has opened the first thought. */
  function Print(g: Grammar, reasoningOpen: bool, d: Document): string {
    if reasoningOpen && d.pieces != [] && d.pieces[0].Thought? then
      PrintThought(g, d.pieces[0]) + PrintRest(g, d.pieces[1..], d.gap, d.ending)
    else PrintRest(g, d.pieces, d.gap, d.ending)
  }

  // ---- what it means ----

  function Told(x: Piece): seq<Atom> {
    match x
    case Thought(_, _, text, _) => Atoms(Reasoning(text))
    case Answer(_, _, text, _) => Atoms(Content(text))
    case Calls(_, calls, _, _) => CallAtoms(CallsMeant(calls))
    case Stray(_, _) => []
  }

  function Expected(pieces: seq<Piece>): seq<Atom> {
    if pieces == [] then [] else Told(pieces[0]) + Expected(pieces[1..])
  }

  // ---- what can be printed ----

  /** Where the text in front of a piece has left the parser. */
  datatype Channel = Out | InThink | InAnswer | InCalls | InCall

  function ChannelAfter(x: Piece): Channel {
    match x
    case Thought(_, _, _, closed) => if closed then Out else InThink
    case Answer(_, _, _, closed) => if closed then Out else InAnswer
    case Calls(_, calls, _, closed) => if closed then Out else if EndsOpen(calls) then InCall else InCalls
    case Stray(_, _) => Out
  }

  /** The markers that end a thought, and, before anything has been said in one, its opener. */
  function ThinkMarkers(g: Grammar, said: bool): seq<string> {
    [g.messageClose, g.endOfMessage, g.toolsOpen, g.thinkClose, g.responseOpen] + (if said then [] else [g.thinkOpen])
  }

  /** The markers that end an answer. */
  function AnswerMarkers(g: Grammar): seq<string> { [g.messageClose, g.endOfMessage, g.toolsOpen, g.responseClose] }

  predicate Contained(c: Channel) { c == InCalls || c == InCall }

  /** White space belongs to an open channel, so that there is none in front of what ends it. */
  predicate GapFits(c: Channel, gap: string) { Blank(gap) && (c != Out ==> gap == "") }

  /** Plain text: no marker stands in it with nothing but white space before. */
  ghost predicate PlainStart(text: string, markers: seq<string>) {
    !Blank(text) && forall i | 0 <= i <= |text| && AnyAt(text, i, markers) :: !Blank(text[..i])
  }

  ghost predicate CanFollow(g: Grammar, c: Channel, said: bool, x: Piece) {
    match x
    case Thought(gap, redundant, text, _) =>
      c == Out && Blank(gap) && (redundant > 0 ==> !said) && !Contains(text, ThinkMarkers(g, said))
    case Answer(gap, marked, text, _) =>
      && !Contains(text, AnswerMarkers(g))
      && if marked then (c == Out || c == InThink) && GapFits(c, gap) else c == Out && PlainStart(text, g.ChannelMarkers())
    case Calls(gap, calls, end, _) =>
      && !Contained(c) && GapFits(c, gap) && CanPrintGap(g, end) && forall call | call in calls :: CanPrintCall(g, call)
    case Stray(gap, _) => c == Out && Blank(gap)
  }

  predicate SaysMore(said: bool, x: Piece) { said || (x.Thought? && x.text != "") }

  ghost predicate CanPrintRest(g: Grammar, c: Channel, said: bool, pieces: seq<Piece>)
    decreases |pieces|
  {
    pieces == [] ||
    (CanFollow(g, c, said, pieces[0]) && CanPrintRest(g, ChannelAfter(pieces[0]), SaysMore(said, pieces[0]), pieces[1..]))
  }

  function LastChannel(c: Channel, pieces: seq<Piece>): Channel {
    if pieces == [] then c else ChannelAfter(pieces[|pieces| - 1])
  }

  /** A text that the end of the input cuts off does not end in the first two characters of a
      marker, or more of it. */
  ghost predicate Settled(g: Grammar, text: string) {
    forall i, s | 0 <= i <= |text| - 2 && s in g.ChannelMarkers() :: !(text[i..] < s)
  }

  /** The text of a piece that is left open. */
  function LeftOpen(x: Piece): string { if (x.Thought? || x.Answer?) && !x.closed then x.text else "" }

  function LastLeftOpen(left: string, pieces: seq<Piece>): string {
    if pieces == [] then left else LeftOpen(pieces[|pieces| - 1])
  }

  /** In an open container the end of the message is read as an element, and text in front of it is
      passed over; in an open call an argument may be cut off. */
  ghost predicate EndFits(g: Grammar, c: Channel, left: string, gap: string, e: Ending) {
    && (if Contained(c) then !Contains(gap, g.ContainerMarkers()) else GapFits(c, gap))
    && (e.InputEnds? ==> Settled(g, left))
    && (e.MessageEnds? && Contained(c) ==> g.messageClose == Tag(g, g.close, "message"))
    && (e.ArgumentCut? ==> c == InCall && gap == "" && CanPrintArgument(g, e.argument))
  }

  ghost predicate CanEnd(g: Grammar, c: Channel, left: string, pieces: seq<Piece>, gap: string, e: Ending) {
    EndFits(g, LastChannel(c, pieces), LastLeftOpen(left, pieces), gap, e)
  }

  ghost predicate CanPrint(g: Grammar, reasoningOpen: bool, d: Document) {
    && (reasoningOpen ==> d.pieces != [] && d.pieces[0].Thought? && d.pieces[0].gap == "")
    && CanPrintRest(g, Out, false, d.pieces) && CanEnd(g, Out, "", d.pieces, d.gap, d.ending)
  }

  /** A channel body and the marker that ends it. */
  lemma ChannelRead(m: Machine, g: Grammar, p: Parser, body: string, marker: string, rest: string)
    requires g.WellFormed() && Models(m, g) && InChannel(p.state) && p.pending == body + marker + rest
    requires marker in Active(g, p) && !Contains(body, Active(g, p))
    requires (Outside(p.state) ==> Blank(body)) && (p.state.Think? && marker == g.thinkOpen ==> body == "")
    ensures Loop.Leads(m, p, Observed(Say(p, body).1), Say(p, body).0.(pending := rest, state := Target(g, marker)))
  {
    ActiveSeparated(g, p);
    LocateAfterPlain(body, marker, rest, Active(g, p));
    ChannelIs(g, p, |body|, Some(marker));
    assert p.pending[..|body|] == body && p.pending[|body| + |marker|..] == rest;
    MeetsLeads(m, g, p, Observed(Say(p, body).1), Say(p, body).0.(pending := rest, state := Target(g, marker)));
  }

  lemma SaidReasoning(p: Parser, body: string)
    requires p.state.Think?
    ensures Observed(Say(p, body).1) == Atoms(Reasoning(body))
  {
    if body != "" { assert Observed([Reasoning(body)]) == Atoms(Reasoning(body)) + Observed([]); }
  }

  lemma SaidContent(p: Parser, body: string)
    requires p.state.Response?
    ensures Observed(Say(p, body).1) == Atoms(Content(body)) && Say(p, body).0 == p
  {
    if body != "" { assert Observed([Content(body)]) == Atoms(Content(body)) + Observed([]); }
  }

  lemma GapIsPlain(gap: string, pats: seq<string>)
    requires Blank(gap) && forall s | s in pats :: StartsAngled(s)
    ensures !Contains(gap, pats)
  {
    forall i: nat, s | s in pats
      ensures !OccursAt(gap, i, s)
    {
      BehindGap(gap, "", i, s);
      assert gap + "" == gap;
    }
  }

  lemma BehindGap(gap: string, rest: string, i: nat, s: string)
    requires Blank(gap) && StartsAngled(s)
    ensures OccursAt(gap + rest, i, s) ==> |gap| <= i
  {
    assert !IsSpace('<');
    if i < |gap| && i + |s| <= |gap + rest| { assert (gap + rest)[i..i + |s|][0] == gap[i]; }
  }

  // ---- markers ----

  ghost predicate At(p: Parser, c: Channel, said: bool) {
    && p.emitted == said
    && match c
       case Out => Outside(p.state)
       case InThink => p.state.Think?
       case InAnswer => p.state.Response?
       case InCalls => p.state.Tools?
       case InCall => p.state.Call?
  }

  function MarkersIn(g: Grammar, c: Channel, said: bool): seq<string> {
    match c
    case InThink => ThinkMarkers(g, said)
    case InAnswer => AnswerMarkers(g)
    case _ => g.ChannelMarkers()
  }

  lemma MarkersAre(g: Grammar, p: Parser, c: Channel, said: bool, text: string)
    requires At(p, c, said) && !Contained(c)
    ensures forall s :: s in MarkersIn(g, c, said) <==> s in Active(g, p)
    ensures Contains(text, MarkersIn(g, c, said)) <==> Contains(text, Active(g, p))
  {
    SameMarkers(text, MarkersIn(g, c, said), Active(g, p));
  }

  lemma SameMarkers(text: string, a: seq<string>, b: seq<string>)
    requires forall s :: s in a <==> s in b
    ensures Contains(text, a) <==> Contains(text, b)
  {
    assert forall i | 0 <= i <= |text| :: AnyAt(text, i, a) <==> AnyAt(text, i, b);
  }

  /** Which marker leads where. */
  lemma Targets(g: Grammar)
    requires Printable(g)
    ensures Target(g, g.thinkOpen).Think? && Target(g, g.responseOpen).Response? && Target(g, g.toolsOpen).Tools?
    ensures Target(g, g.thinkClose).Between? && Target(g, g.responseClose).Between?
    ensures Target(g, g.messageClose).Done? && Target(g, g.endOfMessage).Done?
  {
    var ms := g.ChannelMarkers();
    assert ms[0] == g.messageClose && ms[1] == g.endOfMessage && ms[2] == g.toolsOpen && ms[3] == g.thinkClose;
    assert ms[4] == g.responseOpen && ms[5] == g.responseClose && ms[6] == g.thinkOpen;
  }

  /** What a stretch of text in a channel shows. */
  function Span(c: Channel, text: string): seq<Atom> {
    match c
    case InThink => Atoms(Reasoning(text))
    case InAnswer => Atoms(Content(text))
    case _ => []
  }

  ghost predicate FitsIn(g: Grammar, c: Channel, said: bool, text: string) {
    match c
    case Out => Blank(text)
    case InCalls => text == ""
    case InCall => text == ""
    case _ => !Contains(text, MarkersIn(g, c, said))
  }

  /** A stretch of text and the marker that ends it. */
  lemma Enter(m: Machine, g: Grammar, p: Parser, c: Channel, said: bool, text: string, marker: string, rest: string)
    returns (q: Parser)
    requires Printable(g) && Models(m, g) && !Contained(c) && At(p, c, said) && FitsIn(g, c, said, text)
    requires p.pending == text + marker + rest && marker in MarkersIn(g, c, said)
    requires c == InThink && marker == g.thinkOpen ==> text == ""
    ensures Loop.Leads(m, p, Span(c, text), q) && q.pending == rest && q.state == Target(g, marker)
    ensures q.emitted == (said || (c == InThink && text != ""))
  {
    MarkersAre(g, p, c, said, text);
    if c == Out { GapIsPlain(text, Active(g, p)); }
    ChannelRead(m, g, p, text, marker, rest);
    if c == InThink { SaidReasoning(p, text); }
    if c == InAnswer { SaidContent(p, text); }
    q := Say(p, text).0.(pending := rest, state := Target(g, marker));
  }

  lemma {:induction false} RedundantRead(m: Machine, g: Grammar, p: Parser, n: nat, rest: string) returns (q: Parser)
    requires Printable(g) && Models(m, g) && At(p, InThink, false) && p.pending == Repeated(g.thinkOpen, n) + rest
    ensures Loop.Leads(m, p, [], q) && At(q, InThink, false) && q.pending == rest
    decreases n
  {
    if n == 0 {
      q := p;
    } else {
      Targets(g);
      assert p.pending == "" + g.thinkOpen + (Repeated(g.thinkOpen, n - 1) + rest);
      NothingIn(g);
      var a := Enter(m, g, p, InThink, false, "", g.thinkOpen, Repeated(g.thinkOpen, n - 1) + rest);
      q := RedundantRead(m, g, a, n - 1, rest);
      Loop.LeadsThen(m, p, [], a, [], q);
    }
  }

  lemma NothingIn(g: Grammar)
    requires g.WellFormed()
    ensures !Contains("", ThinkMarkers(g, false))
  {
    forall s | s in ThinkMarkers(g, false)
      ensures s != ""
    {
      assert s in g.ChannelMarkers();
    }
  }

  /** Text in a channel, with its closer or without: then it is carried on. */
  lemma TextRead(m: Machine, g: Grammar, p: Parser, c: Channel, said: bool, text: string, closed: bool, rest: string)
    returns (q: Parser, carried: string)
    requires Printable(g) && Models(m, g) && (c == InThink || c == InAnswer) && At(p, c, said) && FitsIn(g, c, said, text)
    requires p.pending == PrintText(text, closed, if c == InThink then g.thinkClose else g.responseClose) + rest
    ensures closed ==> carried == "" && Loop.Leads(m, p, Span(c, text), q) && q.pending == rest
                       && At(q, Out, said || (c == InThink && text != ""))
    ensures !closed ==> carried == text && q == p && q.pending == text + rest
  {
    q, carried := p, text;
    if closed {
      Targets(g);
      var closer := if c == InThink then g.thinkClose else g.responseClose;
      q := Enter(m, g, p, c, said, text, closer, rest);
      carried := "";
    } else {
      assert text + "" + rest == text + rest;
    }
  }

  // ---- one piece after the other ----

  /** How far a transcript has been read: the channel, and text in it that has not been yet. */
  datatype Place = Place(parser: Parser, channel: Channel, said: bool, carried: string, plain: bool)

  /** `plain` marks text without an opener that the end of the input cuts off. */
  ghost predicate Stands(g: Grammar, x: Place, rest: string) {
    && x.parser.pending == x.carried + rest && FitsIn(g, x.channel, x.said, x.carried)
    && (x.channel == Out ==> x.carried == "")
    && if x.plain then
         At(x.parser, Out, x.said) && x.channel == InAnswer && rest == "" && PlainStart(x.carried, g.ChannelMarkers())
       else At(x.parser, x.channel, x.said)
  }

  predicate Spoken(x: Place) { x.said || (x.channel == InThink && x.carried != "") }

  /** `y` is where the piece `x` leads. */
  predicate Follows(y: Place, x: Piece, said: bool) {
    y.channel == ChannelAfter(x) && y.carried == LeftOpen(x) && Spoken(y) == SaysMore(said, x)
  }

  /** From one place to another, with what is shown on the way and what is still to come. */
  ghost predicate Gets(m: Machine, x: Place, y: Place, told: seq<Atom>)
    requires m.Shrinks()
  {
    exists out :: Loop.Leads(m, x.parser, out, y.parser)
               && out + Span(y.channel, y.carried) == Span(x.channel, x.carried) + told
  }

  lemma GetsBy(m: Machine, x: Place, y: Place, told: seq<Atom>, out: seq<Atom>)
    requires m.Shrinks() && Loop.Leads(m, x.parser, out, y.parser)
    requires out + Span(y.channel, y.carried) == Span(x.channel, x.carried) + told
    ensures Gets(m, x, y, told)
  {
  }

  lemma GetsThen(m: Machine, x: Place, y: Place, z: Place, a: seq<Atom>, b: seq<Atom>)
    requires m.Shrinks() && Gets(m, x, y, a) && Gets(m, y, z, b)
    ensures Gets(m, x, z, a + b)
  {
    var o :| Loop.Leads(m, x.parser, o, y.parser) && o + Span(y.channel, y.carried) == Span(x.channel, x.carried) + a;
    var u :| Loop.Leads(m, y.parser, u, z.parser) && u + Span(z.channel, z.carried) == Span(y.channel, y.carried) + b;
    Loop.LeadsThen(m, x.parser, o, y.parser, u, z.parser);
    Regrouped(o, u, Span(z.channel, z.carried), Span(y.channel, y.carried), b, Span(x.channel, x.carried), a);
    GetsBy(m, x, z, a + b, o + u);
  }

  lemma Regrouped(o: seq<Atom>, u: seq<Atom>, z: seq<Atom>, y: seq<Atom>, b: seq<Atom>, x: seq<Atom>, a: seq<Atom>)
    requires u + z == y + b && o + y == x + a
    ensures o + u + z == x + (a + b)
  {
    assert o + u + z == o + (u + z) == o + y + b == x + a + b;
  }

  /** Reading the marker that opens a channel, behind the text of the one before. */
  lemma OpensChannel(m: Machine, g: Grammar, x: Place, gap: string, marker: string, rest: string) returns (q: Parser)
    requires Printable(g) && Models(m, g) && !Contained(x.channel) && !x.plain && Stands(g, x, gap + marker + rest)
    requires GapFits(x.channel, gap) && marker in MarkersIn(g, x.channel, x.said)
    requires x.channel == InThink ==> marker != g.thinkOpen
    ensures Loop.Leads(m, x.parser, Span(x.channel, x.carried), q) && q.pending == rest && q.state == Target(g, marker)
    ensures q.emitted == (x.said || (x.channel == InThink && x.carried != ""))
  {
    var text := x.carried + gap;
    assert x.parser.pending == text + marker + rest;
    if x.channel != Out { assert text == x.carried; } else { assert text == gap; }
    q := Enter(m, g, x.parser, x.channel, x.said, text, marker, rest);
  }

  lemma ThoughtRead(m: Machine, g: Grammar, p: Parser, x: Piece, said: bool, rest: string) returns (y: Place)
    requires Printable(g) && Models(m, g) && x.Thought? && At(p, InThink, said) && CanFollow(g, Out, said, x)
    requires p.pending == PrintThought(g, x) + rest
    ensures Stands(g, y, rest) && Follows(y, x, said) && !y.plain
    ensures exists out :: Loop.Leads(m, p, out, y.parser) && out + Span(y.channel, y.carried) == Told(x)
  {
    var body := PrintText(x.text, x.closed, g.thinkClose) + rest;
    assert p.pending == Repeated(g.thinkOpen, x.redundant) + body;
    var a := p;
    if x.redundant > 0 { a := RedundantRead(m, g, p, x.redundant, body); } else { assert "" + body == body; }
    var q, carried := TextRead(m, g, a, InThink, said, x.text, x.closed, rest);
    y := Place(q, ChannelAfter(x), if x.closed then SaysMore(said, x) else said, carried, false);
    if x.closed {
      Loop.LeadsThen(m, p, [], a, Told(x), q);
      assert [] + Told(x) + [] == Told(x);
    }
    var out := if x.closed then [] + Told(x) else [];
    assert Loop.Leads(m, p, out, y.parser) && out + Span(y.channel, y.carried) == Told(x);
  }

  // ---- pieces ----

  /** A marker, and then what leads to the next place. */
  lemma GetsOpen(m: Machine, x: Place, q: Parser, out: seq<Atom>, y: Place, told: seq<Atom>)
    requires m.Shrinks() && Loop.Leads(m, x.parser, Span(x.channel, x.carried), q) && Loop.Leads(m, q, out, y.parser)
    requires out + Span(y.channel, y.carried) == told
    ensures Gets(m, x, y, told)
  {
    var before := Span(x.channel, x.carried);
    Loop.LeadsThen(m, x.parser, before, q, out, y.parser);
    assert before + out + Span(y.channel, y.carried) == before + told;
    GetsBy(m, x, y, told, before + out);
  }

  lemma ThoughtPiece(m: Machine, g: Grammar, x: Place, piece: Piece, rest: string) returns (y: Place)
    requires Printable(g) && Models(m, g) && !x.plain && piece.Thought? && CanFollow(g, x.channel, Spoken(x), piece)
    requires Stands(g, x, PrintPiece(g, piece, rest))
    ensures Stands(g, y, rest) && Follows(y, piece, Spoken(x)) && !y.plain && Gets(m, x, y, Told(piece))
  {
    Targets(g);
    assert PrintPiece(g, piece, rest) == piece.gap + g.thinkOpen + (PrintThought(g, piece) + rest);
    var q := OpensChannel(m, g, x, piece.gap, g.thinkOpen, PrintThought(g, piece) + rest);
    y := ThoughtRead(m, g, q, piece, x.said, rest);
    var out :| Loop.Leads(m, q, out, y.parser) && out + Span(y.channel, y.carried) == Told(piece);
    GetsOpen(m, x, q, out, y, Told(piece));
  }

  lemma AnswerPiece(m: Machine, g: Grammar, x: Place, piece: Piece, rest: string) returns (y: Place)
    requires Printable(g) && Models(m, g) && !x.plain && piece.Answer? && piece.marked
    requires CanFollow(g, x.channel, Spoken(x), piece) && Stands(g, x, PrintPiece(g, piece, rest))
    ensures Stands(g, y, rest) && Follows(y, piece, Spoken(x)) && !y.plain && Gets(m, x, y, Told(piece))
  {
    Targets(g);
    var body := PrintText(piece.text, piece.closed, g.responseClose) + rest;
    assert PrintPiece(g, piece, rest) == piece.gap + g.responseOpen + body;
    var q := OpensChannel(m, g, x, piece.gap, g.responseOpen, body);
    var s, carried := TextRead(m, g, q, InAnswer, q.emitted, piece.text, piece.closed, rest);
    y := Place(s, ChannelAfter(piece), q.emitted, carried, false);
    AnswerTold(m, x, q, piece, y);
  }

  lemma AnswerTold(m: Machine, x: Place, q: Parser, piece: Piece, y: Place)
    requires m.Shrinks() && Loop.Leads(m, x.parser, Span(x.channel, x.carried), q) && piece.Answer?
    requires y.channel == ChannelAfter(piece) && y.carried == LeftOpen(piece)
    requires if piece.closed then Loop.Leads(m, q, Told(piece), y.parser) else y.parser == q
    ensures Gets(m, x, y, Told(piece))
  {
    var out := if piece.closed then Told(piece) else [];
    assert out + Span(y.channel, y.carried) == Told(piece);
    GetsOpen(m, x, q, out, y, Told(piece));
  }

  lemma CallsPiece(m: Machine, g: Grammar, x: Place, piece: Piece, rest: string) returns (y: Place)
    requires Printable(g) && Models(m, g) && !x.plain && piece.Calls? && CanFollow(g, x.channel, Spoken(x), piece)
    requires Stands(g, x, PrintPiece(g, piece, rest))
    ensures Stands(g, y, rest) && Follows(y, piece, Spoken(x)) && !y.plain && Gets(m, x, y, Told(piece))
  {
    Targets(g);
    var body := PrintCalls(g, piece.calls, PrintToolsEnd(g, piece, rest));
    var q := OpensChannel(m, g, x, piece.gap, g.toolsOpen, body);
    y := CallsEnd(m, g, q, piece, rest);
    assert Told(piece) + [] == Told(piece);
    GetsOpen(m, x, q, Told(piece), y, Told(piece));
  }

  lemma CallsEnd(m: Machine, g: Grammar, q: Parser, piece: Piece, rest: string) returns (y: Place)
    requires Printable(g) && Models(m, g) && piece.Calls? && q.state.Tools? && CanPrintGap(g, piece.end)
    requires forall call | call in piece.calls :: CanPrintCall(g, call)
    requires q.pending == PrintCalls(g, piece.calls, PrintToolsEnd(g, piece, rest))
    ensures Stands(g, y, rest) && y.channel == ChannelAfter(piece) && y.carried == "" && y.said == q.emitted && !y.plain
    ensures Loop.Leads(m, q, Told(piece), y.parser)
  {
    var s := CallsRead(m, g, q, piece.calls, PrintToolsEnd(g, piece, rest));
    var t := s;
    if piece.closed {
      t := ToolsClosed(m, g, s, piece.end, rest);
      Loop.LeadsThen(m, q, Told(piece), s, [], t);
      assert Told(piece) + [] == Told(piece);
    }
    y := Place(t, ChannelAfter(piece), q.emitted, "", false);
    assert "" + rest == rest;
  }

  lemma ToolsClosed(m: Machine, g: Grammar, p: Parser, end: Gap, rest: string) returns (q: Parser)
    requires Printable(g) && Models(m, g) && InContainer(p.state) && CanPrintGap(g, end)
    requires p.pending == PrintGap(g, end, Tag(g, g.close, "tools") + rest)
    ensures Loop.Leads(m, p, [], q) && At(q, Out, p.emitted) && q.pending == rest
  {
    var there := TagRead(m, g, p, end, g.close, "tools", rest);
    ToolsElement(g, there);
    NameIsPlain(g, "tools");
    ElementRead(m, g, there, g.close, "tools", rest);
    q := p.(state := Between, callName := "", arguments := [], pending := rest);
    Loop.LeadsThen(m, p, [], there, [], q);
  }

  lemma ToolsElement(g: Grammar, p: Parser)
    requires Printable(g) && InContainer(p.state)
    ensures Element(g, p, g.close, "tools") == (p.(state := Between, callName := "", arguments := []), [])
  {
    SplitBare("tools");
    assert |"tools"| == 5 && |"call"| == 4 && |"argument"| == 8;
  }

  lemma StrayPiece(m: Machine, g: Grammar, x: Place, piece: Piece, rest: string) returns (y: Place)
    requires Printable(g) && Models(m, g) && !x.plain && piece.Stray? && CanFollow(g, x.channel, Spoken(x), piece)
    requires Stands(g, x, PrintPiece(g, piece, rest))
    ensures Stands(g, y, rest) && Follows(y, piece, Spoken(x)) && !y.plain && Gets(m, x, y, Told(piece))
  {
    Targets(g);
    var closer := if piece.answer then g.responseClose else g.thinkClose;
    assert PrintPiece(g, piece, rest) == piece.gap + closer + rest;
    var q := OpensChannel(m, g, x, piece.gap, closer, rest);
    y := Place(q, Out, q.emitted, "", false);
    assert "" + rest == rest;
    GetsOpen(m, x, q, [], y, Told(piece));
  }

  /** What can come after open plain text: a marker, or the end of the input. */
  ghost predicate Bounded(g: Grammar, rest: string) {
    rest == "" || exists marker, tail :: marker in g.ChannelMarkers() && rest == marker + tail
  }

  /** Plain text before a marker opens the answer. */
  lemma PlainLocated(text: string, marker: string, tail: string, pats: seq<string>)
    requires Separated(pats) && PlainStart(text, pats) && marker in pats
    ensures !Blank((text + (marker + tail))[..Locate(text + (marker + tail), pats).0])
  {
    var whole := text + (marker + tail);
    var e := Locate(whole, pats).0;
    ScanSpec(whole, pats);
    assert OccursAt(whole, |text|, marker) && AnyAt(whole, |text|, pats) by { assert whole[|text|..|text| + |marker|] == marker; }
    AnyAtIsCompatible(whole, |text|, pats);
    if e < |text| {
      assert whole[..e] == text[..e];
      var s :| s in pats && Compatible(whole, e, s);
      if e + |s| <= |text| {
        OccursExtends(text, marker + tail, e, s);
        assert AnyAt(text, e, pats);
      } else {
        NothingInside(whole, e, |text|, pats, s, marker);
      }
    } else {
      LongerNotBlank(text, whole[..e]);
    }
  }

  lemma OutsideMarkers(g: Grammar, p: Parser, text: string)
    requires Outside(p.state)
    ensures forall s :: s in Active(g, p) <==> s in g.ChannelMarkers()
    ensures PlainStart(text, Active(g, p)) == PlainStart(text, g.ChannelMarkers())
  {
    var a, b := Active(g, p), g.ChannelMarkers();
    assert forall i | 0 <= i <= |text| :: AnyAt(text, i, a) == AnyAt(text, i, b);
  }

  lemma LongerNotBlank(text: string, more: string)
    requires !Blank(text) && text <= more
    ensures !Blank(more)
  {
  }

  lemma PlainOpens(m: Machine, g: Grammar, p: Parser, text: string, marker: string, tail: string) returns (q: Parser)
    requires Printable(g) && Models(m, g) && Outside(p.state) && p.pending == text + (marker + tail)
    requires PlainStart(text, g.ChannelMarkers()) && marker in g.ChannelMarkers()
    ensures Loop.Leads(m, p, [], q) && At(q, InAnswer, p.emitted) && q.pending == p.pending
  {
    OutsideMarkers(g, p, text);
    ActiveSeparated(g, p);
    PlainLocated(text, marker, tail, Active(g, p));
    OutsideIsResponse(m, g, p);
    q := p.(state := Response);
  }

  lemma PlainPiece(m: Machine, g: Grammar, x: Place, piece: Piece, rest: string) returns (y: Place)
    requires Printable(g) && Models(m, g) && !x.plain && piece.Answer? && !piece.marked
    requires CanFollow(g, x.channel, Spoken(x), piece) && Stands(g, x, PrintPiece(g, piece, rest))
    requires !piece.closed ==> Bounded(g, rest)
    ensures Stands(g, y, rest) && Follows(y, piece, Spoken(x)) && (y.plain ==> !piece.closed && rest == "")
    ensures Gets(m, x, y, Told(piece))
  {
    var p, body := x.parser, PrintText(piece.text, piece.closed, g.responseClose);
    assert "" + (body + rest) == body + rest && p.pending == body + rest;
    if !piece.closed && rest == "" {
      y := PlainLeft(m, g, x, piece);
    } else {
      var marker, tail := PlainBound(g, piece, rest);
      var q := PlainOpens(m, g, p, piece.text, marker, tail);
      var s, carried := TextRead(m, g, q, InAnswer, x.said, piece.text, piece.closed, rest);
      y := Place(s, ChannelAfter(piece), x.said, carried, false);
      AnswerTold(m, x, q, piece, y);
    }
  }

  /** The input ends in the plain text. */
  lemma PlainLeft(m: Machine, g: Grammar, x: Place, piece: Piece) returns (y: Place)
    requires Printable(g) && Models(m, g) && !x.plain && piece.Answer? && !piece.marked && !piece.closed
    requires CanFollow(g, x.channel, Spoken(x), piece) && Stands(g, x, PrintPiece(g, piece, ""))
    ensures Stands(g, y, "") && Follows(y, piece, Spoken(x)) && Gets(m, x, y, Told(piece))
  {
    assert "" + (piece.text + "" + "") == piece.text == piece.text + "";
    y := Place(x.parser, InAnswer, x.said, piece.text, true);
    GetsBy(m, x, y, Told(piece), []);
  }

  lemma PlainBound(g: Grammar, piece: Piece, rest: string) returns (marker: string, tail: string)
    requires piece.Answer? && (piece.closed || (rest != "" && Bounded(g, rest)))
    ensures marker in g.ChannelMarkers()
    ensures PrintText(piece.text, piece.closed, g.responseClose) + rest == piece.text + (marker + tail)
  {
    if piece.closed {
      marker, tail := g.responseClose, rest;
    } else {
      marker, tail :| marker in g.ChannelMarkers() && rest == marker + tail;
    }
  }

  lemma PieceRead(m: Machine, g: Grammar, x: Place, piece: Piece, rest: string) returns (y: Place)
    requires Printable(g) && Models(m, g) && !x.plain && CanFollow(g, x.channel, Spoken(x), piece)
    requires Stands(g, x, PrintPiece(g, piece, rest)) && (ChannelAfter(piece) == InAnswer ==> Bounded(g, rest))
    ensures Stands(g, y, rest) && Follows(y, piece, Spoken(x)) && (y.plain ==> rest == "") && Gets(m, x, y, Told(piece))
  {
    match piece
    case Thought(_, _, _, _) => y := ThoughtPiece(m, g, x, piece, rest);
    case Answer(_, marked, _, _) =>
      if marked { y := AnswerPiece(m, g, x, piece, rest); } else { y := PlainPiece(m, g, x, piece, rest); }
    case Calls(_, _, _, _) => y := CallsPiece(m, g, x, piece, rest);
    case Stray(_, _) => y := StrayPiece(m, g, x, piece, rest);
  }

  /** Behind open text there is a marker or nothing. */
  lemma RestBounded(g: Grammar, said: bool, pieces: seq<Piece>, gap: string, e: Ending)
    requires CanPrintRest(g, InAnswer, said, pieces) && (pieces == [] ==> gap == "" && !e.ArgumentCut?)
    ensures Bounded(g, PrintRest(g, pieces, gap, e))
    ensures pieces != [] ==> g.toolsOpen <= PrintRest(g, pieces, gap, e)
  {
    if pieces == [] {
      EndBounded(g, e);
    } else {
      var x := pieces[0];
      assert CanFollow(g, InAnswer, said, x) && x.Calls? && x.gap == "";
      CallsBounded(g, x, PrintRest(g, pieces[1..], gap, e));
    }
  }

  lemma EndBounded(g: Grammar, e: Ending)
    requires !e.ArgumentCut?
    ensures Bounded(g, PrintEnding(g, "", e))
  {
    var rest := PrintEnding(g, "", e);
    match e
    case MessageEnds(after) => assert g.messageClose in g.ChannelMarkers() && rest == g.messageClose + after;
    case MessageMark(after) => assert g.endOfMessage in g.ChannelMarkers() && rest == g.endOfMessage + after;
    case InputEnds =>
  }

  lemma CallsBounded(g: Grammar, x: Piece, rest: string)
    requires x.Calls? && x.gap == ""
    ensures Bounded(g, PrintPiece(g, x, rest)) && g.toolsOpen <= PrintPiece(g, x, rest)
  {
    var tail := PrintCalls(g, x.calls, PrintToolsEnd(g, x, rest));
    assert g.toolsOpen in g.ChannelMarkers() && PrintPiece(g, x, rest) == g.toolsOpen + tail;
  }

  lemma FirstRead(m: Machine, g: Grammar, x: Place, pieces: seq<Piece>, gap: string, e: Ending) returns (z: Place)
    requires Printable(g) && Models(m, g) && pieces != [] && Stands(g, x, PrintRest(g, pieces, gap, e)) && !x.plain
    requires CanPrintRest(g, x.channel, Spoken(x), pieces) && CanEnd(g, x.channel, x.carried, pieces, gap, e)
    ensures Stands(g, z, PrintRest(g, pieces[1..], gap, e)) && Follows(z, pieces[0], Spoken(x))
    ensures (z.plain ==> pieces[1..] == []) && Gets(m, x, z, Told(pieces[0]))
  {
    var rest, more := PrintRest(g, pieces[1..], gap, e), SaysMore(Spoken(x), pieces[0]);
    if ChannelAfter(pieces[0]) == InAnswer { RestBounded(g, more, pieces[1..], gap, e); }
    z := PieceRead(m, g, x, pieces[0], rest);
    assert g.toolsOpen in g.ChannelMarkers();
  }

  lemma LastOfRest(c: Channel, left: string, pieces: seq<Piece>)
    requires pieces != []
    ensures LastChannel(c, pieces) == LastChannel(ChannelAfter(pieces[0]), pieces[1..])
    ensures LastLeftOpen(left, pieces) == LastLeftOpen(LeftOpen(pieces[0]), pieces[1..])
  {
  }

  lemma {:induction false} PiecesRead(m: Machine, g: Grammar, x: Place, pieces: seq<Piece>, gap: string, e: Ending)
    returns (y: Place)
    requires Printable(g) && Models(m, g) && Stands(g, x, PrintRest(g, pieces, gap, e)) && (x.plain ==> pieces == [])
    requires CanPrintRest(g, x.channel, Spoken(x), pieces) && CanEnd(g, x.channel, x.carried, pieces, gap, e)
    ensures Stands(g, y, PrintEnding(g, gap, e)) && y.channel == LastChannel(x.channel, pieces)
    ensures y.carried == LastLeftOpen(x.carried, pieces)
    ensures Gets(m, x, y, Expected(pieces))
    decreases |pieces|
  {
    if pieces == [] {
      y := x;
      assert [] + Span(x.channel, x.carried) == Span(x.channel, x.carried) + [];
      GetsBy(m, x, y, [], []);
    } else {
      var z := FirstRead(m, g, x, pieces, gap, e);
      LastOfRest(x.channel, x.carried, pieces);
      y := PiecesRead(m, g, z, pieces[1..], gap, e);
      GetsThen(m, x, z, y, Told(pieces[0]), Expected(pieces[1..]));
    }
  }

  // ---- endings ----

  /** Nothing is late, and all that comes out, with what `finish` adds, is `out`. */
  ghost predicate Yields(m: Machine, p: Parser, out: seq<Atom>)
    requires m.Shrinks()
  {
    !Loop.Run(m, p).flawed && Loop.Run(m, p).out + Observed(Finish(Loop.Run(m, p).parser).1) == out
  }

  lemma LeadsYields(m: Machine, p: Parser, a: seq<Atom>, q: Parser, b: seq<Atom>)
    requires m.Shrinks() && Loop.Leads(m, p, a, q) && Yields(m, q, b)
    ensures Yields(m, p, a + b)
  {
    var r, f := Loop.Run(m, q).out, Observed(Finish(Loop.Run(m, q).parser).1);
    assert a + r + f == a + (r + f);
  }

  lemma DoneYields(m: Machine, g: Grammar, q: Parser)
    requires g.WellFormed() && Models(m, g) && q.state.Done?
    ensures Yields(m, q, [])
  {
    assert m.step(q) == AtomStep(g, q);
  }

  lemma RestYields(m: Machine, g: Grammar, q: Parser)
    requires g.WellFormed() && Models(m, g) && StepOnce(g, q) == Step(q, [], false) && !OpenerNext(g, q)
    ensures Yields(m, q, Observed(Finish(q).1))
  {
    assert m.step(q) == AtomStep(g, q);
    assert Observed([]) + Observed(Finish(q).1) == Observed(Finish(q).1);
  }

  /** Only white space is left. */
  lemma GapYields(m: Machine, g: Grammar, p: Parser)
    requires Printable(g) && Models(m, g) && Outside(p.state) && Blank(p.pending)
    ensures Yields(m, p, [])
  {
    var (at, found) := Locate(p.pending, Active(g, p));
    GapIsPlain(p.pending, Active(g, p));
    assert found.None? && Blank(p.pending[..at]);
    ChannelIs(g, p, at, None);
    RestYields(m, g, p);
    assert !IsSpace('<');
  }

  /** What may still become a marker at the end of settled text is at most one character. */
  lemma HeldShort(g: Grammar, p: Parser, at: nat)
    requires Printable(g) && InChannel(p.state) && Settled(g, p.pending) && Locate(p.pending, Active(g, p)) == (at, None)
    ensures p.pending[at..] == "" || p.pending[at..] == "<"
  {
    var text := p.pending;
    ScanSpec(text, Active(g, p));
    if at < |text| {
      var s :| s in Active(g, p) && Compatible(text, at, s);
      assert !OccursAt(text, at, s);
      assert text[at..] < s && s in g.ChannelMarkers() && StartsAngled(s);
      assert text[at..][0] == s[0];
    }
  }

  /** A single bracket is kept. */
  lemma BracketRests(g: Grammar, q: Parser)
    requires Printable(g) && (q.state.Think? || q.state.Response?) && (q.pending == "" || q.pending == "<")
    requires !Contains(q.pending, Active(g, q))
    ensures StepOnce(g, q) == Step(q, [], false) && !OpenerNext(g, q)
  {
    var active := Active(g, q);
    assert g.messageClose in active && StartsAngled(g.messageClose);
    assert Compatible(q.pending, 0, g.messageClose) by {
      if q.pending == "<" { assert g.messageClose[..1] == "<"; }
    }
    ScanIs(q.pending, active, 0);
    assert Locate(q.pending, active) == (0, None);
    ChannelIs(g, q, 0, None);
  }

  lemma BracketYields(m: Machine, g: Grammar, q: Parser, c: Channel)
    requires Printable(g) && Models(m, g) && (c == InThink || c == InAnswer) && At(q, c, q.emitted)
    requires (q.pending == "" || q.pending == "<") && !Contains(q.pending, Active(g, q))
    ensures Yields(m, q, Span(c, q.pending))
  {
    BracketRests(g, q);
    RestYields(m, g, q);
    if c == InThink { SaidReasoning(q, q.pending); } else { SaidContent(q, q.pending); }
  }

  /** The text of a channel that the end of the input cuts off. */
  lemma TextYields(m: Machine, g: Grammar, p: Parser, c: Channel)
    requires Printable(g) && Models(m, g) && (c == InThink || c == InAnswer) && At(p, c, p.emitted)
    requires FitsIn(g, c, p.emitted, p.pending) && Settled(g, p.pending)
    ensures Yields(m, p, Span(c, p.pending))
  {
    MarkersAre(g, p, c, p.emitted, p.pending);
    var (at, found) := Locate(p.pending, Active(g, p));
    assert found.None?;
    HeldShort(g, p, at);
    var said, held := p.pending[..at], p.pending[at..];
    assert p.pending == said + held;
    if at == 0 {
      assert p.pending == held;
      BracketYields(m, g, p, c);
    } else {
      var q := Say(p, said).0.(pending := held);
      ChannelIs(g, p, at, None);
      MeetsLeads(m, g, p, Observed(Say(p, said).1), q);
      if c == InThink { SaidReasoning(p, said); } else { SaidContent(p, said); }
      HeldPlain(p.pending, at, Active(g, p), Active(g, q));
      BracketYields(m, g, q, c);
      LeadsYields(m, p, Span(c, said), q, Span(c, held));
      SpanSplits(c, said, held);
    }
  }

  lemma HeldPlain(text: string, at: nat, pats: seq<string>, fewer: seq<string>)
    requires at <= |text| && !Contains(text, pats) && forall s | s in fewer :: s in pats
    ensures !Contains(text[at..], fewer)
  {
    forall i | 0 <= i <= |text[at..]|
      ensures !AnyAt(text[at..], i, fewer)
    {
      assert !AnyAt(text, at + i, pats);
      forall s | s in fewer
        ensures !OccursAt(text[at..], i, s)
      {
        OccursShifts(text[..at], text[at..], i, s);
        assert text[..at] + text[at..] == text;
      }
    }
  }

  lemma SpanSplits(c: Channel, a: string, b: string)
    ensures Span(c, a + b) == Span(c, a) + Span(c, b)
  {
  }

  /** Plain text that the end of the input cuts off. */
  lemma PlainYields(m: Machine, g: Grammar, p: Parser)
    requires Printable(g) && Models(m, g) && Outside(p.state) && PlainStart(p.pending, g.ChannelMarkers())
    requires Settled(g, p.pending) && !Contains(p.pending, AnswerMarkers(g))
    ensures Yields(m, p, Span(InAnswer, p.pending))
  {
    var text := p.pending;
    var (at, found) := Locate(text, Active(g, p));
    if Blank(text[..at]) {
      PlainRests(m, g, p, at);
    } else {
      OutsideIsResponse(m, g, p);
      TextYields(m, g, p.(state := Response), InAnswer);
      LeadsYields(m, p, [], p.(state := Response), Span(InAnswer, text));
      assert [] + Span(InAnswer, text) == Span(InAnswer, text);
    }
  }

  lemma PlainRests(m: Machine, g: Grammar, p: Parser, at: nat)
    requires Printable(g) && Models(m, g) && Outside(p.state) && PlainStart(p.pending, g.ChannelMarkers())
    requires Settled(g, p.pending) && at == Locate(p.pending, Active(g, p)).0 && Blank(p.pending[..at])
    ensures Yields(m, p, Span(InAnswer, p.pending))
  {
    PlainUnfound(g, p, at);
    HeldShort(g, p, at);
    assert p.pending == p.pending[..at] + p.pending[at..];
    ChannelIs(g, p, at, None);
    RestYields(m, g, p);
    PlainFinish(p, p.pending[..at]);
  }

  lemma PlainUnfound(g: Grammar, p: Parser, at: nat)
    requires g.WellFormed() && Outside(p.state) && PlainStart(p.pending, g.ChannelMarkers())
    requires at == Locate(p.pending, Active(g, p)).0 && Blank(p.pending[..at])
    ensures Locate(p.pending, Active(g, p)).1.None? && at < |p.pending|
  {
    OutsideMarkers(g, p, p.pending);
    assert p.pending[..|p.pending|] == p.pending;
  }

  lemma PlainFinish(p: Parser, gap: string)
    requires Outside(p.state) && Blank(gap) && p.pending == gap + "<"
    ensures Observed(Finish(p).1) == Atoms(Content(p.pending))
  {
    assert !IsSpace('<') && p.pending[|gap|] == '<';
    assert !("<|" <= p.pending) by {
      if gap == "" { assert p.pending == "<"; } else { assert p.pending[0] == gap[0]; }
    }
    assert Observed([Content(p.pending)]) == Atoms(Content(p.pending)) + Observed([]);
  }

  /** The end of the message, or of the input, in an open container. */
  lemma CallsYield(m: Machine, g: Grammar, p: Parser, gap: string, e: Ending)
    requires Printable(g) && Models(m, g) && InContainer(p.state) && p.pending == PrintEnding(g, gap, e)
    requires !Contains(gap, g.ContainerMarkers()) && (e.MessageEnds? ==> g.messageClose == Tag(g, g.close, "message"))
    requires e.ArgumentCut? ==> p.state.Call? && gap == "" && CanPrintArgument(g, e.argument)
    ensures Yields(m, p, [])
  {
    match e
    case MessageEnds(after) => TagEnds(m, g, p, gap, after);
    case MessageMark(after) => MarkEnds(m, g, p, gap, after);
    case InputEnds => NothingYields(m, g, p);
    case ArgumentCut(a) =>
      assert p.pending == PrintGap(g, a.gap, Tag(g, g.open, ArgumentHeader(a.key, a.kind)) + a.raw);
      var q := ArgumentOpens(m, g, p, a, a.raw);
      CutYields(m, g, q);
      LeadsYields(m, p, [], q, []);
  }

  lemma MessageElement(g: Grammar, p: Parser)
    requires Printable(g) && InContainer(p.state)
    ensures Element(g, p, g.close, "message") == (p.(state := Done), [])
  {
    SplitBare("message");
    assert |"message"| == 7 && |"call"| == 4 && |"tools"| == 5 && |"argument"| == 8;
  }

  lemma TagEnds(m: Machine, g: Grammar, p: Parser, gap: string, after: string)
    requires Printable(g) && Models(m, g) && InContainer(p.state) && !Contains(gap, g.ContainerMarkers())
    requires g.messageClose == Tag(g, g.close, "message") && p.pending == gap + g.messageClose + after
    ensures Yields(m, p, [])
  {
    var tail := "message" + g.sep + after;
    assert p.pending == gap + (g.close + tail);
    TextDropped(m, g, p, gap, g.close, tail);
    var there := p.(pending := g.close + tail);
    assert there.pending == Tag(g, g.close, "message") + after;
    MessageElement(g, there);
    NameIsPlain(g, "message");
    ElementRead(m, g, there, g.close, "message", after);
    var q := p.(state := Done, pending := after);
    Loop.LeadsThen(m, p, [], there, [], q);
    DoneYields(m, g, q);
    LeadsYields(m, p, [], q, []);
  }

  lemma MarkEnds(m: Machine, g: Grammar, p: Parser, gap: string, after: string)
    requires Printable(g) && Models(m, g) && InContainer(p.state) && !Contains(gap, g.ContainerMarkers())
    requires p.pending == gap + g.endOfMessage + after
    ensures Yields(m, p, [])
  {
    assert p.pending == gap + (g.endOfMessage + after);
    TextDropped(m, g, p, gap, g.endOfMessage, after);
    var there := p.(pending := g.endOfMessage + after);
    MarkerFirst(g.endOfMessage, after, g.ContainerMarkers());
    ContainerIs(g, there, 0, Some(g.endOfMessage));
    assert there.pending[0..] == there.pending;
    var q := p.(state := Done, pending := "");
    MeetsLeads(m, g, there, [], q);
    Loop.LeadsThen(m, p, [], there, [], q);
    DoneYields(m, g, q);
    LeadsYields(m, p, [], q, []);
  }

  lemma NothingYields(m: Machine, g: Grammar, p: Parser)
    requires Printable(g) && Models(m, g) && InContainer(p.state) && !Contains(p.pending, g.ContainerMarkers())
    ensures Yields(m, p, [])
  {
    var (at, found) := Locate(p.pending, g.ContainerMarkers());
    assert found.None?;
    ContainerIs(g, p, at, None);
    assert m.step(p) == AtomStep(g, p);
  }

  /** A cut argument is not shown. */
  lemma {:induction false} CutYields(m: Machine, g: Grammar, p: Parser)
    requires Printable(g) && Models(m, g) && p.state.Argument? && !Contains(p.pending, [g.argumentClose])
    ensures Yields(m, p, [])
    decreases |p.pending|
  {
    var (at, found) := Locate(p.pending, [g.argumentClose]);
    assert found.None?;
    ArgumentIs(g, p, at, None);
    assert m.step(p) == AtomStep(g, p);
    if at > 0 {
      var q := p.(raw := p.raw + p.pending[..at], pending := p.pending[at..]);
      MeetsLeads(m, g, p, [], q);
      HeldPlain(p.pending, at, [g.argumentClose], [g.argumentClose]);
      CutYields(m, g, q);
      LeadsYields(m, p, [], q, []);
    }
  }

  lemma MarkedEnd(m: Machine, g: Grammar, x: Place, gap: string, marker: string, after: string)
    requires Printable(g) && Models(m, g) && !Contained(x.channel) && Stands(g, x, gap + marker + after)
    requires GapFits(x.channel, gap) && (marker == g.messageClose || marker == g.endOfMessage)
    ensures Yields(m, x.parser, Span(x.channel, x.carried))
  {
    Targets(g);
    assert marker in g.ChannelMarkers() && marker != "";
    assert gap + marker + after != "";
    assert g.thinkOpen != marker by { assert Target(g, g.thinkOpen).Think?; }
    var q := OpensChannel(m, g, x, gap, marker, after);
    DoneYields(m, g, q);
    LeadsYields(m, x.parser, Span(x.channel, x.carried), q, []);
    assert Span(x.channel, x.carried) + [] == Span(x.channel, x.carried);
  }

  lemma EndRead(m: Machine, g: Grammar, x: Place, gap: string, e: Ending)
    requires Printable(g) && Models(m, g) && Stands(g, x, PrintEnding(g, gap, e)) && EndFits(g, x.channel, x.carried, gap, e)
    ensures Yields(m, x.parser, Span(x.channel, x.carried))
  {
    var p := x.parser;
    if Contained(x.channel) {
      assert p.pending == PrintEnding(g, gap, e);
      CallsYield(m, g, p, gap, e);
    } else {
      match e
      case MessageEnds(after) => MarkedEnd(m, g, x, gap, g.messageClose, after);
      case MessageMark(after) => MarkedEnd(m, g, x, gap, g.endOfMessage, after);
      case InputEnds =>
        if x.channel == Out {
          assert p.pending == gap;
          GapYields(m, g, p);
        } else {
          assert p.pending == x.carried;
          if x.plain { PlainYields(m, g, p); } else { TextYields(m, g, p, x.channel); }
        }
    }
  }

  // ---- whole documents ----

  lemma RestRead(m: Machine, g: Grammar, x: Place, pieces: seq<Piece>, gap: string, e: Ending)
    requires Printable(g) && Models(m, g) && !x.plain && Stands(g, x, PrintRest(g, pieces, gap, e))
    requires CanPrintRest(g, x.channel, Spoken(x), pieces) && CanEnd(g, x.channel, x.carried, pieces, gap, e)
    ensures Yields(m, x.parser, Span(x.channel, x.carried) + Expected(pieces))
  {
    var y := PiecesRead(m, g, x, pieces, gap, e);
    EndRead(m, g, y, gap, e);
    var out :| Loop.Leads(m, x.parser, out, y.parser)
            && out + Span(y.channel, y.carried) == Span(x.channel, x.carried) + Expected(pieces);
    LeadsYields(m, x.parser, out, y.parser, Span(y.channel, y.carried));
  }

  lemma DocumentRead(m: Machine, g: Grammar, reasoningOpen: bool, d: Document)
    requires Printable(g) && Models(m, g) && CanPrint(g, reasoningOpen, d)
    ensures Yields(m, Extend(Initial(reasoningOpen), Print(g, reasoningOpen, d)), Expected(d.pieces))
  {
    var p := Extend(Initial(reasoningOpen), Print(g, reasoningOpen, d));
    assert "" + Print(g, reasoningOpen, d) == Print(g, reasoningOpen, d);
    if reasoningOpen {
      OpenRead(m, g, p, d.pieces[0], d.pieces[1..], d.gap, d.ending);
    } else {
      RestRead(m, g, Place(p, Out, false, "", false), d.pieces, d.gap, d.ending);
      assert [] + Expected(d.pieces) == Expected(d.pieces);
    }
  }

  /** From the open thought. */
  lemma OpenRead(m: Machine, g: Grammar, p: Parser, x: Piece, pieces: seq<Piece>, gap: string, e: Ending)
    requires Printable(g) && Models(m, g) && At(p, InThink, false) && x.Thought? && CanFollow(g, Out, false, x)
    requires p.pending == PrintThought(g, x) + PrintRest(g, pieces, gap, e)
    requires CanPrintRest(g, ChannelAfter(x), SaysMore(false, x), pieces)
    requires CanEnd(g, ChannelAfter(x), LeftOpen(x), pieces, gap, e)
    ensures Yields(m, p, Told(x) + Expected(pieces))
  {
    var rest := PrintRest(g, pieces, gap, e);
    var y := ThoughtRead(m, g, p, x, false, rest);
    var out :| Loop.Leads(m, p, out, y.parser) && out + Span(y.channel, y.carried) == Told(x);
    RestFollows(m, g, x, y, pieces, gap, e);
    LeadsYields(m, p, out, y.parser, Span(y.channel, y.carried) + Expected(pieces));
    JoinedSpan(out, Span(y.channel, y.carried), Expected(pieces), Told(x));
  }

  lemma JoinedSpan(out: seq<Atom>, span: seq<Atom>, more: seq<Atom>, told: seq<Atom>)
    requires out + span == told
    ensures out + (span + more) == told + more
  {
    assert out + (span + more) == out + span + more;
  }

  lemma RestFollows(m: Machine, g: Grammar, x: Piece, y: Place, pieces: seq<Piece>, gap: string, e: Ending)
    requires Printable(g) && Models(m, g) && !y.plain && Follows(y, x, false) && Stands(g, y, PrintRest(g, pieces, gap, e))
    requires CanPrintRest(g, ChannelAfter(x), SaysMore(false, x), pieces)
    requires CanEnd(g, ChannelAfter(x), LeftOpen(x), pieces, gap, e)
    ensures Yields(m, y.parser, Span(y.channel, y.carried) + Expected(pieces))
  {
    RestRead(m, g, y, pieces, gap, e);
  }

  /** A printed transcript is read back: any channels in any order, closed or left open, however
      it is cut into feeds, whatever white space stands between the channels, whether it starts
      in the thought or before it, and however it ends. */
  lemma RoundTrip(g: Grammar, reasoningOpen: bool, d: Document, chunks: seq<string>)
    requires Printable(g) && CanPrint(g, reasoningOpen, d) && Concat(chunks) == Print(g, reasoningOpen, d)
    ensures !LateOpener(g, Extend(Initial(reasoningOpen), Concat(chunks)))
    ensures Observed(Parse(g, reasoningOpen, chunks)) == Expected(d.pieces)
  {
    var m := LoopOf(g);
    var p := Extend(Initial(reasoningOpen), Concat(chunks));
    DocumentRead(m, g, reasoningOpen, d);
    LateIsFlawed(m, g, p);
    RunIsLoop(m, g, p);
    ParseIsFeed(g, reasoningOpen, chunks);
  }

  /** A marker-free answer alone, in its channel, from the start. */
  lemma AnswerAlone(g: Grammar, text: string, chunks: seq<string>)
    requires Printable(g) && !Contains(text, AnswerMarkers(g))
    requires Concat(chunks) == g.responseOpen + text + g.responseClose + g.messageClose
    ensures Observed(Parse(g, false, chunks)) == Atoms(Content(text))
  {
    var x := Answer("", true, text, true);
    var d := Document([x], "", MessageEnds(""));
    AnswerPrinted(g, x, text);
    SinglePrinted(g, x, d);
    RoundTrip(g, false, d, chunks);
  }

  lemma AnswerPrinted(g: Grammar, x: Piece, text: string)
    requires x == Answer("", true, text, true)
    ensures PrintPiece(g, x, g.messageClose) == g.responseOpen + text + g.responseClose + g.messageClose
    ensures !Contains(text, AnswerMarkers(g)) ==> CanFollow(g, Out, false, x)
  {
  }

  lemma SinglePrinted(g: Grammar, x: Piece, d: Document)
    requires d == Document([x], "", MessageEnds(""))
    ensures Print(g, false, d) == PrintPiece(g, x, g.messageClose) && Expected(d.pieces) == Told(x)
    ensures CanFollow(g, Out, false, x) && ChannelAfter(x) == Out ==> CanPrint(g, false, d)
  {
    assert d.pieces[1..] == [] && "" + g.messageClose + "" == g.messageClose;
    assert PrintRest(g, [], "", d.ending) == g.messageClose && Expected([]) == [];
    assert Told(x) + [] == Told(x);
  }
}
