/** The K3 stream parser as a pure transition function: one loop iteration per `StepOnce`,
    `Run` for the loop of `feed`, `Finish` for `finish`. The framing vocabulary and the
    attribute parser come from a grammar object, as in the source, so what is proved about
    the parser holds for every well formed grammar; `K3Grammar.Kimi` is the real one. */
module K3Parser {
  import opened Patterns
  import opened XtmlText

  type Attributes = map<string, string>

  datatype Grammar = Grammar(
    thinkOpen: string, thinkClose: string, responseOpen: string, responseClose: string,
    toolsOpen: string, messageClose: string, endOfMessage: string,
    open: string, close: string, sep: string, argumentClose: string,
    attrs: string -> Attributes)
  {
    function OtherMarkers(): seq<string> {
      [messageClose, endOfMessage, toolsOpen, thinkClose, responseOpen, responseClose]
    }

    function ChannelMarkers(): seq<string> { OtherMarkers() + [thinkOpen] }

    function ContainerMarkers(): seq<string> { [open, close, endOfMessage] }

    ghost predicate WellFormed() {
      Separated(ChannelMarkers()) && Separated(ContainerMarkers()) && Separated([argumentClose]) && sep != ""
    }
  }

  datatype State = Start | Between | Think | Response | Tools | Call | Argument | Done

  /** The text of an argument, and whether its `type` attribute asks for JSON decoding.
      Decoding (with the raw text kept when it fails) is a function of this pair. */
  datatype Value = Value(raw: string, typed: bool)

  /** Keyed arguments in insertion order; a repeated key keeps its place. */
  type Arguments = seq<(string, Value)>

  datatype ToolCall = ToolCall(name: string, arguments: Arguments)

  datatype Delta = Reasoning(text: string) | Content(text: string) | Called(call: ToolCall)

  /** `raw` is the concatenation of the argument parts collected so far. */
  datatype Parser = Parser(
    state: State, pending: string, emitted: bool,
    callName: string, arguments: Arguments, attrs: Attributes, raw: string)

  datatype Step = Step(parser: Parser, deltas: seq<Delta>, progressed: bool)

  function Initial(reasoningOpen: bool): Parser {
    Parser(if reasoningOpen then Think else Start, "", false, "", [], map[], "")
  }

  function Put(arguments: Arguments, key: string, value: Value): Arguments {
    if arguments == [] then [(key, value)]
    else if arguments[0].0 == key then [(key, value)] + arguments[1..]
    else [arguments[0]] + Put(arguments[1..], key, value)
  }

  function Lookup(attrs: Attributes, key: string, default: string): string {
    if key in attrs then attrs[key] else default
  }

  predicate InChannel(s: State) {
    s.Start? || s.Between? || s.Think? || s.Response?
  }

  /** No channel has been opened yet. */
  predicate Outside(s: State) {
    s.Start? || s.Between?
  }

  /** The markers that are framing in a channel state; elsewhere they are plain text. */
  function Active(g: Grammar, p: Parser): seq<string> {
    [g.messageClose, g.endOfMessage, g.toolsOpen] +
    if p.state.Think? then [g.thinkClose, g.responseOpen] + (if p.emitted then [] else [g.thinkOpen])
    else if p.state.Response? then [g.responseClose]
    else [g.thinkOpen, g.thinkClose, g.responseOpen, g.responseClose]
  }

  function Target(g: Grammar, marker: string): State {
    if marker == g.toolsOpen then Tools
    else if marker == g.thinkOpen then Think
    else if marker == g.responseOpen then Response
    else if marker == g.thinkClose || marker == g.responseClose then Between
    else Done
  }

  /** `_text` */
  function Say(p: Parser, text: string): (Parser, seq<Delta>) {
    if text == "" then (p, [])
    else if p.state.Think? then (p.(emitted := true), [Reasoning(text)])
    else if Outside(p.state) && Blank(text) then (p, [])
    else (if Outside(p.state) then p.(state := Response) else p, [Content(text)])
  }

  lemma ActiveSeparated(g: Grammar, p: Parser)
    requires g.WellFormed()
    ensures Separated(Active(g, p))
  {
  }

  /** `_channel_step` */
  function ChannelStep(g: Grammar, p: Parser): (s: Step)
    requires InChannel(p.state) && g.WellFormed()
    ensures s.progressed ==> |s.parser.pending| < |p.pending|
  {
    var (at, found) := Locate(p.pending, Active(g, p));
    assert found.Some? ==> found.value != "" by { ActiveSeparated(g, p); }
    CutAt(g, p, at, found)
  }

  /** Say what precedes `at`; then consume the marker that stands there, or hold the rest. */
  function CutAt(g: Grammar, p: Parser, at: nat, found: Option<string>): (s: Step)
    requires InChannel(p.state) && at <= |p.pending|
    requires found.Some? ==> OccursAt(p.pending, at, found.value) && found.value != ""
    ensures s.progressed ==> |s.parser.pending| < |p.pending|
  {
    var text := p.pending;
    var (q, deltas) := Say(p, text[..at]);
    if found.Some? && !(Outside(p.state) && !Blank(text[..at])) then
      Step(q.(pending := text[at + |found.value|..], state := Target(g, found.value)), deltas, true)
    else if found.None? && (at == 0 || (Outside(p.state) && Blank(text[..at]))) then
      Step(p, [], false)
    else
      // Plain text outside any channel opens the response before a marker is considered.
      Step(q.(pending := text[at..]), deltas, true)
  }

  /** `_argument_step` */
  function ArgumentStep(g: Grammar, p: Parser): (s: Step)
    requires g.WellFormed()
    ensures s.progressed ==> |s.parser.pending| < |p.pending|
  {
    var (at, found) := Locate(p.pending, [g.argumentClose]);
    ArgumentAt(p, at, if found.Some? then |g.argumentClose| else 0)
  }

  /** Collect what precedes `at`; a closer of length `closer` ends the argument. */
  function ArgumentAt(p: Parser, at: nat, closer: nat): (s: Step)
    requires at + closer <= |p.pending|
    ensures s.progressed ==> |s.parser.pending| < |p.pending|
  {
    var text := p.pending;
    var q := p.(raw := p.raw + text[..at], pending := text[at + closer..]);
    if closer == 0 then Step(q, [], at > 0) else Step(CloseArgument(q).(raw := "", state := Call), [], true)
  }

  function CloseArgument(p: Parser): Parser {
    var key := Lookup(p.attrs, "key", "");
    if key == "" then p
    else p.(arguments := Put(p.arguments, key, Value(p.raw, Lookup(p.attrs, "type", "string") != "string")))
  }

  /** `_container_step` */
  function ContainerStep(g: Grammar, p: Parser): (s: Step)
    requires g.WellFormed()
    ensures s.progressed ==> |s.parser.pending| < |p.pending|
  {
    var (at, found) := Locate(p.pending, g.ContainerMarkers());
    ContainerAt(g, p, p.pending[at..], found)
  }

  /** What is left once the text before the first marker has been dropped. */
  function ContainerAt(g: Grammar, p: Parser, rest: string, found: Option<string>): (s: Step)
    requires g.sep != "" && (found.Some? ==> found.value <= rest && found.value != "")
    ensures s.progressed ==> |s.parser.pending| < |rest|
  {
    if found.None? then Step(p.(pending := rest), [], false) else ElementStep(g, p, rest, found.value)
  }

  /** `rest` starts with a container marker; the text before it has been dropped. */
  function ElementStep(g: Grammar, p: Parser, rest: string, marker: string): (s: Step)
    requires marker <= rest && marker != "" && g.sep != ""
    ensures s.progressed ==> |s.parser.pending| < |rest|
  {
    if marker == g.endOfMessage then Step(p.(state := Done, pending := ""), [], true)
    else
      match FindFrom(rest, g.sep, |marker|)
      case None => Step(p.(pending := rest), [], false)
      case Some(end) => HeaderStep(g, p, marker, rest[|marker|..end], rest[end + |g.sep|..])
  }

  function HeaderStep(g: Grammar, p: Parser, marker: string, header: string, rest: string): Step {
    var (q, deltas) := Element(g, p, marker, header);
    Step(q.(pending := rest), deltas, true)
  }

  /** What one complete element header means inside the container. */
  datatype Action = OpenCall | OpenArgument | CloseCall | CloseTools | CloseMessage | Ignored

  function Classify(g: Grammar, s: State, marker: string, name: string): Action {
    if marker == g.open && name == "call" then OpenCall
    else if s.Call? && marker == g.open && name == "argument" then OpenArgument
    else if s.Call? && marker == g.close && name == "call" then CloseCall
    else if marker == g.close && name == "tools" then CloseTools
    else if marker == g.close && name == "message" then CloseMessage
    else Ignored
  }

  function Act(p: Parser, action: Action, attrs: Attributes): (Parser, seq<Delta>) {
    match action
    case OpenCall => (p.(callName := Lookup(attrs, "tool", ""), arguments := [], state := Call), [])
    case OpenArgument => (p.(attrs := attrs, raw := "", state := Argument), [])
    case CloseCall =>
      if p.callName == "" then (p.(state := Tools), [])
      else (p.(state := Tools, callName := "", arguments := []), [Called(ToolCall(p.callName, p.arguments))])
    case CloseTools => (p.(state := Between, callName := "", arguments := []), [])
    case CloseMessage => (p.(state := Done), [])
    case Ignored => (p, [])
  }

  function Element(g: Grammar, p: Parser, marker: string, header: string): (Parser, seq<Delta>) {
    var (name, attributes) := SplitHeader(header);
    Act(p, Classify(g, p.state, marker, name), g.attrs(attributes))
  }

  /** One iteration of the loop of `feed`. */
  function StepOnce(g: Grammar, p: Parser): (s: Step)
    requires g.WellFormed()
    ensures s.progressed ==> |s.parser.pending| < |p.pending|
  {
    if p.state.Done? then Step(p.(pending := ""), [], false)
    else if p.state.Argument? then ArgumentStep(g, p)
    else if p.state.Tools? || p.state.Call? then ContainerStep(g, p)
    else ChannelStep(g, p)
  }

  function Run(g: Grammar, p: Parser): (Parser, seq<Delta>)
    requires g.WellFormed()
    decreases |p.pending|
  {
    if p.pending == "" then (p, [])
    else
      var s := StepOnce(g, p);
      if !s.progressed then (s.parser, s.deltas)
      else
        var (q, deltas) := Run(g, s.parser);
        (q, s.deltas + deltas)
  }

  function Extend(p: Parser, more: string): Parser { p.(pending := p.pending + more) }

  /** `feed` */
  function Feed(g: Grammar, p: Parser, delta: string): (Parser, seq<Delta>)
    requires g.WellFormed()
  {
    Run(g, Extend(p, delta))
  }

  /** `finish` */
  function Finish(p: Parser): (Parser, seq<Delta>) {
    var (q, deltas) :=
      if InChannel(p.state) && !("<|" <= p.pending) then Say(p, p.pending) else (p, []);
    (q.(pending := "", raw := "", arguments := [], state := Done), deltas)
  }

  function FeedAll(g: Grammar, p: Parser, chunks: seq<string>): (Parser, seq<Delta>)
    requires g.WellFormed()
    decreases |chunks|
  {
    if chunks == [] then (p, [])
    else
      var (q, first) := Feed(g, p, chunks[0]);
      var (r, rest) := FeedAll(g, q, chunks[1..]);
      (r, first + rest)
  }

  /** All deltas of one request: every chunk in turn, then the end of the stream. */
  function Parse(g: Grammar, reasoningOpen: bool, chunks: seq<string>): seq<Delta>
    requires g.WellFormed()
  {
    var (p, deltas) := FeedAll(g, Initial(reasoningOpen), chunks);
    deltas + Finish(p).1
  }

  // ---- what a client observes: characters per channel and calls, in order ----

  datatype Atom = ReasoningChar(c: char) | ContentChar(c: char) | CallAtom(call: ToolCall)

  function Atoms(d: Delta): seq<Atom> {
    match d
    case Reasoning(t) => seq(|t|, k requires 0 <= k < |t| => ReasoningChar(t[k]))
    case Content(t) => seq(|t|, k requires 0 <= k < |t| => ContentChar(t[k]))
    case Called(call) => [CallAtom(call)]
  }

  function Observed(deltas: seq<Delta>): seq<Atom> {
    if deltas == [] then [] else Atoms(deltas[0]) + Observed(deltas[1..])
  }

  lemma {:induction false} ObservedAppends(a: seq<Delta>, b: seq<Delta>)
    ensures Observed(a + b) == Observed(a) + Observed(b)
  {
    if a == [] {
      assert a + b == b;
    } else {
      assert (a + b)[1..] == a[1..] + b;
      ObservedAppends(a[1..], b);
    }
  }
}
