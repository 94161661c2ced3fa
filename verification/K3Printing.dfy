/** Printing tool calls as XTML elements, and reading them back inside the tools container. */
module K3Printing {
  import opened Patterns
  import opened XtmlText
  import A = XtmlAttributes
  import opened K3Parser
  import opened K3Chunks
  import Loop = StreamLoop

  /** What is passed over in the container: text, and elements of unknown names. */
  datatype Gap = Gap(elements: seq<Unknown>, text: string)

  datatype Unknown = Unknown(text: string, closing: bool, header: string)

  /** An argument element; without a `type` attribute its text is taken as a string. */
  datatype PrintedArgument = PrintedArgument(gap: Gap, key: string, kind: Option<string>, raw: string)

  /** A call element; one that is not closed ends where the next one starts, or with the container. */
  datatype PrintedCall = PrintedCall(gap: Gap, name: string, arguments: seq<PrintedArgument>, end: Gap, closed: bool)

  function Tag(g: Grammar, marker: string, header: string): string { marker + header + g.sep }

  function CallHeader(name: string): string { "call" + " " + A.Attribute("tool", name) }

  function TypeAttribute(kind: Option<string>): string {
    if kind.None? then "" else " " + A.Attribute("type", kind.value)
  }

  function ArgumentAttributes(key: string, kind: Option<string>): string { A.Attribute("key", key) + TypeAttribute(kind) }

  function ArgumentHeader(key: string, kind: Option<string>): string {
    "argument" + " " + ArgumentAttributes(key, kind)
  }

  function PrintUnknown(g: Grammar, elements: seq<Unknown>, rest: string): string
    decreases |elements|
  {
    if elements == [] then rest
    else
      var x := elements[0];
      x.text + (Tag(g, if x.closing then g.close else g.open, x.header) + PrintUnknown(g, elements[1..], rest))
  }

  /** A gap and what follows it. */
  function PrintGap(g: Grammar, gap: Gap, rest: string): string { PrintUnknown(g, gap.elements, gap.text + rest) }

  /** Arguments and what follows them. */
  function PrintArguments(g: Grammar, args: seq<PrintedArgument>, rest: string): string
    decreases |args|
  {
    if args == [] then rest
    else
      PrintGap(g, args[0].gap, Tag(g, g.open, ArgumentHeader(args[0].key, args[0].kind)) +
                               (args[0].raw + (g.argumentClose + PrintArguments(g, args[1..], rest))))
  }

  /** Calls and what follows them. */
  function PrintCalls(g: Grammar, calls: seq<PrintedCall>, rest: string): string
    decreases |calls|
  {
    if calls == [] then rest else PrintCall(g, calls[0], PrintCalls(g, calls[1..], rest))
  }

  function PrintCall(g: Grammar, call: PrintedCall, rest: string): string {
    PrintGap(g, call.gap, Tag(g, g.open, CallHeader(call.name)) +
                          PrintArguments(g, call.arguments, PrintCallEnd(g, call, rest)))
  }

  function PrintCallEnd(g: Grammar, call: PrintedCall, rest: string): string {
    if call.closed then PrintGap(g, call.end, Tag(g, g.close, "call") + rest) else rest
  }

  // ---- what is meant ----

  /** Only a type other than `string` asks for decoding. */
  function Meant(a: PrintedArgument): Value { Value(a.raw, a.kind.Some? && a.kind.value != "string") }

  /** Arguments with a key, the last one of each key. */
  function Stored(seen: Arguments, args: seq<PrintedArgument>): Arguments
    decreases |args|
  {
    if args == [] then seen
    else Stored(if args[0].key == "" then seen else Put(seen, args[0].key, Meant(args[0])), args[1..])
  }

  /** A call that has a name and is closed. */
  function CallMeant(call: PrintedCall): seq<ToolCall> {
    if call.name == "" || !call.closed then [] else [ToolCall(call.name, Stored([], call.arguments))]
  }

  function CallsMeant(calls: seq<PrintedCall>): seq<ToolCall> {
    if calls == [] then [] else CallMeant(calls[0]) + CallsMeant(calls[1..])
  }

  // ---- what can be printed ----

  ghost predicate CanPrintGap(g: Grammar, gap: Gap) {
    && !Contains(gap.text, g.ContainerMarkers())
    && forall x | x in gap.elements :: CanPrintUnknown(g, x)
  }

  ghost predicate CanPrintUnknown(g: Grammar, x: Unknown) {
    && !Contains(x.text, g.ContainerMarkers()) && !Contains(x.header, [g.sep])
    && SplitHeader(x.header).0 !in {"call", "argument", "tools", "message"}
  }

  ghost predicate CanPrintArgument(g: Grammar, a: PrintedArgument) {
    && CanPrintGap(g, a.gap) && !Contains(a.key, [g.sep]) && !Contains(a.raw, [g.argumentClose])
    && (a.kind.Some? ==> '<' !in a.kind.value && '&' !in a.kind.value && '"' !in a.kind.value)
  }

  ghost predicate CanPrintCall(g: Grammar, call: PrintedCall) {
    && CanPrintGap(g, call.gap) && CanPrintGap(g, call.end) && !Contains(call.name, [g.sep])
    && forall a | a in call.arguments :: CanPrintArgument(g, a)
  }

  /** Framing words are told apart, a separator is not confused with escaped
      text, and the attribute parser reads back printed attributes. */
  ghost predicate Printable(g: Grammar) {
    && g.WellFormed() && Separated([g.sep]) && Angled(g) && AllDiffer(g.ChannelMarkers())
    && g.sep[0] == '<' && '&' !in g.sep && '"' !in g.sep
    && g.open != g.close && g.open != g.endOfMessage && g.close != g.endOfMessage
    && (forall v :: g.attrs(A.Attribute("tool", v)) == map["tool" := v])
    && (forall v :: g.attrs(ArgumentAttributes(v, None)) == map["key" := v])
    && (forall v, w :: g.attrs(ArgumentAttributes(v, Some(w))) == map["key" := v, "type" := w])
  }

  predicate AllDiffer(markers: seq<string>) { forall i, j | 0 <= i < j < |markers| :: markers[i] != markers[j] }

  /** Channel markers start with an angle bracket, so they cannot start in white space. */
  predicate Angled(g: Grammar) {
    forall s | s in g.ChannelMarkers() :: StartsAngled(s)
  }

  predicate StartsAngled(s: string) { s != "" && s[0] == '<' }

  // ---- headers ----

  lemma SplitBare(name: string)
    requires name != "" && forall c | c in name :: !IsSpace(c)
    ensures SplitHeader(name) == (name, "")
  {
    assert name[0] in name && name[|name| - 1] in name;
    WordLengthIs(name, "");
    assert name + "" == name;
  }

  lemma {:induction false} WordLengthIs(word: string, rest: string)
    requires (forall c | c in word :: !IsSpace(c)) && (rest == "" || IsSpace(rest[0]))
    ensures XtmlText.WordLength(word + rest) == |word|
  {
    if word == "" {
      assert word + rest == rest;
    } else {
      assert (word + rest)[1..] == word[1..] + rest;
      WordLengthIs(word[1..], rest);
    }
  }

  lemma SplitNamed(name: string, attrs: string)
    requires name != "" && forall c | c in name :: !IsSpace(c)
    requires attrs != "" && !IsSpace(attrs[0]) && !IsSpace(attrs[|attrs| - 1])
    ensures SplitHeader(name + " " + attrs) == (name, attrs)
  {
    var h := name + " " + attrs;
    assert h == name + (" " + attrs);
    assert h[0] == name[0] && name[0] in name;
    assert h[|h| - 1] == attrs[|attrs| - 1];
    assert Trim(h) == h;
    assert IsSpace(' ');
    WordLengthIs(name, " " + attrs);
    assert h[..|name|] == name && h[|name|..] == " " + attrs;
    assert (" " + attrs)[0] == ' ' && (" " + attrs)[1..] == attrs;
    assert TrimLeft(" " + attrs) == TrimLeft(attrs) == attrs;
  }

  /** A separator in a header could only come from the quoted part. */
  lemma WrappedPlain(head: string, quoted: string, tail: string, sep: string)
    requires sep != "" && sep[0] == '<' && '"' !in sep
    requires '<' !in head && '<' !in tail && tail != "" && tail[0] == '"' && !Contains(quoted, [sep])
    ensures !Contains(head + quoted + tail, [sep])
  {
    var h := head + quoted + tail;
    forall i: nat
      ensures !OccursAt(h, i, sep)
    {
      if |head| <= i && i + |sep| <= |head| + |quoted| {
        assert !AnyAt(quoted, i - |head|, [sep]);
        assert !OccursAt(quoted, i - |head|, sep);
        assert quoted[i - |head|..i - |head| + |sep|] == h[i..i + |sep|];
      } else if |head| <= i < |head| + |quoted| < i + |sep| <= |h| {
        assert h[i..i + |sep|][|head| + |quoted| - i] == '"';
        assert '"' in h[i..i + |sep|];
      } else if i + |sep| <= |h| {
        assert h[i] != '<' by {
          if i < |head| { assert h[i] == head[i]; } else { assert h[i] == tail[i - |head| - |quoted|]; }
        }
        assert h[i..i + |sep|][0] == h[i];
      }
    }
  }

  lemma CallHeaderIs(g: Grammar, name: string)
    requires Printable(g) && !Contains(name, [g.sep])
    ensures !Contains(CallHeader(name), [g.sep])
    ensures SplitHeader(CallHeader(name)) == ("call", A.Attribute("tool", name))
  {
    A.EscapeKeepsPlain(name, g.sep);
    QuotedHeader("call", "tool", A.Escape(name), "\"", g.sep);
    assert CallHeader(name) == "call" + " " + ("tool" + "=\"" + A.Escape(name) + "\"");
  }

  lemma ArgumentHeaderIs(g: Grammar, a: PrintedArgument)
    requires Printable(g) && CanPrintArgument(g, a)
    ensures !Contains(ArgumentHeader(a.key, a.kind), [g.sep])
    ensures SplitHeader(ArgumentHeader(a.key, a.kind)) == ("argument", ArgumentAttributes(a.key, a.kind))
  {
    A.EscapeKeepsPlain(a.key, g.sep);
    if a.kind.None? {
      KeyAlone(a.key, A.Escape(a.key));
      QuotedHeader("argument", "key", A.Escape(a.key), "\"", g.sep);
    } else {
      var kind := a.kind.value;
      A.EscapePlain(kind);
      TypeTail(a.key, A.Escape(a.key), kind);
      QuotedHeader("argument", "key", A.Escape(a.key), "\" type=\"" + kind + "\"", g.sep);
    }
  }

  lemma KeyAlone(key: string, quoted: string)
    requires A.Escape(key) == quoted
    ensures ArgumentAttributes(key, None) == "key" + "=\"" + quoted + "\""
  {
  }

  lemma TypeTail(key: string, quoted: string, kind: string)
    requires A.Escape(key) == quoted && A.Escape(kind) == kind
    ensures ArgumentAttributes(key, Some(kind))
         == "key" + "=\"" + quoted + ("\" type=\"" + kind + "\"")
  {
  }

  /** A header `name key="quoted…` splits into its name and the rest, and holds no separator. */
  lemma QuotedHeader(name: string, key: string, quoted: string, tail: string, sep: string)
    requires name != "" && (forall c | c in name :: !IsSpace(c)) && key != "" && !IsSpace(key[0])
    requires sep != "" && sep[0] == '<' && '"' !in sep && '<' !in name && '<' !in key
    requires '<' !in tail && tail != "" && tail[0] == '"' && tail[|tail| - 1] == '"' && !Contains(quoted, [sep])
    ensures !Contains(name + " " + (key + "=\"" + quoted + tail), [sep])
    ensures SplitHeader(name + " " + (key + "=\"" + quoted + tail)) == (name, key + "=\"" + quoted + tail)
  {
    var head := name + " " + key + "=\"";
    WrappedPlain(head, quoted, tail, sep);
    var attrs := key + "=\"" + quoted + tail;
    assert name + " " + attrs == head + quoted + tail;
    assert !IsSpace('"');
    SplitNamed(name, attrs);
  }

  lemma SeparatorFound(before: string, header: string, sep: string, rest: string)
    requires Separated([sep]) && !Contains(header, [sep])
    ensures FindFrom(before + (header + sep + rest), sep, |before|) == Some(|before| + |header|)
  {
    var text := header + sep + rest;
    LocateAfterPlain(header, sep, rest, [sep]);
    FoundAfter(before, text, sep, |header|);
  }

  lemma FoundAfter(before: string, text: string, sep: string, at: nat)
    requires Locate(text, [sep]) == (at, Some(sep))
    ensures FindFrom(before + text, sep, |before|) == Some(|before| + at)
  {
    LocatedEarliest(before, text, [sep], at);
    EarliestSpec(before + text, [sep], |before|, Some(|before| + at));
  }

  lemma LocatedEarliest(before: string, text: string, pats: seq<string>, at: nat)
    requires Locate(text, pats).0 == at && Locate(text, pats).1.Some?
    ensures IsEarliest(before + text, pats, |before|, Some(|before| + at))
  {
    AnyShifts(before, text, at, pats);
    forall j | |before| <= j < |before| + at
      ensures !AnyAt(before + text, j, pats)
    {
      NoneBefore(text, pats, j - |before|);
      AnyShifts(before, text, j - |before|, pats);
    }
  }

  lemma NoneBefore(text: string, pats: seq<string>, i: nat)
    requires i < Locate(text, pats).0
    ensures !AnyAt(text, i, pats)
  {
    ScanSpec(text, pats);
    if AnyAt(text, i, pats) { AnyAtIsCompatible(text, i, pats); }
  }

  // ---- steps ----

  /** A channel body and the marker that ends it. */
  lemma ChannelRead(m: Machine, g: Grammar, p: Parser, body: string, marker: string, rest: string)
    requires g.WellFormed() && Models(m, g) && InChannel(p.state) && p.pending == body + marker + rest
    requires marker in Active(g, p) && !Contains(body, Active(g, p))
    requires (Outside(p.state) ==> Blank(body)) && (p.state.Think? && marker == g.thinkOpen ==> body == "")
    ensures Loop.Leads(m, p, Observed(Say(p, body).1), Say(p, body).0.(pending := rest, state := Target(g, marker)))
  {
    ActiveSeparated(g, p);
    LocateAfterPlain(body, marker, rest, Active(g, p));
    ChannelIs(g, p, |body|, Some(marker));
    assert p.pending[..|body|] == body && p.pending[|body| + |marker|..] == rest;
    MeetsLeads(m, g, p, Observed(Say(p, body).1), Say(p, body).0.(pending := rest, state := Target(g, marker)));
  }

  lemma EmptyIsPlain(pats: seq<string>)
    requires Separated(pats)
    ensures !Contains("", pats)
  {
    assert forall s | s in pats :: s != "";
  }

  /** A complete element header inside the tools container. */
  lemma ElementRead(m: Machine, g: Grammar, p: Parser, marker: string, header: string, rest: string)
    requires Printable(g) && Models(m, g) && (p.state.Tools? || p.state.Call?)
    requires marker in [g.open, g.close] && p.pending == Tag(g, marker, header) + rest && !Contains(header, [g.sep])
    ensures var (q, deltas) := Element(g, p, marker, header);
            Loop.Leads(m, p, Observed(deltas), q.(pending := rest))
  {
    ElementFound(g, p, marker, header, rest);
    var (q, deltas) := Element(g, p, marker, header);
    MeetsLeads(m, g, p, Observed(deltas), q.(pending := rest));
  }

  lemma ElementFound(g: Grammar, p: Parser, marker: string, header: string, rest: string)
    requires g.WellFormed() && Separated([g.sep]) && (p.state.Tools? || p.state.Call?) && marker != g.endOfMessage
    requires marker in g.ContainerMarkers() && p.pending == Tag(g, marker, header) + rest && !Contains(header, [g.sep])
    ensures StepOnce(g, p) == HeaderStep(g, p, marker, header, rest)
  {
    var tail := header + g.sep + rest;
    assert p.pending == marker + tail;
    MarkerFirst(marker, tail, g.ContainerMarkers());
    assert p.pending[0..] == p.pending;
    ContainerIs(g, p, 0, Some(marker));
    HeaderFound(g, p, marker, header, rest, marker + tail);
  }

  lemma MarkerFirst(marker: string, tail: string, pats: seq<string>)
    requires Separated(pats) && marker in pats
    ensures Locate(marker + tail, pats) == (0, Some(marker))
  {
    EmptyIsPlain(pats);
    LocateAfterPlain("", marker, tail, pats);
    assert "" + marker + tail == marker + tail;
  }

  lemma HeaderFound(g: Grammar, p: Parser, marker: string, header: string, rest: string, text: string)
    requires Separated([g.sep]) && g.sep != "" && marker != g.endOfMessage && marker != ""
    requires text == marker + (header + g.sep + rest) && !Contains(header, [g.sep])
    ensures ElementStep(g, p, text, marker) == HeaderStep(g, p, marker, header, rest)
  {
    SeparatorFound(marker, header, g.sep, rest);
    var end := |marker| + |header|;
    assert text[|marker|..end] == header && text[end + |g.sep|..] == rest;
  }

  predicate InContainer(s: State) { s.Tools? || s.Call? }

  /** Text in front of an element is passed over. */
  lemma TextDropped(m: Machine, g: Grammar, p: Parser, text: string, marker: string, tail: string)
    requires g.WellFormed() && Models(m, g) && InContainer(p.state) && marker in g.ContainerMarkers()
    requires p.pending == text + (marker + tail) && !Contains(text, g.ContainerMarkers())
    ensures Loop.Leads(m, p, [], p.(pending := marker + tail))
  {
    var q := p.(pending := marker + tail);
    assert p.pending == text + marker + tail;
    LocateAfterPlain(text, marker, tail, g.ContainerMarkers());
    MarkerFirst(marker, tail, g.ContainerMarkers());
    assert p.pending[|text|..] == marker + tail && q.pending[0..] == marker + tail;
    ContainerIs(g, p, |text|, Some(marker));
    ContainerIs(g, q, 0, Some(marker));
    ElementIgnoresText(g, p, marker + tail, marker);
    SameMeets(g, p, q);
    MeetsLeads(m, g, p, [], q);
  }

  /** What an element does does not depend on the text in front of it. */
  lemma ElementIgnoresText(g: Grammar, p: Parser, text: string, marker: string)
    requires marker <= text && marker != "" && g.sep != ""
    ensures ElementStep(g, p, text, marker) == ElementStep(g, p.(pending := text), text, marker)
  {
    var end := FindFrom(text, g.sep, |marker|);
    if marker != g.endOfMessage && end.Some? {
      HeaderIgnoresText(g, p, text, marker, text[|marker|..end.value], text[end.value + |g.sep|..]);
    }
  }

  lemma HeaderIgnoresText(g: Grammar, p: Parser, text: string, marker: string, header: string, rest: string)
    ensures HeaderStep(g, p, marker, header, rest) == HeaderStep(g, p.(pending := text), marker, header, rest)
  {
    var (name, attributes) := SplitHeader(header);
    ActIgnoresText(p, text, Classify(g, p.state, marker, name), g.attrs(attributes));
  }

  lemma ActIgnoresText(p: Parser, text: string, action: Action, attrs: Attributes)
    ensures Act(p.(pending := text), action, attrs) == (Act(p, action, attrs).0.(pending := text), Act(p, action, attrs).1)
  {
  }

  lemma UnknownElement(g: Grammar, p: Parser, marker: string, header: string)
    requires SplitHeader(header).0 !in {"call", "argument", "tools", "message"}
    ensures Element(g, p, marker, header) == (p, [])
  {
  }

  lemma UnknownRead(m: Machine, g: Grammar, p: Parser, x: Unknown, rest: string)
    requires Printable(g) && Models(m, g) && InContainer(p.state) && CanPrintUnknown(g, x)
    requires p.pending == x.text + (Tag(g, if x.closing then g.close else g.open, x.header) + rest)
    ensures Loop.Leads(m, p, [], p.(pending := rest))
  {
    var marker := if x.closing then g.close else g.open;
    var tail := x.header + g.sep + rest;
    assert Tag(g, marker, x.header) + rest == marker + tail;
    TextDropped(m, g, p, x.text, marker, tail);
    var q := p.(pending := marker + tail);
    UnknownElement(g, q, marker, x.header);
    ElementRead(m, g, q, marker, x.header, rest);
    Loop.LeadsThen(m, p, [], q, [], p.(pending := rest));
  }

  lemma {:induction false} UnknownsRead(m: Machine, g: Grammar, p: Parser, elements: seq<Unknown>, rest: string)
    requires Printable(g) && Models(m, g) && InContainer(p.state) && p.pending == PrintUnknown(g, elements, rest)
    requires forall x | x in elements :: CanPrintUnknown(g, x)
    ensures Loop.Leads(m, p, [], p.(pending := rest))
    decreases |elements|
  {
    if elements == [] {
      assert p == p.(pending := rest);
    } else {
      var tail := PrintUnknown(g, elements[1..], rest);
      assert elements[0] in elements && forall x | x in elements[1..] :: x in elements;
      UnknownRead(m, g, p, elements[0], tail);
      UnknownsRead(m, g, p.(pending := tail), elements[1..], rest);
      Loop.LeadsThen(m, p, [], p.(pending := tail), [], p.(pending := rest));
    }
  }

  lemma GapRead(m: Machine, g: Grammar, p: Parser, gap: Gap, marker: string, tail: string)
    requires Printable(g) && Models(m, g) && InContainer(p.state) && CanPrintGap(g, gap)
    requires marker in g.ContainerMarkers() && p.pending == PrintGap(g, gap, marker + tail)
    ensures Loop.Leads(m, p, [], p.(pending := marker + tail))
  {
    var q := p.(pending := gap.text + (marker + tail));
    UnknownsRead(m, g, p, gap.elements, gap.text + (marker + tail));
    TextDropped(m, g, q, gap.text, marker, tail);
    Loop.LeadsThen(m, p, [], q, [], p.(pending := marker + tail));
  }

  lemma TagRead(m: Machine, g: Grammar, p: Parser, gap: Gap, marker: string, header: string, rest: string) returns (q: Parser)
    requires Printable(g) && Models(m, g) && InContainer(p.state) && CanPrintGap(g, gap) && marker in [g.open, g.close]
    requires p.pending == PrintGap(g, gap, Tag(g, marker, header) + rest)
    ensures Loop.Leads(m, p, [], q) && q == p.(pending := Tag(g, marker, header) + rest)
  {
    var tail := header + g.sep + rest;
    assert Tag(g, marker, header) + rest == marker + tail;
    GapRead(m, g, p, gap, marker, tail);
    q := p.(pending := marker + tail);
  }

  /** The text of an argument up to its closer. */
  lemma RawRead(m: Machine, g: Grammar, p: Parser, raw: string, rest: string)
    requires g.WellFormed() && Models(m, g) && p.state.Argument? && p.raw == ""
    requires p.pending == raw + (g.argumentClose + rest) && !Contains(raw, [g.argumentClose])
    ensures Loop.Leads(m, p, [], CloseArgument(p.(raw := raw)).(raw := "", state := Call, pending := rest))
  {
    assert p.pending == raw + g.argumentClose + rest;
    LocateAfterPlain(raw, g.argumentClose, rest, [g.argumentClose]);
    ArgumentIs(g, p, |raw|, Some(g.argumentClose));
    assert p.pending[..|raw|] == raw && p.pending[|raw| + |g.argumentClose|..] == rest;
    assert "" + raw == raw;
    MeetsLeads(m, g, p, [], CloseArgument(p.(raw := raw)).(raw := "", state := Call, pending := rest));
  }

  function ValueOf(args: Arguments, key: string): Option<Value> {
    if args == [] then None else if args[0].0 == key then Some(args[0].1) else ValueOf(args[1..], key)
  }

  function Keys(args: Arguments): seq<string> { seq(|args|, i requires 0 <= i < |args| => args[i].0) }

  /** Arguments are a dictionary in insertion order: the last value of a key counts, other keys
      keep theirs, and a repeated key keeps its place. */
  lemma PutIsUpdate(args: Arguments, key: string, value: Value, other: string)
    ensures ValueOf(Put(args, key, value), other) == if other == key then Some(value) else ValueOf(args, other)
    ensures Keys(Put(args, key, value)) == if ValueOf(args, key).Some? then Keys(args) else Keys(args) + [key]
  {
    PutValue(args, key, value, other);
    PutKeys(args, key, value);
  }

  lemma {:induction false} PutValue(args: Arguments, key: string, value: Value, other: string)
    ensures ValueOf(Put(args, key, value), other) == if other == key then Some(value) else ValueOf(args, other)
  {
    if args != [] && args[0].0 == key {
      assert ([(key, value)] + args[1..])[1..] == args[1..];
    } else if args != [] {
      PutValue(args[1..], key, value, other);
      assert ([args[0]] + Put(args[1..], key, value))[1..] == Put(args[1..], key, value);
    }
  }

  lemma {:induction false} PutKeys(args: Arguments, key: string, value: Value)
    ensures Keys(Put(args, key, value)) == if ValueOf(args, key).Some? then Keys(args) else Keys(args) + [key]
  {
    if args != [] {
      KeysFirst(args[0], args[1..]);
      assert [args[0]] + args[1..] == args;
      if args[0].0 == key {
        KeysFirst((key, value), args[1..]);
      } else {
        PutKeys(args[1..], key, value);
        KeysFirst(args[0], Put(args[1..], key, value));
      }
    }
  }

  lemma KeysFirst(arg: (string, Value), rest: Arguments)
    ensures Keys([arg] + rest) == [arg.0] + Keys(rest)
  {
  }

  lemma ArgumentOpens(m: Machine, g: Grammar, p: Parser, a: PrintedArgument, body: string) returns (q: Parser)
    requires Printable(g) && Models(m, g) && p.state.Call? && CanPrintArgument(g, a)
    requires p.pending == PrintGap(g, a.gap, Tag(g, g.open, ArgumentHeader(a.key, a.kind)) + body)
    ensures Loop.Leads(m, p, [], q) && q == p.(attrs := q.attrs, raw := "", state := Argument, pending := body)
    ensures Lookup(q.attrs, "key", "") == a.key && (Lookup(q.attrs, "type", "string") != "string") == Meant(a).typed
  {
    ArgumentHeaderIs(g, a);
    var there := TagRead(m, g, p, a.gap, g.open, ArgumentHeader(a.key, a.kind), body);
    ElementRead(m, g, there, g.open, ArgumentHeader(a.key, a.kind), body);
    var attrs := g.attrs(ArgumentAttributes(a.key, a.kind));
    AttributesMean(g, a);
    ArgumentElement(g, there, ArgumentHeader(a.key, a.kind), ArgumentAttributes(a.key, a.kind));
    q := p.(attrs := attrs, raw := "", state := Argument, pending := body);
    Loop.LeadsThen(m, p, [], there, [], q);
  }

  lemma AttributesMean(g: Grammar, a: PrintedArgument)
    requires Printable(g)
    ensures var attrs := g.attrs(ArgumentAttributes(a.key, a.kind));
      Lookup(attrs, "key", "") == a.key && (Lookup(attrs, "type", "string") != "string") == Meant(a).typed
  {
    if a.kind.None? {
      assert g.attrs(ArgumentAttributes(a.key, None)) == map["key" := a.key];
      assert "key"[0] != "type"[0];
    } else {
      assert g.attrs(ArgumentAttributes(a.key, Some(a.kind.value))) == map["key" := a.key, "type" := a.kind.value];
    }
  }

  lemma ArgumentElement(g: Grammar, p: Parser, header: string, attributes: string)
    requires SplitHeader(header) == ("argument", attributes) && p.state.Call?
    ensures Element(g, p, g.open, header) == (p.(attrs := g.attrs(attributes), raw := "", state := Argument), [])
  {
    assert "argument" != "call" by { assert |"argument"| != |"call"|; }
  }

  lemma ArgumentRead(m: Machine, g: Grammar, p: Parser, a: PrintedArgument, rest: string) returns (q: Parser)
    requires Printable(g) && Models(m, g) && p.state.Call? && CanPrintArgument(g, a)
    requires p.pending == PrintGap(g, a.gap, Tag(g, g.open, ArgumentHeader(a.key, a.kind)) + (a.raw + (g.argumentClose + rest)))
    ensures Loop.Leads(m, p, [], q) && q.state.Call? && q.pending == rest && Same(p, q)
    ensures q.arguments == if a.key == "" then p.arguments else Put(p.arguments, a.key, Meant(a))
  {
    var inside := ArgumentOpens(m, g, p, a, a.raw + (g.argumentClose + rest));
    RawRead(m, g, inside, a.raw, rest);
    q := CloseArgument(inside.(raw := a.raw)).(raw := "", state := Call, pending := rest);
    Loop.LeadsThen(m, p, [], inside, [], q);
  }

  /** What the elements of a call leave alone. */
  predicate Same(p: Parser, q: Parser) { q.callName == p.callName && q.emitted == p.emitted }

  lemma {:induction false} ArgumentsRead(m: Machine, g: Grammar, p: Parser, args: seq<PrintedArgument>, rest: string)
    returns (q: Parser)
    requires Printable(g) && Models(m, g) && p.state.Call? && forall a | a in args :: CanPrintArgument(g, a)
    requires p.pending == PrintArguments(g, args, rest)
    ensures Loop.Leads(m, p, [], q) && q.state.Call? && q.pending == rest && Same(p, q)
    ensures q.arguments == Stored(p.arguments, args)
    decreases |args|
  {
    if args == [] {
      q := p;
    } else {
      var tail := PrintArguments(g, args[1..], rest);
      var mid := ArgumentRead(m, g, p, args[0], tail);
      q := ArgumentsRead(m, g, mid, args[1..], rest);
      Loop.LeadsThen(m, p, [], mid, [], q);
    }
  }

  function CallAtoms(calls: seq<ToolCall>): seq<Atom> {
    seq(|calls|, i requires 0 <= i < |calls| => CallAtom(calls[i]))
  }

  lemma CallOpens(m: Machine, g: Grammar, p: Parser, call: PrintedCall, body: string) returns (q: Parser)
    requires Printable(g) && Models(m, g) && InContainer(p.state) && CanPrintCall(g, call)
    requires p.pending == PrintGap(g, call.gap, Tag(g, g.open, CallHeader(call.name)) + body)
    ensures Loop.Leads(m, p, [], q) && q == p.(callName := call.name, arguments := [], state := Call, pending := body)
  {
    CallHeaderIs(g, call.name);
    var there := TagRead(m, g, p, call.gap, g.open, CallHeader(call.name), body);
    ElementRead(m, g, there, g.open, CallHeader(call.name), body);
    q := p.(callName := call.name, arguments := [], state := Call, pending := body);
    Loop.LeadsThen(m, p, [], there, [], q);
  }

  lemma CallCloses(m: Machine, g: Grammar, p: Parser, end: Gap, rest: string) returns (q: Parser)
    requires Printable(g) && Models(m, g) && p.state.Call? && CanPrintGap(g, end)
    requires p.pending == PrintGap(g, end, Tag(g, g.close, "call") + rest)
    ensures q.state.Tools? && q.pending == rest && q.emitted == p.emitted
    ensures Loop.Leads(m, p, if p.callName == "" then [] else [CallAtom(ToolCall(p.callName, p.arguments))], q)
  {
    var there := TagRead(m, g, p, end, g.close, "call", rest);
    SplitBare("call");
    NameIsPlain(g, "call");
    ElementRead(m, g, there, g.close, "call", rest);
    CallElement(g, there, "call");
    q := Element(g, there, g.close, "call").0.(pending := rest);
    var out := if p.callName == "" then [] else [CallAtom(ToolCall(p.callName, p.arguments))];
    Loop.LeadsThen(m, p, [], there, out, q);
    assert [] + out == out;
  }

  lemma CallElement(g: Grammar, p: Parser, header: string)
    requires SplitHeader(header).0 == "call" && g.open != g.close && p.state.Call?
    ensures var (q, out) := Element(g, p, g.close, header);
            && q.state.Tools? && q.emitted == p.emitted
            && Observed(out) == if p.callName == "" then [] else [CallAtom(ToolCall(p.callName, p.arguments))]
  {
    assert Observed([Called(ToolCall(p.callName, p.arguments))]) == [CallAtom(ToolCall(p.callName, p.arguments))];
  }

  lemma CallRead(m: Machine, g: Grammar, p: Parser, call: PrintedCall, rest: string) returns (q: Parser)
    requires Printable(g) && Models(m, g) && InContainer(p.state) && CanPrintCall(g, call)
    requires p.pending == PrintCall(g, call, rest)
    ensures Loop.Leads(m, p, CallAtoms(CallMeant(call)), q) && q.pending == rest && q.emitted == p.emitted
    ensures if call.closed then q.state.Tools? else q.state.Call?
  {
    var after := CallBody(m, g, p, call, PrintCallEnd(g, call, rest));
    q := after;
    if call.closed {
      q := CallCloses(m, g, after, call.end, rest);
      var out := CallAtoms(CallMeant(call));
      Loop.LeadsThen(m, p, [], after, out, q);
      assert [] + out == out;
    }
  }

  lemma CallBody(m: Machine, g: Grammar, p: Parser, call: PrintedCall, tail: string) returns (q: Parser)
    requires Printable(g) && Models(m, g) && InContainer(p.state) && CanPrintCall(g, call)
    requires p.pending == PrintGap(g, call.gap, Tag(g, g.open, CallHeader(call.name)) + PrintArguments(g, call.arguments, tail))
    ensures Loop.Leads(m, p, [], q) && q.state.Call? && q.pending == tail && q.emitted == p.emitted
    ensures q.callName == call.name && q.arguments == Stored([], call.arguments)
  {
    var inside := CallOpens(m, g, p, call, PrintArguments(g, call.arguments, tail));
    q := ArgumentsRead(m, g, inside, call.arguments, tail);
    Loop.LeadsThen(m, p, [], inside, [], q);
  }

  lemma NameIsPlain(g: Grammar, name: string)
    requires Printable(g) && '<' !in name
    ensures !Contains(name, [g.sep])
  {
    forall i: nat
      ensures !OccursAt(name, i, g.sep)
    {
      if i + |g.sep| <= |name| { assert name[i..i + |g.sep|][0] == name[i]; }
    }
  }

  /** Whether the last call is left open. */
  predicate EndsOpen(calls: seq<PrintedCall>) { calls != [] && !calls[|calls| - 1].closed }

  lemma {:induction false} CallsRead(m: Machine, g: Grammar, p: Parser, calls: seq<PrintedCall>, rest: string)
    returns (q: Parser)
    requires Printable(g) && Models(m, g) && InContainer(p.state) && p.pending == PrintCalls(g, calls, rest)
    requires forall call | call in calls :: CanPrintCall(g, call)
    ensures Loop.Leads(m, p, CallAtoms(CallsMeant(calls)), q) && q.pending == rest && q.emitted == p.emitted
    ensures if calls == [] then q == p else if EndsOpen(calls) then q.state.Call? else q.state.Tools?
    decreases |calls|
  {
    if calls == [] {
      q := p;
    } else {
      assert calls[0] in calls && forall call | call in calls[1..] :: call in calls;
      var mid := CallRead(m, g, p, calls[0], PrintCalls(g, calls[1..], rest));
      q := CallsRead(m, g, mid, calls[1..], rest);
      CallAtomsJoin(CallMeant(calls[0]), CallsMeant(calls[1..]));
      Loop.LeadsThen(m, p, CallAtoms(CallMeant(calls[0])), mid, CallAtoms(CallsMeant(calls[1..])), q);
    }
  }

  lemma CallAtomsJoin(a: seq<ToolCall>, b: seq<ToolCall>)
    ensures CallAtoms(a + b) == CallAtoms(a) + CallAtoms(b)
  {
  }
}
