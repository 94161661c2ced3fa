/** The stream parser as the object the server holds: it updates its fields in place, and
    every method is tied to the transition functions of K3Parser. */
module K3StreamParser {
  import opened Sequences
  import opened Patterns
  import opened XtmlText
  import K3Parser
  import K3Chunks
  import opened K3Types = K3Parser

  /** `_overlap`: the longest suffix of `text` that is a proper prefix of a marker. */
  method Overlap(text: string, markers: seq<string>) returns (longest: nat)
    ensures IsHoldback(text, markers, longest)
  {
    longest := 0;
    for i := 0 to |markers|
      invariant IsHoldback(text, markers[..i], longest)
    {
      var marker := markers[i];
      ghost var before := longest;
      var size := if |text| < |marker| - 1 then |text| else |marker| - 1;
      while size > longest
        invariant longest == before && size <= |text| && size < |marker|
        invariant forall j: nat | size < j <= |text| && j < |marker| :: text[|text| - j..] != marker[..j]
      {
        if text[|text| - size..] == marker[..size] {
          longest := size;
          break;
        }
        size := size - 1;
      }
      HoldbackGrows(text, markers[..i], marker, before, longest);
      assert markers[..i + 1] == markers[..i] + [marker];
    }
    assert markers[..|markers|] == markers;
  }

  lemma HoldbackGrows(text: string, markers: seq<string>, marker: string, before: nat, longest: nat)
    requires IsHoldback(text, markers, before) && before <= longest <= |text|
    requires longest == before || (longest < |marker| && text[|text| - longest..] == marker[..longest])
    requires forall j: nat | longest < j <= |text| && j < |marker| :: text[|text| - j..] != marker[..j]
    ensures IsHoldback(text, markers + [marker], longest)
  {
    var more := markers + [marker];
    forall j: nat | j <= |text|
      ensures HeldSuffix(text, more, j) <==>
              HeldSuffix(text, markers, j) || (j < |marker| && text[|text| - j..] == marker[..j])
    {
      if HeldSuffix(text, markers, j) {
        var s :| s in markers && j < |s| && text[|text| - j..] == s[..j];
        assert s in more;
      }
      if j < |marker| && text[|text| - j..] == marker[..j] { assert marker in more; }
    }
  }

  /** All markers found, and the least of the (position, marker) pairs. */
  method FirstFound(text: string, markers: seq<string>) returns (first: Option<(nat, string)>)
    ensures first.None? ==> !Contains(text, markers)
    ensures first.Some? ==> first.value.1 in markers && OccursAt(text, first.value.0, first.value.1)
    ensures first.Some? ==> forall j | 0 <= j < first.value.0 :: !AnyAt(text, j, markers)
  {
    first := None;
    for i := 0 to |markers|
      invariant first.None? ==> forall j, s | 0 <= j <= |text| && s in markers[..i] :: !OccursAt(text, j, s)
      invariant first.Some? ==> first.value.1 in markers && OccursAt(text, first.value.0, first.value.1)
      invariant first.Some? ==> forall j, s | 0 <= j < first.value.0 && s in markers[..i] :: !OccursAt(text, j, s)
    {
      var position := Find(text, markers[i]);
      FindSpec(text, markers[i]);
      if position.Some? && (first.None? || position.value < first.value.0) {
        first := Some((position.value, markers[i]));
      }
      assert markers[..i + 1] == markers[..i] + [markers[i]];
    }
    assert markers[..|markers|] == markers;
  }

  /** Where the plain text at the head of `text` ends: at the first marker found, else at
      the held-back suffix. */
  method PlainEnd(text: string, markers: seq<string>) returns (at: nat, found: Option<string>)
    requires Separated(markers)
    ensures (at, found) == Locate(text, markers)
  {
    var first := FirstFound(text, markers);
    if first.Some? {
      FirstFoundIsLocate(text, markers, first.value.0, first.value.1);
      return first.value.0, Some(first.value.1);
    }
    var keep := Overlap(text, markers);
    NoneFoundIsLocate(text, markers, keep);
    return |text| - keep, None;
  }

  lemma FindSpec(text: string, pat: string)
    ensures Find(text, pat).Some? ==> OccursAt(text, Find(text, pat).value, pat)
    ensures forall j | 0 <= j <= |text| && (Find(text, pat).Some? ==> j < Find(text, pat).value) :: !OccursAt(text, j, pat)
  {
    EarliestSpec(text, [pat], 0, Find(text, pat));
    forall j
      ensures AnyAt(text, j, [pat]) == OccursAt(text, j, pat)
    {
      assert pat in [pat];
    }
  }

  class KimiK3StreamParser {
    const grammar: Grammar
    var state: State
    var pending: string
    var reasoningEmitted: bool
    var callName: string
    var arguments: Arguments
    var argumentAttrs: Attributes
    var argumentParts: seq<string>

    ghost function Model(): Parser
      reads this
    {
      Parser(state, pending, reasoningEmitted, callName, arguments, argumentAttrs, Concat(argumentParts))
    }

    constructor (grammar: Grammar, reasoningOpen: bool)
      ensures this.grammar == grammar && Model() == Initial(reasoningOpen)
    {
      this.grammar := grammar;
      state := if reasoningOpen then Think else Start;
      pending := "";
      reasoningEmitted := false;
      callName := "";
      arguments := [];
      argumentAttrs := map[];
      argumentParts := [];
    }

    /** `_text` */
    method Text(text: string) returns (events: seq<Delta>)
      modifies this
      ensures (Model(), events) == Say(old(Model()), text)
    {
      if text == "" { return []; }
      if state.Think? {
        reasoningEmitted := true;
        return [Reasoning(text)];
      }
      if state.Start? || state.Between? {
        if Blank(text) { return []; }
        state := Response;
      }
      return [Content(text)];
    }

    /** The framing markers of the current channel. */
    method Transitions() returns (markers: seq<string>)
      requires grammar.WellFormed()
      ensures markers == Active(grammar, Model()) && Separated(markers)
    {
      var g := grammar;
      markers := [g.messageClose, g.endOfMessage, g.toolsOpen];
      if state.Think? {
        markers := markers + [g.thinkClose, g.responseOpen];
        if !reasoningEmitted { markers := markers + [g.thinkOpen]; }
      } else if state.Response? {
        markers := markers + [g.responseClose];
      } else {
        markers := markers + [g.thinkOpen, g.thinkClose, g.responseOpen, g.responseClose];
      }
      assert markers == Active(grammar, Model());
      ActiveSeparated(grammar, Model());
    }

    method ChannelStep() returns (events: seq<Delta>, progressed: bool)
      requires grammar.WellFormed() && InChannel(state)
      modifies this
      ensures Step(Model(), events, progressed) == StepOnce(grammar, old(Model()))
    {
      var transitions := Transitions();
      var at, found := PlainEnd(pending, transitions);
      K3Chunks.ChannelIs(grammar, Model(), at, found);
      events, progressed := CutChannel(at, found);
    }

    method CutChannel(at: nat, found: Option<string>) returns (events: seq<Delta>, progressed: bool)
      requires InChannel(state) && at <= |pending|
      requires found.Some? ==> OccursAt(pending, at, found.value) && found.value != ""
      modifies this
      ensures Step(Model(), events, progressed) == CutAt(grammar, old(Model()), at, found)
    {
      var outside := state.Start? || state.Between?;
      var prefix := pending[..at];
      if found.Some? {
        if outside && !Blank(prefix) {
          pending := pending[at..];
          events := Text(prefix);
          return events, true;
        }
        events := Text(prefix);
        pending := pending[at + |found.value|..];
        state := Target(grammar, found.value);
        return events, true;
      }
      if at == 0 || (outside && Blank(prefix)) {
        return [], false;
      }
      pending := pending[at..];
      events := Text(prefix);
      progressed := true;
    }

    method ArgumentStep() returns (events: seq<Delta>, progressed: bool)
      requires grammar.WellFormed() && state.Argument?
      modifies this
      ensures Step(Model(), events, progressed) == StepOnce(grammar, old(Model()))
    {
      var at, found := PlainEnd(pending, [grammar.argumentClose]);
      events := [];
      progressed := CutArgument(at, if found.Some? then |grammar.argumentClose| else 0);
    }

    method CutArgument(at: nat, closer: nat) returns (progressed: bool)
      requires at + closer <= |pending|
      modifies this
      ensures Step(Model(), [], progressed) == ArgumentAt(old(Model()), at, closer)
    {
      ConcatAppends(argumentParts, pending[..at]);
      argumentParts := argumentParts + [pending[..at]];
      pending := pending[at + closer..];
      if closer == 0 {
        return at > 0;
      }
      var raw := Concat(argumentParts);
      var key := Lookup(argumentAttrs, "key", "");
      if key != "" {
        arguments := Put(arguments, key, Value(raw, Lookup(argumentAttrs, "type", "string") != "string"));
      }
      argumentParts := [];
      state := Call;
      progressed := true;
    }

    method ContainerStep() returns (events: seq<Delta>, progressed: bool)
      requires grammar.WellFormed() && (state.Tools? || state.Call?)
      modifies this
      ensures Step(Model(), events, progressed) == StepOnce(grammar, old(Model()))
    {
      var at, found := PlainEnd(pending, grammar.ContainerMarkers());
      K3Chunks.ContainerIs(grammar, Model(), at, found);
      K3Chunks.ContainerIgnoresPending(grammar, Model(), pending[at..], pending[at..], found);
      pending := pending[at..];
      if found.None? {
        return [], false;
      }
      events, progressed := ElementStep(found.value);
    }

    method ElementStep(marker: string) returns (events: seq<Delta>, progressed: bool)
      requires marker <= pending && marker != "" && grammar.sep != ""
      modifies this
      ensures Step(Model(), events, progressed) == K3Parser.ElementStep(grammar, old(Model()), old(pending), marker)
    {
      if marker == grammar.endOfMessage {
        state := Done;
        pending := "";
        return [], true;
      }
      var end := FindFrom(pending, grammar.sep, |marker|);
      if end.None? {
        return [], false;
      }
      var header, rest := pending[|marker|..end.value], pending[end.value + |grammar.sep|..];
      events := Element(marker, header);
      pending := rest;
      progressed := true;
    }

    /** What one complete element header does inside the container. */
    method Element(marker: string, header: string) returns (events: seq<Delta>)
      modifies this
      ensures (Model(), events) == K3Parser.Element(grammar, old(Model()), marker, header)
    {
      events := [];
      var (name, rest) := SplitHeader(header);
      var attrs := grammar.attrs(rest);
      if marker == grammar.open && name == "call" {
        callName := Lookup(attrs, "tool", "");
        arguments := [];
        state := Call;
      } else if state.Call? && marker == grammar.open && name == "argument" {
        argumentAttrs := attrs;
        argumentParts := [];
        state := Argument;
      } else if state.Call? && marker == grammar.close && name == "call" {
        state := Tools;
        if callName != "" {
          events := [Called(ToolCall(callName, arguments))];
          callName := "";
          arguments := [];
        }
      } else if marker == grammar.close && name == "tools" {
        state := Between;
        callName := "";
        arguments := [];
      } else if marker == grammar.close && name == "message" {
        state := Done;
      }
    }

    method Feed(delta: string) returns (events: seq<Delta>)
      requires grammar.WellFormed()
      modifies this
      ensures (Model(), events) == K3Parser.Feed(grammar, old(Model()), delta)
    {
      pending := pending + delta;
      events := [];
      ghost var result := Run(grammar, Model());
      while pending != ""
        invariant Remains(grammar, Model(), events, result)
        decreases |pending|
      {
        if state.Done? {
          RemainsNothing(grammar, Model(), events, result);
          pending := "";
          return;
        }
        ghost var before, said := Model(), events;
        var more, progressed := StepAny();
        events := events + more;
        RemainsAfterStep(grammar, before, said, result, Step(Model(), more, progressed));
        if !progressed { return; }
      }
      RemainsNothing(grammar, Model(), events, result);
    }

    method StepAny() returns (events: seq<Delta>, progressed: bool)
      requires grammar.WellFormed() && !state.Done?
      modifies this
      ensures Step(Model(), events, progressed) == StepOnce(grammar, old(Model()))
    {
      if state.Argument? {
        events, progressed := ArgumentStep();
      } else if state.Tools? || state.Call? {
        events, progressed := ContainerStep();
      } else {
        events, progressed := ChannelStep();
      }
    }

    method Finish() returns (events: seq<Delta>)
      modifies this
      ensures (Model(), events) == K3Parser.Finish(old(Model()))
    {
      events := [];
      if InChannel(state) && !("<|" <= pending) {
        events := Text(pending);
      }
      pending := "";
      argumentParts := [];
      arguments := [];
      state := Done;
    }
  }

  /** What the loop still has to do from `p` completes `events` to `result`. */
  ghost predicate Remains(g: Grammar, p: Parser, events: seq<Delta>, result: (Parser, seq<Delta>))
    requires g.WellFormed()
  {
    result.0 == Run(g, p).0 && result.1 == events + Run(g, p).1
  }

  lemma RunStep(g: Grammar, p: Parser, s: Step)
    requires g.WellFormed() && p.pending != "" && s == StepOnce(g, p)
    ensures s.progressed ==> Run(g, p).0 == Run(g, s.parser).0 && Run(g, p).1 == s.deltas + Run(g, s.parser).1
    ensures !s.progressed ==> Run(g, p).0 == s.parser && Run(g, p).1 == s.deltas
  {
  }

  lemma RemainsAfterStep(g: Grammar, p: Parser, events: seq<Delta>, result: (Parser, seq<Delta>), s: Step)
    requires g.WellFormed() && p.pending != "" && Remains(g, p, events, result) && s == StepOnce(g, p)
    ensures s.progressed ==> Remains(g, s.parser, events + s.deltas, result)
    ensures !s.progressed ==> result == (s.parser, events + s.deltas)
  {
    RunStep(g, p, s);
    Associates(events, s.deltas, Run(g, s.parser).1);
  }

  lemma RemainsNothing(g: Grammar, p: Parser, events: seq<Delta>, result: (Parser, seq<Delta>))
    requires g.WellFormed() && Remains(g, p, events, result) && (p.pending == "" || p.state.Done?)
    ensures result == (p.(pending := ""), events)
  {
    if p.pending != "" { RunStep(g, p, StepOnce(g, p)); }
    assert events + [] == events;
  }

  lemma {:induction false} ConcatAppends(parts: seq<string>, part: string)
    ensures Concat(parts + [part]) == Concat(parts) + part
  {
    if parts == [] {
      assert parts + [part] == [part] && Concat([part]) == part + "";
    } else {
      assert (parts + [part])[1..] == parts[1..] + [part];
      ConcatAppends(parts[1..], part);
    }
  }
}
