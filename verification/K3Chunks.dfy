/** Chunk invariance of the K3 stream parser: how the text is cut into feeds does not
    matter, except for one corner, which is characterised exactly. */
module K3Chunks {
  import opened Patterns
  import opened XtmlText
  import opened K3Parser
  import Loop = StreamLoop

  /** A redundant think opener comes next, after reasoning text not emitted yet. */
  predicate OpenerNext(g: Grammar, p: Parser) {
    p.state.Think? && !p.emitted &&
    Locate(p.pending, Active(g, p)).0 > 0 && Locate(p.pending, Active(g, p)).1 == Some(g.thinkOpen)
  }

  function AtomStep(g: Grammar, p: Parser): Loop.Step<Parser, Atom>
    requires g.WellFormed()
  {
    var s := StepOnce(g, p);
    Loop.Step(s.parser, Observed(s.deltas), s.progressed)
  }

  type Machine = Loop.Machine<Parser, Atom>

  /** `m` is the loop of the parser. Its steps are only looked at where they are named. */
  ghost predicate Models(m: Machine, g: Grammar)
    requires g.WellFormed()
  {
    && m.Shrinks()
    && forall p {:trigger AtomStep(g, p)} ::
         m.step(p) == AtomStep(g, p) && m.size(p) == |p.pending| && m.flaw(p) == OpenerNext(g, p)
  }

  ghost function LoopOf(g: Grammar): (m: Machine)
    requires g.WellFormed()
    ensures Models(m, g)
  {
    Loop.Machine(p => AtomStep(g, p), (p: Parser) => |p.pending|, p => OpenerNext(g, p))
  }

  // ---- single steps ----

  /** A step from `p` shows `out` more than a step from `q`, and then they agree. */
  ghost predicate Meets(g: Grammar, p: Parser, out: seq<Atom>, q: Parser)
    requires g.WellFormed()
  {
    var s, t := AtomStep(g, p), AtomStep(g, q);
    || (s.progressed && s.parser == q && s.out == out && !OpenerNext(g, p))
    || (s.progressed == t.progressed && s.parser == t.parser && s.out == out + t.out
        && OpenerNext(g, p) == OpenerNext(g, q))
  }

  lemma MeetsLeads(m: Machine, g: Grammar, p: Parser, out: seq<Atom>, q: Parser)
    requires g.WellFormed() && Models(m, g) && Meets(g, p, out, q)
    ensures Loop.Leads(m, p, out, q)
  {
    assert m.step(p) == AtomStep(g, p) && m.step(q) == AtomStep(g, q);
    if m.step(p).progressed && m.step(p).parser == q && m.step(p).out == out && !m.flaw(p) {
      Loop.StepLeads(m, p);
    } else {
      Loop.StepsMeet(m, p, out, q);
    }
  }

  lemma SayAppends(p: Parser, a: string, b: string)
    requires p.state.Response? || p.state.Think?
    ensures Say(p, a + b).0 == Say(Say(p, a).0, b).0
    ensures Observed(Say(p, a + b).1) == Observed(Say(p, a).1) + Observed(Say(Say(p, a).0, b).1)
  {
    if a == "" {
      assert a + b == b;
    } else if b == "" {
      assert a + b == a;
    } else if p.state.Think? {
      assert Atoms(Reasoning(a + b)) == Atoms(Reasoning(a)) + Atoms(Reasoning(b));
    } else {
      assert Atoms(Content(a + b)) == Atoms(Content(a)) + Atoms(Content(b));
    }
  }

  /** A channel in which saying text changes nothing. */
  predicate Steady(p: Parser) {
    p.state.Response? || (p.state.Think? && p.emitted)
  }

  /** In a steady channel, text that cannot be framing is simply said. */
  lemma Absorb(g: Grammar, p: Parser, head: string, text: string)
    requires g.WellFormed() && Steady(p) && p.pending == head + text && head != ""
    requires |head| <= Locate(head + text, Active(g, p)).0
    ensures Meets(g, p, Observed(Say(p, head).1), p.(pending := text))
  {
    var pats := Active(g, p);
    ActiveSeparated(g, p);
    LocateDrops(head, text, pats);
    var (at, found) := Locate(text, pats);
    var q := p.(pending := text);
    ChannelIs(g, p, |head| + at, found);
    ChannelIs(g, q, at, found);
    AbsorbCut(g, p, head, text, at, found);
  }

  lemma ChannelIs(g: Grammar, p: Parser, at: nat, found: Option<string>)
    requires g.WellFormed() && InChannel(p.state) && Locate(p.pending, Active(g, p)) == (at, found)
    ensures found.Some? ==> found.value != ""
    ensures StepOnce(g, p) == CutAt(g, p, at, found)
  {
    ActiveSeparated(g, p);
  }

  lemma AbsorbCut(g: Grammar, p: Parser, head: string, text: string, at: nat, found: Option<string>)
    requires Steady(p) && p.pending == head + text && head != "" && at <= |text|
    requires found.Some? ==> OccursAt(text, at, found.value) && found.value != ""
    requires found.Some? ==> OccursAt(head + text, |head| + at, found.value)
    ensures var s, t := CutAt(g, p, |head| + at, found), CutAt(g, p.(pending := text), at, found);
            var out := Observed(Say(p, head).1);
            || (s.progressed && s.parser == p.(pending := text) && Observed(s.deltas) == out)
            || (s.progressed && t.progressed && s.parser == t.parser && Observed(s.deltas) == out + Observed(t.deltas))
  {
    assert (head + text)[..|head| + at] == head + text[..at];
    SayAppends(p, head, text[..at]);
    var n := if found.Some? then |found.value| else 0;
    assert (head + text)[|head| + at + n..] == text[at + n..];
  }

  // ---- a step and its counterpart on a longer pending text ----

  /** The step of a channel in which a marker was found, or nothing could be said. */
  lemma ChannelFound(g: Grammar, p: Parser, more: string)
    requires g.WellFormed() && InChannel(p.state) && !OpenerNext(g, Extend(p, more))
    requires Locate(p.pending, Active(g, p)).1.Some? || !StepOnce(g, p).progressed
    ensures Meets(g, Extend(p, more), AtomStep(g, p).out, Extend(AtomStep(g, p).parser, more))
  {
    var pats := Active(g, p);
    var (at, found) := Locate(p.pending, pats);
    if found.Some? {
      assert Locate(p.pending + more, pats) == (at, found) by {
        ActiveSeparated(g, p);
        LocateExtends(p.pending, more, pats);
      }
      ChannelIs(g, p, at, found);
      ChannelIs(g, Extend(p, more), at, found);
      CutExtends(g, p, more, at, found);
    }
  }

  lemma CutExtends(g: Grammar, p: Parser, more: string, at: nat, found: Option<string>)
    requires InChannel(p.state) && found.Some? && found.value != ""
    requires OccursAt(p.pending, at, found.value) && OccursAt(p.pending + more, at, found.value)
    ensures var s, t := CutAt(g, p, at, found), CutAt(g, Extend(p, more), at, found);
            s.progressed && t == s.(parser := Extend(s.parser, more))
  {
    var text := p.pending;
    assert (text + more)[..at] == text[..at];
    assert (text + more)[at..] == text[at..] + more;
    var n := at + |found.value|;
    assert (text + more)[n..] == text[n..] + more;
  }

  /** A channel that says plain text: saying its first part beforehand comes to the same. */
  lemma SaySteady(m: Machine, g: Grammar, p: Parser, head: string, rest: string)
    requires g.WellFormed() && Models(m, g) && Steady(p) && p.pending == head + rest
    requires |head| <= Locate(head + rest, Active(g, p)).0
    ensures Loop.Leads(m, p, Observed(Say(p, head).1), p.(pending := rest))
  {
    if head == "" {
      assert head + rest == rest;
      assert Meets(g, p, [], p);
    } else {
      Absorb(g, p, head, rest);
    }
    MeetsLeads(m, g, p, Observed(Say(p, head).1), p.(pending := rest));
  }

  /** Saying the first part turns `p` into a steady channel. */
  predicate Settles(p: Parser, head: string) {
    head != "" && ((Outside(p.state) && !Blank(head)) || (p.state.Think? && !p.emitted))
  }

  function Said(p: Parser, head: string, rest: string): Parser {
    Say(p, head).0.(pending := rest)
  }

  lemma SaySettles(m: Machine, g: Grammar, p: Parser, head: string, rest: string)
    requires g.WellFormed() && Models(m, g) && Settles(p, head) && p.pending == head + rest && !OpenerNext(g, p)
    requires |head| <= Locate(head + rest, Active(g, p)).0
    ensures Loop.Leads(m, p, Observed(Say(p, head).1), Said(p, head, rest))
  {
    var at := Locate(head + rest, Active(g, p)).0;
    var b := rest[..at - |head|];
    var c := rest[at - |head|..];
    assert head + rest == (head + b) + c && rest == b + c;
    SettledBounds(g, p, head, rest, b, c);
    SaySettlesAt(m, g, p, head, b, c);
  }

  lemma SaySettlesAt(m: Machine, g: Grammar, p: Parser, head: string, b: string, c: string)
    requires g.WellFormed() && Models(m, g) && Settles(p, head) && p.pending == (head + b) + c && !OpenerNext(g, p)
    requires Locate((head + b) + c, Active(g, p)).0 == |head + b|
    requires |b| <= Locate(b + c, Active(g, Said(p, head, b + c))).0
    ensures Loop.Leads(m, p, Observed(Say(p, head).1), Said(p, head, b + c))
  {
    var q := Said(p, head, b + c);
    SettledSays(p, head, b);
    SaySteady(m, g, q, b, c);
    SettledStep(m, g, p, head + b, c);
    assert q.(pending := c) == Said(p, head + b, c);
    Loop.LeadsBack(m, p, Observed(Say(p, head).1), Observed(Say(q, b).1), q, q.(pending := c));
  }

  lemma SettledSays(p: Parser, head: string, b: string)
    requires Settles(p, head)
    ensures Settles(p, head + b) && Steady(Say(p, head).0)
    ensures Say(p, head + b).0 == Say(p, head).0
    ensures Observed(Say(p, head + b).1) == Observed(Say(p, head).1) + Observed(Say(Say(p, head).0, b).1)
  {
    if p.state.Think? {
      SayAppends(p, head, b);
    } else {
      var k :| 0 <= k < |head| && !IsSpace(head[k]);
      assert (head + b)[k] == head[k];
      SayAppends(p.(state := Response), head, b);
    }
  }

  /** The markers that remain active after settling were active before. */
  lemma SettledBounds(g: Grammar, p: Parser, head: string, rest: string, b: string, c: string)
    requires g.WellFormed() && Settles(p, head) && rest == b + c
    requires |head + b| <= Locate(head + rest, Active(g, p)).0
    ensures |b| <= Locate(rest, Active(g, Said(p, head, rest))).0
  {
    var few, many := Active(g, Said(p, head, rest)), Active(g, p);
    ActiveSeparated(g, p);
    LocateFewer(head + rest, few, many);
    LocateDrops(head, rest, few);
  }

  lemma SettledStep(m: Machine, g: Grammar, p: Parser, t: string, c: string)
    requires g.WellFormed() && Models(m, g) && Settles(p, t) && p.pending == t + c && !OpenerNext(g, p)
    requires Locate(t + c, Active(g, p)).0 == |t|
    ensures Loop.Leads(m, p, Observed(Say(p, t).1), Said(p, t, c))
  {
    var found := Locate(t + c, Active(g, p)).1;
    assert (t + c)[..|t|] == t && (t + c)[|t|..] == c;
    ChannelIs(g, p, |t|, found);
    if found.Some? && p.state.Think? {
      MarkerAfterSaying(g, p, t, c);
      var q := Said(p, t, c);
      ChannelIs(g, q, 0, found);
      assert (t + c)[|t| + |found.value|..] == c[|found.value|..];
    }
    MeetsLeads(m, g, p, Observed(Say(p, t).1), Said(p, t, c));
  }

  /** A marker other than the opener is still framing once reasoning has been said. */
  lemma MarkerAfterSaying(g: Grammar, p: Parser, t: string, c: string)
    requires g.WellFormed() && p.state.Think? && Settles(p, t) && p.pending == t + c && !OpenerNext(g, p)
    requires Locate(t + c, Active(g, p)).0 == |t| && Locate(t + c, Active(g, p)).1.Some?
    ensures Locate(c, Active(g, Said(p, t, c))) == (0, Locate(t + c, Active(g, p)).1)
  {
    var few, many := Active(g, Said(p, t, c)), Active(g, p);
    assert Locate(t + c, many).1.value != g.thinkOpen;
    ActiveSeparated(g, p);
    LocateFewer(t + c, few, many);
    LocateDrops(t, c, few);
  }

  lemma ChannelExtends(m: Machine, g: Grammar, p: Parser, more: string)
    requires g.WellFormed() && Models(m, g) && InChannel(p.state) && !OpenerNext(g, Extend(p, more))
    ensures Loop.Leads(m, Extend(p, more), AtomStep(g, p).out, Extend(AtomStep(g, p).parser, more))
  {
    var (at, found) := Locate(p.pending, Active(g, p));
    if found.Some? || !StepOnce(g, p).progressed {
      ChannelFound(g, p, more);
      MeetsLeads(m, g, Extend(p, more), AtomStep(g, p).out, Extend(AtomStep(g, p).parser, more));
    } else {
      var head, rest := p.pending[..at], p.pending[at..] + more;
      assert p.pending + more == head + rest;
      assert at <= Locate(p.pending + more, Active(g, p)).0 by {
        ActiveSeparated(g, p);
        LocateExtends(p.pending, more, Active(g, p));
      }
      if Steady(p) {
        SaySteady(m, g, Extend(p, more), head, rest);
      } else {
        SaySettles(m, g, Extend(p, more), head, rest);
      }
    }
  }

  /** An unfinished argument: text moved to the argument early or late is the same text. */
  lemma ArgumentExtends(g: Grammar, p: Parser, more: string)
    requires g.WellFormed() && p.state.Argument?
    ensures Meets(g, Extend(p, more), AtomStep(g, p).out, Extend(AtomStep(g, p).parser, more))
  {
    var pats := [g.argumentClose];
    var (at, found) := Locate(p.pending, pats);
    var head, rest := p.pending[..at], p.pending[at..] + more;
    LocateExtends(p.pending, more, pats);
    if found.Some? {
      ArgumentIs(g, p, at, found);
      ArgumentIs(g, Extend(p, more), at, found);
      ArgumentEnds(p, at, |g.argumentClose|, more);
    } else {
      ArgumentIs(g, p, at, found);
      assert p.pending + more == head + rest;
      LocateDrops(head, rest, pats);
      ArgumentWaits(g, Extend(p, more), head, rest, Locate(rest, pats).0, Locate(rest, pats).1);
    }
  }

  lemma ArgumentIs(g: Grammar, p: Parser, at: nat, found: Option<string>)
    requires g.WellFormed() && p.state.Argument? && Locate(p.pending, [g.argumentClose]) == (at, found)
    ensures at + (if found.Some? then |g.argumentClose| else 0) <= |p.pending| && g.argumentClose != ""
    ensures AtomStep(g, p).parser == ArgumentAt(p, at, if found.Some? then |g.argumentClose| else 0).parser
    ensures AtomStep(g, p).progressed == ArgumentAt(p, at, if found.Some? then |g.argumentClose| else 0).progressed
    ensures AtomStep(g, p).out == []
  {
    assert found.Some? ==> found.value == g.argumentClose;
  }

  lemma ArgumentEnds(p: Parser, at: nat, closer: nat, more: string)
    requires 0 < closer && at + closer <= |p.pending|
    ensures var s, t := ArgumentAt(p, at, closer), ArgumentAt(Extend(p, more), at, closer);
            s.progressed && t == s.(parser := Extend(s.parser, more))
  {
    var text := p.pending;
    assert (text + more)[..at] == text[..at];
    assert (text + more)[at + closer..] == text[at + closer..] + more;
  }

  lemma ArgumentWaits(g: Grammar, p: Parser, head: string, rest: string, at: nat, found: Option<string>)
    requires g.WellFormed() && p.state.Argument? && p.pending == head + rest
    requires Locate(rest, [g.argumentClose]) == (at, found)
    requires Locate(head + rest, [g.argumentClose]) == (|head| + at, found)
    ensures Meets(g, p, [], p.(raw := p.raw + head, pending := rest))
  {
    var closer := if found.Some? then |g.argumentClose| else 0;
    var q := p.(raw := p.raw + head, pending := rest);
    ArgumentIs(g, p, |head| + at, found);
    ArgumentIs(g, q, at, found);
    ArgumentMoves(p, head, rest, at, closer);
  }

  lemma ArgumentMoves(p: Parser, head: string, rest: string, at: nat, closer: nat)
    requires p.pending == head + rest && at + closer <= |rest|
    ensures var q := p.(raw := p.raw + head, pending := rest);
            var s, t := ArgumentAt(p, |head| + at, closer), ArgumentAt(q, at, closer);
            s.parser == t.parser && s.deltas == t.deltas &&
            if s.progressed == t.progressed then true else s.progressed && s.parser == q
  {
    assert p.raw + (head + rest)[..|head| + at] == (p.raw + head) + rest[..at];
    assert (head + rest)[|head| + at + closer..] == rest[at + closer..];
  }

  lemma ContainerExtends(m: Machine, g: Grammar, p: Parser, more: string)
    requires g.WellFormed() && Models(m, g) && (p.state.Tools? || p.state.Call?)
    ensures Loop.Leads(m, Extend(p, more), AtomStep(g, p).out, Extend(AtomStep(g, p).parser, more))
  {
    var pats := g.ContainerMarkers();
    var (at, found) := Locate(p.pending, pats);
    var rest := p.pending[at..];
    LocateExtends(p.pending, more, pats);
    assert (p.pending + more)[at..] == rest + more;
    if found.Some? && found.value == g.endOfMessage {
      assert AtomStep(g, p) == Loop.Step(p.(state := Done, pending := ""), [], true);
      assert "" + more == more;
      MessageEnds(m, g, Extend(p, more), more);
    } else {
      ContainerMeets(g, p, more);
      MeetsLeads(m, g, Extend(p, more), AtomStep(g, p).out, Extend(AtomStep(g, p).parser, more));
    }
  }

  lemma ContainerMeets(g: Grammar, p: Parser, more: string)
    requires g.WellFormed() && (p.state.Tools? || p.state.Call?)
    requires Locate(p.pending, g.ContainerMarkers()).1 != Some(g.endOfMessage)
    ensures Meets(g, Extend(p, more), AtomStep(g, p).out, Extend(AtomStep(g, p).parser, more))
  {
    var (at, found) := Locate(p.pending, g.ContainerMarkers());
    var rest := p.pending[at..];
    LocateExtends(p.pending, more, g.ContainerMarkers());
    ContainerIs(g, p, at, found);
    if found.Some? && FindFrom(rest, g.sep, |found.value|).Some? {
      ContainerFinds(g, p, more, at, found.value);
      StableMeets(g, p, more);
    } else {
      assert p.pending + more == p.pending[..at] + (rest + more);
      ContainerWaits(g, Extend(p, more), p.pending[..at], rest + more);
      SameMeets(g, Extend(p, more), p.(pending := rest + more));
    }
  }

  lemma StableMeets(g: Grammar, p: Parser, more: string)
    requires g.WellFormed() && !OpenerNext(g, Extend(p, more)) && StepOnce(g, p).progressed
    requires StepOnce(g, Extend(p, more)) == StepOnce(g, p).(parser := Extend(StepOnce(g, p).parser, more))
    ensures Meets(g, Extend(p, more), AtomStep(g, p).out, Extend(AtomStep(g, p).parser, more))
  {
  }

  lemma SameMeets(g: Grammar, p: Parser, q: Parser)
    requires g.WellFormed() && !OpenerNext(g, p) && !OpenerNext(g, q) && StepOnce(g, p) == StepOnce(g, q)
    ensures Meets(g, p, [], q)
  {
  }

  lemma ContainerFinds(g: Grammar, p: Parser, more: string, at: nat, marker: string)
    requires g.WellFormed() && (p.state.Tools? || p.state.Call?) && marker != g.endOfMessage
    requires Locate(p.pending, g.ContainerMarkers()) == (at, Some(marker))
    requires Locate(p.pending + more, g.ContainerMarkers()) == (at, Some(marker))
    requires marker <= p.pending[at..] && FindFrom(p.pending[at..], g.sep, |marker|).Some?
    ensures var s := StepOnce(g, p); s.progressed && StepOnce(g, Extend(p, more)) == s.(parser := Extend(s.parser, more))
  {
    assert (p.pending + more)[at..] == p.pending[at..] + more;
    ContainerIs(g, p, at, Some(marker));
    ContainerIs(g, Extend(p, more), at, Some(marker));
    ElementExtends(g, p, p.pending[at..], more, marker);
  }

  /** Text before the first marker, or before an unfinished header, is dropped either way. */
  lemma ContainerWaits(g: Grammar, p: Parser, head: string, rest: string)
    requires g.WellFormed() && (p.state.Tools? || p.state.Call?) && p.pending == head + rest
    requires |head| <= Locate(p.pending, g.ContainerMarkers()).0
    ensures StepOnce(g, p) == StepOnce(g, p.(pending := rest))
  {
    LocateDrops(head, rest, g.ContainerMarkers());
    var (at, found) := Locate(rest, g.ContainerMarkers());
    assert (head + rest)[|head| + at..] == rest[at..];
    ContainerIs(g, p, |head| + at, found);
    ContainerIs(g, p.(pending := rest), at, found);
    ContainerIgnoresPending(g, p, rest, rest[at..], found);
  }

  lemma ContainerIs(g: Grammar, p: Parser, at: nat, found: Option<string>)
    requires g.WellFormed() && (p.state.Tools? || p.state.Call?)
    requires Locate(p.pending, g.ContainerMarkers()) == (at, found)
    ensures found.Some? ==> found.value <= p.pending[at..] && found.value != ""
    ensures StepOnce(g, p) == ContainerAt(g, p, p.pending[at..], found)
  {
  }

  lemma ElementExtends(g: Grammar, p: Parser, rest: string, more: string, marker: string)
    requires marker <= rest && marker != "" && g.sep != "" && marker != g.endOfMessage
    requires FindFrom(rest, g.sep, |marker|).Some?
    ensures var s, t := ElementStep(g, p, rest, marker), ElementStep(g, Extend(p, more), rest + more, marker);
            s.progressed && t == s.(parser := Extend(s.parser, more))
  {
    FindExtends(rest, more, g.sep, |marker|);
    var end := FindFrom(rest, g.sep, |marker|).value;
    assert (rest + more)[|marker|..end] == rest[|marker|..end];
    assert (rest + more)[end + |g.sep|..] == rest[end + |g.sep|..] + more;
    HeaderExtends(g, p, more, marker, rest[|marker|..end], rest[end + |g.sep|..]);
  }

  lemma HeaderExtends(g: Grammar, p: Parser, more: string, marker: string, header: string, rest: string)
    ensures var s := HeaderStep(g, p, marker, header, rest);
            HeaderStep(g, Extend(p, more), marker, header, rest + more) == s.(parser := Extend(s.parser, more))
  {
    ElementKeepsPending(g, p, more, marker, header);
  }

  lemma ElementKeepsPending(g: Grammar, p: Parser, more: string, marker: string, header: string)
    ensures Element(g, Extend(p, more), marker, header)
         == (Extend(Element(g, p, marker, header).0, more), Element(g, p, marker, header).1)
  {
  }

  lemma ContainerIgnoresPending(g: Grammar, p: Parser, pending: string, rest: string, found: Option<string>)
    requires g.sep != "" && (found.Some? ==> found.value <= rest && found.value != "")
    ensures ContainerAt(g, p, rest, found) == ContainerAt(g, p.(pending := pending), rest, found)
  {
    if found.Some? && FindFrom(rest, g.sep, |found.value|).Some? {
      var header := rest[|found.value|..FindFrom(rest, g.sep, |found.value|).value];
      ElementKeepsPending(g, p.(pending := ""), p.pending, found.value, header);
      ElementKeepsPending(g, p.(pending := ""), pending, found.value, header);
      assert Extend(p.(pending := ""), p.pending) == p;
      assert Extend(p.(pending := ""), pending) == p.(pending := pending);
    }
  }

  /** After the end of the message whatever follows is ignored. */
  lemma MessageEnds(m: Machine, g: Grammar, p: Parser, more: string)
    requires g.WellFormed() && Models(m, g) && (p.state.Tools? || p.state.Call?)
    requires Locate(p.pending, g.ContainerMarkers()).1 == Some(g.endOfMessage)
    ensures Loop.Leads(m, p, [], p.(state := Done, pending := more))
  {
    var end, late := p.(state := Done, pending := ""), p.(state := Done, pending := more);
    assert AtomStep(g, p) == Loop.Step(end, [], true);
    MeetsLeads(m, g, p, [], end);
    MeetsLeads(m, g, late, [], end);
    Loop.LeadsBack(m, p, [], [], late, end);
  }

  lemma AnyStepExtends(m: Machine, g: Grammar, p: Parser, more: string)
    requires g.WellFormed() && Models(m, g) && !OpenerNext(g, Extend(p, more))
    ensures Loop.Leads(m, Extend(p, more), AtomStep(g, p).out, Extend(AtomStep(g, p).parser, more))
  {
    if InChannel(p.state) {
      ChannelExtends(m, g, p, more);
    } else if p.state.Tools? || p.state.Call? {
      ContainerExtends(m, g, p, more);
    } else {
      if p.state.Argument? { ArgumentExtends(g, p, more); }
      MeetsLeads(m, g, Extend(p, more), AtomStep(g, p).out, Extend(AtomStep(g, p).parser, more));
    }
  }

  // ---- chunk invariance ----

  lemma EmptyStep(g: Grammar, p: Parser)
    requires g.WellFormed() && p.pending == ""
    ensures StepOnce(g, p) == Step(p, [], false)
  {
    assert Locate("", [g.argumentClose]).1.Some? ==> g.argumentClose == "";
    assert p.raw + "" == p.raw;
    ActiveSeparated(g, p);
  }

  /** The loop of `feed`, seen through what a client observes. */
  lemma {:induction false} RunIsLoop(m: Machine, g: Grammar, p: Parser)
    requires g.WellFormed() && Models(m, g)
    ensures Run(g, p).0 == Loop.Run(m, p).parser
    ensures Observed(Run(g, p).1) == Loop.Run(m, p).out
    decreases |p.pending|
  {
    assert m.step(p) == AtomStep(g, p);
    if p.pending == "" {
      EmptyStep(g, p);
    } else {
      var s := StepOnce(g, p);
      if s.progressed {
        RunIsLoop(m, g, s.parser);
        ObservedAppends(s.deltas, Run(g, s.parser).1);
      }
    }
  }

  /** The corner: run on the whole text, the parser meets a redundant think opener after
      reasoning text that it has not emitted yet. */
  predicate LateOpener(g: Grammar, p: Parser)
    requires g.WellFormed()
    decreases |p.pending|
  {
    OpenerNext(g, p) || (StepOnce(g, p).progressed && LateOpener(g, StepOnce(g, p).parser))
  }

  lemma {:induction false} LateIsFlawed(m: Machine, g: Grammar, p: Parser)
    requires g.WellFormed() && Models(m, g)
    ensures Loop.Run(m, p).flawed == LateOpener(g, p)
    decreases |p.pending|
  {
    if AtomStep(g, p).progressed { LateIsFlawed(m, g, AtomStep(g, p).parser); }
  }

  /** Feeding `more` after the loop has come to rest continues the loop on the longer text. */
  lemma FeedContinues(m: Machine, g: Grammar, p: Parser, more: string)
    requires g.WellFormed() && Models(m, g) && !LateOpener(g, Extend(p, more))
    ensures Loop.Leads(m, Extend(p, more), Loop.Run(m, p).out, Extend(Loop.Run(m, p).parser, more))
    ensures !LateOpener(g, Extend(Loop.Run(m, p).parser, more))
  {
    var extend := (q: Parser) => Extend(q, more);
    forall q
      ensures Loop.StepExtends(m, extend, q)
    {
      assert m.step(q) == AtomStep(g, q);
      if OpenerNext(g, Extend(q, more)) {
        assert m.step(extend(q)) == AtomStep(g, Extend(q, more));
      } else {
        AnyStepExtends(m, g, q, more);
      }
    }
    LateIsFlawed(m, g, Extend(p, more));
    Loop.RunExtends(m, extend, p);
    LateIsFlawed(m, g, Extend(Loop.Run(m, p).parser, more));
  }

  lemma {:induction false} FeedAllIsFeed(m: Machine, g: Grammar, p: Parser, chunks: seq<string>)
    requires g.WellFormed() && Models(m, g) && chunks != [] && !LateOpener(g, Extend(p, Concat(chunks)))
    ensures FeedAll(g, p, chunks).0 == Feed(g, p, Concat(chunks)).0
    ensures Observed(FeedAll(g, p, chunks).1) == Observed(Feed(g, p, Concat(chunks)).1)
    decreases |chunks|
  {
    var rest := chunks[1..];
    var first := Extend(p, chunks[0]);
    if rest == [] {
      assert Concat(chunks) == chunks[0];
      assert FeedAll(g, Feed(g, p, chunks[0]).0, rest).1 == [];
      assert Feed(g, p, chunks[0]).1 + [] == Feed(g, p, chunks[0]).1;
    } else {
      assert Extend(first, Concat(rest)) == Extend(p, Concat(chunks));
      FeedContinues(m, g, first, Concat(rest));
      RunIsLoop(m, g, first);
      var q := Run(g, first).0;
      FeedAllIsFeed(m, g, q, rest);
      RunIsLoop(m, g, Extend(q, Concat(rest)));
      RunIsLoop(m, g, Extend(p, Concat(chunks)));
      ObservedAppends(Run(g, first).1, FeedAll(g, q, rest).1);
    }
  }

  /** Reasoning characters, content characters and calls come out the same, and in the
      same order, however the text is cut into feeds. */
  lemma ChunkInvariance(g: Grammar, reasoningOpen: bool, chunks: seq<string>)
    requires g.WellFormed() && !LateOpener(g, Extend(Initial(reasoningOpen), Concat(chunks)))
    ensures Observed(Parse(g, reasoningOpen, chunks)) == Observed(Parse(g, reasoningOpen, [Concat(chunks)]))
  {
    ParseIsFeed(g, reasoningOpen, chunks);
    assert Concat([Concat(chunks)]) == Concat(chunks);
    ParseIsFeed(g, reasoningOpen, [Concat(chunks)]);
  }

  lemma ParseIsFeed(g: Grammar, reasoningOpen: bool, chunks: seq<string>)
    requires g.WellFormed() && !LateOpener(g, Extend(Initial(reasoningOpen), Concat(chunks)))
    ensures var (q, deltas) := Feed(g, Initial(reasoningOpen), Concat(chunks));
            Observed(Parse(g, reasoningOpen, chunks)) == Observed(deltas) + Observed(Finish(q).1)
  {
    var p := Initial(reasoningOpen);
    if chunks == [] {
      assert Extend(p, "") == p;
      assert FeedAll(g, p, chunks) == Feed(g, p, Concat(chunks));
    } else {
      FeedAllIsFeed(LoopOf(g), g, p, chunks);
    }
    ObservedAppends(FeedAll(g, p, chunks).1, Finish(FeedAll(g, p, chunks).0).1);
  }
}
