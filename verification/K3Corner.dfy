/** The corner in which the K3 parser is not chunk invariant, shown to be the only one:
    whenever a run meets a late think opener, some split of the text into two feeds is
    observed differently. */
module K3Corner {
  import opened Patterns
  import opened XtmlText
  import opened K3Parser
  import opened K3Chunks
  import Loop = StreamLoop

  /** Feeding `p`'s pending text first and `more` afterwards shows one think opener more
      than feeding both at once. */
  ghost predicate Breaks(m: Machine, g: Grammar, p: Parser, more: string)
    requires g.WellFormed() && Models(m, g)
  {
    var first := Loop.Run(m, p);
    var second := Loop.Run(m, Extend(first.parser, more));
    var whole := Loop.Run(m, Extend(p, more));
    second.parser == whole.parser && |first.out| + |second.out| == |whole.out| + |g.thinkOpen|
  }

  /** Feeding the first `k` characters of the pending text on their own shows an opener more. */
  ghost predicate SplitsAt(m: Machine, g: Grammar, p: Parser, k: nat)
    requires g.WellFormed() && Models(m, g)
  {
    && k <= |p.pending| && Breaks(m, g, Trunc(p, k), p.pending[k..])
    && (p.state.Response? ==> Contains(p.pending[..k], Active(g, p)))
  }

  /** The think opener is none of the other channel markers, and its first `n` characters
      cannot be mistaken for the inside of one. */
  ghost predicate StandsOut(g: Grammar, n: nat) {
    && 0 < n < |g.thinkOpen|
    && g.thinkOpen !in g.OtherMarkers()
    && forall s, o: nat {:trigger Apart(s[o..], g.thinkOpen[..n])} | s in g.ChannelMarkers() && 0 < o < |s| ::
         Apart(s[o..], g.thinkOpen[..n])
  }

  // ---- runs without the corner ----

  lemma EmittedStays(g: Grammar, p: Parser)
    requires g.WellFormed() && p.emitted
    ensures StepOnce(g, p).parser.emitted
  {
    if InChannel(p.state) {
      var (at, found) := Locate(p.pending, Active(g, p));
      ChannelIs(g, p, at, found);
      EmittedCut(g, p, at, found);
    } else if p.state.Tools? || p.state.Call? {
      var (at, found) := Locate(p.pending, g.ContainerMarkers());
      ContainerIs(g, p, at, found);
      EmittedContainer(g, p, p.pending[at..], found);
    }
  }

  lemma EmittedCut(g: Grammar, p: Parser, at: nat, found: Option<string>)
    requires p.emitted && InChannel(p.state) && at <= |p.pending|
    requires found.Some? ==> OccursAt(p.pending, at, found.value) && found.value != ""
    ensures CutAt(g, p, at, found).parser.emitted
  {
  }

  lemma EmittedContainer(g: Grammar, p: Parser, rest: string, found: Option<string>)
    requires p.emitted && g.sep != "" && (found.Some? ==> found.value <= rest && found.value != "")
    ensures ContainerAt(g, p, rest, found).parser.emitted
  {
    if found.Some? && found.value != g.endOfMessage {
      var end := FindFrom(rest, g.sep, |found.value|);
      if end.Some? { EmittedHeader(g, p, found.value, rest[|found.value|..end.value], rest[end.value + |g.sep|..]); }
    }
  }

  lemma EmittedHeader(g: Grammar, p: Parser, marker: string, header: string, rest: string)
    ensures HeaderStep(g, p, marker, header, rest).parser.emitted == p.emitted
  {
  }

  /** Once reasoning has been emitted, the opener is never framing again inside think. */
  lemma {:induction false} EmittedNeverLate(g: Grammar, p: Parser)
    requires g.WellFormed() && p.emitted
    ensures !LateOpener(g, p)
    decreases |p.pending|
  {
    if StepOnce(g, p).progressed {
      EmittedStays(g, p);
      EmittedNeverLate(g, StepOnce(g, p).parser);
    }
  }

  // ---- steps that do not depend on what follows ----

  function Trunc(p: Parser, k: nat): Parser
    requires k <= |p.pending|
  {
    p.(pending := p.pending[..k])
  }

  ghost predicate Stable(g: Grammar, p: Parser, more: string)
    requires g.WellFormed()
  {
    && StepOnce(g, p).progressed
    && StepOnce(g, Extend(p, more)) == StepOnce(g, p).(parser := Extend(StepOnce(g, p).parser, more))
  }

  lemma StableBreaks(m: Machine, g: Grammar, p: Parser, more: string)
    requires g.WellFormed() && Models(m, g) && Stable(g, p, more) && Breaks(m, g, StepOnce(g, p).parser, more)
    ensures Breaks(m, g, p, more)
  {
    assert m.step(p) == AtomStep(g, p);
    assert m.step(Extend(p, more)) == AtomStep(g, Extend(p, more));
  }

  lemma ChannelStable(g: Grammar, p: Parser, at: nat, marker: string, k: nat)
    requires g.WellFormed() && InChannel(p.state) && k <= |p.pending|
    requires Locate(p.pending, Active(g, p)) == (at, Some(marker)) && at + |marker| <= k
    ensures Stable(g, Trunc(p, k), p.pending[k..])
  {
    var q, more := Trunc(p, k), p.pending[k..];
    assert Extend(q, more) == p;
    ActiveSeparated(g, p);
    LocateShrinks(q.pending, more, Active(g, p), at, marker);
    ChannelIs(g, q, at, Some(marker));
    ChannelIs(g, p, at, Some(marker));
    CutExtends(g, q, more, at, Some(marker));
  }

  lemma ArgumentStable(g: Grammar, p: Parser, at: nat, k: nat)
    requires g.WellFormed() && p.state.Argument? && k <= |p.pending|
    requires Locate(p.pending, [g.argumentClose]) == (at, Some(g.argumentClose)) && at + |g.argumentClose| <= k
    ensures Stable(g, Trunc(p, k), p.pending[k..])
  {
    var q, more := Trunc(p, k), p.pending[k..];
    assert Extend(q, more) == p;
    LocateShrinks(q.pending, more, [g.argumentClose], at, g.argumentClose);
    ArgumentEnds(q, at, |g.argumentClose|, more);
    assert StepOnce(g, q) == ArgumentAt(q, at, |g.argumentClose|);
    assert StepOnce(g, p) == ArgumentAt(p, at, |g.argumentClose|);
  }

  lemma ContainerStable(g: Grammar, p: Parser, at: nat, marker: string, end: nat, k: nat)
    requires g.WellFormed() && (p.state.Tools? || p.state.Call?) && k <= |p.pending|
    requires Locate(p.pending, g.ContainerMarkers()) == (at, Some(marker)) && marker != g.endOfMessage
    requires |marker| <= |p.pending[at..]| && FindFrom(p.pending[at..], g.sep, |marker|) == Some(end)
    requires at + end + |g.sep| <= k
    ensures Stable(g, Trunc(p, k), p.pending[k..])
  {
    var q, more := Trunc(p, k), p.pending[k..];
    assert Extend(q, more) == p;
    assert Locate(q.pending, g.ContainerMarkers()) == (at, Some(marker)) by {
      LocateShrinks(q.pending, more, g.ContainerMarkers(), at, marker);
    }
    HeaderShrinks(p.pending, k, at, marker, g.sep, end);
    ContainerFinds(g, q, more, at, marker);
  }

  lemma HeaderShrinks(text: string, k: nat, at: nat, marker: string, sep: string, end: nat)
    requires at <= |text| && |marker| <= |text[at..]| && FindFrom(text[at..], sep, |marker|) == Some(end)
    requires OccursAt(text, at, marker) && at + end + |sep| <= k <= |text|
    ensures marker <= text[..k][at..] && FindFrom(text[..k][at..], sep, |marker|) == Some(end)
  {
    var rest := text[..k][at..];
    assert text[at..] == rest + text[k..];
    FindShrinks(rest, text[k..], sep, |marker|, end);
    assert marker == text[at..at + |marker|] == rest[..|marker|];
  }

  // ---- the corner itself ----

  /** The text from the opener on, read as plain reasoning. */
  lemma OpenerIsPlain(g: Grammar, p: Parser, rest: string)
    requires g.WellFormed() && g.thinkOpen !in g.OtherMarkers() && p.state.Think? && p.emitted
    ensures |g.thinkOpen| <= Locate(g.thinkOpen + rest, Active(g, p)).0
  {
    var text := g.thinkOpen + rest;
    forall j, s | 0 <= j < |g.thinkOpen| && s in Active(g, p)
      ensures !Compatible(text, j, s)
    {
      assert g.thinkOpen in g.ChannelMarkers() && s in g.OtherMarkers() && s in g.ChannelMarkers();
      assert g.thinkOpen[j..] <= text[j..];
      assert Apart(g.thinkOpen, s) && (j > 0 ==> Apart(g.thinkOpen[j..], s));
      assert g.thinkOpen[0..] == g.thinkOpen;
      NotCompatible(text, j, g.thinkOpen[j..], s);
    }
    ScanSpec(text, Active(g, p));
  }

  lemma NotCompatible(text: string, j: nat, u: string, s: string)
    requires j <= |text| && u <= text[j..] && Apart(u, s)
    ensures !Compatible(text, j, s)
  {
    if s <= text[j..] { PrefixesCompare(u, s, text[j..]); }
  }

  /** Cut after the reasoning text and the first `n` characters of the opener, the text
      before the opener is emitted at once, and then the opener is not framing any more. */
  lemma CutInsideOpener(m: Machine, g: Grammar, p: Parser, n: nat)
    requires g.WellFormed() && Models(m, g) && StandsOut(g, n) && OpenerNext(g, p)
    ensures exists k: nat :: SplitsAt(m, g, p, k)
  {
    var at := Locate(p.pending, Active(g, p)).0;
    var lead, rest, more := g.thinkOpen[..n], p.pending[at + |g.thinkOpen|..], p.pending[at + n..];
    OpenerPieces(p.pending, at, g.thinkOpen, n);
    // fed first: the reasoning text is emitted, the start of the opener is held
    OpenerHeld(m, g, p, at, n);
    // fed afterwards: the whole opener is plain reasoning
    OpenerPrinted(m, g, p.(emitted := true, pending := lead), more, rest);
    // fed at once: the opener is consumed
    OpenerConsumed(m, g, p, at);
    var first := Loop.Run(m, Trunc(p, at + n));
    BreaksBy(m, g, p, at + n, first, Loop.Run(m, Extend(first.parser, more)), Loop.Run(m, p));
  }

  lemma BreaksBy(m: Machine, g: Grammar, p: Parser, k: nat, first: Loop.Outcome<Parser, Atom>,
                 second: Loop.Outcome<Parser, Atom>, whole: Loop.Outcome<Parser, Atom>)
    requires g.WellFormed() && Models(m, g) && k <= |p.pending| && !p.state.Response?
    requires first == Loop.Run(m, Trunc(p, k)) && second == Loop.Run(m, Extend(first.parser, p.pending[k..]))
    requires whole == Loop.Run(m, p)
    requires second.parser == whole.parser && |first.out| + |second.out| == |whole.out| + |g.thinkOpen|
    ensures SplitsAt(m, g, p, k)
  {
    assert Extend(Trunc(p, k), p.pending[k..]) == p;
  }

  lemma OpenerHeld(m: Machine, g: Grammar, p: Parser, at: nat, n: nat)
    requires g.WellFormed() && Models(m, g) && StandsOut(g, n) && OpenerNext(g, p) && at == Locate(p.pending, Active(g, p)).0
    ensures at + n <= |p.pending|
    ensures var r := Loop.Run(m, Trunc(p, at + n));
            var s := Loop.Run(m, p.(emitted := true, pending := g.thinkOpen[..n]));
            r.parser == s.parser && |r.out| == at + |s.out|
  {
    OpenerPieces(p.pending, at, g.thinkOpen, n);
    assert Locate(p.pending[..at + n], Active(g, p)) == (at, None) by {
      ActiveSeparated(g, p);
      LocateCutInside(p.pending, Active(g, p), at, g.thinkOpen, n);
    }
    CutSays(m, g, Trunc(p, at + n), p.pending[..at], g.thinkOpen[..n]);
  }

  lemma OpenerPieces(text: string, at: nat, open: string, n: nat)
    requires OccursAt(text, at, open) && n <= |open|
    ensures text[..at + n] == text[..at] + open[..n]
    ensures open[..n] + text[at + n..] == open + text[at + |open|..]
  {
    assert text[at..at + |open|] == open;
  }

  lemma OpenerPrinted(m: Machine, g: Grammar, q: Parser, more: string, rest: string)
    requires g.WellFormed() && Models(m, g) && g.thinkOpen !in g.OtherMarkers() && q.state.Think? && q.emitted
    requires q.pending + more == g.thinkOpen + rest
    ensures var first := Loop.Run(m, q);
            var second := Loop.Run(m, Extend(first.parser, more));
            var plain := Loop.Run(m, q.(pending := rest));
            second.parser == plain.parser && |first.out| + |second.out| == |g.thinkOpen| + |plain.out|
  {
    EmittedNeverLate(g, Extend(q, more));
    FeedContinues(m, g, q, more);
    OpenerIsPlain(g, Extend(q, more), rest);
    SaySteady(m, g, Extend(q, more), g.thinkOpen, rest);
    SaidLength(Extend(q, more), g.thinkOpen);
  }

  lemma OpenerConsumed(m: Machine, g: Grammar, p: Parser, at: nat)
    requires g.WellFormed() && Models(m, g) && g.thinkOpen !in g.OtherMarkers()
    requires OpenerNext(g, p) && at == Locate(p.pending, Active(g, p)).0
    ensures at + |g.thinkOpen| <= |p.pending|
    ensures var r := Loop.Run(m, p);
            var s := Loop.Run(m, p.(emitted := true, pending := p.pending[at + |g.thinkOpen|..]));
            r.parser == s.parser && |r.out| == at + |s.out|
  {
    OpenerStep(g, p, at);
    assert m.step(p) == AtomStep(g, p);
    Loop.StepRuns(m, p);
  }

  lemma OpenerStep(g: Grammar, p: Parser, at: nat)
    requires g.WellFormed() && g.thinkOpen !in g.OtherMarkers()
    requires OpenerNext(g, p) && at == Locate(p.pending, Active(g, p)).0
    ensures at + |g.thinkOpen| <= |p.pending|
    ensures AtomStep(g, p).progressed && |AtomStep(g, p).out| == at
    ensures AtomStep(g, p).parser == p.(emitted := true, pending := p.pending[at + |g.thinkOpen|..])
  {
    ChannelIs(g, p, at, Some(g.thinkOpen));
    SaidLength(p, p.pending[..at]);
    assert Target(g, g.thinkOpen) == Think;
  }

  lemma SaidLength(p: Parser, t: string)
    requires p.state.Think?
    ensures |Observed(Say(p, t).1)| == |t|
  {
    if t != "" { assert Observed([Reasoning(t)]) == Atoms(Reasoning(t)) + Observed([]); }
  }

  lemma CutSays(m: Machine, g: Grammar, p: Parser, pre: string, lead: string)
    requires g.WellFormed() && Models(m, g) && p.state.Think? && !p.emitted && pre != "" && p.pending == pre + lead
    requires Locate(pre + lead, Active(g, p)) == (|pre|, None)
    ensures var r := Loop.Run(m, p);
            var s := Loop.Run(m, p.(emitted := true, pending := lead));
            r.parser == s.parser && |r.out| == |pre| + |s.out|
  {
    ChannelIs(g, p, |pre|, None);
    assert (pre + lead)[..|pre|] == pre && (pre + lead)[|pre|..] == lead;
    SaidLength(p, pre);
    assert m.step(p) == AtomStep(g, p);
    Loop.StepRuns(m, p);
  }

  // ---- every late run has such a cut ----

  /** Text before the first marker that is not blank opens the response: the run is the
      one of the response channel. */
  lemma OutsideIsResponse(m: Machine, g: Grammar, p: Parser)
    requires g.WellFormed() && Models(m, g) && Outside(p.state)
    requires !Blank(p.pending[..Locate(p.pending, Active(g, p)).0])
    ensures Loop.Leads(m, p, [], p.(state := Response))
    ensures LateOpener(g, p) == LateOpener(g, p.(state := Response))
  {
    var r := p.(state := Response);
    var at := Locate(p.pending, Active(g, p)).0;
    var head, rest := p.pending[..at], p.pending[at..];
    assert p.pending == head + rest;
    SettledStep(m, g, p, head, rest);
    assert at <= Locate(p.pending, Active(g, r)).0 by {
      ActiveSeparated(g, p);
      LocateFewer(p.pending, Active(g, r), Active(g, p));
    }
    SaySteady(m, g, r, head, rest);
    assert [] + Observed(Say(r, head).1) == Observed(Say(p, head).1);
    Loop.LeadsBack(m, p, [], Observed(Say(r, head).1), r, Said(p, head, rest));
    LateIsFlawed(m, g, p);
    LateIsFlawed(m, g, r);
  }

  /** A channel that finds no marker comes to rest without meeting the corner. */
  lemma UnfoundNotLate(g: Grammar, p: Parser)
    requires g.WellFormed() && (p.state.Response? || p.state.Think?)
    requires Locate(p.pending, Active(g, p)).1.None?
    ensures !LateOpener(g, p)
  {
    var at := Locate(p.pending, Active(g, p)).0;
    ChannelIs(g, p, at, None);
    if p.state.Think? {
      if at > 0 { EmittedNeverLate(g, StepOnce(g, p).parser); }
    } else if at > 0 {
      var head, rest := p.pending[..at], p.pending[at..];
      assert p.pending == head + rest;
      var q := p.(pending := rest);
      ActiveSeparated(g, p);
      LocateDrops(head, rest, Active(g, p));
      ChannelIs(g, q, 0, None);
    }
  }

  lemma BreaksAfterStep(m: Machine, g: Grammar, p: Parser, c: nat, k: nat)
    requires g.WellFormed() && Models(m, g) && c <= k <= |p.pending|
    requires StepOnce(g, p).parser.pending == p.pending[c..]
    requires Stable(g, Trunc(p, k), p.pending[k..])
    requires Breaks(m, g, Trunc(StepOnce(g, p).parser, k - c), p.pending[k..])
    ensures Breaks(m, g, Trunc(p, k), p.pending[k..])
  {
    var q, more := Trunc(p, k), p.pending[k..];
    assert Extend(q, more) == p;
    StableNext(g, q, more, c, StepOnce(g, q).parser, StepOnce(g, p).parser);
    StableBreaks(m, g, q, more);
  }

  /** After a stable step the rest of the truncated text is the truncated rest. */
  lemma StableNext(g: Grammar, q: Parser, more: string, c: nat, s: Parser, t: Parser)
    requires g.WellFormed() && Stable(g, q, more) && c <= |q.pending|
    requires s == StepOnce(g, q).parser && t == StepOnce(g, Extend(q, more)).parser && |t.pending| == |q.pending| + |more| - c
    ensures s == Trunc(t, |q.pending| - c)
  {
    TruncExtended(s, more, t);
  }

  lemma TruncExtended(r: Parser, more: string, t: Parser)
    requires Extend(r, more) == t
    ensures r == Trunc(t, |t.pending| - |more|)
  {
    assert t.pending[..|t.pending| - |more|] == r.pending;
  }

  /** The step from `p` finds what it looks for, and consumes `c` characters. */
  predicate CutsAt(g: Grammar, p: Parser, c: nat) {
    if p.state.Done? then false
    else
      var pats := if p.state.Argument? then [g.argumentClose]
                  else if InChannel(p.state) then Active(g, p) else g.ContainerMarkers();
      var (at, found) := Locate(p.pending, pats);
      && found.Some?
      && if p.state.Argument? || InChannel(p.state) then c == at + |found.value|
         else
           && found.value != g.endOfMessage
           && var end := FindFrom(p.pending[at..], g.sep, |found.value|);
              end.Some? && c == at + end.value + |g.sep|
  }

  /** Cutting the text any time after that does not change the step. */
  lemma CutIsStable(g: Grammar, p: Parser, c: nat, k: nat)
    requires g.WellFormed() && CutsAt(g, p, c) && c <= k <= |p.pending|
    ensures Stable(g, Trunc(p, k), p.pending[k..])
  {
    if InChannel(p.state) {
      var (at, found) := Locate(p.pending, Active(g, p));
      ChannelStable(g, p, at, found.value, k);
    } else if p.state.Argument? {
      ArgumentStable(g, p, Locate(p.pending, [g.argumentClose]).0, k);
    } else {
      var (at, found) := Locate(p.pending, g.ContainerMarkers());
      ContainerStable(g, p, at, found.value, FindFrom(p.pending[at..], g.sep, |found.value|).value, k);
    }
  }

  /** A step that leads on to the corner is of that kind. */
  lemma LateStepCuts(g: Grammar, p: Parser) returns (c: nat)
    requires g.WellFormed() && LateOpener(g, p) && !OpenerNext(g, p)
    requires Outside(p.state) ==> Blank(p.pending[..Locate(p.pending, Active(g, p)).0])
    ensures CutsAt(g, p, c) && 0 < c <= |p.pending| && StepOnce(g, p).parser.pending == p.pending[c..]
  {
    if InChannel(p.state) {
      c := LateChannelCuts(g, p);
    } else if p.state.Argument? {
      c := LateArgumentCuts(g, p);
    } else {
      c := LateHeaderCuts(g, p);
    }
  }

  lemma LateChannelCuts(g: Grammar, p: Parser) returns (c: nat)
    requires g.WellFormed() && LateOpener(g, p) && !OpenerNext(g, p) && InChannel(p.state)
    requires Outside(p.state) ==> Blank(p.pending[..Locate(p.pending, Active(g, p)).0])
    ensures CutsAt(g, p, c) && 0 < c <= |p.pending| && StepOnce(g, p).parser.pending == p.pending[c..]
  {
    var (at, found) := Locate(p.pending, Active(g, p));
    ChannelIs(g, p, at, found);
    if found.None? && !Outside(p.state) { UnfoundNotLate(g, p); }
    c := at + |found.value|;
  }

  lemma LateArgumentCuts(g: Grammar, p: Parser) returns (c: nat)
    requires g.WellFormed() && LateOpener(g, p) && p.state.Argument?
    ensures CutsAt(g, p, c) && 0 < c <= |p.pending| && StepOnce(g, p).parser.pending == p.pending[c..]
  {
    var (at, found) := Locate(p.pending, [g.argumentClose]);
    if found.None? { ArgumentRests(g, p, at); }
    c := at + |g.argumentClose|;
  }

  lemma ArgumentRests(g: Grammar, p: Parser, at: nat)
    requires g.WellFormed() && p.state.Argument? && Locate(p.pending, [g.argumentClose]) == (at, None)
    ensures !LateOpener(g, p)
  {
    var head, rest := p.pending[..at], p.pending[at..];
    assert p.pending == head + rest;
    LocateDrops(head, rest, [g.argumentClose]);
  }

  lemma LateHeaderCuts(g: Grammar, p: Parser) returns (c: nat)
    requires g.WellFormed() && LateOpener(g, p) && !InChannel(p.state) && !p.state.Argument?
    ensures CutsAt(g, p, c) && 0 < c <= |p.pending| && StepOnce(g, p).parser.pending == p.pending[c..]
  {
    var (at, found) := Locate(p.pending, g.ContainerMarkers());
    ContainerIs(g, p, at, found);
    LateContainerFinds(g, p, p.pending[at..], found);
    var end := FindFrom(p.pending[at..], g.sep, |found.value|).value;
    c := at + end + |g.sep|;
    assert p.pending[at..][end + |g.sep|..] == p.pending[c..];
  }

  lemma LateContainerFinds(g: Grammar, p: Parser, rest: string, found: Option<string>)
    requires g.WellFormed() && (found.Some? ==> found.value <= rest && found.value != "")
    requires ContainerAt(g, p, rest, found).progressed && LateOpener(g, ContainerAt(g, p, rest, found).parser)
    ensures found.Some? && found.value != g.endOfMessage && FindFrom(rest, g.sep, |found.value|).Some?
    ensures ContainerAt(g, p, rest, found).parser.pending == rest[FindFrom(rest, g.sep, |found.value|).value + |g.sep|..]
  {
  }

  lemma OutsideBreaks(m: Machine, g: Grammar, p: Parser, k: nat)
    requires g.WellFormed() && Models(m, g) && Outside(p.state) && k <= |p.pending|
    requires !Blank(p.pending[..Locate(p.pending, Active(g, p)).0])
    requires SplitsAt(m, g, p.(state := Response), k)
    ensures SplitsAt(m, g, p, k)
  {
    var r := p.(state := Response);
    var text, more := p.pending[..k], p.pending[k..];
    assert p.pending == text + more;
    var pats := Active(g, p);
    assert Locate(text, pats) == Locate(p.pending, pats) by {
      ActiveSeparated(g, p);
      var i :| 0 <= i <= |text| && AnyAt(text, i, Active(g, r));
      assert AnyAt(text, i, pats);
      ContainedIsLocated(text, pats);
      LocateExtends(text, more, pats);
    }
    assert text[..Locate(text, pats).0] == p.pending[..Locate(p.pending, pats).0];
    OutsideIsResponse(m, g, p);
    OutsideIsResponse(m, g, Trunc(p, k));
    assert Extend(Trunc(p, k), more) == p && Extend(Trunc(r, k), more) == r;
  }

  lemma {:induction false} LateSplit(m: Machine, g: Grammar, p: Parser, n: nat)
    requires g.WellFormed() && Models(m, g) && StandsOut(g, n) && LateOpener(g, p)
    ensures exists k: nat :: SplitsAt(m, g, p, k)
    decreases |p.pending|, Outside(p.state)
  {
    if OpenerNext(g, p) {
      CutInsideOpener(m, g, p, n);
    } else if Outside(p.state) && !Blank(p.pending[..Locate(p.pending, Active(g, p)).0]) {
      var r := OutsideAsResponse(m, g, p);
      LateSplit(m, g, r, n);
      var k: nat :| SplitsAt(m, g, r, k);
      OutsideBreaks(m, g, p, k);
    } else {
      var c, next := LateStep(m, g, p);
      LateSplit(m, g, next, n);
      var rest: nat :| SplitsAt(m, g, next, rest);
      CarryBack(m, g, p, c, next, rest);
    }
  }

  lemma OutsideAsResponse(m: Machine, g: Grammar, p: Parser) returns (r: Parser)
    requires g.WellFormed() && Models(m, g) && Outside(p.state) && LateOpener(g, p)
    requires !Blank(p.pending[..Locate(p.pending, Active(g, p)).0])
    ensures r == p.(state := Response) && LateOpener(g, r)
  {
    OutsideIsResponse(m, g, p);
    r := p.(state := Response);
  }

  /** A break in what is left after a step is one in the whole. */
  ghost predicate CarriesBack(m: Machine, g: Grammar, p: Parser, c: nat, next: Parser)
    requires g.WellFormed() && Models(m, g) && c <= |p.pending| && next.pending == p.pending[c..]
  {
    forall k | c <= k <= |p.pending| && Breaks(m, g, Trunc(next, k - c), p.pending[k..]) ::
      Breaks(m, g, Trunc(p, k), p.pending[k..]) && (p.state.Response? ==> Contains(p.pending[..k], Active(g, p)))
  }

  lemma CarryBack(m: Machine, g: Grammar, p: Parser, c: nat, next: Parser, rest: nat)
    requires g.WellFormed() && Models(m, g) && c <= |p.pending| && next.pending == p.pending[c..]
    requires CarriesBack(m, g, p, c, next) && SplitsAt(m, g, next, rest)
    ensures SplitsAt(m, g, p, c + rest)
  {
    var k := c + rest;
    assert next.pending[rest..] == p.pending[k..];
    assert Breaks(m, g, Trunc(next, k - c), p.pending[k..]);
  }

  lemma LateStep(m: Machine, g: Grammar, p: Parser) returns (c: nat, next: Parser)
    requires g.WellFormed() && Models(m, g) && LateOpener(g, p) && !OpenerNext(g, p)
    requires Outside(p.state) ==> Blank(p.pending[..Locate(p.pending, Active(g, p)).0])
    ensures 0 < c <= |p.pending| && LateOpener(g, next) && next.pending == p.pending[c..]
    ensures CarriesBack(m, g, p, c, next)
  {
    c := LateStepCuts(g, p);
    next := StepOnce(g, p).parser;
    forall k | c <= k <= |p.pending| && Breaks(m, g, Trunc(next, k - c), p.pending[k..])
      ensures Breaks(m, g, Trunc(p, k), p.pending[k..])
      ensures p.state.Response? ==> Contains(p.pending[..k], Active(g, p))
    {
      CutIsStable(g, p, c, k);
      BreaksAfterStep(m, g, p, c, k);
      if p.state.Response? { CutContains(g, p, c, k); }
    }
  }

  lemma CutContains(g: Grammar, p: Parser, c: nat, k: nat)
    requires InChannel(p.state) && CutsAt(g, p, c) && c <= k <= |p.pending|
    ensures Contains(p.pending[..k], Active(g, p))
  {
    var (at, found) := Locate(p.pending, Active(g, p));
    assert p.pending == p.pending[..k] + p.pending[k..];
    OccursExtends(p.pending[..k], p.pending[k..], at, found.value);
    assert AnyAt(p.pending[..k], at, Active(g, p));
  }

  /** Every way to cut the text into feeds is observed like feeding it at once. */
  ghost predicate Indifferent(g: Grammar, reasoningOpen: bool, text: string)
    requires g.WellFormed()
  {
    forall chunks :: Alike(g, reasoningOpen, text, chunks)
  }

  ghost predicate Alike(g: Grammar, reasoningOpen: bool, text: string, chunks: seq<string>)
    requires g.WellFormed()
  {
    Concat(chunks) == text ==> Observed(Parse(g, reasoningOpen, chunks)) == Observed(Parse(g, reasoningOpen, [text]))
  }

  /** That is so if and only if the run on the text does not meet the corner. */
  lemma ChunkInvarianceExactly(g: Grammar, reasoningOpen: bool, text: string, n: nat)
    requires g.WellFormed() && StandsOut(g, n)
    ensures Indifferent(g, reasoningOpen, text) <==> !LateOpener(g, Extend(Initial(reasoningOpen), text))
  {
    if LateOpener(g, Extend(Initial(reasoningOpen), text)) {
      LateIsDifferent(g, reasoningOpen, text, n);
    } else {
      forall chunks
        ensures Alike(g, reasoningOpen, text, chunks)
      {
        if Concat(chunks) == text { ChunkInvariance(g, reasoningOpen, chunks); }
      }
    }
  }

  lemma LateIsDifferent(g: Grammar, reasoningOpen: bool, text: string, n: nat)
    requires g.WellFormed() && StandsOut(g, n) && LateOpener(g, Extend(Initial(reasoningOpen), text))
    ensures !Indifferent(g, reasoningOpen, text)
  {
    var p := Extend(Initial(reasoningOpen), text);
    assert p.pending == text;
    LateSplit(LoopOf(g), g, p, n);
    var k: nat :| SplitsAt(LoopOf(g), g, p, k);
    LateIsVisible(LoopOf(g), g, reasoningOpen, text, k);
    DifferenceMatters(g, reasoningOpen, text, k);
  }

  /** Feeding the text in two pieces, cut at `k`, is observed differently. */
  ghost predicate DiffersAt(g: Grammar, reasoningOpen: bool, text: string, k: nat)
    requires g.WellFormed()
  {
    k <= |text| && !Alike(g, reasoningOpen, text, Halves(text, k))
  }

  function Halves(text: string, k: nat): (parts: seq<string>)
    requires k <= |text|
    ensures Concat(parts) == text
  {
    ConcatPair(text[..k], text[k..]);
    assert text[..k] + text[k..] == text;
    [text[..k], text[k..]]
  }

  lemma DifferenceMatters(g: Grammar, reasoningOpen: bool, text: string, k: nat)
    requires g.WellFormed() && DiffersAt(g, reasoningOpen, text, k)
    ensures !Indifferent(g, reasoningOpen, text)
  {
    assert !Alike(g, reasoningOpen, text, Halves(text, k));
  }

  lemma LateIsVisible(m: Machine, g: Grammar, reasoningOpen: bool, text: string, k: nat)
    requires g.WellFormed() && Models(m, g) && k <= |text| && g.thinkOpen != ""
    requires Breaks(m, g, Trunc(Extend(Initial(reasoningOpen), text), k), text[k..])
    ensures DiffersAt(g, reasoningOpen, text, k)
  {
    var p := Initial(reasoningOpen);
    assert Trunc(Extend(p, text), k) == Extend(p, text[..k]);
    assert Extend(Extend(p, text[..k]), text[k..]) == Extend(p, text);
    RunIsLoop(m, g, Extend(p, text[..k]));
    var q := Run(g, Extend(p, text[..k])).0;
    RunIsLoop(m, g, Extend(q, text[k..]));
    RunIsLoop(m, g, Extend(p, text));
    ParsePair(g, reasoningOpen, text[..k], text[k..]);
    ParseOne(g, reasoningOpen, text);
  }

  lemma ParseOne(g: Grammar, reasoningOpen: bool, a: string)
    requires g.WellFormed()
    ensures var (q, deltas) := Feed(g, Initial(reasoningOpen), a);
            Observed(Parse(g, reasoningOpen, [a])) == Observed(deltas) + Observed(Finish(q).1)
  {
    var p := Initial(reasoningOpen);
    FeedAllOne(g, p, a);
    ObservedAppends(FeedAll(g, p, [a]).1, Finish(FeedAll(g, p, [a]).0).1);
  }

  lemma ParsePair(g: Grammar, reasoningOpen: bool, a: string, b: string)
    requires g.WellFormed()
    ensures var (q, first) := Feed(g, Initial(reasoningOpen), a);
            var (r, second) := Feed(g, q, b);
            Observed(Parse(g, reasoningOpen, [a, b])) == Observed(first) + Observed(second) + Observed(Finish(r).1)
  {
    var p := Initial(reasoningOpen);
    FeedAllPair(g, p, a, b);
    ObservedAppends(FeedAll(g, p, [a, b]).1, Finish(FeedAll(g, p, [a, b]).0).1);
  }

  lemma FeedAllOne(g: Grammar, p: Parser, a: string)
    requires g.WellFormed()
    ensures FeedAll(g, p, [a]).0 == Feed(g, p, a).0 && FeedAll(g, p, [a]).1 == Feed(g, p, a).1
  {
    assert FeedAll(g, Feed(g, p, a).0, [a][1..]) == (Feed(g, p, a).0, []);
  }

  lemma FeedAllPair(g: Grammar, p: Parser, a: string, b: string)
    requires g.WellFormed()
    ensures FeedAll(g, p, [a, b]).0 == Feed(g, Feed(g, p, a).0, b).0
    ensures Observed(FeedAll(g, p, [a, b]).1) == Observed(Feed(g, p, a).1) + Observed(Feed(g, Feed(g, p, a).0, b).1)
  {
    assert [a, b][1..] == [b];
    FeedAllOne(g, Feed(g, p, a).0, b);
    ObservedAppends(Feed(g, p, a).1, Feed(g, Feed(g, p, a).0, b).1);
  }
}
