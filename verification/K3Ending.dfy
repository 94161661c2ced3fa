/** The end of a K3 stream: which unfinished headers are suppressed, and what is shown instead. */
module K3Ending {
  import opened Patterns
  import opened XtmlText
  import opened K3Parser
  import opened K3Chunks

  /** Every channel marker starts like the test of `finish`. */
  predicate Framed(g: Grammar) {
    forall s | s in g.ChannelMarkers() :: "<|" <= s
  }

  /** The loop of `feed` would stop here. */
  predicate AtRest(g: Grammar, p: Parser)
    requires g.WellFormed()
  {
    InChannel(p.state) && p.pending != "" ==> StepOnce(g, p) == Step(p, [], false)
  }

  lemma {:induction false} RunRests(g: Grammar, p: Parser)
    requires g.WellFormed()
    ensures AtRest(g, Run(g, p).0)
    decreases |p.pending|
  {
    if p.pending != "" {
      var s := StepOnce(g, p);
      if s.progressed { RunRests(g, s.parser); } else if InChannel(p.state) { RestsInChannel(g, p); }
    }
  }

  lemma RestsInChannel(g: Grammar, p: Parser)
    requires g.WellFormed() && InChannel(p.state) && !StepOnce(g, p).progressed
    ensures StepOnce(g, p) == Step(p, [], false)
  {
    var (at, found) := Locate(p.pending, Active(g, p));
    ChannelIs(g, p, at, found);
  }

  lemma {:induction false} FeedAllRests(g: Grammar, p: Parser, chunks: seq<string>)
    requires g.WellFormed() && AtRest(g, p)
    ensures AtRest(g, FeedAll(g, p, chunks).0)
    decreases |chunks|
  {
    if chunks != [] {
      RunRests(g, Extend(p, chunks[0]));
      FeedAllRests(g, Feed(g, p, chunks[0]).0, chunks[1..]);
    }
  }

  /** Where the part of the pending text that may still become a marker starts. */
  function HeldFrom(g: Grammar, p: Parser): nat { Locate(p.pending, Active(g, p)).0 }

  /** At rest, what is pending is the start of a marker, behind white space outside the channels. */
  lemma RestShape(g: Grammar, p: Parser)
    requires g.WellFormed() && InChannel(p.state) && AtRest(g, p)
    ensures var gap, held := p.pending[..HeldFrom(g, p)], p.pending[HeldFrom(g, p)..];
      && Blank(gap) && (gap != "" ==> Outside(p.state))
      && (held != "" ==> exists marker | marker in Active(g, p) :: held < marker)
  {
    if p.pending != "" {
      var (at, found) := Locate(p.pending, Active(g, p));
      ChannelIs(g, p, at, found);
      ScanSpec(p.pending, Active(g, p));
      if at < |p.pending| {
        var marker :| marker in Active(g, p) && Compatible(p.pending, at, marker);
        assert !OccursAt(p.pending, at, marker);
      }
    }
  }

  /** What `finish` shows of a pending text. */
  function Shown(p: Parser): seq<Delta> {
    [if p.state.Think? then Reasoning(p.pending) else Content(p.pending)]
  }

  lemma FinishIs(p: Parser, gap: string, held: string)
    requires InChannel(p.state) && p.pending == gap + held && Blank(gap) && (gap != "" ==> Outside(p.state))
    requires held != "" ==> held[0] == '<' && (|held| >= 2 ==> held[1] == '|')
    ensures Finish(p).1 == if held == "" || (gap == "" && |held| >= 2) then [] else Shown(p)
  {
    if held == "" {
      assert p.pending == gap;
    } else {
      NotBlank(gap, held);
      HeaderTested(gap, held);
    }
  }

  lemma NotBlank(gap: string, held: string)
    requires held != "" && held[0] == '<'
    ensures !Blank(gap + held)
  {
    assert (gap + held)[|gap|] == '<' && !IsSpace('<');
  }

  lemma HeaderTested(gap: string, held: string)
    requires Blank(gap) && held != "" && held[0] == '<' && (|held| >= 2 ==> held[1] == '|')
    ensures "<|" <= gap + held <==> gap == "" && |held| >= 2
  {
    assert !IsSpace('<');
    if gap == "" { assert gap + held == held; } else { assert (gap + held)[0] == gap[0]; }
  }

  /** For every text, however it is fed, and in every channel: what is left at the end is the
      start of some active marker, behind white space. It is suppressed if and only if it has
      the two characters that are tested and no white space in front; so inside a channel an
      unfinished header always is. Otherwise all of it is shown. */
  lemma SuppressionExactly(g: Grammar, p: Parser, chunks: seq<string>)
    requires g.WellFormed() && Framed(g) && AtRest(g, p) && InChannel(FeedAll(g, p, chunks).0.state)
    ensures var q := FeedAll(g, p, chunks).0;
            var gap, held := q.pending[..HeldFrom(g, q)], q.pending[HeldFrom(g, q)..];
      && Blank(gap) && (gap != "" ==> Outside(q.state))
      && (held != "" ==> exists marker | marker in Active(g, q) :: held < marker)
      && Finish(q).1 == if held == "" || (gap == "" && |held| >= 2) then [] else Shown(q)
  {
    FeedAllRests(g, p, chunks);
    FinishAtRest(g, FeedAll(g, p, chunks).0);
  }

  lemma FinishAtRest(g: Grammar, q: Parser)
    requires g.WellFormed() && Framed(g) && AtRest(g, q) && InChannel(q.state)
    ensures var gap, held := q.pending[..HeldFrom(g, q)], q.pending[HeldFrom(g, q)..];
      && Blank(gap) && (gap != "" ==> Outside(q.state))
      && (held != "" ==> exists marker | marker in Active(g, q) :: held < marker)
      && Finish(q).1 == if held == "" || (gap == "" && |held| >= 2) then [] else Shown(q)
  {
    RestShape(g, q);
    var gap, held := q.pending[..HeldFrom(g, q)], q.pending[HeldFrom(g, q)..];
    if held != "" {
      var marker :| marker in Active(g, q) && held < marker;
      StartsFramed(g, q, held, marker);
    }
    FinishIs(q, gap, held);
  }

  lemma StartsFramed(g: Grammar, p: Parser, held: string, marker: string)
    requires Framed(g) && marker in Active(g, p) && held < marker && held != ""
    ensures held[0] == '<' && (|held| >= 2 ==> held[1] == '|')
  {
    assert marker in g.ChannelMarkers() && "<|" <= marker;
  }

  /** And every unfinished header gets there: outside the channels, the start of any active
      marker is held to the end, with the white space in front, and nothing is shown before. */
  lemma HeaderSuppressed(g: Grammar, p: Parser, chunks: seq<string>, space: string, header: string, marker: string)
    requires g.WellFormed() && Framed(g) && Outside(p.state) && p.pending == "" && Concat(chunks) == space + header
    requires Blank(space) && marker in Active(g, p) && header < marker && |header| >= 2
    ensures var (q, deltas) := FeedAll(g, p, chunks);
      && Observed(deltas) == [] && q == p.(pending := space + header)
      && Finish(q).1 == if space == "" then [] else [Content(space + header)]
  {
    var q := Extend(p, Concat(chunks));
    assert q.pending == space + header;
    HeldBehindSpace(g, p, space, header, marker);
    ChannelIs(g, q, |space|, None);
    assert q.pending[..|space|] == space;
    assert StepOnce(g, q) == Step(q, [], false);
    assert !LateOpener(g, q);
    assert chunks != [];
    FeedAllIsFeed(LoopOf(g), g, p, chunks);
    assert Feed(g, p, Concat(chunks)) == (q, []);
    StartsFramed(g, p, header, marker);
    FinishIs(q, space, header);
  }

  lemma HeldBehindSpace(g: Grammar, p: Parser, space: string, header: string, marker: string)
    requires g.WellFormed() && Framed(g) && Blank(space) && marker in Active(g, p) && header != "" && header < marker
    ensures Locate(space + header, Active(g, p)) == (|space|, None)
  {
    var text, active := space + header, Active(g, p);
    ActiveSeparated(g, p);
    assert text[|space|..] == header;
    assert Compatible(text, |space|, marker);
    forall j | 0 <= j < |space|
      ensures !AnyCompatible(text, j, active)
    {
      NotInSpace(g, p, text, j);
    }
    ScanIs(text, active, |space|);
    forall s | s in active
      ensures !OccursAt(text, |space|, s)
    {
      assert s == marker || Apart(s, marker);
      NotInHeader(space, header, s);
    }
  }

  lemma NotInHeader(space: string, header: string, s: string)
    requires !(s <= header)
    ensures !OccursAt(space + header, |space|, s)
  {
    assert (space + header)[|space|..] == header;
  }

  lemma NotInSpace(g: Grammar, p: Parser, text: string, j: nat)
    requires Framed(g) && j < |text| && IsSpace(text[j])
    ensures !AnyCompatible(text, j, Active(g, p))
  {
    assert !IsSpace('<');
    forall s | s in Active(g, p)
      ensures !Compatible(text, j, s)
    {
      assert s in g.ChannelMarkers() && "<|" <= s && s[0] == '<';
      assert text[j..][0] == text[j];
    }
  }
}
