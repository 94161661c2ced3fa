/** The XTML vocabulary of Kimi K3 and its attribute syntax. */
module K3Grammar {
  import opened Patterns
  import opened K3Parser
  import opened K3Chunks
  import opened K3Corner
  import opened K3Ending

  const OPEN := "<|open|>"
  const CLOSE := "<|close|>"
  const SEP := "<|sep|>"
  const END_OF_MESSAGE := "<|end_of_msg|>"
  const THINK_OPEN := OPEN + "think" + SEP
  const THINK_CLOSE := CLOSE + "think" + SEP
  const RESPONSE_OPEN := OPEN + "response" + SEP
  const RESPONSE_CLOSE := CLOSE + "response" + SEP
  const TOOLS_OPEN := OPEN + "tools" + SEP
  const TOOLS_CLOSE := CLOSE + "tools" + SEP
  const MESSAGE_CLOSE := CLOSE + "message" + SEP
  const ARGUMENT_CLOSE := CLOSE + "argument" + SEP

  function Kimi(attrs: string -> Attributes): Grammar {
    Grammar(THINK_OPEN, THINK_CLOSE, RESPONSE_OPEN, RESPONSE_CLOSE, TOOLS_OPEN, MESSAGE_CLOSE, END_OF_MESSAGE,
            OPEN, CLOSE, SEP, ARGUMENT_CLOSE, attrs)
  }

  // ---- the markers do not get in each other's way ----

  /** A `<` inside `t` can only begin `<|sep|>`. */
  predicate InnerAngles(t: string) {
    forall i | 0 < i < |t| && t[i] == '<' :: i + 2 < |t| && t[i + 2] == 's'
  }

  predicate Opens(t: string) {
    3 <= |t| && t[0] == '<' && t[2] != 's'
  }

  predicate NoAngle(t: string) {
    forall i | 0 < i < |t| :: t[i] != '<'
  }

  lemma PlainAngles()
    ensures NoAngle(OPEN) && NoAngle(CLOSE) && NoAngle(END_OF_MESSAGE) && NoAngle(SEP)
    ensures InnerAngles(OPEN) && InnerAngles(CLOSE) && InnerAngles(END_OF_MESSAGE)
    ensures Opens(OPEN) && Opens(CLOSE) && Opens(END_OF_MESSAGE)
  {
  }

  lemma FramedAngles(open: string, name: string)
    requires NoAngle(open) && Opens(open) && '<' !in name
    ensures InnerAngles(open + name + SEP) && Opens(open + name + SEP)
  {
    PlainAngles();
    var t := open + name + SEP;
    var w := open + name;
    forall i | 0 < i < |t| && i != |w|
      ensures t[i] != '<'
    {
      assert t[i] == if i < |open| then open[i] else if i < |w| then name[i - |open|] else SEP[i - |w|];
    }
    assert t[|w| + 2] == SEP[2];
    assert t[0] == open[0] && t[2] == open[2];
  }

  lemma MarkerShapes()
    ensures InnerAngles(THINK_OPEN) && InnerAngles(THINK_CLOSE) && InnerAngles(RESPONSE_OPEN)
    ensures InnerAngles(RESPONSE_CLOSE) && InnerAngles(TOOLS_OPEN) && InnerAngles(MESSAGE_CLOSE)
    ensures InnerAngles(ARGUMENT_CLOSE)
    ensures Opens(THINK_OPEN) && Opens(THINK_CLOSE) && Opens(RESPONSE_OPEN)
    ensures Opens(RESPONSE_CLOSE) && Opens(TOOLS_OPEN) && Opens(MESSAGE_CLOSE)
    ensures Opens(ARGUMENT_CLOSE)
  {
    PlainAngles();
    FramedAngles(OPEN, "think");
    FramedAngles(CLOSE, "think");
    FramedAngles(OPEN, "response");
    FramedAngles(CLOSE, "response");
    FramedAngles(OPEN, "tools");
    FramedAngles(CLOSE, "message");
    FramedAngles(CLOSE, "argument");
  }

  /** So no marker can begin inside another one, nor can its first three characters. */
  lemma AnglesApart(s: string, o: nat, t: string)
    requires InnerAngles(s) && Opens(t) && 0 < o < |s|
    ensures Apart(s[o..], t) && Apart(s[o..], t[..3])
  {
    assert s[o..][0] == s[o];
    if s[o] == '<' { assert s[o..][2] == s[o + 2]; }
  }

  lemma ChannelMarkersDiffer(attrs: string -> Attributes, s: string, t: string)
    requires s in Kimi(attrs).ChannelMarkers() && t in Kimi(attrs).ChannelMarkers() && s != t
    ensures Apart(s, t)
  {
    assert s[2] != t[2] || s[8] != t[8] || s[9] != t[9];
  }

  lemma ShapedSeparated(pats: seq<string>)
    requires forall s | s in pats :: InnerAngles(s) && Opens(s)
    requires forall s, t | s in pats && t in pats && s != t :: Apart(s, t)
    ensures Separated(pats)
  {
    forall s, t, o: nat | s in pats && t in pats && 0 < o < |s|
      ensures Apart(s[o..], t)
    {
      AnglesApart(s, o, t);
    }
  }

  lemma KimiWellFormed(attrs: string -> Attributes)
    ensures Kimi(attrs).WellFormed()
  {
    var g := Kimi(attrs);
    MarkerShapes();
    PlainAngles();
    forall s, t | s in g.ChannelMarkers() && t in g.ChannelMarkers() && s != t
      ensures Apart(s, t)
    {
      ChannelMarkersDiffer(attrs, s, t);
    }
    ShapedSeparated(g.ChannelMarkers());
    forall s, t | s in g.ContainerMarkers() && t in g.ContainerMarkers() && s != t
      ensures Apart(s, t)
    {
      assert s[2] != t[2];
    }
    ShapedSeparated(g.ContainerMarkers());
    ShapedSeparated([g.argumentClose]);
  }

  lemma SepSeparated()
    ensures Separated([SEP])
  {
    PlainAngles();
    forall o: nat | 0 < o < |SEP|
      ensures Apart(SEP[o..], SEP)
    {
      assert SEP[o..][0] == SEP[o];
    }
  }

  lemma KimiStandsOut(attrs: string -> Attributes)
    ensures StandsOut(Kimi(attrs), 3)
  {
    var g := Kimi(attrs);
    MarkerShapes();
    PlainAngles();
    forall s, o: nat | s in g.ChannelMarkers() && 0 < o < |s|
      ensures Apart(s[o..], g.thinkOpen[..3])
    {
      AnglesApart(s, o, g.thinkOpen);
    }
    forall s | s in g.OtherMarkers()
      ensures s != g.thinkOpen
    {
      assert g.thinkOpen[2] == 'o' && g.thinkOpen[8] == 't' && g.thinkOpen[9] == 'h';
      assert s[2] != 'o' || s[8] != 't' || s[9] != 'h';
    }
  }

  /** For Kimi K3: every way to feed a text is observed like feeding it at once, if and
      only if the run on it does not meet a late think opener. */
  lemma KimiChunkInvariance(attrs: string -> Attributes, reasoningOpen: bool, text: string)
    ensures Kimi(attrs).WellFormed()
    ensures Indifferent(Kimi(attrs), reasoningOpen, text) <==>
            !LateOpener(Kimi(attrs), Extend(Initial(reasoningOpen), text))
  {
    KimiWellFormed(attrs);
    KimiStandsOut(attrs);
    ChunkInvarianceExactly(Kimi(attrs), reasoningOpen, text, 3);
  }

  /** The texts that are not indifferent include, in an open think channel, any prose
      followed by a redundant opener. */
  lemma LateOpenerFamily(g: Grammar, prose: string)
    requires g.WellFormed() && prose != "" && !Contains(prose, Active(g, Initial(true)))
    ensures LateOpener(g, Extend(Initial(true), prose + g.thinkOpen))
  {
    var p := Initial(true);
    ActiveSeparated(g, p);
    LocateAfterPlain(prose, g.thinkOpen, "", Active(g, p));
    assert prose + g.thinkOpen + "" == prose + g.thinkOpen;
    assert OpenerNext(g, Extend(p, prose + g.thinkOpen));
  }

  /** The shortest of them: one letter and the opener. */
  lemma LateOpenerExample(attrs: string -> Attributes, prose: string)
    requires prose == "a"
    ensures Kimi(attrs).WellFormed() && !Indifferent(Kimi(attrs), true, prose + THINK_OPEN)
  {
    ShortIsPlain(attrs, prose);
    KimiWellFormed(attrs);
    LateOpenerFamily(Kimi(attrs), prose);
    KimiChunkInvariance(attrs, true, prose + THINK_OPEN);
  }

  lemma ShortIsPlain(attrs: string -> Attributes, prose: string)
    requires |prose| < 3
    ensures !Contains(prose, Active(Kimi(attrs), Initial(true)))
  {
    forall i, s | s in Active(Kimi(attrs), Initial(true))
      ensures !OccursAt(prose, i, s)
    {
      MarkerShapes();
      PlainAngles();
      assert Opens(s);
    }
  }

  /** So for Kimi K3 every unfinished header is either suppressed or shown whole. */
  lemma KimiFramed(attrs: string -> Attributes)
    ensures Framed(Kimi(attrs))
  {
    PlainAngles();
    forall s | s in Kimi(attrs).ChannelMarkers()
      ensures "<|" <= s
    {
      assert s[..2] == "<|";
    }
  }
}
