/** The raw streaming path delivers the same reasoning and content for every chunking. */
module RawExact {
  import opened Sequences
  import opened Patterns
  import opened StopFilter
  import opened RawStream

  /** No pattern occurs before position `to`. */
  ghost predicate Free(text: string, pats: seq<string>, to: nat) {
    forall j | 0 <= j < to :: !AnyAt(text, j, pats)
  }

  /** Content from `base` on is being shown; no stop string so far. */
  ghost predicate Answering(c: Setup, s: Raw, base: nat) {
    && base <= s.emitted <= |s.text| && s.content == s.text[base..s.emitted]
    && Earliest(s.text, c.stops).None? && s.holding == Earliest(s.text, c.markers).Some?
    && s.emitted == Max(base, if s.holding then Earliest(s.text, c.markers).value else Safe(s.text, c.stops + c.markers))
  }

  /** The same, when new text has just arrived. */
  ghost predicate Ready(c: Setup, s: Raw, base: nat) {
    && base <= s.emitted <= |s.text| && s.content == s.text[base..s.emitted]
    && (s.emitted == base || Free(s.text, c.stops, s.emitted))
    && (Earliest(s.text, c.stops).None? ==>
          if s.holding then Earliest(s.text, c.markers).Some? && s.emitted == Max(base, Earliest(s.text, c.markers).value)
          else (s.emitted == base || Free(s.text, c.markers, s.emitted))
               && s.emitted <= Max(base, Safe(s.text, c.stops + c.markers)))
  }

  lemma FreeBefore(text: string, pats: seq<string>, base: nat, emitted: nat)
    requires base <= emitted && (emitted == base || Free(text, pats, emitted))
    ensures Earliest(text, pats).Some? ==> emitted <= Max(base, Earliest(text, pats).value)
  {
    EarliestSpec(text, pats, 0, Earliest(text, pats));
  }

  lemma AnswerKeeps(c: Setup, s: Raw, base: nat)
    requires Ready(c, s, base) && !s.stopped
    ensures var t := Answer(c, s);
      && t.text == s.text && t.reasoning == s.reasoning && t.active == s.active && t.drop == s.drop
      && t.emitted <= |t.text| && t.stopped == Earliest(s.text, c.stops).Some?
      && if t.stopped then t.content == Upto(s.text, base, End(c, s.text)) else Answering(c, t, base)
  {
    FreeBefore(s.text, c.stops, base, s.emitted);
    EarliestBounds(s.text, c.stops, 0);
    EarliestBounds(s.text, c.markers, 0);
    if !s.holding && Earliest(s.text, c.stops).None? { FreeBefore(s.text, c.markers, base, s.emitted); }
    Abut(s.text, base, s.emitted);
  }

  lemma Abut(text: string, base: nat, mid: nat)
    requires base <= mid <= |text|
    ensures forall end | mid <= end <= |text| :: text[base..mid] + text[mid..end] == text[base..end]
  {
  }

  /** Before the first marker no stop string can turn up later, and no marker without a stop
      string, that was not there already. */
  lemma NothingBeforeMarker(c: Setup, text: string, more: string, j: nat, s: string)
    requires MarkerSafe(c.stops, c.markers) && Earliest(text, c.markers).Some? && j < Earliest(text, c.markers).value
    requires Ends(s, c.stops, c.markers) && OccursAt(text + more, j, s)
    ensures Contains(text, c.stops) || AnyAt(text, j, c.markers)
  {
    var e := Earliest(text, c.markers).value;
    EarliestBounds(text, c.markers, 0);
    var m :| m in c.markers && OccursAt(text, e, m);
    if j + |s| <= |text| {
      OccursExtends(text, more, j, s);
      if s in c.stops { assert AnyAt(text, j, c.stops); }
    } else {
      MarkerInside(c, text, more, e, j, s, m);
    }
  }

  lemma MarkerInside(c: Setup, text: string, more: string, e: nat, j: nat, s: string, m: string)
    requires MarkerSafe(c.stops, c.markers) && Ends(s, c.stops, c.markers) && m in c.markers
    requires OccursAt(text + more, j, s) && |text| < j + |s| && OccursAt(text, e, m) && j < e
    ensures Contains(text, c.stops) || AnyAt(text, j, c.markers)
  {
    InsideOuter(text, more, e, j, s, m);
    var n := e - j + |m|;
    if Contains(s[..n], c.stops) {
      assert s[..n] <= s && OccursAt(text, j, s[..n]);
      ContainsInside(text, j, s[..n], c.stops);
    } else {
      var q :| q in c.markers && q <= s && |q| <= n;
      assert OccursAt(text, j, q);
    }
  }

  lemma ContainsInside(text: string, j: nat, part: string, pats: seq<string>)
    requires OccursAt(text, j, part) && Contains(part, pats)
    ensures Contains(text, pats)
  {
    var i :| 0 <= i <= |part| && AnyAt(part, i, pats);
    var s :| s in pats && OccursAt(part, i, s);
    SliceOfOccurrence(text, j, part, i, |s|);
    assert AnyAt(text, j + i, pats);
  }

  lemma AnyAtEither(text: string, j: int, a: seq<string>, b: seq<string>)
    ensures AnyAt(text, j, a + b) == (AnyAt(text, j, a) || AnyAt(text, j, b))
  {
    if AnyAt(text, j, a) {
      var s :| s in a && OccursAt(text, j, s);
      assert s in a + b;
    }
    if AnyAt(text, j, b) {
      var s :| s in b && OccursAt(text, j, s);
      assert s in a + b;
    }
  }

  /** A marker starts before `base`. */
  predicate MarkedBefore(text: string, pats: seq<string>, base: nat) {
    Earliest(text, pats).Some? && Earliest(text, pats).value < base
  }

  lemma AnsweringExtends(c: Setup, s: Raw, base: nat, delta: string)
    requires (MarkerSafe(c.stops, c.markers) || MarkedBefore(s.text, c.markers, base)) && Answering(c, s, base)
    ensures Ready(c, s.(text := s.text + delta), base)
  {
    var text := s.text + delta;
    assert text[base..s.emitted] == s.text[base..s.emitted];
    if MarkedBefore(s.text, c.markers, base) {
      MarkedStays(s.text, delta, c.markers, base);
    } else if s.holding {
      HoldingExtends(c, s.text, delta);
    } else {
      EarliestSpec(s.text, c.stops, 0, None);
      EarliestSpec(s.text, c.markers, 0, None);
      SafeStays(s.text, delta, c.stops + c.markers);
      forall j | 0 <= j < Safe(s.text, c.stops + c.markers)
        ensures !AnyAt(text, j, c.stops) && !AnyAt(text, j, c.markers)
      {
        AnyAtEither(text, j, c.stops, c.markers);
        AnyAtEither(s.text, j, c.stops, c.markers);
      }
    }
  }

  lemma MarkedStays(text: string, more: string, pats: seq<string>, base: nat)
    requires MarkedBefore(text, pats, base)
    ensures MarkedBefore(text + more, pats, base)
  {
    var e := Earliest(text, pats).value;
    EarliestBounds(text, pats, 0);
    AnyAtExtends(text, more, e, pats);
    EarliestSpec(text + more, pats, 0, Earliest(text + more, pats));
  }

  /** The first marker stays the first, unless a stop string turns up; and none before it. */
  lemma HoldingExtends(c: Setup, text: string, more: string)
    requires MarkerSafe(c.stops, c.markers) && Earliest(text, c.stops).None? && Earliest(text, c.markers).Some?
    ensures var e := Earliest(text, c.markers).value;
      && Free(text + more, c.stops, e)
      && (Earliest(text + more, c.stops).None? ==> Earliest(text + more, c.markers) == Some(e))
  {
    var e := Earliest(text, c.markers).value;
    EarliestSpec(text, c.stops, 0, None);
    EarliestSpec(text, c.markers, 0, Some(e));
    AnyAtExtends(text, more, e, c.markers);
    forall j | 0 <= j < e
      ensures !AnyAt(text + more, j, c.stops)
      ensures Earliest(text + more, c.stops).None? ==> !AnyAt(text + more, j, c.markers)
    {
      if AnyAt(text + more, j, c.stops) {
        var s :| s in c.stops && OccursAt(text + more, j, s);
        NothingBeforeMarker(c, text, more, j, s);
      } else if Earliest(text + more, c.stops).None? && AnyAt(text + more, j, c.markers) {
        EarliestSpec(text + more, c.stops, 0, None);
        var s :| s in c.markers && OccursAt(text + more, j, s);
        if Contains(s, c.stops) { ContainsInside(text + more, j, s, c.stops); }
        NothingBeforeMarker(c, text, more, j, s);
      }
    }
    if Earliest(text + more, c.stops).None? { EarliestSpec(text + more, c.markers, 0, Some(e)); }
  }

  // ---- the reasoning channel ----

  /** The think channel is open: leading tags are dropped, and what follows is shown. */
  ghost predicate Thinking(c: Setup, s: Raw) {
    var p := SkipOpeners(s.text, 0);
    && !s.holding && s.content == "" && p <= s.emitted <= |s.text| && s.reasoning == s.text[p..s.emitted]
    && if s.drop then s.emitted == p && NeedMore(s.text, p)
       else !NeedMore(s.text, p) && FindFrom(s.text, c.thinkClose, p).None?
            && s.emitted == Max(p, Safe(s.text, [c.thinkClose]))
  }

  /** The same, when new text has just arrived and no leading tag can follow. */
  ghost predicate Pondering(c: Setup, s: Raw) {
    var p := SkipOpeners(s.text, 0);
    && !s.holding && s.content == "" && p <= s.emitted <= |s.text| && s.reasoning == s.text[p..s.emitted]
    && !s.drop && !NeedMore(s.text, p)
    && (forall j | p <= j < s.emitted :: !AnyAt(s.text, j, [c.thinkClose])) && s.emitted <= Max(p, Safe(s.text, [c.thinkClose]))
  }

  lemma FindSkips(text: string, pat: string, p: nat, from: nat)
    requires p <= from <= |text| && forall j | p <= j < from :: !AnyAt(text, j, [pat])
    ensures FindFrom(text, pat, p) == FindFrom(text, pat, from)
  {
    EarliestSpec(text, [pat], from, FindFrom(text, pat, from));
    EarliestSpec(text, [pat], p, FindFrom(text, pat, from));
  }

  /** Closed reasoning, followed by an answer. */
  ghost predicate Closed(c: Setup, s: Raw) {
    var p := SkipOpeners(s.text, 0);
    !NeedMore(s.text, p) && FindFrom(s.text, c.thinkClose, p).Some? &&
    s.reasoning == s.text[p..FindFrom(s.text, c.thinkClose, p).value]
  }

  function Base(c: Setup, text: string): nat {
    if !c.reasoningOpen then 0
    else
      match FindFrom(text, c.thinkClose, SkipOpeners(text, 0))
      case Some(close) => close + |c.thinkClose|
      case None => |text|
  }

  /** What holds between deltas. */
  ghost predicate Good(c: Setup, s: Raw) {
    && s.emitted <= |s.text|
    && if s.active then c.reasoningOpen && !s.stopped && Thinking(c, s)
       else
         && (if c.reasoningOpen then Closed(c, s) else s.reasoning == "")
         && s.stopped == Earliest(s.text, c.stops).Some?
         && if s.stopped then s.content == Upto(s.text, Base(c, s.text), End(c, s.text))
            else Answering(c, s, Base(c, s.text))
  }

  lemma ReasonKeeps(c: Setup, s: Raw)
    requires c.reasoningOpen && s.active && !s.stopped && Pondering(c, s)
    ensures Good(c, Reason(c, s)) && Reason(c, s).text == s.text
  {
    var p := SkipOpeners(s.text, 0);
    FindSkips(s.text, c.thinkClose, p, s.emitted);
    var found := FindFrom(s.text, c.thinkClose, s.emitted);
    if found.Some? { ReasonEnds(c, s, p, found.value); } else { ReasonWaits(c, s, p); }
  }

  lemma ReasonEnds(c: Setup, s: Raw, p: nat, close: nat)
    requires c.reasoningOpen && s.active && !s.stopped && Pondering(c, s) && p == SkipOpeners(s.text, 0)
    requires FindFrom(s.text, c.thinkClose, s.emitted) == FindFrom(s.text, c.thinkClose, p) == Some(close)
    ensures Good(c, Reason(c, s)) && Reason(c, s).text == s.text
  {
    Abut(s.text, p, s.emitted);
    assert s.reasoning + s.text[s.emitted..close] == s.text[p..close];
    ReasonCloses(c, s, p, close);
  }

  lemma ReasonWaits(c: Setup, s: Raw, p: nat)
    requires c.reasoningOpen && s.active && !s.stopped && Pondering(c, s) && p == SkipOpeners(s.text, 0)
    requires FindFrom(s.text, c.thinkClose, s.emitted).None? && FindFrom(s.text, c.thinkClose, p).None?
    ensures Good(c, Reason(c, s)) && Reason(c, s).text == s.text
  {
    Abut(s.text, p, s.emitted);
  }

  lemma ReasonCloses(c: Setup, s: Raw, p: nat, close: nat)
    requires c.reasoningOpen && s.active && !s.stopped && s.content == "" && !s.holding
    requires p == SkipOpeners(s.text, 0) && !NeedMore(s.text, p) && p <= close
    requires FindFrom(s.text, c.thinkClose, p) == Some(close)
    ensures var t := s.(reasoning := s.text[p..close], emitted := close + |c.thinkClose|, active := false);
            t.emitted <= |t.text| && Good(c, Answer(c, t)) && Answer(c, t).text == s.text
  {
    var base := close + |c.thinkClose|;
    var t := s.(reasoning := s.text[p..close], emitted := base, active := false);
    assert t.content == s.text[base..base];
    assert Base(c, s.text) == base && Ready(c, t, base);
    AnswerKeeps(c, t, base);
  }

  lemma ThinkingExtends(c: Setup, s: Raw, delta: string)
    requires Thinking(c, s) && !s.drop
    ensures Pondering(c, s.(text := s.text + delta))
  {
    var text, p := s.text + delta, SkipOpeners(s.text, 0);
    SkipStable(s.text, delta, 0);
    assert text[p..s.emitted] == s.text[p..s.emitted];
    SafeStays(s.text, delta, [c.thinkClose]);
    EarliestSpec(s.text, [c.thinkClose], p, None);
  }

  lemma DroppingExtends(c: Setup, s: Raw, delta: string)
    requires Thinking(c, s) && s.drop
    ensures var text := s.text + delta;
            var pos := SkipOpeners(text, s.emitted);
      && pos == SkipOpeners(text, 0)
      && if NeedMore(text, pos) then Thinking(c, s.(text := text, emitted := pos))
         else Pondering(c, s.(text := text, emitted := pos, drop := false))
  {
    SkipContinues(s.text, delta, 0);
    var text := s.text + delta;
    var pos := SkipOpeners(text, s.emitted);
    assert text[pos..pos] == "";
  }

  lemma ClosedExtends(c: Setup, s: Raw, delta: string)
    requires Closed(c, s) && c.reasoningOpen
    ensures Closed(c, s.(text := s.text + delta)) && Base(c, s.text + delta) == Base(c, s.text)
  {
    var p := SkipOpeners(s.text, 0);
    SkipStable(s.text, delta, 0);
    FindExtends(s.text, delta, c.thinkClose, p);
    var close := FindFrom(s.text, c.thinkClose, p).value;
    assert (s.text + delta)[p..close] == s.text[p..close];
  }

  /** Behind a closing tag that holds one of the strings, that string starts before the content. */
  lemma MaskedMarks(c: Setup, s: Raw, pats: seq<string>)
    requires "" !in pats && Masked(c, pats) && Closed(c, s)
    ensures MarkedBefore(s.text, pats, Base(c, s.text))
  {
    var close := FindFrom(s.text, c.thinkClose, SkipOpeners(s.text, 0)).value;
    EarliestSpec(s.text, [c.thinkClose], SkipOpeners(s.text, 0), Some(close));
    MarkedInside(s.text, close, c.thinkClose, pats);
  }

  lemma MarkedInside(text: string, j: nat, part: string, pats: seq<string>)
    requires "" !in pats && OccursAt(text, j, part) && Contains(part, pats)
    ensures MarkedBefore(text, pats, j + |part|)
  {
    var i :| 0 <= i <= |part| && AnyAt(part, i, pats);
    var m :| m in pats && OccursAt(part, i, m);
    SliceOfOccurrence(text, j, part, i, |m|);
    assert AnyAt(text, j + i, pats);
    EarliestSpec(text, pats, 0, Earliest(text, pats));
  }

  lemma StepKeeps(c: Setup, s: Raw, delta: string)
    requires c.Valid() && Good(c, s) && !s.stopped
    requires Masked(c, c.stops) || Masked(c, c.markers) || MarkerSafe(c.stops, c.markers)
    ensures Good(c, Step(c, s, delta)) && Step(c, s, delta).text == s.text + delta
  {
    var t := s.(text := s.text + delta);
    if !s.active {
      var base := Base(c, s.text);
      if c.reasoningOpen { ClosedExtends(c, s, delta); }
      if Masked(c, c.stops) { MaskedMarks(c, s, c.stops); } else if Masked(c, c.markers) { MaskedMarks(c, s, c.markers); }
      AnsweringExtends(c, s, base, delta);
      AnswerKeeps(c, t, base);
    } else if !s.drop {
      ThinkingExtends(c, s, delta);
      ReasonKeeps(c, t);
    } else {
      DroppingExtends(c, s, delta);
      var pos := SkipOpeners(t.text, s.emitted);
      if !NeedMore(t.text, pos) { ReasonKeeps(c, t.(emitted := pos, drop := false)); }
    }
  }

  lemma NothingInEmpty(pats: seq<string>, text: string)
    requires "" !in pats && |text| == 0
    ensures Earliest(text, pats).None?
  {
    EarliestSpec(text, pats, 0, None);
  }

  lemma StartGood(c: Setup, s: Raw)
    requires Earliest(s.text, c.stops).None? && Earliest(s.text, c.markers).None?
    requires |s.text| == s.emitted == 0 && s.content == s.text == s.reasoning && !s.holding && !s.stopped
    requires s.active == s.drop == c.reasoningOpen
    ensures Good(c, s)
  {
  }

  lemma FlushIsSplit(c: Setup, s: Raw)
    requires c.Valid() && Good(c, s)
    ensures var t := Flush(s); (t.reasoning, t.content) == Split(c, s.text)
  {
    if s.active {
      var p := SkipOpeners(s.text, 0);
      Abut(s.text, p, s.emitted);
      assert s.text[s.emitted..] == s.text[s.emitted..|s.text|] && s.text[p..] == s.text[p..|s.text|];
      if s.drop { NothingInOpener(c, s.text, p); }
    } else if !s.stopped {
      Abut(s.text, Base(c, s.text), s.emitted);
    }
  }

  /** What may still become an opening tag holds no closing tag. */
  lemma NothingInOpener(c: Setup, text: string, p: nat)
    requires c.Valid() && p <= |text| && NeedMore(text, p)
    ensures FindFrom(text, c.thinkClose, p).None?
  {
    forall j | p <= j <= |text|
      ensures !AnyAt(text, j, [c.thinkClose])
    {
      assert !AnyAt(THINK, j - p, [c.thinkClose]);
      assert !OccursAt(THINK, j - p, c.thinkClose);
      if j + |c.thinkClose| <= |text| {
        assert text[j..j + |c.thinkClose|] == text[p..][j - p..j - p + |c.thinkClose|] == THINK[j - p..j - p + |c.thinkClose|];
      }
    }
    EarliestSpec(text, [c.thinkClose], p, None);
  }

  lemma NothingLeft(c: Setup, text: string, base: nat)
    requires MarkedBefore(text, c.stops, base) && base <= |text|
    ensures Upto(text, base, End(c, text)) == ""
  {
  }

  /** Once a stop string has ended the stream, the rest of the text makes no difference. */
  lemma SplitStable(c: Setup, s: Raw, more: string)
    requires c.Valid() && (Masked(c, c.stops) || ChunkSafe(c.stops)) && Good(c, s) && s.stopped
    ensures Split(c, s.text + more) == Split(c, s.text)
  {
    EarliestBounds(s.text, c.stops, 0);
    var base := Base(c, s.text);
    if c.reasoningOpen { ClosedExtends(c, s, more); }
    assert base <= |s.text|;
    if Masked(c, c.stops) {
      MaskedMarks(c, s, c.stops);
      MarkedStays(s.text, more, c.stops, base);
      NothingLeft(c, s.text, base);
      NothingLeft(c, s.text + more, base);
    } else {
      CutStable(c.stops, s.text, more);
      var n := End(c, s.text);
      assert (s.text + more)[base..Max(base, n)] == s.text[base..Max(base, n)];
    }
  }

  // ---- whole streams ----

  function Run(c: Setup, s: Raw, deltas: seq<string>): Raw
    requires s.emitted <= |s.text|
    decreases |deltas|
  {
    if deltas == [] || s.stopped then Flush(s)
    else if deltas[0] == "" then Run(c, s, deltas[1..])
    else Run(c, Step(c, s, deltas[0]), deltas[1..])
  }

  lemma {:induction false} RunIsSplit(c: Setup, s: Raw, deltas: seq<string>)
    requires c.Valid() && Exact(c) && Good(c, s)
    ensures var t := Run(c, s, deltas); (t.reasoning, t.content) == Split(c, s.text + Concat(deltas))
    decreases |deltas|
  {
    if deltas == [] {
      assert s.text + "" == s.text;
      FlushIsSplit(c, s);
    } else if s.stopped {
      FlushIsSplit(c, s);
      SplitStable(c, s, Concat(deltas));
    } else if deltas[0] == "" {
      assert Concat(deltas) == Concat(deltas[1..]);
      RunIsSplit(c, s, deltas[1..]);
    } else {
      StepKeeps(c, s, deltas[0]);
      RunIsSplit(c, Step(c, s, deltas[0]), deltas[1..]);
      Associates(s.text, deltas[0], Concat(deltas[1..]));
    }
  }

  /** However the text is cut into deltas, the reasoning channel gets the text after leading
      opening tags up to the closing tag, and content the rest, up to the first stop string,
      else up to the first hold marker. */
  lemma RawIsSplit(c: Setup, deltas: seq<string>)
    requires c.Valid() && Exact(c)
    ensures var t := Run(c, Start(c), deltas); (t.reasoning, t.content) == Split(c, Concat(deltas))
  {
    NothingInEmpty(c.stops, Start(c).text);
    NothingInEmpty(c.markers, Start(c).text);
    StartGood(c, Start(c));
    RunIsSplit(c, Start(c), deltas);
    assert "" + Concat(deltas) == Concat(deltas);
  }

  /** Stop strings are searched in the reasoning too: one that starts before the closing tag
      has been passed leaves no content at all. */
  lemma StopInReasoning(c: Setup, deltas: seq<string>)
    requires c.Valid() && Exact(c) && c.reasoningOpen
    requires var text := Concat(deltas);
             Earliest(text, c.stops).Some? && Earliest(text, c.stops).value <= Base(c, text)
    ensures Run(c, Start(c), deltas).content == ""
  {
    RawIsSplit(c, deltas);
  }

  // ---- without markers and reasoning, the raw path is the stop filter ----

  /** What the filter has emitted in the end, when it has read `text` so far. */
  function EmittedFrom(stops: seq<string>, text: string, deltas: seq<string>): string {
    var (f, pieces) := Pieces(stops, After(stops, text), deltas);
    text[..Scan(text, stops)] + (Concat(pieces) + f.pending)
  }

  lemma EmittedNext(stops: seq<string>, text: string, deltas: seq<string>)
    requires deltas != []
    ensures EmittedFrom(stops, text, deltas) ==
            if Earliest(text + deltas[0], stops).Some? then Cut(text + deltas[0], stops)
            else EmittedFrom(stops, text + deltas[0], deltas[1..])
  {
    PushAfter(stops, text, deltas[0]);
    var k := Scan(text, stops);
    var (f, piece) := Push(stops, After(stops, text), deltas[0]);
    var (g, rest) := Pieces(stops, f, deltas[1..]);
    ConcatCons(text[..k], piece, rest, g.pending);
    assert text[..k] + piece + ("" + "") == text[..k] + piece;
  }

  /** Between deltas, and no stop string so far. */
  ghost predicate Going(c: Setup, s: Raw) {
    c.Valid() && c.markers == [] && !c.reasoningOpen && Good(c, s) && !s.stopped && !s.active
  }

  lemma FlushesAll(c: Setup, s: Raw)
    requires Going(c, s)
    ensures Flush(s).content == s.text
  {
    EarliestSpec(s.text, c.markers, 0, None);
    Abut(s.text, 0, s.emitted);
    assert s.text[0..|s.text|] == s.text;
  }

  lemma NothingToEmit(stops: seq<string>, text: string)
    ensures EmittedFrom(stops, text, []) == text
  {
    WholeAgain(text, Scan(text, stops));
  }

  lemma WholeAgain(text: string, k: nat)
    requires k <= |text|
    ensures text[..k] + ("" + text[k..]) == text
  {
  }

  lemma GoesOn(c: Setup, s: Raw, delta: string)
    requires Going(c, s)
    ensures var t, text := Step(c, s, delta), s.text + delta;
      && t.emitted <= |t.text| && t.stopped == Earliest(text, c.stops).Some?
      && if t.stopped then Flush(t).content == Cut(text, c.stops) else Going(c, t) && t.text == text
  {
    assert MarkerSafe(c.stops, c.markers);
    StepKeeps(c, s, delta);
    EarliestBounds(s.text + delta, c.stops, 0);
  }

  lemma {:induction false} RunIsEmitted(c: Setup, s: Raw, deltas: seq<string>)
    requires Going(c, s)
    ensures Run(c, s, deltas).content == EmittedFrom(c.stops, s.text, deltas)
    decreases |deltas|
  {
    if deltas == [] {
      FlushesAll(c, s);
      NothingToEmit(c.stops, s.text);
    } else {
      EmittedNext(c.stops, s.text, deltas);
      if deltas[0] == "" {
        assert s.text + "" == s.text;
        RunIsEmitted(c, s, deltas[1..]);
      } else {
        GoesOn(c, s, deltas[0]);
        var t := Step(c, s, deltas[0]);
        assert Run(c, s, deltas) == Run(c, t, deltas[1..]);
        if !t.stopped { RunIsEmitted(c, t, deltas[1..]); }
      }
    }
  }

  /** For every chunking the content is what the stop filter emits. */
  lemma RawIsFilter(c: Setup, deltas: seq<string>)
    requires c.Valid() && c.markers == [] && !c.reasoningOpen
    ensures Run(c, Start(c), deltas).content == Emitted(c.stops, deltas)
  {
    NothingInEmpty(c.stops, Start(c).text);
    NothingInEmpty(c.markers, Start(c).text);
    StartGood(c, Start(c));
    RunIsEmitted(c, Start(c), deltas);
    assert After(c.stops, "") == FRESH;
    assert "" + Emitted(c.stops, deltas) == Emitted(c.stops, deltas);
  }

  /** So it is a prefix of the text without stop strings, and it is the text before the first
      stop string, for every chunking, exactly for chunk safe stop strings. */
  lemma StopsExactly(c: Setup)
    requires c.Valid() && c.markers == [] && !c.reasoningOpen
    ensures forall deltas :: CleanPrefix(c, deltas)
    ensures (forall deltas :: Run(c, Start(c), deltas).content == Cut(Concat(deltas), c.stops)) <==> ChunkSafe(c.stops)
  {
    forall deltas
      ensures CleanPrefix(c, deltas) && Run(c, Start(c), deltas).content == Emitted(c.stops, deltas)
    {
      RawIsFilter(c, deltas);
      EmittedIsCleanPrefix(c.stops, deltas);
    }
    StopFilterExactly(c.stops);
  }

  ghost predicate CleanPrefix(c: Setup, deltas: seq<string>) {
    Run(c, Start(c), deltas).content <= Concat(deltas) && !Contains(Run(c, Start(c), deltas).content, c.stops)
  }
}
