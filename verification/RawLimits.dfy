/** The raw streaming path: exactly when it is indifferent to chunking, and what its searches
    over the whole text cost. */
module RawLimits {
  import opened Sequences
  import opened Patterns
  import opened StopFilter
  import opened RawStream
  import opened RawExact

  // ---- a text whose content starts where we like ----

  /** A character that occurs in none of the strings. */
  predicate Fresh(c: Setup, x: char) {
    x !in THINK && x !in c.thinkClose && (forall s | s in c.stops :: x !in s) && forall s | s in c.markers :: x !in s
  }

  /** With an open think channel: a shortest reasoning, its end, and one character of content. */
  function Lead(c: Setup, x: char): string { if c.reasoningOpen then [x] + c.thinkClose + [x] else "" }

  function LeadBase(c: Setup): nat { if c.reasoningOpen then 1 + |c.thinkClose| else 0 }

  predicate Usable(c: Setup, x: char) { c.Valid() && (c.reasoningOpen ==> Fresh(c, x)) }

  lemma LeadCloses(c: Setup, x: char, u: string)
    requires c.Valid() && c.reasoningOpen && Fresh(c, x)
    ensures var text := Lead(c, x) + u;
      && SkipOpeners(text, 0) == 0 && !NeedMore(text, 0) && FindFrom(text, c.thinkClose, 0) == Some(1)
      && text[0..1] == [x] && text[..|Lead(c, x)|] == Lead(c, x)
  {
    assert Lead(c, x) + u == [x] + c.thinkClose + ([x] + u);
    TagCloses(c, x, [x] + u);
  }

  /** A reasoning of one character, and its end. */
  lemma TagCloses(c: Setup, x: char, u: string)
    requires c.Valid() && x !in THINK && x !in c.thinkClose
    ensures var text := [x] + c.thinkClose + u;
      SkipOpeners(text, 0) == 0 && !NeedMore(text, 0) && FindFrom(text, c.thinkClose, 0) == Some(1)
  {
    var text := [x] + c.thinkClose + u;
    assert text[0] == x && text[0..] == text;
    assert text[1..1 + |c.thinkClose|] == c.thinkClose;
    assert OccursAt(text, 1, c.thinkClose) && c.thinkClose in [c.thinkClose];
    NotOver(text, 0, c.thinkClose, 0, x);
    assert forall s | s in [c.thinkClose] :: !OccursAt(text, 0, s);
    EarliestSpec(text, [c.thinkClose], 0, Some(1));
  }

  /** A string without the character does not lie over one. */
  lemma NotOver(text: string, j: int, s: string, i: nat, x: char)
    requires i < |text| && text[i] == x && x !in s
    ensures OccursAt(text, j, s) ==> !(j <= i < j + |s|)
  {
    if OccursAt(text, j, s) {
      forall k | j <= k < j + |s|
        ensures text[k] == s[k - j]
      {
        assert text[j..j + |s|][k - j] == text[k];
      }
    }
  }

  lemma LeadPlain(c: Setup, x: char, u: string, pats: seq<string>)
    requires Usable(c, x) && !Masked(c, pats) && (pats == c.stops || pats == c.markers)
    ensures var found := Earliest(u, pats);
            Earliest(Lead(c, x) + u, pats) == if found.Some? then Some(|Lead(c, x)| + found.value) else None
  {
    var lead := Lead(c, x);
    forall j, s | 0 <= j < |lead| && s in pats
      ensures !OccursAt(lead + u, j, s)
    {
      NotInLead(c, x, u, pats, j, s);
    }
    EarliestBehind(lead, u, pats);
  }

  lemma NotInLead(c: Setup, x: char, u: string, pats: seq<string>, j: nat, s: string)
    requires c.reasoningOpen && Fresh(c, x) && (pats == c.stops || pats == c.markers) && s in pats && s != ""
    requires !Contains(c.thinkClose, pats) && j < |Lead(c, x)|
    ensures !OccursAt(Lead(c, x) + u, j, s)
  {
    var lead := Lead(c, x);
    var text, last := lead + u, |lead| - 1;
    assert text[0] == x && text[last] == x;
    NotOver(text, j, s, 0, x);
    NotOver(text, j, s, last, x);
    if 0 < j && j + |s| <= last {
      assert text[j..j + |s|] == c.thinkClose[j - 1..j - 1 + |s|];
      assert !AnyAt(c.thinkClose, j - 1, pats);
    }
  }

  // ---- two deltas ----

  /** Before the content of the first delta, all of `text`, is looked at. */
  predicate Opened(c: Setup, s: Raw, text: string) {
    && s.text == text && s.emitted == LeadBase(c) <= |text| && s.content == ""
    && !s.holding && !s.active && !s.stopped
  }

  lemma FirstDelta(c: Setup, x: char, u: string) returns (s: Raw)
    requires Usable(c, x)
    ensures Opened(c, s, Lead(c, x) + u) && Step(c, Start(c), Lead(c, x) + u) == Answer(c, s)
  {
    var text := Lead(c, x) + u;
    s := Raw(text, LeadBase(c), false, false, false, false, if c.reasoningOpen then [x] else "", "");
    assert "" + text == text;
    if c.reasoningOpen {
      LeadCloses(c, x, u);
      assert "" + [x] == [x];
    }
  }

  /** The first delta is shown up to `e`, which no later search takes back. */
  lemma ShownUpTo(c: Setup, x: char, a: string, b: string, e: nat, s: Raw)
    requires Usable(c, x) && !Masked(c, c.stops) && e <= |a| && Opened(c, s, Lead(c, x) + a)
    requires if Earliest(a, c.stops).Some? then Earliest(a, c.stops) == Some(e)
             else !Masked(c, c.markers) && Earliest(a, c.markers) == Some(e)
    requires Earliest(a + b, c.stops) == Some(0) || Earliest(a + b, c.stops).None?
    ensures ShowsTo(c, s, b, |Lead(c, x)| + e)
  {
    LeadPlain(c, x, a, c.stops);
    if Earliest(a, c.stops).None? { LeadPlain(c, x, a, c.markers); }
    LeadPlain(c, x, a + b, c.stops);
    assert Lead(c, x) + a + b == Lead(c, x) + (a + b);
  }

  ghost predicate ShowsTo(c: Setup, s: Raw, b: string, idx: nat) {
    && s.emitted <= idx <= |s.text|
    && if Earliest(s.text, c.stops).Some? then Earliest(s.text, c.stops) == Some(idx)
       else Earliest(s.text, c.markers) == Some(idx) &&
            (Earliest(s.text + b, c.stops).None? || Earliest(s.text + b, c.stops).value <= idx)
  }

  lemma TwoDeltas(c: Setup, s: Raw, first: string, b: string, idx: nat)
    requires first != "" && b != "" && ShowsTo(c, s, b, idx) && Step(c, Start(c), first) == Answer(c, s)
    requires s.content == "" && !s.holding && !s.active && !s.stopped
    ensures |Run(c, Start(c), [first, b]).content| == idx - s.emitted
  {
    var t := Step(c, Start(c), first);
    assert [first, b][1..] == [b] && [b][1..] == [];
    assert Run(c, Start(c), [first, b]) == Run(c, t, [b]);
    if Earliest(s.text, c.stops).Some? {
      StopsThere(c, s, idx);
    } else {
      HoldsOn(c, s, idx, b);
      assert Run(c, t, [b]) == Run(c, Step(c, t, b), []);
    }
  }

  lemma StopsThere(c: Setup, s: Raw, idx: nat)
    requires s.emitted <= idx && idx <= |s.text| && s.content == "" && Earliest(s.text, c.stops) == Some(idx)
    ensures Answer(c, s).stopped && |Flush(Answer(c, s)).content| == idx - s.emitted
  {
  }

  lemma HoldsOn(c: Setup, s: Raw, midx: nat, b: string)
    requires s.emitted <= midx <= |s.text| && s.content == "" && !s.holding && !s.active && !s.stopped
    requires Earliest(s.text, c.stops).None? && Earliest(s.text, c.markers) == Some(midx)
    requires Earliest(s.text + b, c.stops).None? || Earliest(s.text + b, c.stops).value <= midx
    ensures var t := Answer(c, s); !t.stopped && |Flush(Step(c, t, b)).content| == midx - s.emitted
  {
    var t := Answer(c, s);
    assert t.holding && !t.active && t.emitted == midx && t.text == s.text && |t.content| == midx - s.emitted;
    var u := t.(text := s.text + b);
    assert Step(c, t, b) == Answer(c, u);
    EarliestBounds(u.text, c.stops, 0);
    var v := Answer(c, u);
    assert v.content == t.content + u.text[midx..midx] || v.content == t.content;
  }

  lemma SplitAtLead(c: Setup, x: char, u: string, text: string) returns (k: nat)
    requires Usable(c, x) && !Masked(c, c.stops) && text == Lead(c, x) + u
    requires Earliest(u, c.stops) == Some(0) ||
             (Earliest(u, c.stops).None? && !Masked(c, c.markers) && Earliest(u, c.markers) == Some(0))
    ensures |Split(c, text).1| == k && k + LeadBase(c) == |Lead(c, x)|
  {
    k := |Lead(c, x)| - LeadBase(c);
    LeadPlain(c, x, u, c.stops);
    if Earliest(u, c.stops).None? { LeadPlain(c, x, u, c.markers); }
    if c.reasoningOpen { LeadCloses(c, x, u); }
  }

  /** A string `s` with one of `pats` ending properly inside, at `n`, and none at its start by
      then: cut there, the search finds one in the first part, but behind the start. */
  lemma CutInside(s: string, pats: seq<string>, t: string, o: nat) returns (e: nat)
    requires t in pats && 0 < o && OccursAt(s, o, t) && o + |t| < |s|
    requires !exists q | q in pats :: q <= s && |q| <= o + |t|
    ensures Earliest(s[..o + |t|], pats) == Some(e) && 0 < e <= o + |t|
  {
    var head := s[..o + |t|];
    assert head[o..o + |t|] == t;
    assert AnyAt(head, o, pats);
    EarliestSpec(head, pats, 0, Earliest(head, pats));
    e := Earliest(head, pats).value;
    forall q | q in pats
      ensures !OccursAt(head, 0, q)
    {
      assert OccursAt(head, 0, q) ==> q <= head && head <= s;
    }
  }

  lemma StartsAtOnce(s: string, pats: seq<string>)
    requires s in pats
    ensures Earliest(s, pats) == Some(0)
  {
    assert OccursAt(s, 0, s);
    EarliestSpec(s, pats, 0, Some(0));
  }

  lemma UnsafeStops(c: Setup, x: char) returns (deltas: seq<string>)
    requires Usable(c, x) && !Masked(c, c.stops) && !ChunkSafe(c.stops)
    ensures Run(c, Start(c), deltas).content != Split(c, Concat(deltas)).1
  {
    var s, t, o: nat :| s in c.stops && t in c.stops && 0 < o && OccursAt(s, o, t) && o + |t| < |s| &&
      !exists q | q in c.stops :: q <= s && |q| <= o + |t|;
    var e := CutInside(s, c.stops, t, o);
    StartsAtOnce(s, c.stops);
    var n := o + |t|;
    deltas := CutDiffers(c, x, s, n, e);
  }

  lemma UnsafeMarkers(c: Setup, x: char) returns (deltas: seq<string>)
    requires Usable(c, x) && !Masked(c, c.stops) && !Masked(c, c.markers) && !MarkerSafe(c.stops, c.markers)
    ensures Run(c, Start(c), deltas).content != Split(c, Concat(deltas)).1
  {
    var s, m, o: nat :| Ends(s, c.stops, c.markers) && m in c.markers && 0 < o && OccursAt(s, o, m) && o + |m| < |s| &&
      !Contains(s[..o + |m|], c.stops) && !exists q | q in c.markers :: q <= s && |q| <= o + |m|;
    var e := CutInside(s, c.markers, m, o);
    var n := o + |m|;
    NotFound(s[..n], c.stops);
    EndsAtOnce(s, c.stops, c.markers);
    deltas := CutDiffers(c, x, s, n, e);
  }

  lemma NotFound(text: string, pats: seq<string>)
    requires !Contains(text, pats)
    ensures Earliest(text, pats).None?
  {
    EarliestSpec(text, pats, 0, None);
  }

  lemma EndsAtOnce(s: string, stops: seq<string>, markers: seq<string>)
    requires Ends(s, stops, markers)
    ensures Earliest(s, stops) == Some(0) || (Earliest(s, stops).None? && Earliest(s, markers) == Some(0))
  {
    if s in stops {
      StartsAtOnce(s, stops);
    } else {
      NotFound(s, stops);
      StartsAtOnce(s, markers);
    }
  }

  lemma CutRuns(c: Setup, x: char, a: string, b: string, e: nat, first: string) returns (deltas: seq<string>)
    requires Usable(c, x) && !Masked(c, c.stops) && a != "" && b != "" && e <= |a| && first == Lead(c, x) + a
    requires if Earliest(a, c.stops).Some? then Earliest(a, c.stops) == Some(e)
             else !Masked(c, c.markers) && Earliest(a, c.markers) == Some(e)
    requires Earliest(a + b, c.stops) == Some(0) || Earliest(a + b, c.stops).None?
    ensures Concat(deltas) == Lead(c, x) + (a + b)
    ensures |Run(c, Start(c), deltas).content| == |Lead(c, x)| + e - LeadBase(c)
  {
    deltas := [first, b];
    ConcatPair(first, b);
    Associates(Lead(c, x), a, b);
    var s := FirstDelta(c, x, a);
    ShownUpTo(c, x, a, b, e, s);
    TwoDeltas(c, s, first, b, |Lead(c, x)| + e);
  }

  lemma CutDiffers(c: Setup, x: char, s: string, n: nat, e: nat) returns (deltas: seq<string>)
    requires Usable(c, x) && !Masked(c, c.stops) && 0 < n < |s| && 0 < e <= n
    requires if Earliest(s[..n], c.stops).Some? then Earliest(s[..n], c.stops) == Some(e)
             else !Masked(c, c.markers) && Earliest(s[..n], c.markers) == Some(e)
    requires Earliest(s, c.stops) == Some(0) ||
             (Earliest(s, c.stops).None? && !Masked(c, c.markers) && Earliest(s, c.markers) == Some(0))
    ensures Run(c, Start(c), deltas).content != Split(c, Concat(deltas)).1
  {
    assert s[..n] + s[n..] == s;
    deltas := PartsDiffer(c, x, s[..n], s[n..], s, e);
  }

  lemma PartsDiffer(c: Setup, x: char, a: string, b: string, s: string, e: nat) returns (deltas: seq<string>)
    requires Usable(c, x) && !Masked(c, c.stops) && a != "" && b != "" && s == a + b && 0 < e <= |a|
    requires if Earliest(a, c.stops).Some? then Earliest(a, c.stops) == Some(e)
             else !Masked(c, c.markers) && Earliest(a, c.markers) == Some(e)
    requires Earliest(s, c.stops) == Some(0) ||
             (Earliest(s, c.stops).None? && !Masked(c, c.markers) && Earliest(s, c.markers) == Some(0))
    ensures Run(c, Start(c), deltas).content != Split(c, Concat(deltas)).1
  {
    var lead := Lead(c, x);
    deltas := CutRuns(c, x, a, b, e, lead + a);
    var k := SplitAtLead(c, x, s, lead + s);
    LengthsDiffer(c, deltas, lead + s, k);
  }

  lemma LengthsDiffer(c: Setup, deltas: seq<string>, text: string, k: nat)
    requires Concat(deltas) == text && |Split(c, text).1| == k < |Run(c, Start(c), deltas).content|
    ensures Run(c, Start(c), deltas).content != Split(c, Concat(deltas)).1
  {
  }

  // ---- the exact condition ----

  /** Reasoning and content are the split of the text for every chunking, if and only if the
      setup is exact. (With an open think channel some character must occur in no string.) */
  lemma RawExactly(c: Setup, x: char)
    requires Usable(c, x)
    ensures (forall deltas :: IsSplit(c, deltas)) <==> Exact(c)
  {
    if Exact(c) {
      forall deltas
        ensures IsSplit(c, deltas)
      {
        RawIsSplit(c, deltas);
      }
    } else {
      var deltas: seq<string>;
      if !ChunkSafe(c.stops) { deltas := UnsafeStops(c, x); } else { deltas := UnsafeMarkers(c, x); }
      assert !IsSplit(c, deltas);
    }
  }

  ghost predicate IsSplit(c: Setup, deltas: seq<string>) {
    var t := Run(c, Start(c), deltas);
    (t.reasoning, t.content) == Split(c, Concat(deltas))
  }

  /** With no stop strings and no open think channel, content is the text before the first
      hold marker, for every chunking, exactly for chunk safe markers. */
  lemma MarkersExactly(c: Setup)
    requires c.Valid() && c.stops == [] && !c.reasoningOpen
    ensures (forall deltas :: Run(c, Start(c), deltas).content == Cut(Concat(deltas), c.markers)) <==> ChunkSafe(c.markers)
  {
    MarkersAlone(c.markers);
    if ChunkSafe(c.markers) {
      forall deltas
        ensures Run(c, Start(c), deltas).content == Cut(Concat(deltas), c.markers)
      {
        RawIsSplit(c, deltas);
        SplitIsCut(c, Concat(deltas));
      }
    } else {
      var deltas := UnsafeMarkers(c, ' ');
      SplitIsCut(c, Concat(deltas));
    }
  }

  lemma MarkersAlone(markers: seq<string>)
    ensures MarkerSafe([], markers) <==> ChunkSafe(markers)
  {
    forall s
      ensures !Contains(s, [])
    {
    }
  }

  lemma SplitIsCut(c: Setup, text: string)
    requires c.stops == [] && !c.reasoningOpen
    ensures Split(c, text).1 == Cut(text, c.markers)
  {
    EarliestSpec(text, c.stops, 0, None);
    EarliestBounds(text, c.markers, 0);
  }

  // ---- what the searches over the whole text cost ----

  /** Behind a held marker, a stop string has the held region shown as content. */
  lemma HeldRegionShown(c: Setup, deltas: seq<string>, more: string, m: nat, idx: nat)
    requires c.Valid() && Exact(c) && !c.reasoningOpen
    requires Earliest(Concat(deltas), c.stops).None? && Earliest(Concat(deltas), c.markers) == Some(m)
    requires Earliest(Concat(deltas) + more, c.stops) == Some(idx)
    ensures m <= idx <= |Concat(deltas) + more|
    ensures Run(c, Start(c), deltas).content == (Concat(deltas) + more)[..m]
    ensures Run(c, Start(c), deltas + [more]).content == (Concat(deltas) + more)[..m] + (Concat(deltas) + more)[m..idx]
  {
    var text := Concat(deltas);
    EarliestBounds(text, c.markers, 0);
    EarliestBounds(text + more, c.stops, 0);
    HoldingExtends(c, text, more);
    RawIsSplit(c, deltas);
    RawIsSplit(c, deltas + [more]);
    ConcatAppends(deltas, more);
    HeldSlices(text, more, m, idx);
  }

  lemma HeldSlices(text: string, more: string, m: nat, idx: nat)
    requires m <= |text| && m <= idx <= |text + more|
    ensures (text + more)[..m] == text[0..Max(0, m)]
    ensures (text + more)[0..Max(0, idx)] == (text + more)[..m] + (text + more)[m..idx]
  {
  }

  lemma {:induction false} ConcatAppends(deltas: seq<string>, more: string)
    ensures Concat(deltas + [more]) == Concat(deltas) + more
  {
    if deltas == [] {
      assert [more][1..] == [] && deltas + [more] == [more] && more + "" == more && "" + more == more;
    } else {
      assert (deltas + [more])[1..] == deltas[1..] + [more];
      ConcatAppends(deltas[1..], more);
      assert deltas[0] + (Concat(deltas[1..]) + more) == deltas[0] + Concat(deltas[1..]) + more;
    }
  }

  /** Where a client would want content to end: at the first stop string in it, else at the first
      hold marker in it, else with the text. */
  function WantedEnd(c: Setup, text: string, base: nat): (end: nat)
    requires base <= |text|
    ensures base <= end <= |text|
  {
    EarliestBounds(text, c.stops, base);
    EarliestBounds(text, c.markers, base);
    match EarliestFrom(text, c.stops, base)
    case Some(e) => e
    case None =>
      match EarliestFrom(text, c.markers, base)
      case Some(e) => e
      case None => |text|
  }

  function Wanted(c: Setup, text: string): string
    requires Base(c, text) <= |text|
  {
    text[Base(c, text)..WantedEnd(c, text, Base(c, text))]
  }

  lemma BaseInText(c: Setup, text: string)
    ensures Base(c, text) <= |text|
  {
  }

  /** Stop strings and markers are searched in the reasoning, and in dropped tags, too. For every
      chunking the content is what a client would want, if and only if that is nothing, or no stop
      string starts before the content does, and no marker either unless a stop string follows;
      else all content is lost. */
  lemma ContentExactly(c: Setup, deltas: seq<string>)
    requires c.Valid() && Exact(c)
    ensures var text, content := Concat(deltas), Run(c, Start(c), deltas).content;
      && Base(c, text) <= |text|
      && (content == Wanted(c, text) <==> Wanted(c, text) == "" || !Lost(c, text))
      && (Lost(c, text) ==> content == "")
  {
    var text := Concat(deltas);
    BaseInText(c, text);
    RawIsSplit(c, deltas);
    WantedIs(c, text, Base(c, text));
  }

  predicate Lost(c: Setup, text: string) {
    if Earliest(text, c.stops).Some? then MarkedBefore(text, c.stops, Base(c, text))
    else MarkedBefore(text, c.markers, Base(c, text))
  }

  lemma WantedIs(c: Setup, text: string, base: nat)
    requires base == Base(c, text) <= |text|
    ensures Split(c, text).1 == if Lost(c, text) then "" else Wanted(c, text)
  {
    EarliestBounds(text, c.stops, 0);
    EarliestBounds(text, c.markers, 0);
    if !Lost(c, text) {
      FirstFromBase(text, c.stops, base);
      if Earliest(text, c.stops).None? { FirstFromBase(text, c.markers, base); }
    }
  }

  /** The first one, if it does not start before `base`, is the first from there on. */
  lemma FirstFromBase(text: string, pats: seq<string>, base: nat)
    requires base <= |text| && !MarkedBefore(text, pats, base)
    ensures EarliestFrom(text, pats, base) == Earliest(text, pats)
  {
    var first := Earliest(text, pats);
    EarliestSpec(text, pats, 0, first);
    EarliestSpec(text, pats, base, first);
  }

  /** With stop strings alone. */
  lemma StopsInReasoning(c: Setup, deltas: seq<string>)
    requires c.Valid() && Exact(c) && c.markers == []
    ensures var text, content := Concat(deltas), Run(c, Start(c), deltas).content;
      && Base(c, text) <= |text|
      && (content == Wanted(c, text) <==> Wanted(c, text) == "" || !MarkedBefore(text, c.stops, Base(c, text)))
      && (MarkedBefore(text, c.stops, Base(c, text)) ==> content == "")
  {
    ContentExactly(c, deltas);
    EarliestSpec(Concat(deltas), c.markers, 0, None);
  }

  /** With hold markers alone. */
  lemma MarkersInReasoning(c: Setup, deltas: seq<string>)
    requires c.Valid() && Exact(c) && c.stops == []
    ensures var text, content := Concat(deltas), Run(c, Start(c), deltas).content;
      && Base(c, text) <= |text|
      && (content == Wanted(c, text) <==> Wanted(c, text) == "" || !MarkedBefore(text, c.markers, Base(c, text)))
      && (MarkedBefore(text, c.markers, Base(c, text)) ==> content == "")
  {
    ContentExactly(c, deltas);
    EarliestSpec(Concat(deltas), c.stops, 0, None);
  }

  /** However it is cut, the text gives no content, where `answer` is wanted. */
  ghost predicate Loses(c: Setup, text: string, answer: string)
    requires Base(c, text) <= |text|
  {
    Wanted(c, text) == answer && forall deltas | Concat(deltas) == text :: Run(c, Start(c), deltas).content == ""
  }

  /** One character of reasoning that is a stop string loses any answer, in which it does not occur. */
  lemma StopLosesAnswer(c: Setup, x: char, answer: string, text: string)
    requires c.Valid() && c.reasoningOpen && c.stops == [[x]] && c.markers == [] && x !in THINK && x !in c.thinkClose
    requires x !in answer && text == [x] + c.thinkClose + answer
    ensures Base(c, text) <= |text| && Loses(c, text, answer)
  {
    TagCloses(c, x, answer);
    OneStopIsSafe(c, x);
    StopAtStart(c, x, text);
    WantedBehind(c, x, text, 1 + |c.thinkClose|);
    assert text[1 + |c.thinkClose|..] == answer;
    forall deltas | Concat(deltas) == text
      ensures Run(c, Start(c), deltas).content == ""
    {
      StopsInReasoning(c, deltas);
    }
  }

  lemma StopAtStart(c: Setup, x: char, text: string)
    requires c.stops == [[x]] && text != "" && text[0] == x
    ensures Earliest(text, c.stops) == Some(0)
  {
    assert OccursAt(text, 0, [x]) && [x] in c.stops;
    assert AnyAt(text, 0, c.stops);
    EarliestSpec(text, c.stops, 0, Some(0));
  }

  lemma WantedBehind(c: Setup, x: char, text: string, base: nat)
    requires c.stops == [[x]] && c.markers == [] && base == Base(c, text) <= |text| && x !in text[base..]
    ensures Wanted(c, text) == text[base..]
  {
    NoStopFrom(c, x, text, base);
    EarliestSpec(text, c.markers, base, None);
  }

  lemma OneStopIsSafe(c: Setup, x: char)
    requires c.Valid() && c.stops == [[x]] && c.markers == []
    ensures Exact(c)
  {
    EqualLengthIsSafe(c.stops);
  }

  lemma NoStopFrom(c: Setup, x: char, text: string, from: nat)
    requires c.stops == [[x]] && from <= |text| && x !in text[from..]
    ensures EarliestFrom(text, c.stops, from).None?
  {
    forall i | from <= i <= |text|
      ensures !AnyAt(text, i, c.stops)
    {
      if i < |text| {
        assert text[from..][i - from] == text[i];
        assert text[i..i + 1] == [text[i]] && [text[i]][0] != [x][0];
      }
    }
    EarliestSpec(text, c.stops, from, None);
  }

  /** Such as this one. */
  lemma StopExample() returns (c: Setup, text: string)
    ensures c == Setup(["S"], [], "</think>", true) && text == "S</think>yes"
    ensures c.Valid() && Base(c, text) <= |text| && Loses(c, text, "yes")
  {
    NoCloseInOpen();
    c, text := OneStop('S', "</think>"), ['S'] + "</think>" + "yes";
    StopLosesAnswer(c, 'S', "yes", text);
  }

  function OneStop(x: char, thinkClose: string): Setup { Setup([[x]], [], thinkClose, true) }

  lemma NoCloseInOpen()
    ensures !Contains(THINK, ["</think>"])
  {
    forall i | 0 <= i <= |THINK|
      ensures !AnyAt(THINK, i, ["</think>"])
    {
    }
  }

  /** The hold markers of the other tool parsers include the opening tag: then one redundant
      opener at the start of an open think channel loses the whole answer. */
  lemma OpenerLosesAnswer(c: Setup, deltas: seq<string>)
    requires c.Valid() && Exact(c) && c.stops == [] && c.reasoningOpen && THINK in c.markers && THINK <= Concat(deltas)
    ensures Run(c, Start(c), deltas).content == ""
  {
    var text := Concat(deltas);
    assert OccursAt(text, 0, THINK);
    assert AnyAt(text, 0, c.markers);
    EarliestSpec(text, c.markers, 0, Some(0));
    MarkersInReasoning(c, deltas);
    assert Base(c, text) > 0;
  }
}
