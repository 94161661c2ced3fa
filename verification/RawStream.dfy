/** The raw streaming path: reasoning up to the closing tag, then content up to a stop
    string or a hold marker, with tags split across deltas withheld. */
module RawStream {
  import opened Patterns
  import opened StopFilter

  const THINK := "<think>"

  /** The markers are those of the tool parser in use; the closing tag is `</think>`. */
  datatype Setup = Setup(stops: seq<string>, markers: seq<string>, thinkClose: string, reasoningOpen: bool)
  {
    predicate Valid() {
      "" !in stops && "" !in markers && thinkClose != "" && !Contains(THINK, [thinkClose])
    }
  }

  /** `_skip_redundant_think_openers`: the next unread offset. */
  function SkipOpeners(text: string, pos: nat): (end: nat)
    requires pos <= |text|
    ensures pos <= end <= |text|
    decreases |text| - pos
  {
    if THINK <= text[pos..] then SkipOpeners(text, pos + |THINK|) else pos
  }

  /** More text is needed to decide whether another tag follows. */
  predicate NeedMore(text: string, pos: nat)
    requires pos <= |text|
  {
    text[pos..] <= THINK
  }

  method SkipRedundantThinkOpeners(text: string, start: nat) returns (pos: nat, needMore: bool)
    requires start <= |text|
    ensures pos == SkipOpeners(text, start) && needMore == NeedMore(text, pos)
  {
    pos := start;
    while THINK <= text[pos..]
      invariant start <= pos <= |text| && SkipOpeners(text, start) == SkipOpeners(text, pos)
      decreases |text| - pos
    {
      pos := pos + |THINK|;
    }
    needMore := text[pos..] == "" || text[pos..] <= THINK;
  }

  // ---- where the held-back suffix starts ----

  predicate HeldAt(text: string, pats: seq<string>, i: nat)
    requires i <= |text|
  {
    HeldSuffix(text, pats, |text| - i)
  }

  function SafeFrom(text: string, pats: seq<string>, i: nat): (n: nat)
    requires i <= |text|
    ensures i <= n <= |text|
    decreases |text| - i
  {
    if i == |text| || HeldAt(text, pats, i) then i else SafeFrom(text, pats, i + 1)
  }

  function Safe(text: string, pats: seq<string>): (n: nat)
    ensures n <= |text|
  {
    SafeFrom(text, pats, 0)
  }

  ghost predicate IsSafe(text: string, pats: seq<string>, i: nat, n: nat) {
    i <= n <= |text| && (n < |text| ==> HeldAt(text, pats, n)) && forall j | i <= j < n :: !HeldAt(text, pats, j)
  }

  lemma {:induction false} SafeSpec(text: string, pats: seq<string>, i: nat, n: nat)
    requires i <= |text|
    ensures IsSafe(text, pats, i, n) <==> n == SafeFrom(text, pats, i)
    decreases |text| - i
  {
    if i < |text| && !HeldAt(text, pats, i) {
      SafeSpec(text, pats, i + 1, n);
      assert IsSafe(text, pats, i + 1, n) == IsSafe(text, pats, i, n);
    }
  }

  lemma HoldbackIsSafe(text: string, pats: seq<string>, k: nat)
    requires IsHoldback(text, pats, k)
    ensures |text| - k == Safe(text, pats)
  {
    SafeSpec(text, pats, 0, |text| - k);
  }

  /** What is safe to release stays so, and no pattern that completes later starts in it. */
  lemma SafeStays(text: string, more: string, pats: seq<string>)
    ensures Safe(text, pats) <= Safe(text + more, pats)
    ensures forall j | 0 <= j < Safe(text, pats) :: AnyAt(text + more, j, pats) ==> AnyAt(text, j, pats)
  {
    SafeSpec(text, pats, 0, Safe(text, pats));
    SafeSpec(text + more, pats, 0, Safe(text + more, pats));
    var n := Safe(text + more, pats);
    assert n < |text| && HeldAt(text + more, pats, n) ==> HeldAt(text, pats, n) by {
      if n < |text| && HeldAt(text + more, pats, n) { HeldShrinks(text, more, pats, n); }
    }
    forall j | 0 <= j < Safe(text, pats) && AnyAt(text + more, j, pats)
      ensures AnyAt(text, j, pats)
    {
      CompleteOrHeld(text, more, pats, j);
    }
  }

  lemma CompleteOrHeld(text: string, more: string, pats: seq<string>, j: nat)
    requires j < |text| && AnyAt(text + more, j, pats)
    ensures AnyAt(text, j, pats) || HeldAt(text, pats, j)
  {
    var s :| s in pats && OccursAt(text + more, j, s);
    if j + |s| <= |text| {
      OccursExtends(text, more, j, s);
    } else {
      assert text[j..] == (text + more)[j..j + |s|][..|text| - j] == s[..|text| - j];
    }
  }

  lemma HeldShrinks(text: string, more: string, pats: seq<string>, n: nat)
    requires n < |text| && HeldAt(text + more, pats, n)
    ensures HeldAt(text, pats, n)
  {
    var k := |text + more| - n;
    var s :| s in pats && k < |s| && (text + more)[n..] == s[..k];
    assert text[n..] == (text + more)[n..][..|text| - n] == s[..|text| - n];
  }

  // ---- the stream as a transition function ----

  /** `emitted` counts the characters of `text` dealt with; what was shown is kept per channel. */
  datatype Raw = Raw(text: string, emitted: nat, holding: bool, active: bool, drop: bool, stopped: bool,
                     reasoning: string, content: string)

  function Start(c: Setup): Raw { Raw("", 0, false, c.reasoningOpen, c.reasoningOpen, false, "", "") }

  /** Show content up to `end`, unless that has been passed. */
  function ShowTo(s: Raw, end: nat): (t: Raw)
    requires s.emitted <= |s.text| && end <= |s.text|
    ensures t.emitted <= |t.text|
  {
    s.(content := s.content + s.text[s.emitted..Max(s.emitted, end)], emitted := Max(s.emitted, end))
  }

  function Answer(c: Setup, s: Raw): (t: Raw)
    requires s.emitted <= |s.text|
    ensures t.emitted <= |t.text|
  {
    EarliestBounds(s.text, c.stops, 0);
    EarliestBounds(s.text, c.markers, 0);
    match Earliest(s.text, c.stops)
    case Some(idx) => ShowTo(s, idx).(stopped := true)
    case None =>
      if s.holding then s
      else
        match Earliest(s.text, c.markers)
        case Some(midx) => ShowTo(s, midx).(holding := true)
        case None => ShowTo(s, Safe(s.text, c.stops + c.markers))
  }

  function Reason(c: Setup, s: Raw): (t: Raw)
    requires s.emitted <= |s.text|
    ensures t.emitted <= |t.text|
  {
    match FindFrom(s.text, c.thinkClose, s.emitted)
    case Some(close) =>
      Answer(c, s.(reasoning := s.reasoning + s.text[s.emitted..close], emitted := close + |c.thinkClose|, active := false))
    case None =>
      var safe := Max(s.emitted, Safe(s.text, [c.thinkClose]));
      s.(reasoning := s.reasoning + s.text[s.emitted..safe], emitted := safe)
  }

  /** One nonempty delta. */
  function Step(c: Setup, s: Raw, delta: string): (t: Raw)
    requires s.emitted <= |s.text|
    ensures t.emitted <= |t.text|
  {
    var t := s.(text := s.text + delta);
    if !s.active then Answer(c, t)
    else if !s.drop then Reason(c, t)
    else
      var pos := SkipOpeners(t.text, s.emitted);
      if NeedMore(t.text, pos) then t.(emitted := pos) else Reason(c, t.(emitted := pos, drop := false))
  }

  /** At the end of the stream held-back text is shown, a buffered marker region is not. */
  function Flush(s: Raw): Raw
    requires s.emitted <= |s.text|
  {
    if s.stopped then s
    else if s.active then s.(reasoning := s.reasoning + s.text[s.emitted..], emitted := |s.text|)
    else if s.holding then s
    else ShowTo(s, |s.text|)
  }

  // ---- what the stream promises ----

  function Upto(text: string, base: nat, end: nat): string
    requires base <= |text| && end <= |text|
  {
    text[base..Max(base, end)]
  }

  /** Content ends at the first stop string, else at the first hold marker, else with the text. */
  function End(c: Setup, text: string): (n: nat)
    ensures n <= |text|
  {
    EarliestBounds(text, c.stops, 0);
    EarliestBounds(text, c.markers, 0);
    match Earliest(text, c.stops)
    case Some(idx) => idx
    case None =>
      match Earliest(text, c.markers)
      case Some(midx) => midx
      case None => |text|
  }

  /** Reasoning and content of a whole text. */
  function Split(c: Setup, text: string): (string, string) {
    if !c.reasoningOpen then ("", Upto(text, 0, End(c, text)))
    else
      var p := SkipOpeners(text, 0);
      match FindFrom(text, c.thinkClose, p)
      case None => (text[p..], "")
      case Some(close) => (text[p..close], Upto(text, close + |c.thinkClose|, End(c, text)))
  }

  /** A marker that ends properly inside a stop string, or inside another marker that holds no
      stop string, does so only after a stop string, or at the start a shorter marker, has been
      found. (A marker that holds a stop string ends the stream when it completes.) */
  ghost predicate MarkerSafe(stops: seq<string>, markers: seq<string>) {
    forall s, m, o: nat {:trigger OccursAt(s, o, m)} |
      Ends(s, stops, markers) && m in markers && 0 < o && OccursAt(s, o, m) && o + |m| < |s| ::
      Contains(s[..o + |m|], stops) || exists q | q in markers :: q <= s && |q| <= o + |m|
  }

  predicate Ends(s: string, stops: seq<string>, markers: seq<string>) {
    s in stops || (s in markers && !Contains(s, stops))
  }

  /** The closing tag itself holds one of the strings, so that it starts before any content. */
  predicate Masked(c: Setup, pats: seq<string>) { c.reasoningOpen && Contains(c.thinkClose, pats) }

  /** What makes the stream indifferent to chunking. */
  ghost predicate Exact(c: Setup) {
    Masked(c, c.stops) || (ChunkSafe(c.stops) && (Masked(c, c.markers) || MarkerSafe(c.stops, c.markers)))
  }

  lemma {:induction false} SkipContinues(text: string, more: string, pos: nat)
    requires pos <= |text|
    ensures SkipOpeners(text + more, pos) == SkipOpeners(text + more, SkipOpeners(text, pos))
    decreases |text| - pos
  {
    if THINK <= text[pos..] {
      assert (text + more)[pos..] == text[pos..] + more;
      SkipContinues(text, more, pos + |THINK|);
    }
  }

  /** Once it is clear that no further tag follows, it stays clear. */
  lemma SkipStable(text: string, more: string, pos: nat)
    requires pos <= |text| && !NeedMore(text, SkipOpeners(text, pos))
    ensures SkipOpeners(text + more, pos) == SkipOpeners(text, pos)
    ensures !NeedMore(text + more, SkipOpeners(text, pos))
  {
    SkipContinues(text, more, pos);
    var p := SkipOpeners(text, pos);
    SkipEnds(text, pos);
    assert (text + more)[p..] == text[p..] + more;
    var t := text[p..];
    if |THINK| <= |t| {
      assert t[..|THINK|] == (t + more)[..|THINK|];
    }
  }

  lemma {:induction false} SkipEnds(text: string, pos: nat)
    requires pos <= |text|
    ensures !(THINK <= text[SkipOpeners(text, pos)..])
    decreases |text| - pos
  {
    if THINK <= text[pos..] { SkipEnds(text, pos + |THINK|); }
  }
}
