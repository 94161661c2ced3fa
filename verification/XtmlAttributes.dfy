/** Attributes of an XTML element: the pattern (\w+)="([^"]*)" searched from left to right,
    with `&quot;` and `&amp;` undone in the values. Which characters count as word
    characters is a parameter. */
module XtmlAttributes {
  import opened Patterns

  type WordClass = char -> bool

  /** Python's `text.replace(pat, rep)`. */
  function Replace(text: string, pat: string, rep: string): string
    requires pat != ""
  {
    if |text| < |pat| then text
    else if pat <= text then rep + Replace(text[|pat|..], pat, rep)
    else [text[0]] + Replace(text[1..], pat, rep)
  }

  function Unescape(v: string): string {
    Replace(Replace(v, "&quot;", "\""), "&amp;", "&")
  }

  function Escape(v: string): string {
    if v == "" then ""
    else (if v[0] == '&' then "&amp;" else if v[0] == '"' then "&quot;" else [v[0]]) + Escape(v[1..])
  }

  /** Only the ampersands escaped: what is left after the first of the two replacements. */
  function EscapeAmps(v: string): string {
    if v == "" then "" else (if v[0] == '&' then "&amp;" else [v[0]]) + EscapeAmps(v[1..])
  }

  function WordLength(isWord: WordClass, s: string): (n: nat)
    ensures n <= |s|
  {
    if s == "" || !isWord(s[0]) then 0 else 1 + WordLength(isWord, s[1..])
  }

  /** Position of the first double quote, or `|s|`. */
  function QuoteAt(s: string): (n: nat)
    ensures n <= |s|
  {
    if s == "" || s[0] == '"' then 0 else 1 + QuoteAt(s[1..])
  }

  /** `_attrs`: a later attribute of the same name wins. */
  function Attrs(isWord: WordClass, s: string): map<string, string> { AttrsInto(isWord, s, map[]) }

  function AttrsInto(isWord: WordClass, s: string, seen: map<string, string>): map<string, string>
    decreases |s|
  {
    if s == "" then seen
    else
      var k := WordLength(isWord, s);
      if 0 < k && k + 1 < |s| && s[k] == '=' && s[k + 1] == '"' && QuoteAt(s[k + 2..]) < |s[k + 2..]| then
        var q := k + 2 + QuoteAt(s[k + 2..]);
        AttrsInto(isWord, s[q + 1..], seen[s[..k] := Unescape(s[k + 2..q])])
      else AttrsInto(isWord, s[1..], seen)
  }

  // ---- escaping and back ----

  lemma {:induction false} ReplaceSkips(head: string, text: string, pat: string, rep: string)
    requires pat != "" && pat[0] !in head
    ensures Replace(head + text, pat, rep) == head + Replace(text, pat, rep)
  {
    if head == "" {
      assert head + text == text;
    } else {
      assert (head + text)[1..] == head[1..] + text;
      assert (head + text)[0] == head[0];
      ReplaceSkips(head[1..], text, pat, rep);
      if |head + text| < |pat| {
        assert Replace(head + text, pat, rep) == head + text && Replace(text, pat, rep) == text;
      } else {
        assert [head[0]] + (head[1..] + Replace(text, pat, rep)) == head + Replace(text, pat, rep);
      }
    }
  }

  lemma {:induction false} QuotesUndone(v: string)
    ensures Replace(Escape(v), "&quot;", "\"") == EscapeAmps(v)
  {
    if v != "" {
      QuotesUndone(v[1..]);
      var rest := Escape(v[1..]);
      if v[0] == '"' {
        assert ("&quot;" + rest)[6..] == rest;
      } else if v[0] == '&' {
        AmpKept(rest);
      } else {
        ReplaceSkips([v[0]], rest, "&quot;", "\"");
      }
    }
  }

  lemma AmpKept(rest: string)
    ensures Replace("&amp;" + rest, "&quot;", "\"") == "&amp;" + Replace(rest, "&quot;", "\"")
  {
    var text := "&amp;" + rest;
    assert text[1..] == "amp;" + rest;
    ReplaceSkips("amp;", rest, "&quot;", "\"");
    assert text[1] == 'a';
    if |text| < 6 {
      assert Replace(rest, "&quot;", "\"") == rest;
    } else {
      assert "&" + ("amp;" + Replace(rest, "&quot;", "\"")) == "&amp;" + Replace(rest, "&quot;", "\"");
    }
  }

  lemma {:induction false} AmpsUndone(v: string)
    ensures Replace(EscapeAmps(v), "&amp;", "&") == v
  {
    if v != "" {
      AmpsUndone(v[1..]);
      var rest := EscapeAmps(v[1..]);
      if v[0] == '&' {
        assert ("&amp;" + rest)[5..] == rest;
      } else {
        ReplaceSkips([v[0]], rest, "&amp;", "&");
      }
    }
  }

  /** Undoing the quotes first and the ampersands second inverts escaping. */
  lemma EscapeRoundTrip(v: string)
    ensures Unescape(Escape(v)) == v
  {
    QuotesUndone(v);
    AmpsUndone(v);
  }

  /** The other order would not: a value that spells an escaped quote comes back changed. */
  lemma OrderMatters()
    ensures Replace(Replace(Escape(QUOT), AMP, "&"), QUOT, "\"") == "\"" != QUOT
  {
    assert QUOT == "&" + QUOT[1..];
    AmpsFirst(QUOT[1..]);
    assert QUOT[6..] == "";
  }

  lemma AmpsFirst(tail: string)
    requires '&' !in tail && '"' !in tail
    ensures Replace(Escape("&" + tail), AMP, "&") == "&" + tail
  {
    EscapePlain(tail);
    assert ("&" + tail)[1..] == tail;
    assert (AMP + tail)[5..] == tail;
    ReplaceSkips(tail, "", AMP, "&");
    assert tail + "" == tail;
  }

  const QUOT := "&quot;"
  const AMP := "&amp;"

  lemma {:induction false} EscapePlain(v: string)
    requires '&' !in v && '"' !in v
    ensures Escape(v) == v
  {
    if v != "" { EscapePlain(v[1..]); }
  }

  lemma {:induction false} EscapeHasNoQuote(v: string)
    ensures '"' !in Escape(v)
  {
    if v != "" { EscapeHasNoQuote(v[1..]); }
  }

  // ---- printing attributes and reading them back ----

  function Attribute(key: string, value: string): string { key + "=\"" + Escape(value) + "\"" }

  predicate IsWordText(isWord: WordClass, s: string) {
    s != "" && forall c | c in s :: isWord(c)
  }

  lemma {:induction false} WordLengthOf(isWord: WordClass, word: string, rest: string)
    requires (forall c | c in word :: isWord(c)) && rest != "" && !isWord(rest[0])
    ensures WordLength(isWord, word + rest) == |word|
  {
    if word == "" {
      assert word + rest == rest;
    } else {
      assert (word + rest)[1..] == word[1..] + rest;
      WordLengthOf(isWord, word[1..], rest);
    }
  }

  lemma {:induction false} QuoteAfter(s: string, rest: string)
    requires '"' !in s
    ensures QuoteAt(s + "\"" + rest) == |s|
  {
    var t := s + "\"" + rest;
    if s != "" {
      assert t[1..] == s[1..] + "\"" + rest;
      QuoteAfter(s[1..], rest);
    }
  }

  /** One printed attribute is read back as its key and value. */
  lemma AttributeRead(isWord: WordClass, key: string, value: string, rest: string, seen: map<string, string>)
    requires IsWordText(isWord, key) && !isWord('=')
    ensures AttrsInto(isWord, Attribute(key, value) + rest, seen) == AttrsInto(isWord, rest, seen[key := value])
  {
    EscapeHasNoQuote(value);
    QuotedRead(isWord, key, Escape(value), rest, seen);
    EscapeRoundTrip(value);
  }

  lemma QuotedRead(isWord: WordClass, key: string, quoted: string, rest: string, seen: map<string, string>)
    requires IsWordText(isWord, key) && !isWord('=') && '"' !in quoted
    ensures AttrsInto(isWord, key + "=\"" + quoted + "\"" + rest, seen)
         == AttrsInto(isWord, rest, seen[key := Unescape(quoted)])
  {
    var s := key + "=\"" + quoted + "\"" + rest;
    QuotedShape(isWord, key, quoted, rest, s);
    AttributeTaken(isWord, s, key, quoted, rest, seen);
  }

  lemma QuotedShape(isWord: WordClass, key: string, quoted: string, rest: string, s: string)
    requires IsWordText(isWord, key) && !isWord('=') && '"' !in quoted && s == key + "=\"" + quoted + "\"" + rest
    ensures WordLength(isWord, s) == |key| && s[..|key|] == key && s[|key|] == '=' && s[|key| + 1] == '"'
    ensures QuoteAt(s[|key| + 2..]) == |quoted| && s[|key| + 2..|key| + 2 + |quoted|] == quoted
    ensures s[|key| + 2 + |quoted| + 1..] == rest
  {
    var tail := "=\"" + quoted + "\"" + rest;
    QuotedSlices(key, quoted, rest, s, tail);
    WordLengthOf(isWord, key, tail);
    QuoteAfter(quoted, rest);
  }

  lemma QuotedSlices(key: string, quoted: string, rest: string, s: string, tail: string)
    requires s == key + "=\"" + quoted + "\"" + rest && tail == "=\"" + quoted + "\"" + rest
    ensures s == key + tail && s[..|key|] == key && s[|key|] == '=' && s[|key| + 1] == '"'
    ensures s[|key| + 2..] == quoted + "\"" + rest && s[|key| + 2..|key| + 2 + |quoted|] == quoted
    ensures s[|key| + 2 + |quoted| + 1..] == rest
  {
  }

  /** One match of the pattern at the start of `s`. */
  lemma AttributeTaken(isWord: WordClass, s: string, key: string, quoted: string, rest: string,
                       seen: map<string, string>)
    requires 0 < |key| && |key| + 2 + |quoted| < |s| && s[|key|] == '=' && s[|key| + 1] == '"'
    requires WordLength(isWord, s) == |key| && QuoteAt(s[|key| + 2..]) == |quoted|
    requires s[..|key|] == key && s[|key| + 2..|key| + 2 + |quoted|] == quoted && s[|key| + 2 + |quoted| + 1..] == rest
    ensures AttrsInto(isWord, s, seen) == AttrsInto(isWord, rest, seen[key := Unescape(quoted)])
  {
  }

  lemma OneAttribute(isWord: WordClass, key: string, value: string)
    requires IsWordText(isWord, key) && !isWord('=')
    ensures Attrs(isWord, Attribute(key, value)) == map[key := value]
  {
    assert Attribute(key, value) + "" == Attribute(key, value);
    AttributeRead(isWord, key, value, "", map[]);
  }

  lemma TwoAttributes(isWord: WordClass, key: string, value: string, key': string, value': string)
    requires IsWordText(isWord, key) && IsWordText(isWord, key') && !isWord('=') && !isWord(' ')
    ensures Attrs(isWord, Attribute(key, value) + " " + Attribute(key', value')) == map[key := value][key' := value']
  {
    var rest := " " + Attribute(key', value');
    assert Attribute(key, value) + " " + Attribute(key', value') == Attribute(key, value) + rest;
    AttributeRead(isWord, key, value, rest, map[]);
    assert rest[1..] == Attribute(key', value') + "";
    AttributeRead(isWord, key', value', "", map[key := value]);
  }

  // ---- text that could not be told from framing ----

  lemma {:induction false} EscapedPrefix(v: string, s: string)
    requires '&' !in s && '"' !in s && s <= Escape(v)
    ensures s <= v
  {
    if s != "" {
      assert Escape(v)[0] == s[0];
      assert Escape(v) == [v[0]] + Escape(v[1..]);
      assert s[1..] <= Escape(v[1..]) by { assert Escape(v)[1..] == Escape(v[1..]); }
      EscapedPrefix(v[1..], s[1..]);
    }
  }

  /** Escaping does not spell a separator that was not there. */
  lemma {:induction false} EscapeKeepsPlain(v: string, sep: string)
    requires sep != "" && sep[0] == '<' && '&' !in sep && '"' !in sep && !Contains(v, [sep])
    ensures !Contains(Escape(v), [sep])
  {
    if v == "" {
      assert !OccursAt("", 0, sep);
    } else {
      var head := if v[0] == '&' then "&amp;" else if v[0] == '"' then "&quot;" else [v[0]];
      forall i | 0 <= i
        ensures !OccursAt(v[1..], i, sep)
      {
        OccursShifts([v[0]], v[1..], i, sep);
        assert [v[0]] + v[1..] == v;
        assert !AnyAt(v, i + 1, [sep]);
      }
      EscapeKeepsPlain(v[1..], sep);
      forall i: nat
        ensures !OccursAt(Escape(v), i, sep)
      {
        if i >= |head| {
          OccursShifts(head, Escape(v[1..]), i - |head|, sep);
          assert !AnyAt(Escape(v[1..]), i - |head|, [sep]);
        } else {
          assert !AnyAt(v, 0, [sep]);
          assert !(sep <= v) by { assert sep <= v ==> OccursAt(v, 0, sep); }
          if sep <= Escape(v) { EscapedPrefix(v, sep); }
        }
      }
    }
  }
}
