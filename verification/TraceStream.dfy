/** Decoding the event array of a trace piece by piece. The JSON decoder is a parameter: it
    reads one value from the front of a text, and reads complete objects the same way
    whatever follows them. */
module TraceStream {
  import opened Patterns
  import opened XtmlText

  datatype Value<E> = Object(event: E) | Other

  /** The value at the front and its length, or nothing that decodes. */
  type Decoder<!E> = string -> Option<(Value<E>, nat)>

  ghost predicate ReadsSoFar<E>(decode: Decoder<E>, text: string, more: string) {
    // What decodes does so whatever follows, and an object is the same object.
    && (decode(text).Some? ==>
          decode(text + more).Some? && (decode(text).value.0.Other? <==> decode(text + more).value.0.Other?))
    && (decode(text).Some? && decode(text).value.0.Object? ==> decode(text + more) == decode(text))
    // And an object decodes as soon as it is there.
    && (decode(text + more).Some? && decode(text + more).value.0.Object? && decode(text + more).value.1 <= |text|
        ==> decode(text) == decode(text + more))
  }

  ghost predicate SelfDelimiting<E>(decode: Decoder<E>) {
    && (forall text | decode(text).Some? :: 0 < decode(text).value.1 <= |text|)
    && forall text, more :: ReadsSoFar(decode, text, more)
  }

  predicate Skipped(c: char) { c == ' ' || c == '\t' || c == '\r' || c == '\n' || c == ',' }

  /** The whole array: its events and what follows the closing bracket; or the events up to
      an error. */
  datatype Outcome<E> = Events(events: seq<E>, suffix: string) | Failed(events: seq<E>)
  {
    function Behind(earlier: seq<E>): Outcome<E> {
      match this
      case Events(events, suffix) => Events(earlier + events, suffix)
      case Failed(events) => Failed(earlier + events)
    }
  }

  function ReadAll<E>(decode: Decoder<E>, text: string): Outcome<E>
    decreases |text|
  {
    if text == "" then Failed([])
    else if Skipped(text[0]) then ReadAll(decode, text[1..])
    else if text[0] == ']' then Events([], text[1..])
    else
      match decode(text)
      case None => Failed([])
      case Some((value, n)) =>
        if value.Object? && 0 < n <= |text| then ReadAll(decode, text[n..]).Behind([value.event]) else Failed([])
  }

  /** The events up to the end or the error are at most `most` characters long. */
  predicate Short<E>(decode: Decoder<E>, most: nat, text: string)
    decreases |text|
  {
    if text == "" || text[0] == ']' then true
    else if Skipped(text[0]) then Short(decode, most, text[1..])
    else
      match decode(text)
      case None => true
      case Some((value, n)) => value.Object? && 0 < n <= |text| ==> n <= most && Short(decode, most, text[n..])
  }

  /** What the generator yields with `buffer` ahead and `file` still to be read: text that does
      not decode is read on only while no more than `limit` characters are pending. */
  function Iterated<E>(decode: Decoder<E>, limit: nat, buffer: string, file: seq<string>): Outcome<E>
    decreases |file|, |buffer|
  {
    if buffer == "" then if file == [] then Failed([]) else Iterated(decode, limit, file[0], file[1..])
    else if Skipped(buffer[0]) then Iterated(decode, limit, buffer[1..], file)
    else if buffer[0] == ']' then Events([], buffer[1..] + Concat(file))
    else
      match decode(buffer)
      case None =>
        if |buffer| <= limit && file != [] then Iterated(decode, limit, buffer + file[0], file[1..]) else Failed([])
      case Some((value, n)) =>
        if value.Object? && 0 < n <= |buffer| then Iterated(decode, limit, buffer[n..], file).Behind([value.event])
        else Failed([])
  }

  datatype Got<E> = Nothing | Later | One(event: E)

  /** `_TraceEventStream`, once the prefix has been read: `file` holds the chunks still to be
      read from the file, none of them empty. */
  class TraceEventStream<E> {
    const decode: Decoder<E>
    const limit: nat
    var buffer: string
    var pos: nat
    var eof: bool
    var file: seq<string>
    var suffix: string

    constructor (decode: Decoder<E>, limit: nat, buffer: string, file: seq<string>)
      ensures this.decode == decode && this.limit == limit
      ensures this.buffer == buffer && pos == 0 && this.file == file && !eof && suffix == ""
    {
      this.decode, this.limit, this.buffer, pos, eof, this.file, suffix := decode, limit, buffer, 0, false, file, "";
    }

    ghost predicate Valid()
      reads this
    {
      pos <= |buffer| && (eof ==> file == []) && forall c | c in file :: c != ""
    }

    /** All text not consumed yet. */
    function Ahead(): string
      requires pos <= |buffer|
      reads this
    {
      buffer[pos..] + Concat(file)
    }

    /** `_read_more` */
    method ReadMore() returns (more: bool)
      requires Valid()
      modifies `buffer, `pos, `eof, `file
      ensures Valid() && Ahead() == old(Ahead()) && more == (old(file) != []) && |file| == |old(file)| - (if more then 1 else 0)
      ensures !more ==> eof && buffer[pos..] == old(buffer[pos..])
      ensures more ==> buffer[pos..] == old(buffer[pos..]) + old(file)[0] && file == old(file)[1..]
    {
      buffer := buffer[pos..];
      pos := 0;
      if file == [] {
        eof := true;
        return false;
      }
      assert buffer + (file[0] + Concat(file[1..])) == (buffer + file[0]) + Concat(file[1..]);
      assert file[0] in file && forall c | c in file[1..] :: c in file;
      buffer := buffer + file[0];
      file := file[1..];
      return true;
    }

    /** The generator `__iter__`, run to its end or its error. */
    method Iterate() returns (events: seq<E>, ok: bool)
      requires Valid() && SelfDelimiting(decode)
      modifies `buffer, `pos, `eof, `file, `suffix
      ensures (if ok then Events(events, suffix) else Failed(events)) == Iterated(decode, limit, old(buffer[pos..]), old(file))
    {
      events := [];
      ghost var goal := Iterated(decode, limit, buffer[pos..], file);
      BehindNothing(goal);
      while true
        invariant Valid() && goal == Iterated(decode, limit, buffer[pos..], file).Behind(events)
        decreases |file|, |buffer| - pos
      {
        Skip();
        if pos < |buffer| && buffer[pos] == ']' {
          assert buffer[pos..][0] == ']' && buffer[pos..][1..] == buffer[pos + 1..] && events + [] == events;
          pos := pos + 1;
          suffix := buffer[pos..] + Concat(file);
          return events, true;
        }
        if pos == |buffer| {
          assert buffer[pos..] == "" && events + [] == events;
          ghost var unread := file;
          var more := ReadMore();
          if !more { return events, false; }
          assert "" + unread[0] == unread[0];
          continue;
        }
        var got := DecodeOne();
        if got.Nothing? {
          assert events + [] == events;
          return events, false;
        }
        if got.One? {
          BehindBoth(Iterated(decode, limit, buffer[pos..], file), events, [got.event]);
          events := events + [got.event];
        }
      }
    }

    /** Decode one event at the current position, or read more text for it. */
    method DecodeOne() returns (got: Got<E>)
      requires Valid() && SelfDelimiting(decode)
      requires pos < |buffer| && !Skipped(buffer[pos]) && buffer[pos] != ']'
      modifies `buffer, `pos, `eof, `file
      ensures Valid()
      ensures var before := Iterated(decode, limit, old(buffer[pos..]), old(file));
              var now := Iterated(decode, limit, buffer[pos..], file);
              match got
              case Nothing => before == Failed([])
              case Later => before == now && |file| < |old(file)|
              case One(e) => before == now.Behind([e]) && |file| == |old(file)| && |buffer| - pos < old(|buffer| - pos)
    {
      ghost var here := buffer[pos..];
      assert here[0] == buffer[pos];
      var r := decode(buffer[pos..]);
      if r.None? {
        var read := false;
        if !eof && |buffer| - pos <= limit { read := ReadMore(); }
        return if read then Later else Nothing;
      }
      if r.value.0.Other? { return Nothing; }
      pos := pos + r.value.1;
      assert buffer[pos..] == here[r.value.1..];
      return One(r.value.0.event);
    }

    /** White space and commas are passed over. */
    method Skip()
      requires Valid()
      modifies `pos
      ensures Valid() && old(pos) <= pos && (pos < |buffer| ==> !Skipped(buffer[pos]))
      ensures Iterated(decode, limit, buffer[pos..], file) == Iterated(decode, limit, old(buffer[pos..]), file)
    {
      while pos < |buffer| && Skipped(buffer[pos])
        invariant Valid() && old(pos) <= pos
        invariant Iterated(decode, limit, buffer[pos..], file) == Iterated(decode, limit, old(buffer[pos..]), file)
        decreases |buffer| - pos
      {
        assert buffer[pos..][0] == buffer[pos] && buffer[pos..][1..] == buffer[pos + 1..];
        pos := pos + 1;
      }
    }
  }

  lemma BehindNothing<E>(o: Outcome<E>)
    ensures o.Behind([]) == o
  {
    assert [] + o.events == o.events;
  }

  lemma BehindBoth<E>(o: Outcome<E>, a: seq<E>, b: seq<E>)
    ensures o.Behind(b).Behind(a) == o.Behind(a + b)
  {
    assert a + (b + o.events) == a + b + o.events;
  }

  // ---- the way the file is read ----

  /** What has been yielded is right, and a stream that ends has yielded everything. */
  ghost predicate Right<E>(o: Outcome<E>, all: Outcome<E>) {
    o.events <= all.events && (o.Events? ==> o == all)
  }

  /** However the file is read: the events are right as far as they go, and all of them if none
      is longer than one more than the limit. */
  lemma {:induction false} IteratedReads<E>(decode: Decoder<E>, limit: nat, buffer: string, file: seq<string>)
    requires SelfDelimiting(decode)
    ensures var o, text := Iterated(decode, limit, buffer, file), buffer + Concat(file);
      Right(o, ReadAll(decode, text)) && (Short(decode, limit + 1, text) ==> o == ReadAll(decode, text))
    decreases |file|, |buffer|
  {
    var text := buffer + Concat(file);
    if buffer == "" {
      if file != [] {
        IteratedReads(decode, limit, file[0], file[1..]);
        assert text == file[0] + Concat(file[1..]);
      } else {
        assert text == "";
      }
    } else if Skipped(buffer[0]) {
      IteratedReads(decode, limit, buffer[1..], file);
      assert text[0] == buffer[0] && text[1..] == buffer[1..] + Concat(file);
    } else if buffer[0] == ']' {
      assert text[0] == ']' && text[1..] == buffer[1..] + Concat(file);
    } else if decode(buffer).None? {
      UndecodedReads(decode, limit, buffer, file);
    } else {
      DecodedReads(decode, limit, buffer, file);
    }
  }

  lemma {:induction false} DecodedReads<E>(decode: Decoder<E>, limit: nat, buffer: string, file: seq<string>)
    requires SelfDelimiting(decode) && buffer != "" && !Skipped(buffer[0]) && buffer[0] != ']' && decode(buffer).Some?
    ensures var o, text := Iterated(decode, limit, buffer, file), buffer + Concat(file);
      Right(o, ReadAll(decode, text)) && (Short(decode, limit + 1, text) ==> o == ReadAll(decode, text))
    decreases |file|, |buffer|, 0
  {
    var text := buffer + Concat(file);
    DecodesAlike(decode, buffer, Concat(file));
    if decode(buffer).value.0.Object? {
      var (value, n) := decode(buffer).value;
      IteratedReads(decode, limit, buffer[n..], file);
      assert text[n..] == buffer[n..] + Concat(file);
      assert ReadsSoFar(decode, buffer, Concat(file));
      ShortNext(decode, limit + 1, text, n);
      RightBehind(Iterated(decode, limit, buffer[n..], file), ReadAll(decode, text[n..]), value.event);
    }
  }

  lemma RightBehind<E>(o: Outcome<E>, all: Outcome<E>, e: E)
    requires Right(o, all)
    ensures Right(o.Behind([e]), all.Behind([e]))
  {
  }

  lemma {:induction false} UndecodedReads<E>(decode: Decoder<E>, limit: nat, buffer: string, file: seq<string>)
    requires SelfDelimiting(decode) && buffer != "" && !Skipped(buffer[0]) && buffer[0] != ']' && decode(buffer).None?
    ensures var o, text := Iterated(decode, limit, buffer, file), buffer + Concat(file);
      Right(o, ReadAll(decode, text)) && (Short(decode, limit + 1, text) ==> o == ReadAll(decode, text))
    decreases |file|, |buffer|, 0
  {
    if |buffer| <= limit && file != [] {
      IteratedReads(decode, limit, buffer + file[0], file[1..]);
      assert buffer + file[0] + Concat(file[1..]) == buffer + Concat(file);
    } else {
      if file == [] { assert buffer + Concat(file) == buffer; }
      FailsForGood(decode, limit, buffer, Concat(file));
    }
  }

  lemma ShortNext<E>(decode: Decoder<E>, most: nat, text: string, n: nat)
    requires text != "" && !Skipped(text[0]) && text[0] != ']' && decode(text).Some? && decode(text).value.0.Object?
    requires decode(text).value.1 == n && 0 < n <= |text|
    ensures Short(decode, most, text) == (n <= most && Short(decode, most, text[n..]))
  {
  }

  /** A way of reading a text: what is in the buffer, and what is still in the file. */
  ghost predicate ReadsAs<E>(decode: Decoder<E>, limit: nat, text: string, buffer: string, file: seq<string>) {
    buffer + Concat(file) == text && (forall c | c in file :: c != "") ==>
      Iterated(decode, limit, buffer, file) == ReadAll(decode, text)
  }

  /** Every way of reading the file gives what decoding it at once gives, if and only if no event
      that is reached is longer than one more than the limit. */
  lemma ReadingExactly<E>(decode: Decoder<E>, limit: nat, text: string)
    requires SelfDelimiting(decode)
    ensures (forall buffer, file :: ReadsAs(decode, limit, text, buffer, file)) <==> Short(decode, limit + 1, text)
  {
    if Short(decode, limit + 1, text) {
      forall buffer, file
        ensures ReadsAs(decode, limit, text, buffer, file)
      {
        IteratedReads(decode, limit, buffer, file);
      }
    } else {
      LongEvent(decode, limit, text);
      var k: nat :| Misread(decode, limit, text, k);
      var buffer, rest := text[..k], text[k..];
      assert [rest][1..] == [] && Concat([rest]) == rest + "" == rest && buffer + rest == text;
      assert !ReadsAs(decode, limit, text, buffer, [rest]);
    }
  }

  /** Read up to `k` first, the text is read wrongly. */
  ghost predicate Misread<E>(decode: Decoder<E>, limit: nat, text: string, k: nat) {
    k < |text| && Iterated(decode, limit, text[..k], [text[k..]]) != ReadAll(decode, text)
  }

  /** Read up to one more than the limit into the first event that is too long, the stream gives up. */
  lemma {:induction false} LongEvent<E>(decode: Decoder<E>, limit: nat, text: string)
    requires SelfDelimiting(decode) && !Short(decode, limit + 1, text)
    ensures exists k: nat :: Misread(decode, limit, text, k)
    decreases |text|
  {
    if Skipped(text[0]) {
      LongEvent(decode, limit, text[1..]);
      var j: nat :| Misread(decode, limit, text[1..], j);
      MisreadSkipped(decode, limit, text, j);
    } else {
      var n := decode(text).value.1;
      if n > limit + 1 {
        GivesUp(decode, limit, text, n);
        assert Misread(decode, limit, text, limit + 1);
      } else {
        LongEvent(decode, limit, text[n..]);
        var j: nat :| Misread(decode, limit, text[n..], j);
        MisreadBehind(decode, limit, text, n, j);
      }
    }
  }

  lemma MisreadSkipped<E>(decode: Decoder<E>, limit: nat, text: string, j: nat)
    requires text != "" && Skipped(text[0]) && Misread(decode, limit, text[1..], j)
    ensures Misread(decode, limit, text, j + 1)
  {
    Shifted(text, 1, j);
    var here, rest := text[..j + 1], [text[j + 1..]];
    assert Iterated(decode, limit, here, rest) == Iterated(decode, limit, here[1..], rest);
  }

  lemma MisreadBehind<E>(decode: Decoder<E>, limit: nat, text: string, n: nat, j: nat)
    requires SelfDelimiting(decode) && text != "" && !Skipped(text[0]) && text[0] != ']'
    requires decode(text).Some? && decode(text).value.0.Object? && decode(text).value.1 == n <= |text|
    requires Misread(decode, limit, text[n..], j)
    ensures Misread(decode, limit, text, n + j)
  {
    Shifted(text, n, j);
    DecodesFirst(decode, limit, text, n, n + j);
    var now := Iterated(decode, limit, text[n..][..j], [text[n + j..]]);
    BehindDiffers(now, ReadAll(decode, text[n..]), decode(text).value.0.event);
  }

  lemma BehindDiffers<E>(a: Outcome<E>, b: Outcome<E>, e: E)
    requires a != b
    ensures a.Behind([e]) != b.Behind([e])
  {
    assert a.Behind([e]).events[1..] == a.events && b.Behind([e]).events[1..] == b.events;
  }

  lemma Shifted(text: string, n: nat, j: nat)
    requires n <= |text| && j < |text[n..]|
    ensures text[..n + j][n..] == text[n..][..j] && text[n + j..] == text[n..][j..] && (n > 0 ==> text[..n + j][0] == text[0])
  {
  }

  /** An event that is in the buffer is decoded, whatever is still in the file. */
  lemma DecodesFirst<E>(decode: Decoder<E>, limit: nat, text: string, n: nat, k: nat)
    requires SelfDelimiting(decode) && text != "" && !Skipped(text[0]) && text[0] != ']'
    requires decode(text).Some? && decode(text).value.0.Object? && decode(text).value.1 == n <= k < |text|
    ensures Iterated(decode, limit, text[..k], [text[k..]]) ==
            Iterated(decode, limit, text[..k][n..], [text[k..]]).Behind([decode(text).value.0.event])
    ensures ReadAll(decode, text) == ReadAll(decode, text[n..]).Behind([decode(text).value.0.event])
  {
    var here := text[..k];
    assert here + text[k..] == text;
    assert ReadsSoFar(decode, here, text[k..]);
    assert here[0] == text[0];
  }

  lemma GivesUp<E>(decode: Decoder<E>, limit: nat, text: string, n: nat)
    requires SelfDelimiting(decode) && text != "" && !Skipped(text[0]) && text[0] != ']'
    requires decode(text).Some? && decode(text).value.0.Object? && limit + 1 < decode(text).value.1 == n
    ensures n <= |text| && Iterated(decode, limit, text[..limit + 1], [text[limit + 1..]]) == Failed([])
    ensures ReadAll(decode, text).events != []
  {
    var here := text[..limit + 1];
    assert here + text[limit + 1..] == text;
    assert ReadsSoFar(decode, here, text[limit + 1..]);
    assert here[0] == text[0];
  }

  /** What the buffer decodes to is what the whole text decodes to. */
  lemma DecodesAlike<E>(decode: Decoder<E>, here: string, more: string)
    requires SelfDelimiting(decode) && here != "" && !Skipped(here[0]) && here[0] != ']'
    ensures decode(here).Some? && decode(here).value.0.Object? ==>
              var (value, n) := decode(here).value;
              n <= |here| && ReadAll(decode, here + more) == ReadAll(decode, (here + more)[n..]).Behind([value.event])
    ensures decode(here).Some? && decode(here).value.0.Other? ==> ReadAll(decode, here + more) == Failed([])
  {
    assert ReadsSoFar(decode, here, more);
    assert (here + more)[0] == here[0];
  }

  /** Text that does not decode, with nothing more to read or longer than any event, never does. */
  lemma FailsForGood<E>(decode: Decoder<E>, limit: nat, here: string, more: string)
    requires SelfDelimiting(decode) && here != "" && !Skipped(here[0]) && here[0] != ']' && decode(here).None?
    requires more == "" || |here| > limit
    ensures Short(decode, limit + 1, here + more) ==> ReadAll(decode, here + more) == Failed([])
  {
    assert ReadsSoFar(decode, here, more);
    assert (here + more)[0] == here[0];
    if more == "" { assert here + more == here; }
  }
}
