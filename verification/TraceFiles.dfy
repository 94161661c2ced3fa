/** From file texts to a file text: the traces are decoded piece by piece, merged, and what is
    written decodes back, again however it is read. */
module TraceFiles {
  import opened Patterns
  import opened TraceCompactor
  import opened TraceMerger
  import Stream = TraceStream

  /** A trace file: the text up to the event array, what has been read behind it, and what is
      still to be read, in chunks. */
  datatype File = File(prefix: string, buffer: string, chunks: seq<string>, rank: nat)

  function Text(f: File): string { f.buffer + Concat(f.chunks) }

  ghost predicate Readable(files: seq<File>) {
    forall f | f in files :: forall c | c in f.chunks :: c != ""
  }

  /** The trace is what the whole text of the file decodes to. */
  ghost predicate Decodes(decode: Stream.Decoder<Event>, f: File, t: Trace) {
    && t.prefix == f.prefix && t.rank == f.rank
    && Stream.ReadAll(decode, Text(f)) == Stream.Events(t.events, t.suffix)
  }

  /** Decoding fails, or gives up on an event above the size limit. */
  ghost predicate Undecodable(decode: Stream.Decoder<Event>, limit: nat, f: File) {
    Stream.ReadAll(decode, Text(f)).Failed? || !Stream.Short(decode, limit + 1, Text(f))
  }

  method ReadTrace(decode: Stream.Decoder<Event>, limit: nat, f: File) returns (trace: Option<Trace>)
    requires Stream.SelfDelimiting(decode) && forall c | c in f.chunks :: c != ""
    ensures trace.Some? ==> Decodes(decode, f, trace.value)
    ensures trace.None? ==> Undecodable(decode, limit, f)
  {
    var stream := new Stream.TraceEventStream(decode, limit, f.buffer, f.chunks);
    assert f.buffer[0..] == f.buffer;
    Stream.IteratedReads(decode, limit, f.buffer, f.chunks);
    var events, ok := stream.Iterate();
    return if ok then Some(Trace(f.prefix, events, stream.suffix, f.rank)) else None;
  }

  /** `merge_trace_jsons` on the files, in the order given; nothing stands for an error. */
  method MergeFiles(files: seq<File>, compact: bool, decode: Stream.Decoder<Event>, limit: nat, dump: Event -> string,
                    retitle: string -> string)
    returns (output: Option<string>, ghost traces: seq<Trace>, ghost plans: seq<Plan>)
    requires Stream.SelfDelimiting(decode) && Readable(files)
    ensures |traces| <= |files| && forall k | 0 <= k < |traces| :: Decodes(decode, files[k], traces[k])
    ensures AllPlanned(plans, traces, compact)
    ensures output.Some? ==> files != [] && |plans| == |traces| == |files| && RanksDiffer(traces)
    ensures output.Some? ==> Merged(traces, plans).Some? && output.value == Whole(traces, plans, dump, retitle)
    ensures output.None? ==> files == [] || (exists f | f in files :: Undecodable(decode, limit, f))
                             || !RanksDiffer(traces) || Merged(traces[..|plans|], plans).None?
  {
    plans := [];
    var read: seq<Trace> := [];
    traces := [];
    for k := 0 to |files|
      invariant |read| == k && traces == read && forall j | 0 <= j < k :: Decodes(decode, files[j], read[j])
    {
      assert files[k] in files;
      var t := ReadTrace(decode, limit, files[k]);
      if t.None? { return None, traces, plans; }
      read := read + [t.value];
      traces := read;
    }
    output, plans := MergeTraceJsons(read, compact, dump, retitle);
  }

  /** The merged file, however it is read behind its prefix, decodes to the files' events, remapped
      and compacted, in order, as long as none of them is written longer than the limit allows. */
  lemma MergedFileReadsBack(traces: seq<Trace>, plans: seq<Plan>, decode: Stream.Decoder<Event>, limit: nat,
                            dump: Event -> string, retitle: string -> string, buffer: string, chunks: seq<string>)
    requires traces != [] && |plans| == |traces| && AllSized(plans) && Merged(traces, plans).Some?
    requires Stream.SelfDelimiting(decode) && Dumps(decode, dump)
    requires forall e | e in Merged(traces, plans).value :: |dump(e)| <= limit + 1
    requires traces[0].prefix + (buffer + Concat(chunks)) == Whole(traces, plans, dump, retitle)
    ensures Stream.Iterated(decode, limit, buffer, chunks)
         == Stream.Events(Merged(traces, plans).value, retitle(traces[0].suffix))
    ensures RendersAll(Sources(traces, plans), Merged(traces, plans).value)
  {
    var events, suffix := Merged(traces, plans).value, retitle(traces[0].suffix);
    var text := buffer + Concat(chunks);
    BehindPrefix(traces[0].prefix, text, Body(dump, events, true), "]" + suffix);
    MergedReadsBack(traces, plans, decode, dump, suffix);
    ShortBody(decode, dump, events, true, suffix, limit + 1);
    Stream.IteratedReads(decode, limit, buffer, chunks);
  }

  lemma BehindPrefix(prefix: string, text: string, body: string, end: string)
    requires prefix + text == prefix + body + end
    ensures text == body + end
  {
    assert (prefix + text)[|prefix|..] == text;
    assert (prefix + body + end)[|prefix|..] == body + end;
  }

  lemma {:induction false} ShortBody(decode: Stream.Decoder<Event>, dump: Event -> string, events: seq<Event>, first: bool,
                                     suffix: string, most: nat)
    requires Stream.SelfDelimiting(decode) && Dumps(decode, dump) && forall e | e in events :: |dump(e)| <= most
    ensures Stream.Short(decode, most, Body(dump, events, first) + ("]" + suffix))
    decreases |events|
  {
    var tail := "]" + suffix;
    if events == [] {
      assert "" + tail == tail && tail[0] == ']';
    } else {
      var e, rest := events[0], Body(dump, events[1..], false) + tail;
      ShortBody(decode, dump, events[1..], false, suffix, most);
      ShortEvent(decode, dump, e, rest, most);
      BodySplits(dump, events, first, tail, dump(e) + rest);
      if !first { assert ("," + (dump(e) + rest))[1..] == dump(e) + rest; }
    }
  }

  lemma ShortEvent(decode: Stream.Decoder<Event>, dump: Event -> string, e: Event, rest: string, most: nat)
    requires Stream.SelfDelimiting(decode) && Dumps(decode, dump) && |dump(e)| <= most && Stream.Short(decode, most, rest)
    ensures Stream.Short(decode, most, dump(e) + rest)
  {
    assert DumpsOne(decode, dump, e);
    assert Stream.ReadsSoFar(decode, dump(e), rest);
    var text := dump(e) + rest;
    assert text[0] == dump(e)[0] && text[|dump(e)|..] == rest;
  }
}
