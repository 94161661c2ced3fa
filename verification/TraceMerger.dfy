/** Merging the traces of several ranks into one: events are remapped per rank, optionally
    compacted, and written as one array that reads back as exactly those events. */
module TraceMerger {
  import opened Patterns
  import opened TraceIds
  import opened TraceCompactor
  import Stream = TraceStream

  // ---- remapping one event ----

  function RemapOption(id: Option<Ident>, delta: nat): Option<Option<Ident>> {
    match id
    case None => Some(None)
    case Some(i) => if Remap(i, delta).None? then None else Some(Remap(i, delta))
  }

  /** Process and thread names and labels say which rank they come from. */
  function RemapArgs(e: Event, rank: nat): Option<Args> {
    if e.ph != "M" || e.args.None? then e.args
    else
      var args := e.args.value;
      if e.name == "process_name" || e.name == "thread_name" then
        Some(if args.name.None? then args else args.(name := Some(args.name.value + "_rank" + Digits(rank))))
      else if e.name == "process_labels" then
        Some(if args.labels.None? then args else args.(labels := Some(args.labels.value + "_" + Digits(rank))))
      else e.args
  }

  /** `_remap_event`; fails on an identifier that is neither a string nor a number. */
  function RemapEvent(e: Event, rank: nat): Option<Event> {
    var pid, tid := RemapOption(e.pid, rank * STRIDE), RemapOption(e.tid, rank * STRIDE);
    if pid.None? || tid.None? then None
    else Some(e.(pid := pid.value, tid := tid.value, args := RemapArgs(e, rank)))
  }

  // What a remapped event is, field by field.

  /** Numbers are shifted by the rank's stride, and strings get it as a suffix. */
  predicate Shifted(id: Option<Ident>, rank: nat, out: Option<Ident>) {
    match id
    case None => out.None?
    case Some(Number(n)) => out == Some(Number(n + rank * 100_000_000))
    case Some(Text(s)) => out == Some(Text(s + "_" + Digits(rank * 100_000_000)))
    case Some(Odd(_)) => false
  }

  function Suffixed(s: Option<string>, suffix: string): Option<string> { if s.None? then None else Some(s.value + suffix) }

  predicate RankedArgs(e: Event, rank: nat, args: Args)
    requires e.args.Some?
  {
    var was := e.args.value;
    && args.stream == was.stream && args.rest == was.rest
    && args.name == (if e.ph == "M" && (e.name == "process_name" || e.name == "thread_name")
                     then Suffixed(was.name, "_rank" + Digits(rank)) else was.name)
    && args.labels == (if e.ph == "M" && e.name == "process_labels" then Suffixed(was.labels, "_" + Digits(rank)) else was.labels)
  }

  /** `out` is the event `e` of a rank: only its ids change, and its name or labels if it is a
      metadata event that has some. */
  predicate Ranked(e: Event, rank: nat, out: Event) {
    && Shifted(e.pid, rank, out.pid) && Shifted(e.tid, rank, out.tid) && SameKind(out, e)
    && (out.args.Some? <==> e.args.Some?) && (e.args.Some? ==> RankedArgs(e, rank, out.args.value))
  }

  predicate Unsupported(id: Option<Ident>) { id.Some? && id.value.Odd? }

  lemma RemapIs(e: Event, rank: nat, out: Event)
    ensures RemapEvent(e, rank) == Some(out) <==> Ranked(e, rank, out)
    ensures RemapEvent(e, rank).None? <==> Unsupported(e.pid) || Unsupported(e.tid)
  {
    ArgsAre(e, rank, out.args);
  }

  lemma ArgsAre(e: Event, rank: nat, args: Option<Args>)
    ensures RemapArgs(e, rank) == args
       <==> (args.Some? <==> e.args.Some?) && (e.args.Some? ==> RankedArgs(e, rank, args.value))
  {
    assert |"process_name"| == 12 && |"thread_name"| == 11 && |"process_labels"| == 14;
    if e.args.Some? {
      var was := e.args.value;
      if was.name.Some? { assert was.name.value + "_rank" + Digits(rank) == was.name.value + ("_rank" + Digits(rank)); }
      if was.labels.Some? { assert was.labels.value + "_" + Digits(rank) == was.labels.value + ("_" + Digits(rank)); }
    }
  }

  /** Lanes of different ranks stay apart, and so do different lanes of one rank: string ids
      always, numeric ids as long as they are below the stride. */
  predicate Plain(id: Option<Ident>) {
    id.Some? && (id.value.Text? || (id.value.Number? && 0 <= id.value.n < STRIDE))
  }

  lemma RemapKeepsApart(a: Event, rank: nat, b: Event, rank': nat)
    requires Plain(a.pid) && Plain(a.tid) && Plain(b.pid) && Plain(b.tid)
    ensures RemapEvent(a, rank).Some? && RemapEvent(b, rank').Some?
    ensures var x, y := RemapEvent(a, rank).value, RemapEvent(b, rank').value;
            (x.pid, x.tid) == (y.pid, y.tid) <==> rank == rank' && (a.pid, a.tid) == (b.pid, b.tid)
  {
    IdentsApart(a.pid.value, rank, b.pid.value, rank');
    IdentsApart(a.tid.value, rank, b.tid.value, rank');
  }

  lemma IdentsApart(a: Ident, rank: nat, b: Ident, rank': nat)
    requires Plain(Some(a)) && Plain(Some(b))
    ensures Remap(a, rank * STRIDE).Some? && Remap(b, rank' * STRIDE).Some?
    ensures Remap(a, rank * STRIDE) == Remap(b, rank' * STRIDE) <==> rank == rank' && a == b
  {
    if a.Text? && b.Text? {
      TextsNeverCollide(a.s, rank, b.s, rank');
    } else if a.Number? && b.Number? {
      NumbersCollideExactly(a.n, rank, b.n, rank');
    }
  }

  // ---- the array on paper ----

  /** Events with commas between them; `first` tells that none was written yet. */
  function Body(dump: Event -> string, events: seq<Event>, first: bool): string {
    if events == [] then "" else (if first then "" else ",") + dump(events[0]) + Body(dump, events[1..], false)
  }

  lemma {:induction false} BodyGrows(dump: Event -> string, events: seq<Event>, e: Event, first: bool)
    ensures Body(dump, events + [e], first)
         == Body(dump, events, first) + (if first && events == [] then "" else ",") + dump(e)
  {
    if events == [] {
      assert events + [e] == [e] && [e][1..] == [];
    } else {
      assert (events + [e])[1..] == events[1..] + [e];
      BodyGrows(dump, events[1..], e, false);
    }
  }

  /** What is dumped decodes to the event it came from. */
  ghost predicate Dumps(decode: Stream.Decoder<Event>, dump: Event -> string) {
    forall e :: DumpsOne(decode, dump, e)
  }

  ghost predicate DumpsOne(decode: Stream.Decoder<Event>, dump: Event -> string, e: Event) {
    && dump(e) != "" && !Stream.Skipped(dump(e)[0]) && dump(e)[0] != ']'
    && decode(dump(e)) == Some((Stream.Object(e), |dump(e)|))
  }

  /** A written array reads back as its events, and nothing of what follows it is lost. */
  lemma {:induction false} ReadsBack(decode: Stream.Decoder<Event>, dump: Event -> string, events: seq<Event>, first: bool,
                                     suffix: string)
    requires Stream.SelfDelimiting(decode) && Dumps(decode, dump)
    ensures Stream.ReadAll(decode, Body(dump, events, first) + ("]" + suffix)) == Stream.Events(events, suffix)
    decreases |events|
  {
    var tail := "]" + suffix;
    if events == [] {
      assert "" + tail == tail && tail[0] == ']' && tail[1..] == suffix;
    } else {
      var e, rest := events[0], Body(dump, events[1..], false) + tail;
      ReadsBack(decode, dump, events[1..], false, suffix);
      EventReadsBack(decode, dump, e, rest);
      assert [e] + events[1..] == events;
      BodySplits(dump, events, first, tail, dump(e) + rest);
      if !first { CommaSkipped(decode, dump(e) + rest); }
    }
  }

  lemma BodySplits(dump: Event -> string, events: seq<Event>, first: bool, tail: string, text: string)
    requires events != [] && text == dump(events[0]) + (Body(dump, events[1..], false) + tail)
    ensures Body(dump, events, first) + tail == if first then text else "," + text
  {
    var comma := if first then "" else ",";
    assert comma + dump(events[0]) + Body(dump, events[1..], false) + tail
        == comma + (dump(events[0]) + (Body(dump, events[1..], false) + tail));
    assert "" + text == text;
  }

  lemma CommaSkipped(decode: Stream.Decoder<Event>, text: string)
    ensures Stream.ReadAll(decode, "," + text) == Stream.ReadAll(decode, text)
  {
    assert ("," + text)[0] == ',' && ("," + text)[1..] == text;
  }

  lemma EventReadsBack(decode: Stream.Decoder<Event>, dump: Event -> string, e: Event, rest: string)
    requires Stream.SelfDelimiting(decode) && Dumps(decode, dump)
    ensures Stream.ReadAll(decode, dump(e) + rest) == Stream.ReadAll(decode, rest).Behind([e])
  {
    assert DumpsOne(decode, dump, e);
    assert Stream.ReadsSoFar(decode, dump(e), rest);
    var text := dump(e) + rest;
    assert text[0] == dump(e)[0] && text[|dump(e)|..] == rest;
  }

  // ---- the merge ----

  /** A decoded input trace and its rank. */
  datatype Trace = Trace(prefix: string, events: seq<Event>, suffix: string, rank: nat)

  function RemapAll(events: seq<Event>, rank: nat): Option<seq<Event>> {
    if events == [] then Some([])
    else
      var e, rest := RemapEvent(events[0], rank), RemapAll(events[1..], rank);
      if e.None? || rest.None? then None else Some([e.value] + rest.value)
  }

  /** What the compactor of a trace decided. */
  datatype Plan = Plan(mapping: map<Lane, Ident>, sizes: map<Lane, nat>)

  ghost predicate Planned(plan: Plan, events: seq<Event>, compact: bool) {
    if compact then Decided(events, 4, plan.mapping, plan.sizes) else plan == Plan(map[], map[])
  }

  ghost function Contribution(t: Trace, plan: Plan): Option<seq<Event>>
    requires Sized(plan.mapping, plan.sizes)
  {
    RemapAll(CompactAll(plan.mapping, plan.sizes, {}, t.events), t.rank)
  }

  ghost predicate AllSized(plans: seq<Plan>) { forall p | p in plans :: Sized(p.mapping, p.sizes) }

  ghost predicate AllPlanned(plans: seq<Plan>, traces: seq<Trace>, compact: bool) {
    && |plans| <= |traces| && AllSized(plans)
    && forall k | 0 <= k < |plans| :: Planned(plans[k], traces[k].events, compact)
  }

  /** The events of the traces, in their order; nothing if one of them cannot be remapped. */
  ghost function Merged(traces: seq<Trace>, plans: seq<Plan>): Option<seq<Event>>
    requires |plans| == |traces| && AllSized(plans)
  {
    if traces == [] then Some([])
    else
      var own, rest := Contribution(traces[0], plans[0]), Merged(traces[1..], plans[1..]);
      if own.None? || rest.None? then None else Some(own.value + rest.value)
  }

  predicate RanksDiffer(traces: seq<Trace>) {
    forall i, j | 0 <= i < j < |traces| :: traces[i].rank != traces[j].rank
  }

  /** Writing one trace's events. */
  class Writer {
    const dump: Event -> string
    var text: string
    var firstEvent: bool
    ghost var written: seq<Event>
    ghost const prefix: string

    constructor (dump: Event -> string, prefix: string)
      ensures this.dump == dump && this.prefix == prefix && Valid() && written == []
    {
      this.dump, this.prefix := dump, prefix;
      text, firstEvent, written := prefix, true, [];
      new;
      assert text + "" == text;
    }

    ghost predicate Valid()
      reads this
    {
      text == prefix + Body(dump, written, true) && firstEvent == (written == [])
    }

    method Write(e: Event)
      requires Valid()
      modifies this
      ensures Valid() && written == old(written) + [e]
    {
      BodyGrows(dump, written, e, true);
      if !firstEvent { text := text + ","; }
      text := text + dump(e);
      firstEvent := false;
      written := written + [e];
    }
  }

  // What is merged, event by event.

  /** A kept event, and the plan and rank of its trace. */
  datatype Source = Source(plan: Plan, rank: nat, event: Event)

  function Tagged(events: seq<Event>, plan: Plan, rank: nat): seq<Source> {
    seq(|events|, i requires 0 <= i < |events| => Source(plan, rank, events[i]))
  }

  /** The events kept of every trace, in order. */
  function Sources(traces: seq<Trace>, plans: seq<Plan>): seq<Source>
    requires |plans| == |traces|
  {
    if traces == [] then []
    else
      var kept := Kept(plans[0].mapping, traces[0].events, |traces[0].events|);
      Tagged(kept, plans[0], traces[0].rank) + Sources(traces[1..], plans[1..])
  }

  /** `out` is what is written for `x`: the event on its lane, with the rank. */
  ghost predicate Renders(x: Source, out: Event) {
    Sized(x.plan.mapping, x.plan.sizes) &&
    exists e :: Relaned(x.plan.mapping, x.plan.sizes, x.event, e) && Ranked(e, x.rank, out)
  }

  ghost predicate RendersAll(sources: seq<Source>, events: seq<Event>) {
    |events| == |sources| && forall i | 0 <= i < |events| :: Renders(sources[i], events[i])
  }

  type Kind = (string, string, string, string)

  function KindOf(e: Event): Kind { (e.ph, e.cat, e.name, e.rest) }

  function Kinds(events: seq<Event>): seq<Kind> { seq(|events|, i requires 0 <= i < |events| => KindOf(events[i])) }

  /** The kinds of the events kept of every trace, one trace after the other. */
  function KeptKinds(traces: seq<Trace>, plans: seq<Plan>): seq<Kind>
    requires |plans| == |traces|
  {
    if traces == [] then []
    else Kinds(Kept(plans[0].mapping, traces[0].events, |traces[0].events|)) + KeptKinds(traces[1..], plans[1..])
  }

  lemma {:induction false} RemapAllIs(events: seq<Event>, rank: nat)
    ensures RemapAll(events, rank).None? <==> exists e | e in events :: Unsupported(e.pid) || Unsupported(e.tid)
    ensures var all := RemapAll(events, rank);
            all.Some? ==> |all.value| == |events| && forall i | 0 <= i < |events| :: Ranked(events[i], rank, all.value[i])
  {
    if events != [] {
      var e, rest := RemapEvent(events[0], rank), RemapAll(events[1..], rank);
      RemapAllIs(events[1..], rank);
      RemapIs(events[0], rank, if e.Some? then e.value else events[0]);
      assert forall x :: x in events <==> x == events[0] || x in events[1..];
    }
  }

  lemma ContributionRenders(t: Trace, plan: Plan)
    requires Sized(plan.mapping, plan.sizes) && Contribution(t, plan).Some?
    ensures var kept := Kept(plan.mapping, t.events, |t.events|);
      && RendersAll(Tagged(kept, plan, t.rank), Contribution(t, plan).value)
      && Kinds(Contribution(t, plan).value) == Kinds(kept)
  {
    var moved, kept := CompactAll(plan.mapping, plan.sizes, {}, t.events), Kept(plan.mapping, t.events, |t.events|);
    var out := Contribution(t, plan).value;
    CompactedIs(plan.mapping, plan.sizes, t.events);
    RemapAllIs(moved, t.rank);
    forall i | 0 <= i < |out|
      ensures Renders(Source(plan, t.rank, kept[i]), out[i]) && KindOf(out[i]) == KindOf(kept[i])
    {
      assert Relaned(plan.mapping, plan.sizes, kept[i], moved[i]) && Ranked(moved[i], t.rank, out[i]);
    }
  }

  /** What is merged is exactly what was kept of the traces, in order, each event on its lane and
      with its rank; phase, category, name and everything else of it is as it was. */
  lemma {:induction false} MergedRenders(traces: seq<Trace>, plans: seq<Plan>)
    requires |plans| == |traces| && AllSized(plans) && Merged(traces, plans).Some?
    ensures RendersAll(Sources(traces, plans), Merged(traces, plans).value)
    ensures Kinds(Merged(traces, plans).value) == KeptKinds(traces, plans)
    decreases |traces|
  {
    if traces != [] {
      assert plans[0] in plans && forall p | p in plans[1..] :: p in plans;
      ContributionRenders(traces[0], plans[0]);
      MergedRenders(traces[1..], plans[1..]);
      var a, b := Contribution(traces[0], plans[0]).value, Merged(traces[1..], plans[1..]).value;
      KindsJoin(a, b);
    }
  }

  lemma KindsJoin(a: seq<Event>, b: seq<Event>)
    ensures Kinds(a + b) == Kinds(a) + Kinds(b)
  {
  }

  /** What is left to write, behind what has been written of a trace. */
  function Prepend(done: seq<Event>, rest: Option<seq<Event>>): Option<seq<Event>> {
    if rest.None? then None else Some(done + rest.value)
  }

  /** The event loop of one trace; fails on an identifier that cannot be remapped. */
  method WriteTrace(w: Writer, t: Trace, compactor: StreamLaneCompactor?, ghost plan: Plan) returns (ok: bool)
    requires w.Valid() && Sized(plan.mapping, plan.sizes)
    requires if compactor == null then plan == Plan(map[], map[])
             else plan == Plan(compactor.mapping, compactor.groupSizes) && compactor.emitted == {}
    modifies w, compactor
    ensures w.Valid() && ok == Contribution(t, plan).Some?
    ensures ok ==> w.written == old(w.written) + Contribution(t, plan).value
    ensures ok ==> RendersAll(Tagged(Kept(plan.mapping, t.events, |t.events|), plan, t.rank), Contribution(t, plan).value)
  {
    if Contribution(t, plan).Some? { ContributionRenders(t, plan); }
    ghost var all := Prepend(w.written, Contribution(t, plan));
    ghost var emitted: set<Lane> := {};
    assert t.events[0..] == t.events;
    for i := 0 to |t.events|
      invariant w.Valid() && all == Prepend(w.written, Remaining(t, plan, emitted, i))
      invariant compactor != null ==> compactor.emitted == emitted && plan == Plan(compactor.mapping, compactor.groupSizes)
    {
      ghost var next := CompactOne(plan.mapping, plan.sizes, emitted, t.events[i]);
      WritesNext(t, plan, emitted, i, w.written);
      var kept := Some(t.events[i]);
      if compactor != null { kept := compactor.Compact(t.events[i]); }
      assert (kept, if compactor != null then compactor.emitted else emitted) == next;
      if kept.Some? {
        var e := RemapEvent(kept.value, t.rank);
        if e.None? { return false; }
        w.Write(e.value);
      }
      emitted := next.1;
    }
    assert t.events[|t.events|..] == [] && w.written + [] == w.written;
    ok := true;
  }

  ghost function Remaining(t: Trace, plan: Plan, emitted: set<Lane>, i: nat): Option<seq<Event>>
    requires Sized(plan.mapping, plan.sizes) && i <= |t.events|
  {
    RemapAll(CompactAll(plan.mapping, plan.sizes, emitted, t.events[i..]), t.rank)
  }

  lemma WritesNext(t: Trace, plan: Plan, emitted: set<Lane>, i: nat, done: seq<Event>)
    requires Sized(plan.mapping, plan.sizes) && i < |t.events|
    ensures var (kept, next) := CompactOne(plan.mapping, plan.sizes, emitted, t.events[i]);
            Prepend(done, Remaining(t, plan, emitted, i)) ==
              if kept.None? then Prepend(done, Remaining(t, plan, next, i + 1))
              else if RemapEvent(kept.value, t.rank).None? then None
              else Prepend(done + [RemapEvent(kept.value, t.rank).value], Remaining(t, plan, next, i + 1))
  {
    var events := t.events[i..];
    assert events[0] == t.events[i] && events[1..] == t.events[i + 1..];
    CompactFirst(plan, emitted, events);
    var (kept, next) := CompactOne(plan.mapping, plan.sizes, emitted, t.events[i]);
    if kept.Some? { RemapFirst(kept.value, CompactAll(plan.mapping, plan.sizes, next, events[1..]), t.rank, done); }
  }

  lemma CompactFirst(plan: Plan, emitted: set<Lane>, events: seq<Event>)
    requires Sized(plan.mapping, plan.sizes) && events != []
    ensures var (kept, next) := CompactOne(plan.mapping, plan.sizes, emitted, events[0]);
            var rest := CompactAll(plan.mapping, plan.sizes, next, events[1..]);
            CompactAll(plan.mapping, plan.sizes, emitted, events) == if kept.Some? then [kept.value] + rest else rest
  {
    var rest := CompactAll(plan.mapping, plan.sizes, CompactOne(plan.mapping, plan.sizes, emitted, events[0]).1, events[1..]);
    assert [] + rest == rest;
  }

  lemma RemapFirst(e: Event, rest: seq<Event>, rank: nat, done: seq<Event>)
    ensures RemapEvent(e, rank).None? ==> Prepend(done, RemapAll([e] + rest, rank)).None?
    ensures RemapEvent(e, rank).Some? ==>
              Prepend(done, RemapAll([e] + rest, rank)) == Prepend(done + [RemapEvent(e, rank).value], RemapAll(rest, rank))
  {
    assert ([e] + rest)[1..] == rest;
    if RemapEvent(e, rank).Some? && RemapAll(rest, rank).Some? {
      var x, xs := RemapEvent(e, rank).value, RemapAll(rest, rank).value;
      assert done + ([x] + xs) == done + [x] + xs;
    }
  }

  /** The scan that feeds a trace's compactor. */
  method Scan(t: Trace) returns (compactor: StreamLaneCompactor, ghost plan: Plan)
    ensures fresh(compactor) && compactor.emitted == {} && plan == Plan(compactor.mapping, compactor.groupSizes)
    ensures Planned(plan, t.events, true) && Sized(plan.mapping, plan.sizes)
  {
    compactor := new StreamLaneCompactor(4);
    assert t.events[..0] == [];
    for i := 0 to |t.events|
      invariant fresh(compactor) && compactor.Watching(t.events[..i]) && compactor.emitted == {}
      invariant compactor.mapping == map[] && compactor.groupSizes == map[]
    {
      compactor.Observe(t.events[i], t.events[..i]);
      assert t.events[..i + 1] == t.events[..i] + [t.events[i]];
    }
    assert t.events[..|t.events|] == t.events;
    var compacted := compactor.Finalize(t.events);
    plan := Plan(compactor.mapping, compactor.groupSizes);
    DecidedIsSized(t.events, 4, plan.mapping, plan.sizes);
  }

  lemma {:induction false} MergedGrows(traces: seq<Trace>, plans: seq<Plan>, t: Trace, p: Plan)
    requires |plans| == |traces| && Sized(p.mapping, p.sizes) && AllSized(plans)
    ensures AllSized(plans + [p])
    ensures Merged(traces + [t], plans + [p]) ==
            if Merged(traces, plans).None? || Contribution(t, p).None? then None
            else Some(Merged(traces, plans).value + Contribution(t, p).value)
    decreases |traces|
  {
    if traces == [] {
      assert traces + [t] == [t] && plans + [p] == [p] && [t][1..] == [] && [p][1..] == [];
      if Contribution(t, p).Some? { assert Contribution(t, p).value + [] == [] + Contribution(t, p).value; }
    } else {
      assert (traces + [t])[1..] == traces[1..] + [t] && (plans + [p])[1..] == plans[1..] + [p];
      MergedGrows(traces[1..], plans[1..], t, p);
      if Merged(traces, plans).Some? && Contribution(t, p).Some? {
        var a, b, c := Contribution(traces[0], plans[0]).value, Merged(traces[1..], plans[1..]).value, Contribution(t, p).value;
        assert a + (b + c) == a + b + c;
      }
    }
  }

  lemma PlannedGrows(plans: seq<Plan>, traces: seq<Trace>, compact: bool, k: nat, plan: Plan)
    requires k == |plans| < |traces| && AllPlanned(plans, traces, compact) && Planned(plan, traces[k].events, compact)
    requires Sized(plan.mapping, plan.sizes)
    ensures AllPlanned(plans + [plan], traces, compact)
  {
    var more := plans + [plan];
    forall j | 0 <= j < |more|
      ensures Planned(more[j], traces[j].events, compact)
    {
      if j < k { assert more[j] == plans[j]; }
    }
  }

  lemma MergedNext(plans: seq<Plan>, traces: seq<Trace>, k: nat, plan: Plan)
    requires k == |plans| < |traces| && AllSized(plans) && Sized(plan.mapping, plan.sizes)
    ensures AllSized(plans + [plan])
    ensures Merged(traces[..k + 1], plans + [plan]) ==
            if Merged(traces[..k], plans).None? || Contribution(traces[k], plan).None? then None
            else Some(Merged(traces[..k], plans).value + Contribution(traces[k], plan).value)
  {
    assert traces[..k + 1] == traces[..k] + [traces[k]];
    MergedGrows(traces[..k], plans, traces[k], plan);
  }

  /** One trace: with `compact`, a first scan decides which lanes are merged. */
  method AddTrace(w: Writer, t: Trace, compact: bool) returns (ok: bool, ghost plan: Plan)
    requires w.Valid()
    modifies w
    ensures w.Valid() && Planned(plan, t.events, compact) && Sized(plan.mapping, plan.sizes)
    ensures ok == Contribution(t, plan).Some?
    ensures ok ==> w.written == old(w.written) + Contribution(t, plan).value
  {
    var compactor: StreamLaneCompactor? := null;
    plan := Plan(map[], map[]);
    if compact { compactor, plan := Scan(t); }
    ok := WriteTrace(w, t, compactor, plan);
  }

  /** `merge_trace_jsons` on decoded traces, in the order given; nothing stands for an error. */
  method MergeTraceJsons(traces: seq<Trace>, compact: bool, dump: Event -> string, retitle: string -> string)
    returns (output: Option<string>, ghost plans: seq<Plan>)
    ensures AllPlanned(plans, traces, compact)
    ensures output.Some? ==> traces != [] && RanksDiffer(traces)
    ensures output.Some? ==> |plans| == |traces| && Merged(traces, plans).Some?
    ensures output.Some? ==> output.value == Whole(traces, plans, dump, retitle)
    ensures output.Some? ==> RendersAll(Sources(traces, plans), Merged(traces, plans).value)
    ensures output.None? ==> traces == [] || !RanksDiffer(traces) || Merged(traces[..|plans|], plans).None?
  {
    plans := [];
    if traces == [] { return None, plans; }
    var w := new Writer(dump, traces[0].prefix);
    var seen: set<nat> := {};
    for k := 0 to |traces|
      invariant fresh(w) && w.Valid() && |plans| == k && AllPlanned(plans, traces, compact)
      invariant Merged(traces[..k], plans) == Some(w.written)
      invariant Seen(seen, traces[..k])
    {
      var t := traces[k];
      SeenGrows(seen, traces, k);
      if t.rank in seen { return None, plans; }
      ghost var plan;
      var ok;
      ok, plan := AddTrace(w, t, compact);
      PlannedGrows(plans, traces, compact, k, plan);
      MergedNext(plans, traces, k, plan);
      plans := plans + [plan];
      seen := seen + {t.rank};
      if !ok { return None, plans; }
    }
    assert traces[..|traces|] == traces;
    MergedRenders(traces, plans);
    output := Some(w.text + ("]" + retitle(traces[0].suffix)));
  }

  /** The whole output: the first trace's prefix, the array, and the first trace's suffix. */
  ghost function Whole(traces: seq<Trace>, plans: seq<Plan>, dump: Event -> string, retitle: string -> string): string
    requires traces != [] && |plans| == |traces| && AllSized(plans) && Merged(traces, plans).Some?
  {
    traces[0].prefix + Body(dump, Merged(traces, plans).value, true) + ("]" + retitle(traces[0].suffix))
  }

  /** The ranks met so far, all different. */
  ghost predicate Seen(seen: set<nat>, traces: seq<Trace>) {
    RanksDiffer(traces) && forall r :: r in seen <==> exists j | 0 <= j < |traces| :: traces[j].rank == r
  }

  lemma SeenGrows(seen: set<nat>, traces: seq<Trace>, k: nat)
    requires k < |traces| && Seen(seen, traces[..k])
    ensures traces[k].rank in seen ==> !RanksDiffer(traces)
    ensures traces[k].rank !in seen ==> Seen(seen + {traces[k].rank}, traces[..k + 1])
  {
    var before, after := traces[..k], traces[..k + 1];
    assert after[k] == traces[k];
    forall j | 0 <= j < k
      ensures after[j] == before[j] == traces[j]
    {
    }
  }

  /** The merged file's array reads back as the ranks' events, remapped and compacted, in order. */
  lemma MergedReadsBack(traces: seq<Trace>, plans: seq<Plan>, decode: Stream.Decoder<Event>, dump: Event -> string,
                        suffix: string)
    requires |plans| == |traces| && AllSized(plans) && Merged(traces, plans).Some?
    requires Stream.SelfDelimiting(decode) && Dumps(decode, dump)
    ensures Stream.ReadAll(decode, Body(dump, Merged(traces, plans).value, true) + ("]" + suffix))
         == Stream.Events(Merged(traces, plans).value, suffix)
    ensures RendersAll(Sources(traces, plans), Merged(traces, plans).value)
    ensures Kinds(Merged(traces, plans).value) == KeptKinds(traces, plans)
  {
    MergedRenders(traces, plans);
    ReadsBack(decode, dump, Merged(traces, plans).value, true, suffix);
  }
}
