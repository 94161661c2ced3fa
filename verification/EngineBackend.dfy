/** The backend loop's side: what one engine step puts on the results queue, and when the
    source engine of a migrated sequence is told to free its KV blocks. */
module EngineBackend {
  import opened Sequences
  import opened Delivery

  /** A FREE for a sequence, sent to the engine it was migrated from. */
  datatype Free = Free(source: string, id: Id)

  /** What the engine does, in order: admissions, with the engine that sent the request if it was
      migrated from one, migrate calls (which fetch the KV cache) and
      run calls that have returned, and FREE messages sent. */
  datatype Effect = Admitted(id: Id, source: string) | Fetched(ids: seq<Id>) | Ran(ids: seq<Id>) | Sent(free: Free)

  function AllSent(frees: seq<Free>): seq<Effect> {
    seq(|frees|, i requires 0 <= i < |frees| => Sent(frees[i]))
  }

  // ---- frees as a function of the reports ----

  function Unmarked(reports: seq<Report>, freed: set<Id>): set<Id> {
    if reports == [] then freed
    else Unmarked(reports[1..], if reports[0].finished then freed - {reports[0].id} else freed)
  }

  function Newcomers(reports: seq<Report>, track: bool, previous: set<Id>): seq<Free> {
    if reports == [] then []
    else
      var rest := Newcomers(reports[1..], track, previous);
      if IsNew(track, previous, reports[0]) then [Free(reports[0].source, reports[0].id)] + rest else rest
  }

  /** Frees to send for the newcomers, and the marks afterwards. */
  function SendFrees(newcomers: seq<Free>, freed: set<Id>): (seq<Free>, set<Id>)
    decreases |newcomers|
  {
    if newcomers == [] then ([], freed)
    else
      var f := newcomers[0];
      if f.source == "" || f.id in freed then SendFrees(newcomers[1..], freed)
      else
        var (sent, marks) := SendFrees(newcomers[1..], freed + {f.id});
        ([f] + sent, marks)
  }

  class BackendService {
    const decode: bool
    var results: seq<Result>
    var freed: set<Id>
    var previousRunning: set<Id>
    var log: seq<Effect>

    constructor (decode: bool)
      ensures this.decode == decode && results == [] && freed == {} && previousRunning == {} && log == []
    {
      this.decode := decode;
      results, freed, previousRunning, log := [], {}, {}, [];
    }

    /** `_handle_add_request` */
    method HandleAdd(id: Id, source: string)
      modifies `log
      ensures log == old(log) + [Admitted(id, source)]
    {
      log := log + [Admitted(id, source)];
    }

    /** `_handle_abort`, given which of the sequences the engine found. */
    method HandleAbort(aborted: seq<Id>)
      modifies this
      ensures results == old(results) + Answers(aborted) && freed == old(freed) - (set id | id in aborted)
      ensures previousRunning == old(previousRunning) && log == old(log)
    {
      ghost var before := results;
      for i := 0 to |aborted|
        invariant results == before + Answers(aborted[..i]) && freed == old(freed) - (set id | id in aborted[..i])
        invariant previousRunning == old(previousRunning) && log == old(log)
      {
        results := results + [One(StepOut(aborted[i], [], true))];
        freed := freed - {aborted[i]};
        AnswersAppend(aborted[..i], aborted[i]);
        assert aborted[..i + 1] == aborted[..i] + [aborted[i]];
      }
      assert aborted[..|aborted|] == aborted;
    }

    /** `step`: run the batch, or, for a prefill batch on a decode engine, fetch its KV cache;
        then emit what the scheduler reports. */
    method RunStep(prefill: bool, batch: seq<Id>, reports: seq<Report>)
      modifies this
      ensures results == old(results) + Emit(EventsIn(reports, decode, old(previousRunning)))
      ensures var (frees, marks) := SendFrees(Newcomers(reports, decode, old(previousRunning)), Unmarked(reports, old(freed)));
              log == old(log) + [Scheduled(decode, prefill, batch)] + AllSent(frees) && freed == marks
      ensures previousRunning == if decode then IdsIn(reports) else {}
    {
      if prefill && decode { log := log + [Fetched(batch)]; } else { log := log + [Ran(batch)]; }
      EmitStep(reports);
    }

    /** The service's queue and running set are those of `s`. */
    ghost predicate Shows(s: System)
      reads this
    {
      decode == s.decode && results == s.results && previousRunning == s.previous
    }

    /** On the object, a step is the step action. */
    method RunStepOn(prefill: bool, batch: seq<Id>, reports: seq<Report>, ghost s: System)
      requires Shows(s) && Enabled(s, Step(prefill && decode, reports))
      modifies this
      ensures Shows(Next(s, Step(prefill && decode, reports)))
    {
      RunStep(prefill, batch, reports);
    }

    /** And handling an ABORT is what the transition system does with it. */
    method HandleAbortOn(id: Id, found: bool, ghost s: System)
      requires Shows(s) && found == (id in s.live + s.held)
      modifies this
      ensures Shows(HandleRequest(s, Abort(id)))
    {
      AnswersAppend([], id);
      assert [] + [id] == [id];
      HandleAbort(if found then [id] else []);
      assert s.results + [] == s.results;
    }

    /** The emit loop after one engine step. */
    method EmitStep(reports: seq<Report>)
      modifies this
      ensures results == old(results) + Emit(EventsIn(reports, decode, old(previousRunning)))
      ensures var (frees, marks) := SendFrees(Newcomers(reports, decode, old(previousRunning)), Unmarked(reports, old(freed)));
              log == old(log) + AllSent(frees) && freed == marks
      ensures previousRunning == if decode then IdsIn(reports) else {}
    {
      ghost var before, events := results, EventsIn(reports, decode, previousRunning);
      var batch, newcomers, running := Gather(reports);
      if batch != [] {
        Associates(before, Migrations(events), [Batch(batch)]);
        results := results + [Batch(batch)];
      } else {
        assert Migrations(events) + [] == Migrations(events);
      }
      SendNewcomers(newcomers);
      previousRunning := running;
    }

    /** The loop over the reports; migration packets are put as they are met. */
    method Gather(reports: seq<Report>) returns (batch: seq<Packet>, newcomers: seq<Free>, running: set<Id>)
      modifies `results, `freed
      ensures var events := EventsIn(reports, decode, previousRunning);
              results == old(results) + Migrations(events) && batch == StepOuts(events)
      ensures newcomers == Newcomers(reports, decode, previousRunning) && freed == Unmarked(reports, old(freed))
      ensures running == if decode then IdsIn(reports) else {}
    {
      batch, newcomers, running := [], [], {};
      ghost var before := results;
      ghost var puts: seq<Result> := [];
      assert before + [] == before && reports[0..] == reports;
      for i := 0 to |reports|
        invariant results == before + puts
        invariant Gathers(Emission([], [], [], old(freed)), reports, Emission(puts, batch, newcomers, freed), i, decode,
                          previousRunning)
        invariant running == if decode then IdsIn(reports[..i]) else {}
      {
        var r := reports[i];
        assert reports[i..][0] == r && reports[i..][1..] == reports[i + 1..];
        IdsGrow(reports, i);
        if decode { running := running + {r.id}; }
        var isNew := IsNew(decode, previousRunning, r);
        if isNew { newcomers := newcomers + [Free(r.source, r.id)]; }
        var put, packets := EmitOne(r, isNew);
        Associates(before, puts, put);
        results, batch, puts := results + put, batch + packets, puts + put;
        if r.finished { freed := freed - {r.id}; }
      }
      assert reports[|reports|..] == [] && reports[..|reports|] == reports;
      EmitAllIs(Emission([], [], [], old(freed)), reports, decode, previousRunning);
    }

    method SendNewcomers(newcomers: seq<Free>)
      modifies `log, `freed
      ensures var (frees, marks) := SendFrees(newcomers, old(freed)); log == old(log) + AllSent(frees) && freed == marks
    {
      ghost var done: seq<Free> := [];
      assert newcomers[0..] == newcomers;
      for i := 0 to |newcomers|
        invariant log == old(log) + AllSent(done)
        invariant SendFrees(newcomers, old(freed)).1 == SendFrees(newcomers[i..], freed).1
        invariant SendFrees(newcomers, old(freed)).0 == done + SendFrees(newcomers[i..], freed).0
      {
        var f := newcomers[i];
        assert newcomers[i..][0] == f && newcomers[i..][1..] == newcomers[i + 1..];
        if f.source != "" && f.id !in freed {
          Associates(done, [f], SendFrees(newcomers[i + 1..], freed + {f.id}).0);
          assert AllSent(done + [f]) == AllSent(done) + [Sent(f)];
          Associates(old(log), AllSent(done), [Sent(f)]);
          log := log + [Sent(f)];
          freed := freed + {f.id};
          done := done + [f];
        }
      }
      assert newcomers[|newcomers|..] == [] && done + [] == done;
    }
  }

  /** What `_run_scheduled_step` does with a batch. */
  function Scheduled(decode: bool, prefill: bool, batch: seq<Id>): Effect {
    if prefill && decode then Fetched(batch) else Ran(batch)
  }

  function Answers(aborted: seq<Id>): seq<Result> {
    if aborted == [] then [] else [One(StepOut(aborted[0], [], true))] + Answers(aborted[1..])
  }

  lemma {:induction false} AnswersAppend(aborted: seq<Id>, id: Id)
    ensures Answers(aborted + [id]) == Answers(aborted) + [One(StepOut(id, [], true))]
  {
    if aborted != [] {
      assert (aborted + [id])[1..] == aborted[1..] + [id];
      AnswersAppend(aborted[1..], id);
    }
  }

  lemma IdsGrow(reports: seq<Report>, i: nat)
    requires i < |reports|
    ensures IdsIn(reports[..i + 1]) == IdsIn(reports[..i]) + {reports[i].id}
  {
    assert reports[..i + 1] == reports[..i] + [reports[i]];
  }

  /** What one report contributes: a migration packet put at once, or an entry of the batch. */
  method EmitOne(r: Report, isNew: bool) returns (puts: seq<Result>, packets: seq<Packet>)
    ensures puts == Migrations([EventOf(r, isNew)]) && packets == StepOuts([EventOf(r, isNew)])
  {
    puts, packets := [], [];
    var tokens := EventTokenIds(r, isNew);
    if r.finished {
      packets := [StepOut(r.id, tokens, true)];
    } else if r.toBeMigrated {
      if r.payload != [] { puts := [One(Migration(r.id, r.payload[0]))]; }
    } else if tokens != [] {
      packets := [StepOut(r.id, tokens, false)];
    }
    assert [EventOf(r, isNew)][1..] == [];
  }

  /** What the emit loop has gathered. */
  datatype Emission = Emission(puts: seq<Result>, batch: seq<Packet>, newcomers: seq<Free>, freed: set<Id>)

  function EmitNext(e: Emission, r: Report, isNew: bool): Emission {
    Emission(e.puts + Migrations([EventOf(r, isNew)]), e.batch + StepOuts([EventOf(r, isNew)]),
             if isNew then e.newcomers + [Free(r.source, r.id)] else e.newcomers,
             if r.finished then e.freed - {r.id} else e.freed)
  }

  function EmitAll(e: Emission, reports: seq<Report>, track: bool, previous: set<Id>): Emission
    decreases |reports|
  {
    if reports == [] then e
    else EmitAll(EmitNext(e, reports[0], IsNew(track, previous, reports[0])), reports[1..], track, previous)
  }

  /** After `i` reports of the loop. */
  ghost predicate Gathers(start: Emission, reports: seq<Report>, now: Emission, i: nat, track: bool, previous: set<Id>) {
    i <= |reports| && EmitAll(start, reports, track, previous) == EmitAll(now, reports[i..], track, previous)
  }

  lemma {:induction false} EmitAllIs(e: Emission, reports: seq<Report>, track: bool, previous: set<Id>)
    ensures EmitAll(e, reports, track, previous) == var events := EventsIn(reports, track, previous);
            Emission(e.puts + Migrations(events), e.batch + StepOuts(events),
                     e.newcomers + Newcomers(reports, track, previous), Unmarked(reports, e.freed))
    decreases |reports|
  {
    if reports == [] {
      assert e.puts + [] == e.puts && e.batch + [] == e.batch && e.newcomers + [] == e.newcomers;
    } else {
      var r, rest := reports[0], reports[1..];
      var isNew := IsNew(track, previous, r);
      EmitAllIs(EmitNext(e, r, isNew), rest, track, previous);
      var more := EventsIn(rest, track, previous);
      EmitFirst(EventOf(r, isNew), more);
      Associates(e.puts, Migrations([EventOf(r, isNew)]), Migrations(more));
      Associates(e.batch, StepOuts([EventOf(r, isNew)]), StepOuts(more));
      Associates(e.newcomers, [Free(r.source, r.id)], Newcomers(rest, track, previous));
    }
  }

  lemma EmitFirst(e: Event, more: seq<Event>)
    ensures Migrations([e] + more) == Migrations([e]) + Migrations(more) && StepOuts([e] + more) == StepOuts([e]) + StepOuts(more)
  {
    assert ([e] + more)[1..] == more && [e][1..] == [];
  }
}
