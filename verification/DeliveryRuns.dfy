/** Runs from the start that reach what the general statements except: tokens that nobody has
    sampled, and ids that are not clear. */
module DeliveryRuns {
  import opened Delivery
  import opened DeliverySafety
  import opened DeliveryReuse

  // ---- stretches of a run ----

  /** A request that goes all the way to the scheduler. */
  function AdmitRun(id: Id, seed: seq<Token>): seq<Action> { [Submit(id, seed)] + BRING }

  const BRING := [Send, Arrive, Handle]

  function Admitting(s: System, id: Id, seed: seq<Token>): System {
    s.(active := s.active + {id}, queues := s.queues[id := if seed == [] then [] else [Tokens(seed)]],
       seeds := s.seeds[id := seed], produced := s.produced[id := []], sampled := s.sampled[id := []],
       invented := s.invented - {id}, submitted := s.submitted + {id}, aborted := s.aborted - {id},
       live := s.live + {id}, waiting := s.waiting + {id})
  }

  lemma Bring(s: System, m: Msg)
    requires s.requests == [] && s.uplink == [] && s.outbox == [m]
    ensures CanDo(s, BRING) && After(s, BRING) == HandleRequest(s.(outbox := []), m)
  {
    assert [m] + [] == [m];
    BringFirst(s, m, []);
  }

  lemma Admit(s: System, id: Id, seed: seq<Token>)
    requires s.requests == [] && s.uplink == [] && s.outbox == [] && Clear(s, id)
    ensures CanDo(s, AdmitRun(id, seed)) && After(s, AdmitRun(id, seed)) == Admitting(s, id, seed)
  {
    var t := Next(s, Submit(id, seed));
    assert t.outbox == [Add(id)];
    Bring(t, Add(id));
    assert s.produced[id := []][id := []] == s.produced[id := []] && s.sampled[id := []][id := []] == s.sampled[id := []];
    First(s, Submit(id, seed), BRING);
  }

  const DELIVER := [Fan, Fan, Receive]

  lemma Deliver(s: System, p: Packet)
    requires s.fanning == [] && s.downlink == [] && s.results == [Batch([p])]
    ensures CanDo(s, DELIVER) && After(s, DELIVER) == HandlePacket(s.(results := []), p)
  {
    assert [p][1..] == [];
    var fanned := Next(s, Fan);
    assert fanned == s.(results := [], fanning := [p]);
    var sent := Next(fanned, Fan);
    assert sent == s.(results := [], downlink := [p]);
    First(sent, Receive, []);
    First(fanned, Fan, [Receive]);
    First(s, Fan, [Fan] + [Receive]);
    assert DELIVER == [Fan] + ([Fan] + [Receive]);
  }

  lemma DeliverOne(s: System, p: Packet)
    requires s.fanning == [] && s.downlink == [] && s.results == [One(p)]
    ensures CanDo(s, [Fan, Receive]) && After(s, [Fan, Receive]) == HandlePacket(s.(results := []), p)
  {
    assert [p][1..] == [];
    var sent := Next(s, Fan);
    assert sent == s.(results := [], downlink := [p]);
    First(sent, Receive, []);
    First(s, Fan, [Receive]);
    assert [Fan, Receive] == [Fan] + [Receive];
  }

  /** A step that reports one sequence. */
  function Alone(s: System, fetch: bool, r: Report, e: Event): System {
    s.(live := if e.kind.Continues? then s.live else s.live - {r.id},
       held := if e.kind.Migrates? then s.held + {r.id} else s.held, waiting := s.waiting - {r.id},
       lastStep := if fetch then s.lastStep else map[r.id := r.tokenIds], previous := if s.decode then {r.id} else {},
       results := s.results + Emit([e]), produced := s.produced[r.id := Get(s.produced, r.id) + e.tokens],
       sampled := s.sampled[r.id := Get(s.sampled, r.id) + Sampled(fetch, r)],
       invented := if Invents(fetch, r, IsNew(s.decode, s.previous, r)) then s.invented + {r.id} else s.invented)
  }

  lemma StepOne(s: System, fetch: bool, r: Report, e: Event)
    requires Reportable(s, fetch, r) && (fetch ==> s.decode) && e == EventOf(r, IsNew(s.decode, s.previous, r))
    ensures CanDo(s, [Step(fetch, [r])]) && After(s, [Step(fetch, [r])]) == Alone(s, fetch, r, e)
  {
    OneReport(fetch, r, s.decode, s.previous, e);
    SteppingAlone(s, fetch, r, e);
    First(s, Step(fetch, [r]), []);
  }

  lemma SteppingAlone(s: System, fetch: bool, r: Report, e: Event)
    requires e == EventOf(r, IsNew(s.decode, s.previous, r))
    ensures Stepping(s, fetch, [r], [e]) == Alone(s, fetch, r, e)
  {
    OneReport(fetch, r, s.decode, s.previous, e);
    OneGrows(s.produced, e);
    OneGrows(s.sampled, Event(r.id, Sampled(fetch, r), Continues));
    OneKind(e);
    Minus(s.live, s.held, r.id);
    assert s.invented + {} == s.invented;
  }

  lemma Minus(live: set<Id>, held: set<Id>, id: Id)
    ensures live - {} - {} == live && live - {id} - {} == live - {id} && live - {} - {id} == live - {id} && held + {} == held
  {
  }

  lemma OneReport(fetch: bool, r: Report, track: bool, previous: set<Id>, e: Event)
    requires e == EventOf(r, IsNew(track, previous, r))
    ensures EventsIn([r], track, previous) == [e] && SampledIn(fetch, [r]) == [Event(r.id, Sampled(fetch, r), Continues)]
    ensures IdsIn([r]) == {r.id} && LastStep([r]) == map[r.id := r.tokenIds]
    ensures InventedIn(fetch, [r], track, previous) == if Invents(fetch, r, IsNew(track, previous, r)) then {r.id} else {}
  {
    assert [r][1..] == [];
    assert r in [r];
  }

  lemma OneGrows(produced: map<Id, seq<Token>>, e: Event)
    ensures Grow(produced, [e]) == produced[e.id := Get(produced, e.id) + e.tokens]
  {
    assert [e][1..] == [];
  }

  lemma OneKind(e: Event)
    ensures IdsOf([e], Finishes) == if e.kind.Finishes? then {e.id} else {}
    ensures IdsOf([e], Migrates) == if e.kind.Migrates? then {e.id} else {}
  {
    assert e in [e];
  }

  lemma OneShown(e: Event)
    ensures e.kind.Continues? && e.tokens == [] ==> Emit([e]) == []
    ensures !e.kind.Migrates? && e.tokens != [] ==> Emit([e]) == [Batch([StepOut(e.id, e.tokens, e.kind.Finishes?)])]
    ensures e.kind.Migrates? && e.tokens != [] ==> Emit([e]) == [One(Migration(e.id, e.tokens[0]))]
  {
    assert [e][1..] == [];
    assert Silent(e) ==> StepOuts([e]) == [];
    assert !Silent(e) ==> StepOuts([e]) == [StepOut(e.id, e.tokens, e.kind.Finishes?)];
    assert !HandsOff(e) ==> Migrations([e]) == [];
    assert HandsOff(e) ==> Migrations([e]) == [One(Migration(e.id, e.tokens[0]))];
  }

  // ---- tokens that nobody has sampled ----

  /** A chunk of a prompt that is not the last one: nothing is sampled, and the client gets the
      sequence's last token, one of the prompt, as if it had been. */
  lemma ChunkedPrefill(r: Report)
    requires r.tokenIds == [] && r.numTokens > 0 && !r.finished && !r.toBeMigrated
    ensures var run := AdmitRun(r.id, []) + [Step(false, [r])] + DELIVER;
            CanDo(Init(false), run) && var s := After(Init(false), run);
      && Get(s.queues, r.id) == [Tokens([r.lastToken])] && Get(s.sampled, r.id) == []
      && r.id in s.active && r.id in s.invented && !Delivered(s, r.id)
  {
    var id, s := r.id, Init(false);
    Admit(s, id, []);
    var admitted := Admitting(s, id, []);
    var e := Event(id, [r.lastToken], Continues);
    StepOne(admitted, false, r, e);
    OneShown(e);
    var stepped := Alone(admitted, false, r, e);
    Onwards(s, AdmitRun(id, []), [Step(false, [r])]);
    var p := StepOut(id, [r.lastToken], false);
    assert stepped.results == [Batch([p])];
    Deliver(stepped, p);
    Onwards(s, AdmitRun(id, []) + [Step(false, [r])], DELIVER);
    DeliveredInOrder(false, AdmitRun(id, []) + [Step(false, [r])] + DELIVER, id);
  }

  /** A handed-over sequence whose KV cache has been fetched, and nothing shown. */
  lemma Fetched(s: System, r: Report)
    requires s.decode && r.id in s.live && r.id in s.waiting && r.id !in s.previous && Get(s.lastStep, r.id) == []
    requires Get(s.produced, r.id) == [] && Get(s.sampled, r.id) == [] && r.id in s.produced && r.id in s.sampled
    requires r.tokenIds == [] && !r.finished && !r.toBeMigrated
    ensures CanDo(s, [Step(true, [r])])
    ensures After(s, [Step(true, [r])]) == s.(waiting := s.waiting - {r.id}, previous := {r.id})
  {
    var e := Event(r.id, [], Continues);
    StepOne(s, true, r, e);
    OneShown(e);
    assert s.results + [] == s.results;
    assert s.produced[r.id := [] + []] == s.produced && s.sampled[r.id := [] + []] == s.sampled;
  }

  /** And one for which something is. */
  lemma FetchedAgain(s: System, r: Report, shown: seq<Token>)
    requires s.decode && r.id in s.live && r.id in s.waiting && r.id in s.active && Get(s.lastStep, r.id) == r.tokenIds
    requires r.id in s.previous && r.numTokens > 0 && !r.finished && !r.toBeMigrated
    requires shown == if r.tokenIds == [] then [r.lastToken] else r.tokenIds
    requires s.results == [] && s.fanning == [] && s.downlink == [] && Get(s.sampled, r.id) == []
    ensures CanDo(s, [Step(true, [r])] + DELIVER) && var t := After(s, [Step(true, [r])] + DELIVER);
      && Get(t.queues, r.id) == Get(s.queues, r.id) + [Tokens(shown)] && Get(t.sampled, r.id) == []
      && r.id in t.active && r.id in t.invented && t.submitted == s.submitted
  {
    var e, p := Event(r.id, shown, Continues), StepOut(r.id, shown, false);
    StepOne(s, true, r, e);
    OneShown(e);
    var t := Alone(s, true, r, e);
    assert t.results == [Batch([p])];
    Deliver(t, p);
    Onwards(s, [Step(true, [r])], DELIVER);
  }

  /** On a decode engine: a request is aborted right after its KV cache has been fetched, and its
      id is used again at once. The id is clear, but not newly running, so that the prefill token,
      queued when the request was submitted, comes a second time. */
  lemma HandedOverTwice(first: Token, r: Report, again: Report)
    requires r.id == again.id && r.tokenIds == again.tokenIds == [] && again.numTokens > 0
    requires !r.finished && !r.toBeMigrated && !again.finished && !again.toBeMigrated
    ensures var before := AdmitRun(r.id, [first]) + [Step(true, [r])] + [ClientAbort(r.id)] + BRING + [Fan, Receive];
            CanDo(Init(true), before) && Clear(After(Init(true), before), r.id) && Stale(After(Init(true), before), r.id)
    ensures var before := AdmitRun(r.id, [first]) + [Step(true, [r])] + [ClientAbort(r.id)] + BRING + [Fan, Receive];
            var run := before + AdmitRun(r.id, [again.lastToken]) + ([Step(true, [again])] + DELIVER);
            CanDo(Init(true), run) && var s := After(Init(true), run);
      && Get(s.queues, r.id) == [Tokens([again.lastToken]), Tokens([again.lastToken])]
      && Get(s.sampled, r.id) == [] && !Delivered(s, r.id)
  {
    var id, f := r.id, again.lastToken;
    var before := AbortedAfterFetch(first, r);
    var s := After(Init(true), before);
    Admit(s, id, [f]);
    var t := Admitting(s, id, [f]);
    Onwards(Init(true), before, AdmitRun(id, [f]));
    FetchedAgain(t, again, [f]);
    var run := before + AdmitRun(id, [f]) + ([Step(true, [again])] + DELIVER);
    Onwards(Init(true), before + AdmitRun(id, [f]), [Step(true, [again])] + DELIVER);
    assert [Tokens([f])] + [Tokens([f])] == [Tokens([f]), Tokens([f])];
    DeliveredInOrder(true, run, id);
  }

  lemma AbortedAfterFetch(first: Token, r: Report) returns (before: seq<Action>)
    requires r.tokenIds == [] && !r.finished && !r.toBeMigrated
    ensures before == AdmitRun(r.id, [first]) + [Step(true, [r])] + [ClientAbort(r.id)] + BRING + [Fan, Receive]
    ensures CanDo(Init(true), before) && var s := After(Init(true), before);
      && Clear(s, r.id) && Stale(s, r.id) && s.decode && s.live == s.waiting == s.active == {} && s.previous == {r.id}
      && s.lastStep == map[] && s.outbox == s.uplink == s.requests == [] && s.results == [] && s.fanning == s.downlink == []
  {
    var id, s := r.id, Init(true);
    before := FetchedRun(first, r);
    var fetched := After(s, before);
    AbortHeard(fetched, id);
    Onwards(s, before, [ClientAbort(id)] + BRING + [Fan, Receive]);
    assert before + ([ClientAbort(id)] + BRING + [Fan, Receive]) == before + [ClientAbort(id)] + BRING + [Fan, Receive];
    before := before + [ClientAbort(id)] + BRING + [Fan, Receive];
  }

  lemma FetchedRun(first: Token, r: Report) returns (run: seq<Action>)
    requires r.tokenIds == [] && !r.finished && !r.toBeMigrated
    ensures run == AdmitRun(r.id, [first]) + [Step(true, [r])]
    ensures CanDo(Init(true), run)
    ensures After(Init(true), run) == Admitting(Init(true), r.id, [first]).(waiting := {}, previous := {r.id})
  {
    var id, s := r.id, Init(true);
    Admit(s, id, [first]);
    Fetched(Admitting(s, id, [first]), r);
    Onwards(s, AdmitRun(id, [first]), [Step(true, [r])]);
    run := AdmitRun(id, [first]) + [Step(true, [r])];
    assert {id} - {id} == {};
  }

  /** A live sequence is aborted, the abort heard, and its answer dropped. */
  lemma AbortHeard(s: System, id: Id)
    requires s.live == s.active == {id} && s.waiting == {} && s.outbox == [] && s.uplink == [] && s.requests == []
    requires s.results == [] && s.fanning == [] && s.downlink == []
    ensures var more := [ClientAbort(id)] + BRING + [Fan, Receive];
            CanDo(s, more) && var t := After(s, more);
      && t.live == t.waiting == t.active == {} && t.outbox == t.uplink == t.requests == [] && t.results == []
      && t.fanning == t.downlink == [] && t.decode == s.decode && t.previous == s.previous && t.lastStep == s.lastStep
  {
    First(s, ClientAbort(id), []);
    var aborted := Next(s, ClientAbort(id));
    assert aborted.active == {};
    Bring(aborted, Abort(id));
    Onwards(s, [ClientAbort(id)], BRING);
    var answered := After(s, [ClientAbort(id)] + BRING);
    var p := StepOut(id, [], true);
    assert answered.results == [One(p)];
    DeliverOne(answered, p);
    Onwards(s, [ClientAbort(id)] + BRING, [Fan, Receive]);
  }

  /** On a decode engine: an id is used again right after its request has finished. What the last
      run has sampled for the earlier request is reported for the later one. */
  lemma LeftOverShown(first: Token, seed: Token, r: Report, last: Report, again: Report)
    requires r.id == last.id == again.id && r.tokenIds == [] && !r.finished && !r.toBeMigrated
    requires last.tokenIds != [] && last.finished && again.tokenIds == last.tokenIds
    requires again.numTokens > 0 && !again.finished && !again.toBeMigrated
    ensures var before := AdmitRun(r.id, [first]) + [Step(true, [r])] + [Step(false, [last])] + DELIVER;
            var run := before + AdmitRun(r.id, [seed]) + ([Step(true, [again])] + DELIVER);
            CanDo(Init(true), run) && var s := After(Init(true), run);
      && Get(s.queues, r.id) == [Tokens([seed]), Tokens(last.tokenIds)]
      && Get(s.sampled, r.id) == [] && !Delivered(s, r.id)
  {
    var id := r.id;
    var before := FinishedOnce(first, r, last);
    var s := After(Init(true), before);
    Admit(s, id, [seed]);
    var t := Admitting(s, id, [seed]);
    Onwards(Init(true), before, AdmitRun(id, [seed]));
    FetchedAgain(t, again, last.tokenIds);
    var run := before + AdmitRun(id, [seed]) + ([Step(true, [again])] + DELIVER);
    Onwards(Init(true), before + AdmitRun(id, [seed]), [Step(true, [again])] + DELIVER);
    assert [Tokens([seed])] + [Tokens(last.tokenIds)] == [Tokens([seed]), Tokens(last.tokenIds)];
    DeliveredInOrder(true, run, id);
  }

  lemma FinishedOnce(first: Token, r: Report, last: Report) returns (before: seq<Action>)
    requires r.id == last.id && r.tokenIds == [] && !r.finished && !r.toBeMigrated && last.tokenIds != [] && last.finished
    ensures before == AdmitRun(r.id, [first]) + [Step(true, [r])] + [Step(false, [last])] + DELIVER
    ensures CanDo(Init(true), before) && var s := After(Init(true), before);
      && Clear(s, r.id) && s.decode && s.live == s.waiting == s.active == {} && s.previous == {r.id}
      && s.lastStep == map[r.id := last.tokenIds] && s.outbox == s.uplink == s.requests == []
      && s.results == [] && s.fanning == s.downlink == []
  {
    var id, s := r.id, Init(true);
    before := FetchedRun(first, r);
    var fetched := After(s, before);
    var e, p := Event(id, last.tokenIds, Finishes), StepOut(id, last.tokenIds, true);
    StepOne(fetched, false, last, e);
    OneShown(e);
    Onwards(s, before, [Step(false, [last])]);
    before := before + [Step(false, [last])];
    var ran := Alone(fetched, false, last, e);
    assert ran.results == [Batch([p])];
    Deliver(ran, p);
    Onwards(s, before, DELIVER);
    before := before + DELIVER;
  }

  // ---- ids that are not clear ----

  /** Still live: the client has aborted the request, and the engine has not heard of it yet. */
  lemma AbortedEarly(id: Id)
    ensures var run := AdmitRun(id, []) + [ClientAbort(id)];
            CanDo(Init(false), run) && After(Init(false), run) ==
              Admitting(Init(false), id, []).(active := {}, queues := map[id := [Finish, End]], outbox := [Abort(id)],
                                              aborted := {id})
  {
    Admit(Init(false), id, []);
    var s := Admitting(Init(false), id, []);
    assert [] + [Finish, End] == [Finish, End] && [] + [Abort(id)] == [Abort(id)];
    assert s.queues[id := [Finish, End]] == map[id := [Finish, End]];
    First(s, ClientAbort(id), []);
    Onwards(Init(false), AdmitRun(id, []), [ClientAbort(id)]);
  }

  /** A packet under way: the answer to that abort. */
  lemma AbortAnswered(id: Id)
    ensures var run := AdmitRun(id, []) + [ClientAbort(id)] + BRING;
            CanDo(Init(false), run) && var s := After(Init(false), run);
      id !in s.live && id !in s.held && Down(s) == [StepOut(id, [], true)] && Up(s) == []
  {
    AbortedEarly(id);
    var run := AdmitRun(id, []) + [ClientAbort(id)];
    var s := After(Init(false), run);
    Bring(s, Abort(id));
    Onwards(Init(false), run, BRING);
    var p := StepOut(id, [], true);
    assert After(Init(false), run + BRING).results == [One(p)];
    assert [One(p)][1..] == [] && Flatten([One(p)]) == [p] + [] == [p];
    assert [] + [] + [p] == [p];
  }

  /** A request under way: it is aborted before it has left the client. */
  lemma AbortedAtOnce(id: Id)
    ensures var run := [Submit(id, []), ClientAbort(id)];
            CanDo(Init(false), run) && var s := After(Init(false), run);
      id !in s.live && id !in s.held && Down(s) == [] && Up(s) == [Add(id), Abort(id)]
  {
    var s := Next(Init(false), Submit(id, []));
    First(s, ClientAbort(id), []);
    First(Init(false), Submit(id, []), [ClientAbort(id)]);
    assert [Submit(id, []), ClientAbort(id)] == [Submit(id, [])] + [ClientAbort(id)];
  }

  /** A late abort of a handed-off sequence. */
  lemma AbortedLate(r: Report)
    requires !r.finished && r.toBeMigrated && |r.payload| == 1
    ensures var run := AdmitRun(r.id, []) + [Step(false, [r])] + [Fan, Receive] + [ClientAbort(r.id)];
            CanDo(Init(false), run) && var s := After(Init(false), run);
      r.id !in s.live && r.id in s.held && Down(s) == [] && Up(s) == [Abort(r.id)]
  {
    var id, s := r.id, Init(false);
    Admit(s, id, []);
    var admitted := Admitting(s, id, []);
    var e, p := Event(id, r.payload, Migrates), Migration(id, r.payload[0]);
    StepOne(admitted, false, r, e);
    OneShown(e);
    Onwards(s, AdmitRun(id, []), [Step(false, [r])]);
    var run := AdmitRun(id, []) + [Step(false, [r])];
    var stepped := Alone(admitted, false, r, e);
    assert stepped.results == [One(p)];
    DeliverOne(stepped, p);
    Onwards(s, run, [Fan, Receive]);
    run := run + [Fan, Receive];
    var received := After(s, run);
    First(received, ClientAbort(id), []);
    Onwards(s, run, [ClientAbort(id)]);
  }

  /** Resubmitted while live, in full: the answer to the earlier abort reaches the new request
      as a token that nobody has sampled, and ends it. */
  lemma EarlyReuse(id: Id)
    ensures var run := AdmitRun(id, []) + [ClientAbort(id)];
            CanDo(Init(false), run) && var t := Submitting(After(Init(false), run), id, []);
            var more := BRING + [Fan, Receive];
      && CanDo(t, more) && Get(After(t, more).queues, id) == [Tokens([0]), Finish, End]
      && id !in After(t, more).active && Get(After(t, more).sampled, id) == []
  {
    AbortedEarly(id);
    var t := Submitting(After(Init(false), AdmitRun(id, []) + [ClientAbort(id)]), id, []);
    assert t.outbox == [Abort(id)] + [Add(id)];
    AnswerReceived(t, id);
  }

  lemma AnswerReceived(t: System, id: Id)
    requires t.requests == [] && t.uplink == [] && t.outbox == [Abort(id)] + [Add(id)] && id in t.live && id in t.active
    requires t.results == [] && t.fanning == [] && t.downlink == [] && Get(t.queues, id) == []
    ensures var more := BRING + [Fan, Receive];
      && CanDo(t, more) && Get(After(t, more).queues, id) == [Tokens([0]), Finish, End]
      && id !in After(t, more).active && Get(After(t, more).sampled, id) == Get(t.sampled, id)
  {
    BringFirst(t, Abort(id), [Add(id)]);
    var answered := After(t, BRING);
    var p := StepOut(id, [], true);
    assert answered.results == [One(p)];
    DeliverOne(answered, p);
    Onwards(t, BRING, [Fan, Receive]);
    assert [] + ([Tokens([0])] + [Finish, End]) == [Tokens([0]), Finish, End];
  }

  lemma BringFirst(s: System, m: Msg, rest: seq<Msg>)
    requires s.requests == [] && s.uplink == [] && s.outbox == [m] + rest
    ensures CanDo(s, BRING) && After(s, BRING) == HandleRequest(s.(outbox := rest), m)
  {
    assert [m][1..] == [] && ([m] + rest)[1..] == rest;
    var moved := Next(s, Send);
    assert moved == s.(outbox := rest, uplink := [m]);
    var arrived := Next(moved, Arrive);
    assert arrived == s.(outbox := rest, requests := [m]);
    First(arrived, Handle, []);
    First(moved, Arrive, [Handle]);
    First(s, Send, [Arrive] + [Handle]);
    assert BRING == [Send] + ([Arrive] + [Handle]);
  }
}
