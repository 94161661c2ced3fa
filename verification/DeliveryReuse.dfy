/** Using a sequence id again: exactly when the new request is delivered like any other,
    whatever happens next. */
module DeliveryReuse {
  import opened Delivery
  import opened DeliverySafety

  /** On a decode engine, fetching the KV cache of this sequence would show tokens: it was reported
      in the step before, or the last run has left tokens of an earlier use. */
  predicate Stale(s: System, id: Id) { s.decode && (id in s.previous || Get(s.lastStep, id) != []) }

  /** The engine's part: every run that reports the sequence samples for it, unless it ends or is
      newly running; and its id is not used again while it is stale. */
  predicate OrderlyStep(s: System, a: Action, id: Id) {
    && (a.Submit? && a.id == id ==> !Stale(s, id))
    && (a.Step? && !a.fetch ==>
          forall r | r in a.reports && r.id == id :: !Invents(false, r, IsNew(s.decode, s.previous, r)))
  }

  predicate Orderly(s: System, actions: seq<Action>, id: Id)
    requires CanDo(s, actions)
    decreases |actions|
  {
    actions == [] || (OrderlyStep(s, actions[0], id) && Orderly(Next(s, actions[0]), actions[1..], id))
  }

  predicate Goes(s: System, actions: seq<Action>, id: Id) { CanDo(s, actions) && Orderly(s, actions, id) }

  /** Whatever happens from here on, the request is delivered in order. */
  ghost predicate Harmless(s: System, id: Id) {
    forall actions | Goes(s, actions, id) :: Delivered(After(s, actions), id)
  }

  lemma {:induction false} OnwardsOrderly(s: System, a: seq<Action>, b: seq<Action>, id: Id)
    requires Goes(s, a, id) && Goes(After(s, a), b, id)
    ensures Goes(s, a + b, id) && After(s, a + b) == After(After(s, a), b)
    decreases |a|
  {
    if a == [] {
      assert a + b == b;
    } else {
      assert (a + b)[1..] == a[1..] + b;
      OnwardsOrderly(Next(s, a[0]), a[1..], b, id);
    }
  }

  lemma FirstOrderly(s: System, a: Action, rest: seq<Action>, id: Id)
    requires Enabled(s, a) && OrderlyStep(s, a, id) && Goes(Next(s, a), rest, id)
    ensures Goes(s, [a] + rest, id) && After(s, [a] + rest) == After(Next(s, a), rest)
  {
    assert ([a] + rest)[1..] == rest;
  }

  lemma {:induction false} Onwards(s: System, a: seq<Action>, b: seq<Action>)
    requires CanDo(s, a) && CanDo(After(s, a), b)
    ensures CanDo(s, a + b) && After(s, a + b) == After(After(s, a), b)
    decreases |a|
  {
    if a == [] {
      assert a + b == b;
    } else {
      assert (a + b)[1..] == a[1..] + b;
      Onwards(Next(s, a[0]), a[1..], b);
    }
  }

  lemma First(s: System, a: Action, rest: seq<Action>)
    requires Enabled(s, a) && CanDo(Next(s, a), rest)
    ensures CanDo(s, [a] + rest) && After(s, [a] + rest) == After(Next(s, a), rest)
  {
    assert ([a] + rest)[1..] == rest;
  }

  // ---- the channels can always be emptied ----

  /** The oldest message of a sequence can be brought to the engine, and handled there. */
  lemma {:induction false} HandleNext(s: System, id: Id) returns (actions: seq<Action>)
    requires MsgsOf(Up(s), id) != []
    ensures Goes(s, actions, id) && ViewOf(After(s, actions), id) == Handled(ViewOf(s, id), id)
    decreases Deliveries(s)
  {
    var a := if s.requests != [] then Handle else if s.uplink != [] then Arrive else Send;
    DeliveriesShrink(s, a);
    if s.requests != [] { HandleView(s, id); } else { MoveView(s, a, id); }
    if s.requests != [] && s.requests[0].id == id {
      actions := [];
    } else {
      actions := HandleNext(Next(s, a), id);
    }
    FirstOrderly(s, a, actions, id);
    actions := [a] + actions;
  }

  /** How often messages have to be moved until all have been handled. */
  function Deliveries(s: System): nat { |s.requests| + 2 * |s.uplink| + 3 * |s.outbox| }

  lemma DeliveriesShrink(s: System, a: Action)
    requires Up(s) != [] && a == if s.requests != [] then Handle else if s.uplink != [] then Arrive else Send
    ensures Enabled(s, a) && Deliveries(Next(s, a)) < Deliveries(s)
  {
  }

  /** And the oldest packet of a sequence can be brought to the client. */
  lemma {:induction false} ReceiveNext(s: System, id: Id) returns (actions: seq<Action>)
    requires PacketsOf(Down(s), id) != []
    ensures Goes(s, actions, id) && ViewOf(After(s, actions), id) == Received(ViewOf(s, id))
    decreases Moves(s)
  {
    var a := if s.downlink != [] then Receive else Fan;
    MovesShrink(s, a);
    if s.downlink != [] { ReceiveView(s, id); } else { MoveView(s, a, id); }
    if s.downlink != [] && s.downlink[0].id == id {
      actions := [];
    } else {
      actions := ReceiveNext(Next(s, a), id);
    }
    FirstOrderly(s, a, actions, id);
    actions := [a] + actions;
  }

  /** How often packets have to be moved until all have been received. */
  function Moves(s: System): nat { |s.downlink| + 2 * |s.fanning| + 3 * |Flatten(s.results)| + |s.results| }

  lemma MovesShrink(s: System, a: Action)
    requires Down(s) != [] && a == if s.downlink != [] then Receive else Fan
    ensures Enabled(s, a) && Moves(Next(s, a)) < Moves(s)
  {
    if s.downlink != [] {
      PacketKeepsDown(s.(downlink := s.downlink[1..]), s.downlink[0]);
    } else {
      FanShrinks(s);
    }
  }

  lemma FanShrinks(s: System)
    requires s.fanning != [] || Flatten(s.results) != []
    ensures Enabled(s, Fan) && Moves(Fanning(s)) < Moves(s)
  {
  }

  lemma PacketKeepsDown(s: System, p: Packet)
    ensures var t := HandlePacket(s, p); t.downlink == s.downlink && t.fanning == s.fanning && t.results == s.results
  {
  }

  /** How many aborts are ahead of the first request under way. */
  function Ahead(up: seq<Msg>): nat {
    if up == [] || up[0].Add? then 0 else 1 + Ahead(up[1..])
  }

  /** `w` is what `v` becomes when the first request under way, and all before it, have been
      handled. */
  predicate Admitted(v: View, w: View) {
    && Ahead(v.up) < |v.up| && w.up == v.up[Ahead(v.up) + 1..] && w.live && w.waiting && w.sampled == []
    && Untouched(v, w) && TokensUnderWay(w.down) == TokensUnderWay(v.down)
  }

  /** Nothing has happened at the client, and no step of the engine. */
  predicate Untouched(v: View, w: View) {
    && w.active == v.active && w.queue == v.queue && w.seed == v.seed
    && w.decode == v.decode && w.before == v.before && w.leftOver == v.leftOver
  }

  lemma {:induction false} AdmitNext(s: System, id: Id) returns (actions: seq<Action>)
    requires AddUnderWay(ViewOf(s, id))
    ensures Goes(s, actions, id) && Admitted(ViewOf(s, id), ViewOf(After(s, actions), id))
    decreases |ViewOf(s, id).up|
  {
    var v := ViewOf(s, id);
    actions := HandleNext(s, id);
    var t := After(s, actions);
    if v.up[0].Abort? {
      AbortPasses(v, id);
      var more := AdmitNext(t, id);
      AdmittedLater(v, id, ViewOf(After(t, more), id));
      OnwardsOrderly(s, actions, more, id);
      actions := actions + more;
    }
  }

  lemma AbortPasses(v: View, id: Id)
    requires AddUnderWay(v) && v.up[0].Abort?
    ensures var w := Handled(v, id);
      AddUnderWay(w) && w.up == v.up[1..] && Untouched(v, w) && TokensUnderWay(w.down) == TokensUnderWay(v.down)
  {
    UpShrinks(v, Handled(v, id));
    var p := StepOut(id, [], true);
    UnderWayAppends(v.down, [p]);
    assert [p][1..] == [] && TokensUnderWay([p]) == [] + [];
  }

  lemma AdmittedLater(v: View, id: Id, x: View)
    requires AddUnderWay(v) && v.up[0].Abort? && Admitted(Handled(v, id), x)
    ensures Admitted(v, x)
  {
    AbortPasses(v, id);
    assert v.up[1..][Ahead(v.up[1..]) + 1..] == v.up[Ahead(v.up) + 1..];
  }

  // ---- what goes wrong otherwise ----

  /** The new request's queue, before anything has happened to it. */
  lemma FreshQueue(v: View, id: Id, seed: seq<Token>)
    ensures TokensIn(Submitted(v, id, seed).queue) == seed
  {
    if seed != [] {
      assert [Tokens(seed)][1..] == [];
      assert seed + [] == seed;
    }
  }

  lemma TooMuch(s: System, id: Id, extra: seq<Token>)
    requires extra != [] && var v := ViewOf(s, id);
      v.active && v.sampled == [] && TokensIn(v.queue) + TokensUnderWay(v.down) == v.seed + extra
    ensures !Delivered(s, id)
  {
    assert |Get(s.seeds, id) + extra| > |Get(s.seeds, id) + []|;
  }

  /** An empty StepOut that reaches an active request brings it a token, and ends it. */
  lemma ZeroReceived(s: System, id: Id) returns (actions: seq<Action>)
    requires var v := ViewOf(s, id);
      && v.active && v.sampled == [] && TokensIn(v.queue) == v.seed
      && v.down != [] && v.down[0].StepOut? && v.down[0].tokens == []
    ensures Goes(s, actions, id) && !Delivered(After(s, actions), id)
  {
    var v := ViewOf(s, id);
    actions := ReceiveNext(s, id);
    var w := ViewOf(After(s, actions), id);
    TokensInAppends(v.queue, Pushed(v.down[0]).0);
    var items := Pushed(v.down[0]).0;
    assert items[0] == Tokens([0]);
    assert TokensIn(items) == [0] + TokensIn(items[1..]);
    assert |TokensIn(w.queue)| > |v.seed + []|;
  }

  /** A packet of the earlier request is delivered to the later one. */
  lemma StalePacket(s: System, id: Id, seed: seq<Token>) returns (actions: seq<Action>)
    requires PacketsOf(Down(s), id) != []
    ensures Goes(Submitting(s, id, seed), actions, id) && !Delivered(After(Submitting(s, id, seed), actions), id)
  {
    var t, v := Submitting(s, id, seed), ViewOf(s, id);
    SubmitView(s, Submit(id, seed), id);
    FreshQueue(v, id, seed);
    if TokensUnderWay(v.down) != [] {
      actions := [];
      TooMuch(t, id, TokensUnderWay(v.down));
    } else {
      actions := ZeroReceived(t, id);
    }
  }

  /** Tokens of an earlier sequence that is still being worked on when the request is on its
      way are delivered to it. */
  lemma StillLive(t: System, id: Id) returns (actions: seq<Action>)
    requires var w := ViewOf(t, id); w.active && w.live && AddUnderWay(w) && TokensIn(w.queue) == w.seed
    ensures Goes(t, actions, id) && !Delivered(After(t, actions), id)
  {
    var first := SampleOnce(t, id);
    var u := After(t, first);
    var rest := AdmitNext(u, id);
    OnwardsOrderly(t, first, rest, id);
    actions := first + rest;
    TooMuch(After(t, actions), id, TokensUnderWay(ViewOf(u, id).down));
  }

  /** The engine may sample a token of any live sequence; a decode engine fetches its cache first. */
  lemma SampleOnce(t: System, id: Id) returns (actions: seq<Action>)
    requires id in t.live
    ensures Goes(t, actions, id) && var v, w := ViewOf(t, id), ViewOf(After(t, actions), id);
      && w.up == v.up && w.active == v.active && w.queue == v.queue && w.seed == v.seed && TokensUnderWay(w.down) != []
  {
    if t.decode && id in t.waiting {
      var r := Report(id, Get(t.lastStep, id), 0, 0, false, false, [], "");
      var a := StepAlone(t, true, r);
      var more := RunOnce(Next(t, a), id);
      FirstOrderly(t, a, more, id);
      actions := [a] + more;
    } else {
      actions := RunOnce(t, id);
    }
  }

  lemma RunOnce(t: System, id: Id) returns (actions: seq<Action>)
    requires id in t.live && (t.decode ==> id !in t.waiting)
    ensures Goes(t, actions, id) && var v, w := ViewOf(t, id), ViewOf(After(t, actions), id);
      && w.up == v.up && w.active == v.active && w.queue == v.queue && w.seed == v.seed && TokensUnderWay(w.down) != []
  {
    var a := StepAlone(t, false, Report(id, [0], 0, 1, false, false, [], ""));
    FirstOrderly(t, a, [], id);
    actions := [a] + [];
  }

  /** A step that reports one sequence, which goes on. */
  lemma StepAlone(t: System, fetch: bool, r: Report) returns (a: Action)
    requires Reportable(t, fetch, r) && (fetch ==> t.decode) && !r.finished && !r.toBeMigrated
    ensures a == Step(fetch, [r]) && Enabled(t, a) && (fetch || r.tokenIds != [] ==> OrderlyStep(t, a, r.id))
    ensures var v, w := ViewOf(t, r.id), ViewOf(Next(t, a), r.id);
      && w.up == v.up && w.active == v.active && w.queue == v.queue && w.seed == v.seed && w.live && !w.waiting
      && w.decode == v.decode && w.sampled == v.sampled + Sampled(fetch, r)
      && TokensUnderWay(w.down) == TokensUnderWay(v.down) + EventTokenIds(r, IsNew(t.decode, t.previous, r))
  {
    a := Step(fetch, [r]);
    StepReports(t, fetch, [r], r);
    NotedShows(ViewOf(t, r.id), fetch, r);
  }

  lemma NotedShows(v: View, fetch: bool, r: Report)
    requires !r.finished && !r.toBeMigrated
    ensures TokensUnderWay(Noted(v, fetch, r).down) == TokensUnderWay(v.down) + EventTokenIds(r, v.decode && !v.before)
  {
    var e := EventOf(r, v.decode && !v.before);
    UnderWayAppends(v.down, ReportOf(e));
    assert TokensUnderWay(ReportOf(e)) == e.tokens by { if e.tokens != [] { assert ReportOf(e)[1..] == []; } }
  }

  lemma StaleSequence(s: System, id: Id, seed: seq<Token>) returns (actions: seq<Action>)
    requires id in s.live
    ensures Goes(Submitting(s, id, seed), actions, id) && !Delivered(After(Submitting(s, id, seed), actions), id)
  {
    var t, v := Submitting(s, id, seed), ViewOf(s, id);
    SubmitView(s, Submit(id, seed), id);
    FreshQueue(v, id, seed);
    assert ViewOf(t, id).up[|v.up|].Add?;
    actions := StillLive(t, id);
  }

  /** A request of the earlier use that is admitted first is taken for the later one. */
  lemma StaleRequest(s: System, id: Id, seed: seq<Token>) returns (actions: seq<Action>)
    requires AddUnderWay(ViewOf(s, id))
    ensures Goes(Submitting(s, id, seed), actions, id) && !Delivered(After(Submitting(s, id, seed), actions), id)
  {
    var t, v := Submitting(s, id, seed), ViewOf(s, id);
    SubmitView(s, Submit(id, seed), id);
    FreshQueue(v, id, seed);
    var w := ViewOf(t, id);
    AheadOfMore(v.up, Add(id));
    var i :| 0 <= i < |v.up| && v.up[i].Add?;
    assert w.up[i].Add?;
    var first := AdmitNext(t, id);
    var u := After(t, first);
    var up := ViewOf(u, id).up;
    assert up[|up| - 1] == w.up[|v.up|];
    var rest := StillLive(u, id);
    OnwardsOrderly(t, first, rest, id);
    actions := first + rest;
  }

  lemma {:induction false} AheadOfMore(up: seq<Msg>, m: Msg)
    requires exists i | 0 <= i < |up| :: up[i].Add?
    ensures Ahead(up + [m]) == Ahead(up) < |up|
  {
    if !up[0].Add? {
      var i :| 0 <= i < |up| && up[i].Add?;
      assert up[1..][i - 1].Add?;
      assert (up + [m])[1..] == up[1..] + [m];
      AheadOfMore(up[1..], m);
    }
  }

  /** A late abort finds the earlier, handed-off sequence, and its answer ends the request. */
  lemma StaleAbort(s: System, id: Id, seed: seq<Token>) returns (actions: seq<Action>)
    requires var v := ViewOf(s, id); v.held && v.up != [] && v.up[0].Abort? && v.down == []
    ensures Goes(Submitting(s, id, seed), actions, id) && !Delivered(After(Submitting(s, id, seed), actions), id)
  {
    var t, v := Submitting(s, id, seed), ViewOf(s, id);
    SubmitView(s, Submit(id, seed), id);
    FreshQueue(v, id, seed);
    var first := HandleNext(t, id);
    var rest := ZeroReceived(After(t, first), id);
    OnwardsOrderly(t, first, rest, id);
    actions := first + rest;
  }

  /** A stale id, clear otherwise: fetching its KV cache shows tokens nobody has sampled. */
  lemma StaleFetch(s: System, id: Id, seed: seq<Token>) returns (actions: seq<Action>)
    requires Clear(s, id) && Stale(s, id)
    ensures Goes(Submitting(s, id, seed), actions, id) && !Delivered(After(Submitting(s, id, seed), actions), id)
  {
    var t, v := Submitting(s, id, seed), ViewOf(s, id);
    SubmitView(s, Submit(id, seed), id);
    ClearIsClear(s, id);
    FreshQueue(v, id, seed);
    assert ViewOf(t, id).up[|v.up|].Add?;
    var first := AdmitNext(t, id);
    var rest := FetchShows(After(t, first), id);
    OnwardsOrderly(t, first, rest, id);
    actions := first + rest;
  }

  lemma FetchShows(u: System, id: Id) returns (actions: seq<Action>)
    requires Stale(u, id) && var v := ViewOf(u, id);
      && v.active && v.live && v.waiting && v.sampled == [] && TokensIn(v.queue) == v.seed && TokensUnderWay(v.down) == []
    ensures Goes(u, actions, id) && !Delivered(After(u, actions), id)
  {
    var r := Report(id, Get(u.lastStep, id), 0, 1, false, false, [], "");
    var a := StepAlone(u, true, r);
    FirstOrderly(u, a, [], id);
    actions := [a] + [];
    var shown := EventTokenIds(r, IsNew(u.decode, u.previous, r));
    assert [] + shown == shown;
    TooMuch(Next(u, a), id, shown);
  }

  // ---- the exact condition ----

  /** In every state of every run: a request with any id, used before or not, is delivered in
      order whatever happens next, if and only if the id is clear and not stale. */
  lemma ResubmitExactly(decode: bool, run: seq<Action>, id: Id, seed: seq<Token>)
    requires CanDo(Init(decode), run)
    ensures var s := After(Init(decode), run);
            Harmless(Submitting(s, id, seed), id) <==> Clear(s, id) && !Stale(s, id)
  {
    var s := After(Init(decode), run);
    RunKeeps(decode, run, id);
    if Clear(s, id) && !Stale(s, id) {
      ClearIsHarmless(s, id, seed);
    } else if Clear(s, id) {
      var actions := StaleFetch(s, id, seed);
    } else {
      var actions := UnclearBreaks(s, id, seed);
    }
  }

  /** Nothing has been invented, and nothing will be when its KV cache is fetched. */
  ghost predicate Clean(v: View) {
    !v.invented && (v.decode && (AddUnderWay(v) || v.waiting) ==> !v.before && v.leftOver == [])
  }

  lemma ClearIsHarmless(s: System, id: Id, seed: seq<Token>)
    requires Sound(ViewOf(s, id)) && Clear(s, id) && !Stale(s, id)
    ensures Harmless(Submitting(s, id, seed), id)
  {
    var t := Submitting(s, id, seed);
    SubmitClean(s, id, seed);
    SubmitActionKeeps(s, Submit(id, seed), id);
    forall actions | Goes(t, actions, id)
      ensures Delivered(After(t, actions), id)
    {
      StaysClean(t, actions, id);
      StaysSubmitted(t, actions);
      CleanIsDelivered(After(t, actions), id);
    }
  }

  lemma CleanIsDelivered(s: System, id: Id)
    requires Sound(ViewOf(s, id)) && Clean(ViewOf(s, id)) && id in s.submitted
    ensures Delivered(s, id)
  {
  }

  lemma SubmitClean(s: System, id: Id, seed: seq<Token>)
    requires !Stale(s, id)
    ensures Clean(ViewOf(Submitting(s, id, seed), id))
  {
    SubmitView(s, Submit(id, seed), id);
  }

  lemma {:induction false} StaysClean(s: System, actions: seq<Action>, id: Id)
    requires Goes(s, actions, id) && Sound(ViewOf(s, id)) && Clean(ViewOf(s, id))
    ensures Sound(ViewOf(After(s, actions), id)) && Clean(ViewOf(After(s, actions), id))
    decreases |actions|
  {
    if actions != [] {
      ActionKeeps(s, actions[0], id);
      ActionCleans(s, actions[0], id);
      StaysClean(Next(s, actions[0]), actions[1..], id);
    }
  }

  lemma ActionCleans(s: System, a: Action, id: Id)
    requires Enabled(s, a) && OrderlyStep(s, a, id) && Sound(ViewOf(s, id)) && Clean(ViewOf(s, id))
    ensures Clean(ViewOf(Next(s, a), id))
  {
    match a
    case Submit(_, seed) => if a.id == id { SubmitClean(s, id, seed); } else { SubmitView(s, a, id); }
    case ClientAbort(_) => AbortView(s, a, id); AbortCleans(ViewOf(s, id), id);
    case Handle => HandleView(s, id); if s.requests[0].id == id { HandleCleans(ViewOf(s, id), id); }
    case Step(fetch, reports) => StepCleans(s, fetch, reports, id);
    case Receive => ReceiveView(s, id); if s.downlink[0].id == id { ReceiveCleans(ViewOf(s, id)); }
    case Release(_) => ReleaseView(s, a, id); ReleaseCleans(ViewOf(s, id));
    case _ => MoveView(s, a, id);
  }

  lemma AbortCleans(v: View, id: Id)
    requires Clean(v)
    ensures Clean(Aborted(v, id))
  {
    var w := Aborted(v, id);
    if AddUnderWay(w) {
      var i :| 0 <= i < |w.up| && w.up[i].Add?;
      assert v.up[i].Add?;
    }
  }

  lemma HandleCleans(v: View, id: Id)
    requires Clean(v) && v.up != []
    ensures Clean(Handled(v, id))
  {
    UpShrinks(v, Handled(v, id));
    if v.up[0].Add? { assert AddUnderWay(v); }
    assert AddUnderWay(Handled(v, id)) ==> AddUnderWay(v) by {
      if i :| 0 <= i < |v.up[1..]| && v.up[1..][i].Add? { assert v.up[i + 1].Add?; }
    }
  }

  lemma StepCleans(s: System, fetch: bool, reports: seq<Report>, id: Id)
    requires Enabled(s, Step(fetch, reports)) && OrderlyStep(s, Step(fetch, reports), id)
    requires Sound(ViewOf(s, id)) && Clean(ViewOf(s, id))
    ensures Clean(ViewOf(Next(s, Step(fetch, reports)), id))
  {
    if r :| r in reports && r.id == id {
      StepReports(s, fetch, reports, r);
      NotUnderWay(ViewOf(s, id));
      NoteCleans(ViewOf(s, id), fetch, r);
    } else {
      StepPasses(s, fetch, reports, id);
      PassCleans(ViewOf(s, id), fetch);
    }
  }

  lemma NotUnderWay(v: View)
    requires Kept(v) && v.live
    ensures !AddUnderWay(v)
  {
  }

  lemma PassCleans(v: View, fetch: bool)
    requires Clean(v)
    ensures Clean(Passed(v, fetch))
  {
    assert AddUnderWay(Passed(v, fetch)) == AddUnderWay(v);
  }

  lemma NoteCleans(v: View, fetch: bool, r: Report)
    requires Clean(v) && !AddUnderWay(v) && (!r.finished && r.toBeMigrated ==> r.payload != [])
    requires if fetch then v.decode && v.waiting && r.tokenIds == v.leftOver else !Invents(false, r, v.decode && !v.before)
    ensures Clean(Noted(v, fetch, r))
  {
    assert AddUnderWay(Noted(v, fetch, r)) == AddUnderWay(v);
  }

  lemma ReceiveCleans(v: View)
    requires Clean(v) && v.down != []
    ensures Clean(Received(v))
  {
    assert AddUnderWay(Received(v)) == AddUnderWay(v);
  }

  lemma ReleaseCleans(v: View)
    requires Clean(v)
    ensures Clean(v.(held := false))
  {
    assert AddUnderWay(v.(held := false)) == AddUnderWay(v);
  }

  lemma UnclearBreaks(s: System, id: Id, seed: seq<Token>) returns (actions: seq<Action>)
    requires !Clear(s, id)
    ensures Goes(Submitting(s, id, seed), actions, id) && !Delivered(After(Submitting(s, id, seed), actions), id)
  {
    var v := ViewOf(s, id);
    ClearIsClear(s, id);
    if v.down != [] {
      actions := StalePacket(s, id, seed);
    } else if v.live {
      actions := StaleSequence(s, id, seed);
    } else if AddUnderWay(v) {
      actions := StaleRequest(s, id, seed);
    } else {
      assert !v.up[0].Add?;
      actions := StaleAbort(s, id, seed);
    }
  }
}
