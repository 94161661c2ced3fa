/** Every run of the delivery protocol keeps its invariant, one sequence at a time. */
module DeliverySafety {
  import opened Sequences
  import opened Delivery

  // ---- the steps as one sequence sees them ----

  function Submitted(v: View, id: Id, seed: seq<Token>): View {
    v.(active := true, queue := if seed == [] then [] else [Tokens(seed)], up := v.up + [Add(id)],
       seed := seed, produced := [], sampled := [], invented := false, submitted := true, aborted := false)
  }

  function Aborted(v: View, id: Id): View {
    v.(active := false, queue := if v.active then v.queue + [Finish, End] else v.queue,
       up := v.up + [Abort(id)], aborted := true)
  }

  function Handled(v: View, id: Id): View
    requires v.up != []
  {
    var w := v.(up := v.up[1..]);
    if v.up[0].Add? then w.(live := true, waiting := true, produced := [], sampled := [], invented := false)
    else if v.live || v.held then
      w.(live := false, held := false, waiting := false, down := v.down + [StepOut(id, [], true)])
    else w
  }

  function Reported(v: View, e: Event): View
    requires e.kind.Migrates? ==> e.tokens != []
  {
    v.(live := e.kind.Continues?, held := v.held || e.kind.Migrates?, produced := v.produced + e.tokens,
       down := v.down + ReportOf(e))
  }

  /** A step that reports the sequence, and one that does not. */
  function Noted(v: View, fetch: bool, r: Report): View
    requires !r.finished && r.toBeMigrated ==> r.payload != []
  {
    var isNew := v.decode && !v.before;
    Reported(v, EventOf(r, isNew)).(waiting := false, before := v.decode, leftOver := if fetch then v.leftOver else r.tokenIds,
      sampled := v.sampled + Sampled(fetch, r), invented := v.invented || Invents(fetch, r, isNew))
  }

  function Passed(v: View, fetch: bool): View {
    v.(before := false, leftOver := if fetch then v.leftOver else [])
  }

  /** The packet, if any, that reports an event. */
  function ReportOf(e: Event): seq<Packet>
    requires e.kind.Migrates? ==> e.tokens != []
  {
    if e.kind.Migrates? then [Migration(e.id, e.tokens[0])]
    else if e.kind.Continues? && e.tokens == [] then []
    else [StepOut(e.id, e.tokens, e.kind.Finishes?)]
  }

  function Received(v: View): View
    requires v.down != []
  {
    var w := v.(down := v.down[1..]);
    if !v.active then w
    else w.(queue := v.queue + Pushed(v.down[0]).0, active := !Pushed(v.down[0]).1)
  }

  // ---- each of them keeps the invariant ----

  lemma {:induction false} TokensInAppends(a: seq<Item>, b: seq<Item>)
    ensures TokensIn(a + b) == TokensIn(a) + TokensIn(b)
  {
    if a == [] {
      assert a + b == b;
    } else {
      assert (a + b)[1..] == a[1..] + b;
      TokensInAppends(a[1..], b);
    }
  }

  lemma {:induction false} UnderWayAppends(a: seq<Packet>, b: seq<Packet>)
    ensures TokensUnderWay(a + b) == TokensUnderWay(a) + TokensUnderWay(b)
  {
    if a == [] {
      assert a + b == b;
    } else {
      assert (a + b)[1..] == a[1..] + b;
      UnderWayAppends(a[1..], b);
    }
  }

  predicate ClearView(v: View) {
    !v.live && v.down == [] && !AddUnderWay(v) && (v.held ==> v.up == [])
  }

  lemma SubmitKeeps(v: View, id: Id, seed: seq<Token>)
    requires Kept(v) && ClearView(v)
    ensures Kept(Submitted(v, id, seed))
  {
    var w := Submitted(v, id, seed);
    assert w.up[|v.up|].Add? && AddUnderWay(w);
    if seed != [] {
      assert w.queue[1..] == [];
      assert TokensIn(w.queue) == seed + [];
    }
  }

  lemma AbortKeeps(v: View, id: Id)
    requires Kept(v)
    ensures Kept(Aborted(v, id))
  {
    var w := Aborted(v, id);
    if v.active { QueueEnds(v.queue); }
    AbortBehind(v, id);
  }

  lemma QueueEnds(queue: seq<Item>)
    ensures TokensIn(queue + [Finish, End]) == TokensIn(queue)
    ensures WellEnded(queue) && !HasEnd(queue) ==> WellEnded(queue + [Finish, End]) && HasEnd(queue + [Finish, End])
  {
    TokensInAppends(queue, [Finish, End]);
    assert TokensIn([Finish, End]) == [] by { assert [Finish, End][1..] == [End] && [End][1..] == []; }
    assert TokensIn(queue) + [] == TokensIn(queue);
  }

  /** Putting an abort behind what is under way. */
  lemma AbortBehind(v: View, id: Id)
    ensures var w := Aborted(v, id);
      && Quits(w) && (AddUnderWay(w) <==> AddUnderWay(v)) && (AddUnderWay(v) ==> w.up[0] == v.up[0])
      && ((forall i, j | 0 <= i < j < |v.up| :: !(v.up[i].Add? && v.up[j].Add?)) ==>
           forall i, j | 0 <= i < j < |w.up| :: !(w.up[i].Add? && w.up[j].Add?))
  {
    var w := Aborted(v, id);
    assert forall i | 0 <= i < |v.up| :: w.up[i] == v.up[i];
    assert w.up[|v.up|].Abort?;
  }

  lemma HandleKeeps(v: View, id: Id)
    requires Kept(v) && v.up != []
    ensures Kept(Handled(v, id))
  {
    var w := Handled(v, id);
    UpShrinks(v, w);
    if v.up[0].Add? { assert AddUnderWay(v); }
  }

  /** Taking the oldest message off. */
  lemma UpShrinks(v: View, w: View)
    requires v.up != [] && w.up == v.up[1..]
    ensures (forall i, j | 0 <= i < j < |v.up| :: !(v.up[i].Add? && v.up[j].Add?)) ==>
              && (forall i, j | 0 <= i < j < |w.up| :: !(w.up[i].Add? && w.up[j].Add?))
              && (v.up[0].Add? ==> !AddUnderWay(w))
    ensures v.up[0].Abort? ==> AddUnderWay(w) == AddUnderWay(v)
    ensures Quits(w) == (Quits(v) && |v.up| > 1)
  {
    assert forall i | 0 <= i < |w.up| :: w.up[i] == v.up[i + 1];
    if v.up[0].Abort? && AddUnderWay(v) {
      var i :| 0 <= i < |v.up| && v.up[i].Add?;
      assert w.up[i - 1].Add?;
    }
  }

  lemma NoteKeeps(v: View, fetch: bool, r: Report)
    requires Kept(v) && v.live && (r.finished ==> EventTokenIds(r, v.decode && !v.before) != [])
    requires !r.finished && r.toBeMigrated ==> |r.payload| == 1
    ensures Kept(Noted(v, fetch, r))
  {
    var w := Reported(v, EventOf(r, v.decode && !v.before));
    ReportKeeps(v, EventOf(r, v.decode && !v.before));
    assert AddUnderWay(Noted(v, fetch, r)) == AddUnderWay(w);
  }

  lemma ReportKeeps(v: View, e: Event)
    requires Kept(v) && v.live && (e.kind.Finishes? ==> e.tokens != []) && (e.kind.Migrates? ==> |e.tokens| == 1)
    ensures Kept(Reported(v, e))
  {
    var w := Reported(v, e);
    var more := ReportOf(e);
    UnderWayAppends(v.down, more);
    assert TokensUnderWay(more) == e.tokens by { if more != [] { assert more[1..] == []; } }
    Balance(TokensIn(v.queue), TokensUnderWay(v.down), v.seed, v.produced, e.tokens);
    assert AddUnderWay(w) == AddUnderWay(v);
  }

  lemma Balance(queue: seq<Token>, down: seq<Token>, seed: seq<Token>, produced: seq<Token>, more: seq<Token>)
    ensures queue + down == seed + produced ==> queue + (down + more) == seed + (produced + more)
    ensures queue <= seed + produced ==> queue <= seed + (produced + more)
  {
    assert queue + (down + more) == queue + down + more && seed + (produced + more) == seed + produced + more;
  }

  lemma ReceiveKeeps(v: View)
    requires Kept(v) && v.down != []
    ensures Kept(Received(v))
  {
    var w := Received(v);
    assert AddUnderWay(w) == AddUnderWay(v);
    if v.active {
      ItemsOfPacket(v.down[0]);
      ReceiveBalances(v.queue, v.down);
      QueueGrows(v.queue, v.down[0]);
      var rest := v.down[1..];
      assert forall i | 0 <= i < |rest| :: rest[i] == v.down[i + 1];
      if Ends(v.down[0]) { assert rest == []; }
    }
  }

  lemma QueueGrows(queue: seq<Item>, p: Packet)
    requires WellEnded(queue) && !HasEnd(queue)
    ensures WellEnded(queue + Pushed(p).0) && (HasEnd(queue + Pushed(p).0) <==> Pushed(p).1)
  {
  }

  /** What leaves the channel arrives in the queue. */
  lemma ReceiveBalances(queue: seq<Item>, down: seq<Packet>)
    requires down != [] && (down[0].StepOut? ==> down[0].tokens != [])
    ensures TokensIn(queue + Pushed(down[0]).0) + TokensUnderWay(down[1..]) == TokensIn(queue) + TokensUnderWay(down)
  {
    var p, rest := down[0], down[1..];
    var items := Pushed(p).0;
    TokensInAppends(queue, items);
    ItemsOfPacket(p);
    UnderWayAppends([p], rest);
    assert [p] + rest == down;
    Associates(TokensIn(queue), TokensIn(items), TokensUnderWay(rest));
  }

  lemma ItemsOfPacket(p: Packet)
    requires p.StepOut? ==> p.tokens != []
    ensures TokensIn(Pushed(p).0) == TokensUnderWay([p])
    ensures Pushed(p).1 == Ends(p)
  {
    assert [p][1..] == [];
    var items := Pushed(p).0;
    assert items[1..] == [] || items[1..] == [End] || items[1..] == [Finish, End];
    assert [End][1..] == [] && [Finish, End][1..] == [End];
    assert TokensIn([End]) == [] && TokensIn([Finish, End]) == [];
  }

  lemma ReleaseKeeps(v: View)
    requires Kept(v)
    ensures Kept(v.(held := false)) && (Honest(v) ==> Honest(v.(held := false)))
  {
    assert AddUnderWay(v.(held := false)) == AddUnderWay(v);
  }

  lemma PassKeeps(v: View, fetch: bool)
    requires Kept(v)
    ensures Kept(Passed(v, fetch))
  {
    assert AddUnderWay(Passed(v, fetch)) == AddUnderWay(v);
  }

  lemma PassHonest(v: View, fetch: bool)
    requires Honest(v)
    ensures Honest(Passed(v, fetch))
  {
    assert AddUnderWay(Passed(v, fetch)) == AddUnderWay(v);
  }

  // ---- and what is shown stays honest ----

  lemma SubmitHonest(v: View, id: Id, seed: seq<Token>)
    requires ClearView(v)
    ensures Honest(Submitted(v, id, seed))
  {
  }

  lemma AbortHonest(v: View, id: Id)
    requires Honest(v)
    ensures Honest(Aborted(v, id))
  {
    AbortBehind(v, id);
  }

  lemma HandleHonest(v: View, id: Id)
    requires Kept(v) && Honest(v) && v.up != []
    ensures Honest(Handled(v, id))
  {
    UpShrinks(v, Handled(v, id));
    if v.up[0].Add? { assert AddUnderWay(v); }
  }

  /** Invented tokens are tokens too many. */
  lemma InventsMore(fetch: bool, r: Report, isNew: bool)
    ensures var shown, sampled := EventOf(r, isNew).tokens, Sampled(fetch, r);
      if Invents(fetch, r, isNew) then |sampled| < |shown| else (fetch ==> !r.toBeMigrated) ==> shown == sampled
  {
  }

  lemma NoteHonest(v: View, fetch: bool, r: Report)
    requires Kept(v) && Honest(v) && v.live && (fetch ==> !r.finished && !r.toBeMigrated)
    requires !r.finished && r.toBeMigrated ==> |r.payload| == 1
    ensures Honest(Noted(v, fetch, r))
  {
    var w := Noted(v, fetch, r);
    InventsMore(fetch, r, v.decode && !v.before);
    assert AddUnderWay(w) == AddUnderWay(v);
    NoteHandsOver(v, fetch, r);
  }

  lemma NoteHandsOver(v: View, fetch: bool, r: Report)
    requires NoHandOff(v.down, v.queue) && (fetch ==> !r.finished && !r.toBeMigrated)
    requires !r.finished && r.toBeMigrated ==> |r.payload| == 1
    ensures var w := Noted(v, fetch, r);
      HandsOver(w.down, w.queue, w.sampled) && (w.live ==> NoHandOff(w.down, w.queue))
  {
    var e := EventOf(r, v.decode && !v.before);
    assert forall p | p in ReportOf(e) && p.Migration? :: e.kind.Migrates? && p.first == r.payload[0];
  }

  lemma ReceiveHonest(v: View)
    requires Honest(v) && v.down != []
    ensures Honest(Received(v))
  {
    assert AddUnderWay(Received(v)) == AddUnderWay(v);
    HandsOverLater(v.down, v.queue, v.sampled);
  }

  lemma HandsOverLater(down: seq<Packet>, queue: seq<Item>, sampled: seq<Token>)
    requires down != []
    ensures HandsOver(down, queue, sampled) ==>
              HandsOver(down[1..], queue, sampled) && HandsOver(down[1..], queue + Pushed(down[0]).0, sampled)
    ensures NoHandOff(down, queue) ==> NoHandOff(down[1..], queue) && NoHandOff(down[1..], queue + Pushed(down[0]).0)
  {
    var p := down[0];
    assert p in down && forall q | q in down[1..] :: q in down;
    PushesMigrated(p);
  }

  lemma PushesMigrated(p: Packet)
    ensures forall x | x in Pushed(p).0 && x.Migrated? :: p.Migration? && x.first == p.first
  {
  }

  // ---- the system's steps are these, or change nothing for the sequence ----

  lemma {:induction false} MsgsAppend(a: seq<Msg>, b: seq<Msg>, id: Id)
    ensures MsgsOf(a + b, id) == MsgsOf(a, id) + MsgsOf(b, id)
  {
    if a == [] {
      assert a + b == b;
    } else {
      assert (a + b)[1..] == a[1..] + b;
      MsgsAppend(a[1..], b, id);
    }
  }

  lemma {:induction false} PacketsAppend(a: seq<Packet>, b: seq<Packet>, id: Id)
    ensures PacketsOf(a + b, id) == PacketsOf(a, id) + PacketsOf(b, id)
  {
    if a == [] {
      assert a + b == b;
    } else {
      assert (a + b)[1..] == a[1..] + b;
      PacketsAppend(a[1..], b, id);
    }
  }

  lemma {:induction false} FlattenAppends(a: seq<Result>, b: seq<Result>)
    ensures Flatten(a + b) == Flatten(a) + Flatten(b)
  {
    if a == [] {
      assert a + b == b;
    } else {
      assert (a + b)[1..] == a[1..] + b;
      FlattenAppends(a[1..], b);
    }
  }

  lemma {:induction false} NoMsgs(msgs: seq<Msg>, id: Id)
    requires forall m | m in msgs :: m.id != id
    ensures MsgsOf(msgs, id) == []
  {
    if msgs != [] { NoMsgs(msgs[1..], id); }
  }

  lemma {:induction false} NoPackets(packets: seq<Packet>, id: Id)
    requires forall p | p in packets :: p.id != id
    ensures PacketsOf(packets, id) == []
  {
    if packets != [] { NoPackets(packets[1..], id); }
  }

  lemma OneMsg(m: Msg, id: Id)
    ensures MsgsOf([m], id) == if m.id == id then [m] else []
  {
    assert [m][1..] == [];
  }

  lemma OnePacket(p: Packet, id: Id)
    ensures PacketsOf([p], id) == if p.id == id then [p] else []
  {
    assert [p][1..] == [];
  }

  lemma {:induction false} MsgsIn(msgs: seq<Msg>, m: Msg)
    ensures forall id :: m in MsgsOf(msgs, id) <==> m in msgs && m.id == id
  {
    if msgs != [] {
      MsgsIn(msgs[1..], m);
      assert msgs == [msgs[0]] + msgs[1..];
    }
  }

  /** The condition for a resubmission, seen by the sequence alone. */
  lemma ClearIsClear(s: System, id: Id)
    ensures Clear(s, id) <==> ClearView(ViewOf(s, id))
  {
    var v := ViewOf(s, id);
    forall m
      ensures m in v.up <==> m in Up(s) && m.id == id
    {
      MsgsIn(Up(s), m);
    }
    if Clear(s, id) {
      NoPackets(Down(s), id);
      if v.up != [] { assert v.up[0] in v.up; }
    }
    if ClearView(v) {
      forall p | p in Down(s)
        ensures p.id != id
      {
        PacketSeen(Down(s), p);
      }
    }
  }

  lemma JoinHead<T>(a: seq<T>, b: seq<T>, c: seq<T>)
    requires a != []
    ensures Join(a, b, c) == [a[0]] + Join(a[1..], b, c)
  {
  }

  lemma JoinTail<T>(a: seq<T>, b: seq<T>, c: seq<T>, d: seq<T>)
    ensures Join(a, b, c + d) == Join(a, b, c) + d
  {
  }

  lemma JoinMoves<T>(a: seq<T>, b: seq<T>, c: seq<T>)
    ensures b != [] ==> Join(a + [b[0]], b[1..], c) == Join(a, b, c)
    ensures c != [] ==> Join(a, b + [c[0]], c[1..]) == Join(a, b, c)
  {
    if b != [] { assert a + [b[0]] + b[1..] == a + b; }
    if c != [] { assert b + [c[0]] + c[1..] == b + c; assert a + (b + [c[0]] + c[1..]) == a + (b + [c[0]]) + c[1..]; }
  }

  lemma JoinSpreads<T>(a: seq<T>, x: seq<T>, c: seq<T>)
    ensures Join(a, [], x + c) == Join(a, x, c) == Join(a + x, [], c)
  {
  }

  lemma MsgsHead(msgs: seq<Msg>, rest: seq<Msg>, id: Id)
    requires msgs != [] && msgs == [msgs[0]] + rest
    ensures var of := MsgsOf(msgs, id);
            if msgs[0].id == id then of != [] && of[0] == msgs[0] && of[1..] == MsgsOf(rest, id) else of == MsgsOf(rest, id)
  {
    assert msgs[1..] == rest;
  }

  lemma PacketsHead(packets: seq<Packet>, rest: seq<Packet>, id: Id)
    requires packets != [] && packets == [packets[0]] + rest
    ensures var of := PacketsOf(packets, id);
            if packets[0].id == id then of != [] && of[0] == packets[0] && of[1..] == PacketsOf(rest, id)
            else of == PacketsOf(rest, id)
  {
    assert packets[1..] == rest;
  }

  lemma MsgsTail(msgs: seq<Msg>, m: Msg, id: Id)
    ensures MsgsOf(msgs + [m], id) == if m.id == id then MsgsOf(msgs, id) + [m] else MsgsOf(msgs, id)
  {
    MsgsAppend(msgs, [m], id);
    OneMsg(m, id);
  }

  lemma ResultsGrow(s: System, more: seq<Result>, id: Id)
    ensures PacketsOf(Join(s.downlink, s.fanning, Flatten(s.results + more)), id)
         == PacketsOf(Down(s), id) + PacketsOf(Flatten(more), id)
  {
    FlattenAppends(s.results, more);
    JoinTail(s.downlink, s.fanning, Flatten(s.results), Flatten(more));
    PacketsAppend(Down(s), Flatten(more), id);
  }

  lemma SubmitView(s: System, a: Action, id: Id)
    requires a.Submit?
    ensures ViewOf(Submitting(s, a.id, a.seed), id) == if a.id == id then Submitted(ViewOf(s, id), id, a.seed) else ViewOf(s, id)
  {
    JoinTail(s.requests, s.uplink, s.outbox, [Add(a.id)]);
    MsgsTail(Up(s), Add(a.id), id);
  }

  lemma AbortView(s: System, a: Action, id: Id)
    requires a.ClientAbort?
    ensures ViewOf(Next(s, a), id) == if a.id == id then Aborted(ViewOf(s, id), id) else ViewOf(s, id)
  {
    JoinTail(s.requests, s.uplink, s.outbox, [Abort(a.id)]);
    MsgsTail(Up(s), Abort(a.id), id);
  }

  /** Moving a message or a packet along its channel changes no view. */
  lemma MoveView(s: System, a: Action, id: Id)
    requires Enabled(s, a) && (a.Send? || a.Arrive? || a.Fan?)
    ensures ViewOf(Next(s, a), id) == ViewOf(s, id)
  {
    if a.Fan? { FanView(s, id); } else { UpMoves(s, a); }
  }

  lemma UpMoves(s: System, a: Action)
    requires Enabled(s, a) && (a.Send? || a.Arrive?)
    ensures Up(Next(s, a)) == Up(s)
  {
    JoinMoves(s.requests, s.uplink, s.outbox);
  }

  lemma FanView(s: System, id: Id)
    requires Enabled(s, Fan)
    ensures ViewOf(Next(s, Fan), id) == ViewOf(s, id)
  {
    var t := Next(s, Fan);
    DownMoves(s);
    OnlyDown(s);
    SameView(s, t.results, t.fanning, t.downlink, id);
  }

  lemma OnlyDown(s: System)
    requires Enabled(s, Fan)
    ensures var t := Next(s, Fan); t == s.(results := t.results, fanning := t.fanning, downlink := t.downlink)
  {
  }

  lemma SameView(s: System, results: seq<Result>, fanning: seq<Packet>, downlink: seq<Packet>, id: Id)
    ensures var t := s.(results := results, fanning := fanning, downlink := downlink);
            Down(t) == Down(s) ==> ViewOf(t, id) == ViewOf(s, id)
  {
  }

  lemma DownMoves(s: System)
    requires Enabled(s, Fan)
    ensures Down(Next(s, Fan)) == Down(s)
  {
    JoinMoves(s.downlink, s.fanning, Flatten(s.results));
    if s.fanning == [] {
      match s.results[0]
      case One(p) => JoinSpreads(s.downlink, [p], Flatten(s.results[1..]));
      case Batch(ps) => JoinSpreads(s.downlink, ps, Flatten(s.results[1..]));
    }
  }

  lemma HandleView(s: System, id: Id)
    requires s.requests != []
    ensures var v := ViewOf(s, id);
            if s.requests[0].id == id then v.up != [] && ViewOf(Next(s, Handle), id) == Handled(v, id)
            else ViewOf(Next(s, Handle), id) == v
  {
    var m, t := s.requests[0], s.(requests := s.requests[1..]);
    JoinHead(s.requests, s.uplink, s.outbox);
    MsgsHead(Up(s), Up(t), id);
    RequestView(t, m, id);
  }

  /** Handling a request, the requests queue aside. */
  lemma RequestView(s: System, m: Msg, id: Id)
    ensures var v, w := ViewOf(s, id), ViewOf(HandleRequest(s, m), id);
            w == if m.id == id then Handled(v.(up := [m] + v.up), id) else v
  {
    HandledIs(ViewOf(s, id), m, id);
    if m.Add? { AddView(s, m, id); } else { AbortedView(s, m, id); }
  }

  lemma HandledIs(v: View, m: Msg, id: Id)
    ensures Handled(v.(up := [m] + v.up), id) ==
            if m.Add? then v.(live := true, waiting := true, produced := [], sampled := [], invented := false)
            else if v.live || v.held then
              v.(live := false, held := false, waiting := false, down := v.down + [StepOut(id, [], true)])
            else v
  {
    assert ([m] + v.up)[1..] == v.up;
  }

  lemma AddView(s: System, m: Msg, id: Id)
    requires m.Add?
    ensures var v := ViewOf(s, id);
            ViewOf(HandleRequest(s, m), id) ==
              if m.id == id then v.(live := true, waiting := true, produced := [], sampled := [], invented := false) else v
  {
  }

  lemma AbortedView(s: System, m: Msg, id: Id)
    requires m.Abort?
    ensures var v := ViewOf(s, id);
            ViewOf(HandleRequest(s, m), id) ==
              if m.id == id && (v.live || v.held) then
                v.(live := false, held := false, waiting := false, down := v.down + [StepOut(id, [], true)])
              else v
  {
    if m.id in s.live + s.held { AnswerView(s, m.id, id); }
  }

  /** The empty StepOut that answers an abort. */
  lemma AnswerView(s: System, aborted: Id, id: Id)
    ensures PacketsOf(Join(s.downlink, s.fanning, Flatten(s.results + [One(StepOut(aborted, [], true))])), id)
         == if aborted == id then PacketsOf(Down(s), id) + [StepOut(id, [], true)] else PacketsOf(Down(s), id)
  {
    var p := StepOut(aborted, [], true);
    ResultsGrow(s, [One(p)], id);
    assert [One(p)][1..] == [];
    assert Flatten([One(p)]) == [p] + Flatten([]) == [p];
    OnePacket(p, id);
  }

  lemma ReceiveView(s: System, id: Id)
    requires s.downlink != []
    ensures var v := ViewOf(s, id);
            if s.downlink[0].id == id then v.down != [] && ViewOf(Next(s, Receive), id) == Received(v)
            else ViewOf(Next(s, Receive), id) == v
  {
    var p, t := s.downlink[0], s.(downlink := s.downlink[1..]);
    JoinHead(s.downlink, s.fanning, Flatten(s.results));
    PacketsHead(Down(s), Down(t), id);
    PacketView(t, p, id);
  }

  /** Handling a packet, the channel aside. */
  lemma PacketView(s: System, p: Packet, id: Id)
    ensures var v, w := ViewOf(s, id), ViewOf(HandlePacket(s, p), id);
            w == if p.id == id then Received(v.(down := [p] + v.down)) else v
  {
    ReceivedIs(ViewOf(s, id), p);
    PushedView(s, p, id);
  }

  lemma ReceivedIs(v: View, p: Packet)
    ensures Received(v.(down := [p] + v.down)) ==
            if v.active then v.(queue := v.queue + Pushed(p).0, active := !Pushed(p).1) else v
  {
    assert ([p] + v.down)[1..] == v.down;
  }

  lemma PushedView(s: System, p: Packet, id: Id)
    ensures var v := ViewOf(s, id);
            ViewOf(HandlePacket(s, p), id) ==
              if p.id == id && v.active then v.(queue := v.queue + Pushed(p).0, active := !Pushed(p).1) else v
  {
  }

  lemma ReleaseView(s: System, a: Action, id: Id)
    requires a.Release?
    ensures ViewOf(Next(s, a), id) == if a.id == id then ViewOf(s, id).(held := false) else ViewOf(s, id)
  {
  }

  // ---- engine steps ----

  function EventsOf(events: seq<Event>, id: Id): seq<Event> {
    if events == [] then []
    else if events[0].id == id then [events[0]] + EventsOf(events[1..], id)
    else EventsOf(events[1..], id)
  }

  function TokensOf(events: seq<Event>): seq<Token> {
    if events == [] then [] else events[0].tokens + TokensOf(events[1..])
  }

  lemma {:induction false} MigrationsOf(events: seq<Event>, id: Id)
    ensures PacketsOf(Flatten(Migrations(events)), id) == Flatten(Migrations(EventsOf(events, id)))
  {
    if events != [] {
      var e, rest := events[0], events[1..];
      MigrationsOf(rest, id);
      assert ([e] + EventsOf(rest, id))[1..] == EventsOf(rest, id);
      if HandsOff(e) {
        var p := Migration(e.id, e.tokens[0]);
        FlattenFirst(p, Migrations(rest));
        FlattenFirst(p, Migrations(EventsOf(rest, id)));
        PacketsHead([p] + Flatten(Migrations(rest)), Flatten(Migrations(rest)), id);
      }
    }
  }

  lemma FlattenFirst(p: Packet, rest: seq<Result>)
    ensures Flatten([One(p)] + rest) == [p] + Flatten(rest)
  {
    assert ([One(p)] + rest)[1..] == rest;
  }

  lemma {:induction false} StepOutsOf(events: seq<Event>, id: Id)
    ensures PacketsOf(StepOuts(events), id) == StepOuts(EventsOf(events, id))
  {
    if events != [] {
      var e, rest := events[0], events[1..];
      StepOutsOf(rest, id);
      assert ([e] + EventsOf(rest, id))[1..] == EventsOf(rest, id);
      if !Silent(e) {
        PacketsHead([StepOut(e.id, e.tokens, e.kind.Finishes?)] + StepOuts(rest), StepOuts(rest), id);
      }
    }
  }

  lemma {:induction false} GrowOf(produced: map<Id, seq<Token>>, events: seq<Event>, id: Id)
    ensures Get(Grow(produced, events), id) == Get(produced, id) + TokensOf(EventsOf(events, id))
    decreases |events|
  {
    if events != [] {
      var e, rest := events[0], events[1..];
      GrowOf(produced[e.id := Get(produced, e.id) + e.tokens], rest, id);
      assert ([e] + EventsOf(rest, id))[1..] == EventsOf(rest, id);
      Associates(Get(produced, id), e.tokens, TokensOf(EventsOf(rest, id)));
    }
  }

  /** Distinct sequences: at most one event each. */
  lemma {:induction false} OneEventEach(events: seq<Event>, id: Id)
    requires forall i, j | 0 <= i < j < |events| :: events[i].id != events[j].id
    ensures forall e | e in events && e.id == id :: EventsOf(events, id) == [e]
    ensures (forall e | e in events :: e.id != id) ==> EventsOf(events, id) == []
  {
    if events != [] {
      var rest := events[1..];
      OneEventEach(rest, id);
      if events[0].id == id {
        assert forall e | e in rest :: e.id != id;
      }
      forall e | e in events && e.id == id
        ensures EventsOf(events, id) == [e]
      {
        if e != events[0] { assert e in rest; }
      }
    }
  }

  lemma EmitOf(events: seq<Event>, id: Id)
    ensures PacketsOf(Flatten(Emit(events)), id)
         == Flatten(Migrations(EventsOf(events, id))) + StepOuts(EventsOf(events, id))
  {
    var batch := if StepOuts(events) == [] then [] else [Batch(StepOuts(events))];
    FlattenAppends(Migrations(events), batch);
    assert Flatten(batch) == StepOuts(events) by {
      if batch != [] { assert batch[1..] == []; assert StepOuts(events) + [] == StepOuts(events); }
    }
    PacketsAppend(Flatten(Migrations(events)), StepOuts(events), id);
    MigrationsOf(events, id);
    StepOutsOf(events, id);
  }

  lemma ReportOfOne(e: Event)
    requires e.kind.Migrates? ==> e.tokens != []
    ensures Flatten(Migrations([e])) + StepOuts([e]) == ReportOf(e) && TokensOf([e]) == e.tokens
  {
    assert [e][1..] == [];
    if e.kind.Migrates? {
      var p := Migration(e.id, e.tokens[0]);
      assert [One(p)][1..] == [] && Flatten([One(p)]) == [p];
    }
  }

  // ---- reports and their events ----

  lemma {:induction false} EventsInAre(reports: seq<Report>, track: bool, previous: set<Id>, fetch: bool)
    ensures |EventsIn(reports, track, previous)| == |SampledIn(fetch, reports)| == |reports|
    ensures forall i | 0 <= i < |reports| ::
      && EventsIn(reports, track, previous)[i] == EventOf(reports[i], IsNew(track, previous, reports[i]))
      && SampledIn(fetch, reports)[i] == Event(reports[i].id, Sampled(fetch, reports[i]), Continues)
  {
    if reports != [] { EventsInAre(reports[1..], track, previous, fetch); }
  }

  lemma {:induction false} LastStepOf(reports: seq<Report>, id: Id)
    requires forall i, j | 0 <= i < j < |reports| :: reports[i].id != reports[j].id
    ensures forall r | r in reports && r.id == id :: Get(LastStep(reports), id) == r.tokenIds
    ensures id !in IdsIn(reports) ==> Get(LastStep(reports), id) == []
  {
    if reports != [] {
      var rest := reports[1..];
      LastStepOf(rest, id);
      assert id !in IdsIn(reports) ==> reports[0].id != id && id !in IdsIn(rest);
      forall r | r in reports && r.id == id
        ensures Get(LastStep(reports), id) == r.tokenIds
      {
        if reports[0].id == id { OnlyReport(reports, r, 0); }
      }
    }
  }

  lemma OnlyReport(reports: seq<Report>, r: Report, i: nat)
    requires forall i, j | 0 <= i < j < |reports| :: reports[i].id != reports[j].id
    requires r in reports && i < |reports| && reports[i].id == r.id
    ensures reports[i] == r
  {
    var j :| 0 <= j < |reports| && reports[j] == r;
  }

  /** A sequence has one event, and one sample, or none. */
  lemma OwnEvents(reports: seq<Report>, track: bool, previous: set<Id>, fetch: bool, r: Report)
    requires (forall i, j | 0 <= i < j < |reports| :: reports[i].id != reports[j].id) && r in reports
    ensures var e, events := EventOf(r, IsNew(track, previous, r)), EventsIn(reports, track, previous);
      && EventsOf(events, r.id) == [e] && (r.id in IdsOf(events, Finishes) <==> e.kind.Finishes?)
      && (r.id in IdsOf(events, Migrates) <==> e.kind.Migrates?)
    ensures EventsOf(SampledIn(fetch, reports), r.id) == [Event(r.id, Sampled(fetch, r), Continues)]
  {
    var events, samples := EventsIn(reports, track, previous), SampledIn(fetch, reports);
    EventsInAre(reports, track, previous, fetch);
    var k :| 0 <= k < |reports| && reports[k] == r;
    OnlyEvent(events, k);
    OnlyEvent(samples, k);
  }

  lemma OnlyEvent(events: seq<Event>, k: nat)
    requires (forall i, j | 0 <= i < j < |events| :: events[i].id != events[j].id) && k < |events|
    ensures var e := events[k];
      && EventsOf(events, e.id) == [e] && (e.id in IdsOf(events, Finishes) <==> e.kind.Finishes?)
      && (e.id in IdsOf(events, Migrates) <==> e.kind.Migrates?)
  {
    assert events[k] in events;
    OneEventEach(events, events[k].id);
    KindOf(events, events[k]);
  }

  lemma NoOwnEvents(reports: seq<Report>, track: bool, previous: set<Id>, fetch: bool, id: Id)
    requires (forall i, j | 0 <= i < j < |reports| :: reports[i].id != reports[j].id) && id !in IdsIn(reports)
    ensures var events := EventsIn(reports, track, previous);
      EventsOf(events, id) == [] && id !in IdsOf(events, Finishes) && id !in IdsOf(events, Migrates)
    ensures EventsOf(SampledIn(fetch, reports), id) == []
  {
    var events, samples := EventsIn(reports, track, previous), SampledIn(fetch, reports);
    EventsInAre(reports, track, previous, fetch);
    forall k | 0 <= k < |reports|
      ensures events[k].id != id && samples[k].id != id
    {
      assert reports[k] in reports;
    }
    OneEventEach(events, id);
    OneEventEach(samples, id);
  }

  lemma InventedOf(reports: seq<Report>, track: bool, previous: set<Id>, fetch: bool, r: Report)
    requires (forall i, j | 0 <= i < j < |reports| :: reports[i].id != reports[j].id) && r in reports
    ensures r.id in InventedIn(fetch, reports, track, previous) <==> Invents(fetch, r, IsNew(track, previous, r))
  {
    forall q | q in reports && q.id == r.id
      ensures q == r
    {
      var i :| 0 <= i < |reports| && reports[i] == q;
      OnlyReport(reports, r, i);
    }
  }

  /** What a step adds for one sequence. */
  lemma StepAdds(s: System, fetch: bool, reports: seq<Report>, id: Id)
    requires Reports(s, fetch, reports)
    ensures var v, w := ViewOf(s, id), ViewOf(Next(s, Step(fetch, reports)), id);
            var own, samples := EventsOf(EventsIn(reports, s.decode, s.previous), id), EventsOf(SampledIn(fetch, reports), id);
      && w.down == v.down + (Flatten(Migrations(own)) + StepOuts(own)) && w.produced == v.produced + TokensOf(own)
      && w.sampled == v.sampled + TokensOf(samples)
      && w == v.(down := w.down, produced := w.produced, sampled := w.sampled, live := w.live, held := w.held,
                 waiting := w.waiting, before := w.before, leftOver := w.leftOver, invented := w.invented)
  {
    var events := EventsIn(reports, s.decode, s.previous);
    EmitOf(events, id);
    ResultsGrow(s, Emit(events), id);
    GrowOf(s.produced, events, id);
    GrowOf(s.sampled, SampledIn(fetch, reports), id);
  }

  lemma StepReports(s: System, fetch: bool, reports: seq<Report>, r: Report)
    requires Reports(s, fetch, reports) && r in reports
    ensures ViewOf(s, r.id).live && Reportable(s, fetch, r)
    ensures ViewOf(Next(s, Step(fetch, reports)), r.id) == Noted(ViewOf(s, r.id), fetch, r)
  {
    assert Reportable(s, fetch, r);
    StepTokens(s, fetch, reports, r);
    StepFlags(s, fetch, reports, r);
    StepAdds(s, fetch, reports, r.id);
  }

  lemma StepTokens(s: System, fetch: bool, reports: seq<Report>, r: Report)
    requires Reports(s, fetch, reports) && r in reports && Reportable(s, fetch, r)
    ensures var v, w := ViewOf(s, r.id), ViewOf(Next(s, Step(fetch, reports)), r.id);
            var e := EventOf(r, IsNew(s.decode, s.previous, r));
      && w.down == v.down + ReportOf(e) && w.produced == v.produced + e.tokens && w.sampled == v.sampled + Sampled(fetch, r)
  {
    OwnEvents(reports, s.decode, s.previous, fetch, r);
    StepAdds(s, fetch, reports, r.id);
    ReportOfOne(EventOf(r, IsNew(s.decode, s.previous, r)));
    ReportOfOne(Event(r.id, Sampled(fetch, r), Continues));
  }

  lemma StepFlags(s: System, fetch: bool, reports: seq<Report>, r: Report)
    requires Reports(s, fetch, reports) && r in reports && Reportable(s, fetch, r)
    ensures var v, t, isNew := ViewOf(s, r.id), Next(s, Step(fetch, reports)), IsNew(s.decode, s.previous, r);
            var e := EventOf(r, isNew);
      && (r.id in t.live <==> e.kind.Continues?) && (r.id in t.held <==> v.held || e.kind.Migrates?)
      && r.id !in t.waiting && (r.id in t.previous <==> s.decode)
      && Get(t.lastStep, r.id) == (if fetch then v.leftOver else r.tokenIds)
      && (r.id in t.invented <==> v.invented || Invents(fetch, r, isNew))
  {
    OwnEvents(reports, s.decode, s.previous, fetch, r);
    LastStepOf(reports, r.id);
    InventedOf(reports, s.decode, s.previous, fetch, r);
    assert r.id in IdsIn(reports);
  }

  lemma StepPasses(s: System, fetch: bool, reports: seq<Report>, id: Id)
    requires Reports(s, fetch, reports) && id !in IdsIn(reports)
    ensures ViewOf(Next(s, Step(fetch, reports)), id) == Passed(ViewOf(s, id), fetch)
  {
    NothingAdded(s, fetch, reports, id);
    NothingFlagged(s, fetch, reports, id);
    StepAdds(s, fetch, reports, id);
  }

  lemma NothingAdded(s: System, fetch: bool, reports: seq<Report>, id: Id)
    requires Reports(s, fetch, reports) && id !in IdsIn(reports)
    ensures var v, w := ViewOf(s, id), ViewOf(Next(s, Step(fetch, reports)), id);
            w.down == v.down && w.produced == v.produced && w.sampled == v.sampled
  {
    var v := ViewOf(s, id);
    NoOwnEvents(reports, s.decode, s.previous, fetch, id);
    StepAdds(s, fetch, reports, id);
    assert v.down + ([] + []) == v.down && v.produced + [] == v.produced && v.sampled + [] == v.sampled;
  }

  lemma NothingFlagged(s: System, fetch: bool, reports: seq<Report>, id: Id)
    requires Reports(s, fetch, reports) && id !in IdsIn(reports)
    ensures var t := Next(s, Step(fetch, reports));
      && (id in t.live <==> id in s.live) && (id in t.held <==> id in s.held) && (id in t.waiting <==> id in s.waiting)
      && id !in t.previous && (id in t.invented <==> id in s.invented)
      && Get(t.lastStep, id) == (if fetch then Get(s.lastStep, id) else [])
  {
    NoOwnEvents(reports, s.decode, s.previous, fetch, id);
    LastStepOf(reports, id);
    assert id !in InventedIn(fetch, reports, s.decode, s.previous);
  }

  lemma KindOf(events: seq<Event>, e: Event)
    requires (forall i, j | 0 <= i < j < |events| :: events[i].id != events[j].id) && e in events
    ensures (e.id in IdsOf(events, Finishes)) == e.kind.Finishes?
    ensures (e.id in IdsOf(events, Migrates)) == e.kind.Migrates?
  {
    assert forall d | d in events && d.id == e.id :: d == e;
  }

  // ---- whole runs ----

  ghost predicate Sound(v: View) { Kept(v) && Honest(v) }

  lemma SubmitActionKeeps(s: System, a: Action, id: Id)
    requires a.Submit? && Enabled(s, a) && Sound(ViewOf(s, id))
    ensures Sound(ViewOf(Next(s, a), id))
  {
    SubmitView(s, a, id);
    if a.id == id {
      ClearIsClear(s, id);
      SubmitKeeps(ViewOf(s, id), id, a.seed);
      SubmitHonest(ViewOf(s, id), id, a.seed);
    }
  }

  lemma AbortActionKeeps(s: System, a: Action, id: Id)
    requires a.ClientAbort? && Sound(ViewOf(s, id))
    ensures Sound(ViewOf(Next(s, a), id))
  {
    AbortView(s, a, id);
    if a.id == id { AbortKeeps(ViewOf(s, id), id); AbortHonest(ViewOf(s, id), id); }
  }

  lemma HandleActionKeeps(s: System, id: Id)
    requires Enabled(s, Handle) && Sound(ViewOf(s, id))
    ensures Sound(ViewOf(Next(s, Handle), id))
  {
    HandleView(s, id);
    if s.requests[0].id == id { HandleKeeps(ViewOf(s, id), id); HandleHonest(ViewOf(s, id), id); }
  }

  lemma StepActionKeeps(s: System, fetch: bool, reports: seq<Report>, id: Id)
    requires Enabled(s, Step(fetch, reports)) && Sound(ViewOf(s, id))
    ensures Sound(ViewOf(Next(s, Step(fetch, reports)), id))
  {
    if r :| r in reports && r.id == id {
      StepReports(s, fetch, reports, r);
      NoteKeeps(ViewOf(s, id), fetch, r);
      NoteHonest(ViewOf(s, id), fetch, r);
    } else {
      StepPasses(s, fetch, reports, id);
      PassKeeps(ViewOf(s, id), fetch);
      PassHonest(ViewOf(s, id), fetch);
    }
  }

  lemma ReceiveActionKeeps(s: System, id: Id)
    requires Enabled(s, Receive) && Sound(ViewOf(s, id))
    ensures Sound(ViewOf(Next(s, Receive), id))
  {
    ReceiveView(s, id);
    if s.downlink[0].id == id { ReceiveKeeps(ViewOf(s, id)); ReceiveHonest(ViewOf(s, id)); }
  }

  lemma ReleaseActionKeeps(s: System, a: Action, id: Id)
    requires a.Release? && Sound(ViewOf(s, id))
    ensures Sound(ViewOf(Next(s, a), id))
  {
    ReleaseView(s, a, id);
    if a.id == id { ReleaseKeeps(ViewOf(s, id)); }
  }

  lemma ActionKeeps(s: System, a: Action, id: Id)
    requires Enabled(s, a) && Sound(ViewOf(s, id))
    ensures Sound(ViewOf(Next(s, a), id))
  {
    match a
    case Submit(_, _) => SubmitActionKeeps(s, a, id);
    case ClientAbort(_) => AbortActionKeeps(s, a, id);
    case Handle => HandleActionKeeps(s, id);
    case Step(fetch, reports) => StepActionKeeps(s, fetch, reports, id);
    case Receive => ReceiveActionKeeps(s, id);
    case Release(_) => ReleaseActionKeeps(s, a, id);
    case _ => MoveView(s, a, id);
  }

  /** Enabled actions, one after the other, in any interleaving. */
  predicate CanDo(s: System, actions: seq<Action>)
    decreases |actions|
  {
    actions == [] || (Enabled(s, actions[0]) && CanDo(Next(s, actions[0]), actions[1..]))
  }

  function After(s: System, actions: seq<Action>): System
    requires CanDo(s, actions)
    decreases |actions|
  {
    if actions == [] then s else After(Next(s, actions[0]), actions[1..])
  }

  lemma {:induction false} RunOnKeeps(s: System, actions: seq<Action>, id: Id)
    requires Sound(ViewOf(s, id)) && CanDo(s, actions)
    ensures Sound(ViewOf(After(s, actions), id))
    decreases |actions|
  {
    if actions != [] {
      ActionKeeps(s, actions[0], id);
      RunOnKeeps(Next(s, actions[0]), actions[1..], id);
    }
  }

  lemma {:induction false} StaysSubmitted(s: System, actions: seq<Action>)
    requires CanDo(s, actions)
    ensures s.submitted <= After(s, actions).submitted
    decreases |actions|
  {
    if actions != [] {
      SubmittedGrows(s, actions[0]);
      StaysSubmitted(Next(s, actions[0]), actions[1..]);
    }
  }

  lemma SubmittedGrows(s: System, a: Action)
    requires Enabled(s, a)
    ensures s.submitted <= Next(s, a).submitted
  {
    match a
    case Handle => RequestSubmits(s.(requests := s.requests[1..]), s.requests[0]);
    case Receive => PacketSubmits(s.(downlink := s.downlink[1..]), s.downlink[0]);
    case Fan => OnlyDown(s);
    case _ =>
  }

  lemma RequestSubmits(s: System, m: Msg)
    ensures HandleRequest(s, m).submitted == s.submitted
  {
  }

  lemma PacketSubmits(s: System, p: Packet)
    ensures HandlePacket(s, p).submitted == s.submitted
  {
  }

  /** In every state of every run. */
  lemma RunKeeps(decode: bool, actions: seq<Action>, id: Id)
    requires CanDo(Init(decode), actions)
    ensures Kept(ViewOf(After(Init(decode), actions), id)) && Honest(ViewOf(After(Init(decode), actions), id))
  {
    assert Up(Init(decode)) == [] && Down(Init(decode)) == [];
    RunOnKeeps(Init(decode), actions, id);
  }

  /** The request queue holds the prefill token, if any, and then `tokens`, in order, none lost or
      repeated; it ends at most once and nothing follows. */
  ghost predicate DeliveredAs(s: System, id: Id, tokens: seq<Token>) {
    var queue, sent := Get(s.queues, id), Get(s.seeds, id) + tokens;
    && (forall i | 0 <= i < |queue| - 1 :: !queue[i].End?)
    && (HasEnd(queue) <==> id !in s.active)
    && TokensIn(queue) <= sent
    && (id in s.active ==> TokensIn(queue) + TokensUnderWay(PacketsOf(Down(s), id)) == sent)
    && (id !in s.active && id !in s.aborted ==> TokensIn(queue) == sent)
  }

  /** With the tokens the model has sampled for the request. */
  ghost predicate Delivered(s: System, id: Id) { DeliveredAs(s, id, Get(s.sampled, id)) }

  /** Over every run, for every request: what the backend reports is delivered in order. That is
      what the model has sampled, if and only if no report of the request was invented; only for
      a request that the client has aborted the first half of this is all there is to say. */
  lemma DeliveredInOrder(decode: bool, actions: seq<Action>, id: Id)
    requires CanDo(Init(decode), actions) && id in After(Init(decode), actions).submitted
    ensures var s := After(Init(decode), actions);
      && DeliveredAs(s, id, Get(s.produced, id)) && (id !in s.invented ==> Delivered(s, id))
      && (id in s.active || id !in s.aborted ==> (Delivered(s, id) <==> id !in s.invented))
  {
    var s := After(Init(decode), actions);
    RunKeeps(decode, actions, id);
    if id in s.invented && (id in s.active || id !in s.aborted) { TooShort(s, id); }
  }

  lemma TooShort(s: System, id: Id)
    requires Sound(ViewOf(s, id)) && id in s.submitted && id in s.invented && (id in s.active || id !in s.aborted)
    ensures !Delivered(s, id)
  {
    assert |Get(s.seeds, id) + Get(s.sampled, id)| < |Get(s.seeds, id) + Get(s.produced, id)|;
  }

  /** What waiting on a queue gives, with the tokens read before. */
  predicate Answers(answer: Handoff, tokens: seq<Token>, all: seq<Token>) {
    match answer
    case Waiting => false
    case Failed(_) => false
    case FinishedHere(got) => got == tokens + all
    case HandedOff(first) => all != [] && all[|all| - 1] == first
  }

  lemma {:induction false} AwaitReads(queue: seq<Item>, tokens: seq<Token>)
    requires WellEnded(queue)
    ensures if HasEnd(queue) then Answers(Await(queue, tokens), tokens, TokensIn(queue)) else Await(queue, tokens).Waiting?
    decreases |queue|
  {
    if queue != [] {
      var rest := queue[1..];
      match queue[0]
      case End => assert TokensIn(rest) == [] && tokens + [] == tokens;
      case Migrated(first) =>
        assert rest == [End] && [End][1..] == [] && TokensIn(rest) == [];
        assert TokensIn(queue) == [first] + [];
      case Tokens(ts) =>
        EndsLater(queue);
        AwaitReads(rest, tokens + ts);
        AnswersLater(Await(rest, tokens + ts), tokens, ts, TokensIn(rest));
      case Finish =>
        EndsLater(queue);
        AwaitReads(rest, tokens);
        assert [] + TokensIn(rest) == TokensIn(rest);
    }
  }

  lemma EndsLater(queue: seq<Item>)
    requires queue != [] && WellEnded(queue) && (queue[0].Tokens? || queue[0].Finish?)
    ensures WellEnded(queue[1..]) && HasEnd(queue[1..]) == HasEnd(queue)
  {
    var rest := queue[1..];
    assert forall i | 0 <= i < |rest| :: rest[i] == queue[i + 1];
  }

  lemma AnswersLater(answer: Handoff, tokens: seq<Token>, more: seq<Token>, rest: seq<Token>)
    ensures Answers(answer, tokens + more, rest) ==> Answers(answer, tokens, more + rest)
  {
    assert tokens + more + rest == tokens + (more + rest);
  }

  lemma {:induction false} AwaitFinds(queue: seq<Item>, tokens: seq<Token>)
    ensures Await(queue, tokens).HandedOff? ==> Migrated(Await(queue, tokens).first) in queue
    decreases |queue|
  {
    if queue != [] {
      match queue[0]
      case Tokens(ts) => AwaitFinds(queue[1..], tokens + ts);
      case Finish => AwaitFinds(queue[1..], tokens);
      case _ =>
    }
  }

  /** Over every run: waiting for a prefill ends exactly when its request does. A request that was
      not aborted then gives the token it has sampled last, or, finished on this engine, all it
      has sampled, if and only if no report of it was invented. */
  lemma PrefillAnswered(decode: bool, actions: seq<Action>, id: Id)
    requires CanDo(Init(decode), actions) && id in After(Init(decode), actions).submitted
    ensures var s := After(Init(decode), actions);
            var answer, sampled := Await(Get(s.queues, id), []), Get(s.sampled, id);
      && !answer.Failed? && (answer.Waiting? <==> id in s.active)
      && (id !in s.active && id !in s.aborted ==>
            && (answer.FinishedHere? ==> (answer.tokens == Get(s.seeds, id) + sampled <==> id !in s.invented))
            && (answer.HandedOff? ==> LastIs(sampled, answer.first)))
  {
    RunKeeps(decode, actions, id);
    ViewAnswered(ViewOf(After(Init(decode), actions), id));
  }

  lemma ViewAnswered(v: View)
    requires Kept(v) && Honest(v) && v.submitted
    ensures var answer := Await(v.queue, []);
      && !answer.Failed? && (answer.Waiting? <==> v.active)
      && (!v.active && !v.aborted ==>
            && (answer.FinishedHere? ==> (answer.tokens == v.seed + v.sampled <==> !v.invented))
            && (answer.HandedOff? ==> LastIs(v.sampled, answer.first)))
  {
    AwaitReads(v.queue, []);
    AwaitFinds(v.queue, []);
    assert [] + TokensIn(v.queue) == TokensIn(v.queue);
    if v.invented { assert |v.seed + v.sampled| < |v.seed + v.produced|; }
  }

  /** What holds of the aborts of one sequence. */
  ghost predicate AbortsSafe(s: System, id: Id) {
    var up := MsgsOf(Up(s), id);
    // an abort that is ahead of a request was not for it, and finds nothing in the engine
    && (forall i, j | 0 <= i < j < |up| && up[j].Add? :: up[i].Abort? && id !in s.live + s.held)
    // an aborted request that is in the engine, or on its way there, is followed by its abort
    && (id in s.aborted && (id in s.live + s.held || exists i | 0 <= i < |up| :: up[i].Add?) ==>
          up != [] && up[|up| - 1].Abort?)
    // the empty StepOut that answers an abort is never under way to an active request
    && (id in s.active ==> forall p | p in PacketsOf(Down(s), id) && p.StepOut? :: p.tokens != [])
  }

  /** Over every run; so once no message is under way, nothing the client aborted is left in
      the engine. */
  lemma AbortsAreSafe(decode: bool, actions: seq<Action>)
    requires CanDo(Init(decode), actions)
    ensures var s := After(Init(decode), actions);
            (forall id :: AbortsSafe(s, id)) && (Up(s) == [] ==> s.aborted * (s.live + s.held) == {})
  {
    var s := After(Init(decode), actions);
    forall id
      ensures AbortsSafe(s, id)
    {
      RunKeeps(decode, actions, id);
      var v := ViewOf(s, id);
      forall i, j | 0 <= i < j < |v.up| && v.up[j].Add?
        ensures v.up[i].Abort? && id !in s.live + s.held
      {
        assert AddUnderWay(v);
      }
    }
    if Up(s) == [] {
      forall id | id in s.aborted
        ensures id !in s.live + s.held
      {
        assert AbortsSafe(s, id);
        assert MsgsOf([], id) == [];
      }
    }
  }

  lemma {:induction false} PacketSeen(packets: seq<Packet>, p: Packet)
    requires p in packets
    ensures p in PacketsOf(packets, p.id)
  {
    if p != packets[0] { PacketSeen(packets[1..], p); }
  }
}
