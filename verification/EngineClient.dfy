/** The HTTP process's side of the protocol: the worker that owns the active requests and
    their queues. Its handlers do to the objects what the transition system says. */
module EngineClient {
  import opened Delivery

  class Request {
    const seqId: Id
    var aqueue: seq<Item>

    constructor (seqId: Id)
      ensures this.seqId == seqId && aqueue == []
    {
      this.seqId, aqueue := seqId, [];
    }

    method Push(item: Item)
      modifies this
      ensures aqueue == old(aqueue) + [item]
    {
      aqueue := aqueue + [item];
    }

    /** `await_migration`, on the items that are there; `Waiting` stands for a blocked get. */
    method AwaitMigration() returns (answer: Handoff)
      modifies this
      ensures answer == Await(old(aqueue), []) && (answer.Waiting? ==> aqueue == [])
    {
      var tokens: seq<Token> := [];
      while aqueue != []
        invariant Await(old(aqueue), []) == Await(aqueue, tokens)
        decreases |aqueue|
      {
        var item := aqueue[0];
        aqueue := aqueue[1..];
        match item
        case End => return FinishedHere(tokens);
        case Failure(message) => return Failed(message);
        case Migrated(first) => return HandedOff(first);
        case Tokens(ts) => tokens := tokens + ts;
        case Finish =>
      }
      answer := Waiting;
    }
  }

  class ZmqEngineWorker {
    var active: map<Id, Request>
    var outbox: seq<Msg>

    ghost predicate Valid()
      reads this
    {
      forall id | id in active :: active[id].seqId == id
    }

    /** The worker and its queues are the client part of `s`. */
    ghost predicate Shows(s: System)
      reads this, active.Values
    {
      && s.active == active.Keys && s.outbox == outbox
      && forall id | id in active :: Get(s.queues, id) == active[id].aqueue
    }

    constructor ()
      ensures Valid() && active == map[] && outbox == [] && forall decode :: Shows(Init(decode))
    {
      active, outbox := map[], [];
    }

    method SubmitRequest(req: Request)
      requires Valid()
      modifies this
      ensures Valid() && active == old(active)[req.seqId := req] && outbox == old(outbox) + [Add(req.seqId)]
    {
      active := active[req.seqId := req];
      outbox := outbox + [Add(req.seqId)];
    }

    /** `submit_migrated`: the prefill token is queued before any packet can be. */
    method SubmitMigrated(id: Id, firstToken: seq<Token>) returns (req: Request)
      requires Valid()
      modifies this
      ensures Valid() && fresh(req) && active == old(active)[id := req] && outbox == old(outbox) + [Add(id)]
      ensures req.aqueue == if firstToken == [] then [] else [Tokens(firstToken)]
    {
      req := new Request(id);
      if firstToken != [] { req.Push(Tokens(firstToken)); }
      SubmitRequest(req);
    }

    /** `abort`: the request ends here and now; the engine is told in any case. */
    method AbortRequest(id: Id)
      requires Valid()
      modifies this, if id in active then {active[id]} else {}
      ensures Valid() && active == old(active) - {id} && outbox == old(outbox) + [Abort(id)]
      ensures id in old(active) ==> old(active[id]).aqueue == old(active[id].aqueue) + [Finish, End]
    {
      if id in active {
        var req := active[id];
        active := active - {id};
        req.Push(Finish);
        req.Push(End);
      }
      outbox := outbox + [Abort(id)];
    }

    /** `_handle_stepout`: an empty StepOut falls back to token 0. */
    method HandleStepout(id: Id, tokens: seq<Token>, finished: bool)
      requires Valid()
      modifies this, if id in active then {active[id]} else {}
      ensures Valid() && outbox == old(outbox)
      ensures id !in old(active) ==> active == old(active)
      ensures id in old(active) ==>
                && old(active[id]).aqueue == old(active[id].aqueue) + Pushed(StepOut(id, tokens, finished)).0
                && active == if finished then old(active) - {id} else old(active)
    {
      if id !in active { return; }
      var req := active[id];
      req.Push(Tokens(if tokens != [] then tokens else [0]));
      if finished {
        req.Push(Finish);
        req.Push(End);
        active := active - {id};
      }
    }

    /** `_handle_migration` */
    method HandleMigration(id: Id, first: Token)
      requires Valid()
      modifies this, if id in active then {active[id]} else {}
      ensures Valid() && outbox == old(outbox) && active == old(active) - {id}
      ensures id in old(active) ==> old(active[id]).aqueue == old(active[id].aqueue) + [Migrated(first), End]
    {
      if id in active {
        var req := active[id];
        req.Push(Migrated(first));
        req.Push(End);
        active := active - {id};
      }
    }

    /** The receive loop's dispatch: on the objects, what `HandlePacket` is on the system. */
    method HandlePacketOn(p: Packet, ghost s: System)
      requires Valid() && Shows(s)
      modifies this, if p.id in active then {active[p.id]} else {}
      ensures Valid() && Shows(HandlePacket(s, p))
    {
      match p
      case StepOut(id, tokens, finished) => HandleStepout(id, tokens, finished);
      case Migration(id, first) => HandleMigration(id, first);
    }

    /** And aborting is the client's abort action. */
    method AbortOn(id: Id, ghost s: System)
      requires Valid() && Shows(s)
      modifies this, if id in active then {active[id]} else {}
      ensures Valid() && Shows(Next(s, ClientAbort(id)))
    {
      AbortRequest(id);
    }

    /** And submitting is the submit action, whether the id is clear or not. */
    method SubmitOn(id: Id, seed: seq<Token>, ghost s: System)
      requires Valid() && Shows(s)
      modifies this
      ensures Valid() && Shows(Submitting(s, id, seed))
    {
      var req := SubmitMigrated(id, seed);
    }
  }
}
