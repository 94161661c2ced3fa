/** The delivery protocol between the engine process and the HTTP process: FIFO channels
    from the client's outbox to the backend loop and back, batched results that are fanned
    out, aborts, and hand-off to a decode engine. One action per atomic step; any
    interleaving of them is a run. */
module Delivery {

  type Id = nat
  type Token = int

  datatype Msg = Add(id: Id) | Abort(id: Id)

  datatype Packet = StepOut(id: Id, tokens: seq<Token>, finished: bool) | Migration(id: Id, first: Token)

  /** What the backend puts on the results queue: one packet, or a step's StepOuts at once. */
  datatype Result = One(packet: Packet) | Batch(packets: seq<Packet>)

  /** What a request queue holds; `End` is the mark after which nothing is read. */
  datatype Item = Tokens(tokens: seq<Token>) | Finish | Migrated(first: Token) | Failure(message: string) | End

  datatype Kind = Continues | Finishes | Migrates

  /** A sequence of an engine step as the scheduler reports it. */
  datatype Report = Report(id: Id, tokenIds: seq<Token>, lastToken: Token, numTokens: nat, finished: bool,
                           toBeMigrated: bool, payload: seq<Token>, source: string)

  /** What the emit loop makes of a report: the tokens it shows, and what becomes of the sequence. */
  datatype Event = Event(id: Id, tokens: seq<Token>, kind: Kind)

  datatype System = System(
    decode: bool,                                                      // the mode of the engine
    active: set<Id>, queues: map<Id, seq<Item>>,                       // the client
    outbox: seq<Msg>, uplink: seq<Msg>, requests: seq<Msg>,            // towards the engine
    live: set<Id>, held: set<Id>, waiting: set<Id>,                    // the scheduler: `waiting` are not scheduled yet,
    lastStep: map<Id, seq<Token>>,                                     //   and the tokens sampled by the last run
    previous: set<Id>,                                                 // the backend loop: reported in the step before
    results: seq<Result>, fanning: seq<Packet>, downlink: seq<Packet>, // and back
    seeds: map<Id, seq<Token>>,                                        // history, for the statements: prefill tokens,
    produced: map<Id, seq<Token>>, sampled: map<Id, seq<Token>>,       //   tokens shown and tokens sampled since the
    invented: set<Id>, submitted: set<Id>, aborted: set<Id>)           //   admission, and where they differ

  function Init(decode: bool): System {
    System(decode, {}, map[], [], [], [], {}, {}, {}, map[], {}, [], [], [], map[], map[], map[], {}, {}, {})
  }

  datatype Action =
    | Submit(id: Id, seed: seq<Token>)   // a new request; `seed` holds the prefill token, if any
    | ClientAbort(id: Id)
    | Send                               // outbox to socket
    | Arrive                             // socket to requests queue
    | Handle                             // the backend handles one request
    | Step(fetch: bool, reports: seq<Report>) // one engine step and its emit loop; a step of a decode
                                         // engine that only fetches KV caches samples nothing
    | Fan                                // results queue to socket, one packet at a time
    | Receive                            // the client handles one packet
    | Release(id: Id)                    // the decode engine frees a handed-off sequence

  // ---- pieces of the steps ----

  function Get<T>(m: map<Id, seq<T>>, id: Id): seq<T> { if id in m then m[id] else [] }

  function Flatten(results: seq<Result>): seq<Packet> {
    if results == [] then []
    else (match results[0] case One(p) => [p] case Batch(ps) => ps) + Flatten(results[1..])
  }

  /** The token an engine step hands over with a migration is not reported by a StepOut. */
  predicate Silent(e: Event) { e.kind.Migrates? || (e.kind.Continues? && e.tokens == []) }

  function StepOuts(events: seq<Event>): seq<Packet> {
    if events == [] then []
    else if Silent(events[0]) then StepOuts(events[1..])
    else [StepOut(events[0].id, events[0].tokens, events[0].kind.Finishes?)] + StepOuts(events[1..])
  }

  predicate HandsOff(e: Event) { e.kind.Migrates? && e.tokens != [] }

  function Migrations(events: seq<Event>): seq<Result> {
    if events == [] then []
    else if HandsOff(events[0]) then [One(Migration(events[0].id, events[0].tokens[0]))] + Migrations(events[1..])
    else Migrations(events[1..])
  }

  /** Migration packets are put at once, so they overtake the step's batch. */
  function Emit(events: seq<Event>): seq<Result> {
    Migrations(events) + (if StepOuts(events) == [] then [] else [Batch(StepOuts(events))])
  }

  /** What a packet pushes to the queue of an active request, and whether it ends it. */
  function Pushed(p: Packet): (seq<Item>, bool) {
    match p
    case StepOut(_, tokens, finished) =>
      ([Tokens(if tokens == [] then [0] else tokens)] + (if finished then [Finish, End] else []), finished)
    case Migration(_, first) => ([Migrated(first), End], true)
  }

  // ---- from reports to events ----

  /** `is_new_running`: not among the sequences of the step before; never set outside decode mode. */
  predicate IsNew(track: bool, previous: set<Id>, r: Report) { track && r.id !in previous }

  /** `_event_token_ids`: without tokens of its own a sequence that is not newly running shows its
      last token; for a newly running one that is the prefill token, queued when it was submitted. */
  function EventTokenIds(r: Report, isNew: bool): seq<Token> {
    if r.tokenIds != [] then r.tokenIds
    else if isNew then []
    else if r.numTokens > 0 then [r.lastToken]
    else []
  }

  function EventOf(r: Report, isNew: bool): Event {
    if r.finished then Event(r.id, EventTokenIds(r, isNew), Finishes)
    else if r.toBeMigrated then Event(r.id, r.payload, Migrates)
    else Event(r.id, EventTokenIds(r, isNew), Continues)
  }

  function EventsIn(reports: seq<Report>, track: bool, previous: set<Id>): seq<Event> {
    if reports == [] then []
    else [EventOf(reports[0], IsNew(track, previous, reports[0]))] + EventsIn(reports[1..], track, previous)
  }

  function IdsIn(reports: seq<Report>): set<Id> { set r | r in reports :: r.id }

  /** The tokens the model has sampled for a sequence in the step; what a fetching step reports
      is left over from the last run. */
  function Sampled(fetch: bool, r: Report): seq<Token> {
    if fetch then [] else if !r.finished && r.toBeMigrated then r.payload else r.tokenIds
  }

  function SampledIn(fetch: bool, reports: seq<Report>): seq<Event> {
    if reports == [] then []
    else [Event(reports[0].id, Sampled(fetch, reports[0]), Continues)] + SampledIn(fetch, reports[1..])
  }

  /** The report is shown with tokens that were not sampled: tokens left over from the last run,
      or the last token once more. */
  predicate Invents(fetch: bool, r: Report, isNew: bool) {
    && (r.finished || !r.toBeMigrated)
    && if r.tokenIds != [] then fetch else !isNew && r.numTokens > 0
  }

  function InventedIn(fetch: bool, reports: seq<Report>, track: bool, previous: set<Id>): set<Id> {
    set r | r in reports && Invents(fetch, r, IsNew(track, previous, r)) :: r.id
  }

  /** `last_step_token_ids` after a run. */
  function LastStep(reports: seq<Report>): map<Id, seq<Token>> {
    if reports == [] then map[] else LastStep(reports[1..])[reports[0].id := reports[0].tokenIds]
  }

  function IdsOf(events: seq<Event>, kind: Kind): set<Id> { set e | e in events && e.kind == kind :: e.id }

  function Grow(produced: map<Id, seq<Token>>, events: seq<Event>): map<Id, seq<Token>>
    decreases |events|
  {
    if events == [] then produced
    else Grow(produced[events[0].id := Get(produced, events[0].id) + events[0].tokens], events[1..])
  }

  /** An id may be used (again): the engine is not working on it, nothing is under way to the
      client or waits to be admitted, and no abort is going to find a handed-off sequence. */
  predicate Clear(s: System, id: Id) {
    && id !in s.live && (forall p | p in Down(s) :: p.id != id)
    && (forall m | m in Up(s) && m.id == id :: m.Abort? && id !in s.held)
  }

  /** The contract of the scheduler: a step reports distinct live sequences, a finished one
      with some token to show, a handed-off one with exactly the token it sampled. A decode engine
      first fetches the KV cache of an admitted sequence, and does so once; nothing ends then. */
  predicate Reports(s: System, fetch: bool, reports: seq<Report>) {
    && (forall i, j | 0 <= i < j < |reports| :: reports[i].id != reports[j].id)
    && (fetch ==> s.decode)
    && forall r | r in reports :: Reportable(s, fetch, r)
  }

  predicate Reportable(s: System, fetch: bool, r: Report) {
    && r.id in s.live && (s.decode ==> (fetch <==> r.id in s.waiting))
    && (fetch ==> !r.finished && !r.toBeMigrated && r.tokenIds == Get(s.lastStep, r.id))
    && (r.finished ==> EventTokenIds(r, IsNew(s.decode, s.previous, r)) != [])
    && (!r.finished && r.toBeMigrated ==> |r.payload| == 1)
  }

  predicate Enabled(s: System, a: Action) {
    match a
    case Submit(id, _) => Clear(s, id)
    case ClientAbort(_) => true
    case Send => s.outbox != []
    case Arrive => s.uplink != []
    case Handle => s.requests != []
    case Step(fetch, reports) => Reports(s, fetch, reports)
    case Fan => s.fanning != [] || s.results != []
    case Receive => s.downlink != []
    case Release(id) => true
  }

  function Next(s: System, a: Action): System
    requires Enabled(s, a)
  {
    match a
    case Submit(id, seed) => Submitting(s, id, seed)
    case ClientAbort(id) => Aborting(s, id)
    case Send => s.(outbox := s.outbox[1..], uplink := s.uplink + [s.outbox[0]])
    case Arrive => s.(uplink := s.uplink[1..], requests := s.requests + [s.uplink[0]])
    case Handle => HandleRequest(s.(requests := s.requests[1..]), s.requests[0])
    case Step(fetch, reports) => Stepping(s, fetch, reports, EventsIn(reports, s.decode, s.previous))
    case Fan => Fanning(s)
    case Receive => HandlePacket(s.(downlink := s.downlink[1..]), s.downlink[0])
    case Release(id) => s.(held := s.held - {id})
  }

  /** The request ends here and now; the engine is told in any case. */
  function Aborting(s: System, id: Id): System {
    s.(active := s.active - {id},
       queues := if id in s.active then s.queues[id := Get(s.queues, id) + [Finish, End]] else s.queues,
       outbox := s.outbox + [Abort(id)], aborted := s.aborted + {id})
  }

  /** A step with its reports, and the events the emit loop makes of them. */
  function Stepping(s: System, fetch: bool, reports: seq<Report>, events: seq<Event>): System {
    s.(live := s.live - IdsOf(events, Finishes) - IdsOf(events, Migrates), held := s.held + IdsOf(events, Migrates),
       waiting := s.waiting - IdsIn(reports), lastStep := if fetch then s.lastStep else LastStep(reports),
       previous := if s.decode then IdsIn(reports) else {},
       results := s.results + Emit(events), produced := Grow(s.produced, events),
       sampled := Grow(s.sampled, SampledIn(fetch, reports)),
       invented := s.invented + InventedIn(fetch, reports, s.decode, s.previous))
  }

  /** One packet at a time; a batch is taken apart first. */
  function Fanning(s: System): System
    requires s.fanning != [] || s.results != []
  {
    if s.fanning != [] then s.(fanning := s.fanning[1..], downlink := s.downlink + [s.fanning[0]])
    else
      match s.results[0]
      case One(p) => s.(results := s.results[1..], downlink := s.downlink + [p])
      case Batch(ps) => s.(results := s.results[1..], fanning := ps)
  }

  /** A request with a queue of its own, whatever an earlier one with this id has left. */
  function Submitting(s: System, id: Id, seed: seq<Token>): System {
    s.(active := s.active + {id}, queues := s.queues[id := if seed == [] then [] else [Tokens(seed)]],
       outbox := s.outbox + [Add(id)], seeds := s.seeds[id := seed], produced := s.produced[id := []],
       sampled := s.sampled[id := []], invented := s.invented - {id}, submitted := s.submitted + {id},
       aborted := s.aborted - {id})
  }

  /** An admitted sequence replaces an earlier one with its id, so what it has produced counts
      from here; an abort that finds its sequence is answered by an empty finished StepOut. */
  function HandleRequest(s: System, m: Msg): System {
    match m
    case Add(id) =>
      s.(live := s.live + {id}, waiting := s.waiting + {id}, produced := s.produced[id := []],
         sampled := s.sampled[id := []], invented := s.invented - {id})
    case Abort(id) =>
      if id in s.live + s.held then
        s.(live := s.live - {id}, held := s.held - {id}, waiting := s.waiting - {id},
           results := s.results + [One(StepOut(id, [], true))])
      else s
  }

  /** Packets for requests that are no longer active are dropped. */
  function HandlePacket(s: System, p: Packet): System {
    if p.id !in s.active then s
    else
      var (items, ends) := Pushed(p);
      s.(queues := s.queues[p.id := Get(s.queues, p.id) + items], active := if ends then s.active - {p.id} else s.active)
  }

  // ---- one sequence's view of the system ----

  datatype View = View(
    decode: bool, active: bool, queue: seq<Item>, up: seq<Msg>, live: bool, held: bool, waiting: bool,
    leftOver: seq<Token>, before: bool, down: seq<Packet>, seed: seq<Token>, produced: seq<Token>, sampled: seq<Token>,
    invented: bool, submitted: bool, aborted: bool)

  function MsgsOf(msgs: seq<Msg>, id: Id): seq<Msg> {
    if msgs == [] then []
    else if msgs[0].id == id then [msgs[0]] + MsgsOf(msgs[1..], id)
    else MsgsOf(msgs[1..], id)
  }

  function PacketsOf(packets: seq<Packet>, id: Id): seq<Packet> {
    if packets == [] then []
    else if packets[0].id == id then [packets[0]] + PacketsOf(packets[1..], id)
    else PacketsOf(packets[1..], id)
  }

  /** Messages under way towards the engine, oldest first. */
  function Up(s: System): seq<Msg> { Join(s.requests, s.uplink, s.outbox) }

  function Down(s: System): seq<Packet> { Join(s.downlink, s.fanning, Flatten(s.results)) }

  /** Three stages of one FIFO channel. */
  function Join<T>(a: seq<T>, b: seq<T>, c: seq<T>): seq<T> { a + b + c }

  function ViewOf(s: System, id: Id): View {
    View(s.decode, id in s.active, Get(s.queues, id), MsgsOf(Up(s), id), id in s.live, id in s.held, id in s.waiting,
         Get(s.lastStep, id), id in s.previous, PacketsOf(Down(s), id), Get(s.seeds, id), Get(s.produced, id),
         Get(s.sampled, id), id in s.invented, id in s.submitted, id in s.aborted)
  }

  function TokensIn(queue: seq<Item>): seq<Token> {
    if queue == [] then []
    else
      (match queue[0] case Tokens(ts) => ts case Migrated(first) => [first] case _ => []) + TokensIn(queue[1..])
  }

  function TokensUnderWay(packets: seq<Packet>): seq<Token> {
    if packets == [] then []
    else (match packets[0] case StepOut(_, ts, _) => ts case Migration(_, first) => [first]) + TokensUnderWay(packets[1..])
  }

  predicate Ends(p: Packet) { p.Migration? || p.finished }

  // ---- reading a request queue on the prefill engine ----

  datatype Handoff = HandedOff(first: Token) | FinishedHere(tokens: seq<Token>) | Failed(message: string) | Waiting

  /** `await_migration` on the items queued so far, with the tokens read before. */
  function Await(queue: seq<Item>, tokens: seq<Token>): Handoff {
    if queue == [] then Waiting
    else
      match queue[0]
      case End => FinishedHere(tokens)
      case Failure(message) => Failed(message)
      case Migrated(first) => HandedOff(first)
      case Tokens(ts) => Await(queue[1..], tokens + ts)
      case Finish => Await(queue[1..], tokens)
  }

  // ---- what every run keeps, for each sequence ----

  /** At most one `End`, and nothing after it; a hand-off only right before it; no failure. */
  predicate WellEnded(queue: seq<Item>) {
    && (forall i | 0 <= i < |queue| - 1 :: !queue[i].End?) && (forall i | 0 <= i < |queue| :: !queue[i].Failure?)
    && (forall i | 0 <= i < |queue| :: queue[i].Migrated? ==> i == |queue| - 2 && HasEnd(queue))
  }

  predicate HasEnd(queue: seq<Item>) { queue != [] && queue[|queue| - 1].End? }

  predicate AddUnderWay(v: View) { exists i | 0 <= i < |v.up| :: v.up[i].Add? }

  /** The newest message towards the engine is an abort. */
  predicate Quits(v: View) { v.up != [] && v.up[|v.up| - 1].Abort? }

  predicate Kept(v: View) {
    // at most one request is under way; an abort ahead of it was for an earlier one, and finds nothing
    && (forall i, j | 0 <= i < j < |v.up| :: !(v.up[i].Add? && v.up[j].Add?))
    && (AddUnderWay(v) ==> !v.live && v.down == [] && v.produced == [] && (v.held ==> v.up[0].Add?))
    // the queue
    && WellEnded(v.queue) && (v.active ==> v.submitted && !HasEnd(v.queue))
    && (v.submitted && !v.active ==> HasEnd(v.queue))
    // conservation: nothing lost, repeated or reordered
    && (v.active ==> TokensIn(v.queue) + TokensUnderWay(v.down) == v.seed + v.produced)
    && (!v.active ==> TokensIn(v.queue) <= v.seed + v.produced)
    && (!v.active && !v.aborted ==> TokensIn(v.queue) == v.seed + v.produced && v.down == [] && !v.live && v.up == [])
    // packets for an active request: an empty StepOut is not among them, and only the last one ends it
    && (v.active ==> forall p | p in v.down :: p.StepOut? ==> p.tokens != [])
    && (v.active ==> forall i | 0 <= i < |v.down| - 1 :: !Ends(v.down[i]))
    && (v.active && !v.live && !AddUnderWay(v) ==> v.down != [] && Ends(v.down[|v.down| - 1]))
    && (v.active && v.live ==> forall p | p in v.down :: !Ends(p))
    // aborts
    && (v.active ==> !v.aborted) && (Quits(v) ==> v.aborted)
    && (v.aborted && (v.live || v.held || AddUnderWay(v)) ==> Quits(v))
    && (!v.submitted ==>
          !v.live && !v.held && !AddUnderWay(v) && v.down == [] && v.queue == [] && v.seed == [] && v.produced == [])
  }

  /** What is shown is what was sampled, unless a report has invented tokens, and then it is more;
      a hand-off carries the token sampled last. */
  predicate Honest(v: View) {
    && (if v.invented then |v.sampled| < |v.produced| else v.sampled == v.produced)
    && HandsOver(v.down, v.queue, v.sampled) && (AddUnderWay(v) ==> !v.invented)
    && (v.live || AddUnderWay(v) ==> NoHandOff(v.down, v.queue))
  }

  predicate HandsOver(down: seq<Packet>, queue: seq<Item>, sampled: seq<Token>) {
    && (forall p | p in down && p.Migration? :: LastIs(sampled, p.first))
    && (forall x | x in queue && x.Migrated? :: LastIs(sampled, x.first))
  }

  predicate NoHandOff(down: seq<Packet>, queue: seq<Item>) {
    (forall p | p in down :: !p.Migration?) && (forall x | x in queue :: !x.Migrated?)
  }

  predicate LastIs(tokens: seq<Token>, t: Token) { tokens != [] && tokens[|tokens| - 1] == t }
}
