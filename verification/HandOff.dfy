/** Handing a sequence over from a prefill to a decode engine: its KV cache is fetched before
    the source engine is told to free it, and how often it is told. */
module HandOff {
  import opened Delivery
  import opened EngineBackend
  import Safety = DeliverySafety

  // ---- the backend loop, turn by turn ----

  /** A request is handled, sequences are aborted, or one engine step is run. */
  datatype Turn =
    | Admit(id: Id, source: string)
    | Abandon(aborted: seq<Id>)
    | Pass(prefill: bool, batch: seq<Id>, reports: seq<Report>)

  datatype Loop = Loop(freed: set<Id>, previous: set<Id>, log: seq<Effect>)

  const START := Loop({}, {}, [])

  function Turned(decode: bool, l: Loop, t: Turn): Loop {
    match t
    case Admit(id, source) => l.(log := l.log + [Admitted(id, source)])
    case Abandon(aborted) => l.(freed := l.freed - (set id | id in aborted))
    case Pass(prefill, batch, reports) =>
      var (frees, marks) := SendFrees(Newcomers(reports, decode, l.previous), Unmarked(reports, l.freed));
      Loop(marks, if decode then IdsIn(reports) else {}, l.log + [Scheduled(decode, prefill, batch)] + AllSent(frees))
  }

  function Run(decode: bool, l: Loop, turns: seq<Turn>): Loop
    decreases |turns|
  {
    if turns == [] then l else Run(decode, Turned(decode, l, turns[0]), turns[1..])
  }

  /** The service's fields are those of the loop. */
  method TakeTurn(service: BackendService, t: Turn, ghost l: Loop)
    requires l == Loop(service.freed, service.previousRunning, service.log)
    modifies service
    ensures Loop(service.freed, service.previousRunning, service.log) == Turned(service.decode, l, t)
  {
    match t
    case Admit(id, source) => service.HandleAdd(id, source);
    case Abandon(aborted) => service.HandleAbort(aborted);
    case Pass(prefill, batch, reports) => service.RunStep(prefill, batch, reports);
  }

  // ---- what a pass does ----

  /** The batches fetched, and the batches run, in order. */
  function FetchedIn(log: seq<Effect>): seq<seq<Id>> {
    if log == [] then [] else (if log[0].Fetched? then [log[0].ids] else []) + FetchedIn(log[1..])
  }

  function RanIn(log: seq<Effect>): seq<seq<Id>> {
    if log == [] then [] else (if log[0].Ran? then [log[0].ids] else []) + RanIn(log[1..])
  }

  /** The batches of the passes that are prefill batches, or that are not. */
  function Batches(turns: seq<Turn>, prefill: bool): seq<seq<Id>> {
    if turns == [] then []
    else (if turns[0].Pass? && turns[0].prefill == prefill then [turns[0].batch] else []) + Batches(turns[1..], prefill)
  }

  function AllBatches(turns: seq<Turn>): seq<seq<Id>> {
    if turns == [] then [] else (if turns[0].Pass? then [turns[0].batch] else []) + AllBatches(turns[1..])
  }

  lemma {:induction false} EffectsAppend(a: seq<Effect>, b: seq<Effect>)
    ensures FetchedIn(a + b) == FetchedIn(a) + FetchedIn(b) && RanIn(a + b) == RanIn(a) + RanIn(b)
  {
    if a == [] {
      assert a + b == b;
    } else {
      assert (a + b)[1..] == a[1..] + b;
      EffectsAppend(a[1..], b);
    }
  }

  lemma {:induction false} FreesDoNothing(frees: seq<Free>)
    ensures FetchedIn(AllSent(frees)) == [] && RanIn(AllSent(frees)) == []
  {
    if frees != [] {
      assert AllSent(frees)[1..] == AllSent(frees[1..]);
      FreesDoNothing(frees[1..]);
    }
  }

  lemma TurnDoes(decode: bool, l: Loop, t: Turn)
    ensures FetchedIn(Turned(decode, l, t).log) == FetchedIn(l.log) + (if t.Pass? && decode && t.prefill then [t.batch] else [])
    ensures RanIn(Turned(decode, l, t).log) == RanIn(l.log) + (if t.Pass? && !(decode && t.prefill) then [t.batch] else [])
  {
    match t
    case Admit(id, source) => OneEffect(l.log, Admitted(id, source));
    case Abandon(_) =>
    case Pass(prefill, batch, reports) =>
      var frees := SendFrees(Newcomers(reports, decode, l.previous), Unmarked(reports, l.freed)).0;
      var e := Scheduled(decode, prefill, batch);
      OneEffect(l.log, e);
      EffectsAppend(l.log + [e], AllSent(frees));
      FreesDoNothing(frees);
  }

  lemma OneEffect(log: seq<Effect>, e: Effect)
    ensures FetchedIn(log + [e]) == FetchedIn(log) + (if e.Fetched? then [e.ids] else [])
    ensures RanIn(log + [e]) == RanIn(log) + (if e.Ran? then [e.ids] else [])
  {
    EffectsAppend(log, [e]);
    assert [e][1..] == [];
  }

  /** Every batch is dealt with once, in order: a decode engine fetches its prefill batches and
      runs the others, any other engine runs them all. */
  lemma {:induction false} PassesDo(decode: bool, l: Loop, turns: seq<Turn>)
    ensures FetchedIn(Run(decode, l, turns).log) == FetchedIn(l.log) + (if decode then Batches(turns, true) else [])
    ensures RanIn(Run(decode, l, turns).log) == RanIn(l.log) + (if decode then Batches(turns, false) else AllBatches(turns))
    decreases |turns|
  {
    if turns != [] {
      TurnDoes(decode, l, turns[0]);
      PassesDo(decode, Turned(decode, l, turns[0]), turns[1..]);
    }
  }

  // ---- a FREE follows the migrate call of its admission ----

  function SetOf(ids: seq<Id>): set<Id> { set id | id in ids }

  /** The scheduler reports sequences of the batch it scheduled, and the first batch in which an
      admitted sequence is scheduled is a prefill batch. `scheduled` are the sequences that
      were scheduled since their last admission. */
  predicate Schedules(scheduled: set<Id>, turns: seq<Turn>)
    decreases |turns|
  {
    turns == [] ||
    match turns[0]
    case Admit(id, _) => Schedules(scheduled - {id}, turns[1..])
    case Abandon(_) => Schedules(scheduled, turns[1..])
    case Pass(prefill, batch, reports) =>
      && (forall r | r in reports :: r.id in batch) && (forall id | id in batch && id !in scheduled :: prefill)
      && Schedules(scheduled + SetOf(batch), turns[1..])
  }

  /** Before position `i` a migrate call for `id` has returned, and `id` has not been admitted
      again since. */
  ghost predicate MigratedBefore(log: seq<Effect>, i: nat, id: Id)
    requires i <= |log|
  {
    exists j | 0 <= j < i :: MigratedAt(log, i, id, j)
  }

  predicate Admits(e: Effect, id: Id) { e.Admitted? && e.id == id }

  ghost predicate MigratedAt(log: seq<Effect>, i: nat, id: Id, j: nat)
    requires j < i <= |log|
  {
    log[j].Fetched? && id in log[j].ids && forall m | j < m < i :: !Admits(log[m], id)
  }

  ghost predicate FreesFollow(log: seq<Effect>) {
    forall i | 0 <= i < |log| && log[i].Sent? :: MigratedBefore(log, i, log[i].free.id)
  }

  ghost predicate InPlace(log: seq<Effect>, ids: set<Id>) {
    forall id | id in ids :: MigratedBefore(log, |log|, id)
  }

  /** Over every run of the backend loop, in either mode: every FREE is sent after a migrate
      call for the sequence has returned, one of the same admission. */
  lemma FreesFollowMigration(decode: bool, turns: seq<Turn>)
    requires Schedules({}, turns)
    ensures FreesFollow(Run(decode, START, turns).log)
  {
    RunFollows(decode, START, {}, turns);
  }

  lemma {:induction false} RunFollows(decode: bool, l: Loop, scheduled: set<Id>, turns: seq<Turn>)
    requires Schedules(scheduled, turns) && FreesFollow(l.log) && (decode ==> InPlace(l.log, scheduled))
    ensures FreesFollow(Run(decode, l, turns).log)
    decreases |turns|
  {
    if turns != [] {
      var next := Turned(decode, l, turns[0]);
      match turns[0]
      case Admit(id, source) =>
        Follows(l.log, Admitted(id, source), scheduled - {id});
        RunFollows(decode, next, scheduled - {id}, turns[1..]);
      case Abandon(_) =>
        RunFollows(decode, next, scheduled, turns[1..]);
      case Pass(prefill, batch, reports) =>
        PassFollows(decode, l, scheduled, turns[0]);
        RunFollows(decode, next, scheduled + SetOf(batch), turns[1..]);
    }
  }

  /** One more effect: what is in place stays so, but for a sequence that is admitted anew. */
  lemma Follows(log: seq<Effect>, e: Effect, ids: set<Id>)
    requires FreesFollow(log) && (e.Sent? ==> MigratedBefore(log, |log|, e.free.id)) && (e.Admitted? ==> e.id !in ids)
    ensures FreesFollow(log + [e])
    ensures InPlace(log, ids) ==> InPlace(log + [e], ids)
    ensures e.Fetched? && InPlace(log, ids) ==> InPlace(log + [e], ids + SetOf(e.ids))
  {
    var more := log + [e];
    forall i | 0 <= i < |more| && more[i].Sent?
      ensures MigratedBefore(more, i, more[i].free.id)
    {
      Extends(log, e, i, more[i].free.id);
    }
    forall id | MigratedBefore(log, |log|, id) && !Admits(e, id)
      ensures MigratedBefore(more, |more|, id)
    {
      var j :| 0 <= j < |log| && MigratedAt(log, |log|, id, j);
      assert MigratedAt(more, |more|, id, j);
    }
    if e.Fetched? {
      forall id | id in e.ids
        ensures MigratedBefore(more, |more|, id)
      {
        assert MigratedAt(more, |more|, id, |log|);
      }
    }
  }

  lemma Extends(log: seq<Effect>, e: Effect, i: nat, id: Id)
    requires i <= |log| && MigratedBefore(log, i, id)
    ensures MigratedBefore(log + [e], i, id)
  {
    var j :| 0 <= j < i && MigratedAt(log, i, id, j);
    assert MigratedAt(log + [e], i, id, j);
  }

  lemma PassFollows(decode: bool, l: Loop, scheduled: set<Id>, t: Turn)
    requires t.Pass? && FreesFollow(l.log) && (decode ==> InPlace(l.log, scheduled))
    requires (forall r | r in t.reports :: r.id in t.batch) && (forall id | id in t.batch && id !in scheduled :: t.prefill)
    ensures var next, more := Turned(decode, l, t), scheduled + SetOf(t.batch);
            FreesFollow(next.log) && (decode ==> InPlace(next.log, more))
  {
    var frees := SendFrees(Newcomers(t.reports, decode, l.previous), Unmarked(t.reports, l.freed)).0;
    var e := Scheduled(decode, t.prefill, t.batch);
    var ids := if decode then scheduled else {};
    Follows(l.log, e, ids);
    var more := if decode then scheduled + SetOf(t.batch) else {};
    assert InPlace(l.log + [e], more) by {
      if decode && !t.prefill { assert more == scheduled; }
    }
    forall f | f in frees
      ensures f.id in more
    {
      SentHaveSource(Newcomers(t.reports, decode, l.previous), Unmarked(t.reports, l.freed), f);
      NewcomerReported(t.reports, decode, l.previous, f);
    }
    AllSentFollow(l.log + [e], frees, more);
  }

  lemma {:induction false} AllSentFollow(log: seq<Effect>, frees: seq<Free>, ids: set<Id>)
    requires FreesFollow(log) && InPlace(log, ids) && forall f | f in frees :: f.id in ids
    ensures FreesFollow(log + AllSent(frees)) && InPlace(log + AllSent(frees), ids)
    decreases |frees|
  {
    if frees == [] {
      assert log + AllSent(frees) == log;
    } else {
      var e := Sent(frees[0]);
      Follows(log, e, ids);
      AllSentFollow(log + [e], frees[1..], ids);
      assert log + [e] + AllSent(frees[1..]) == log + AllSent(frees);
    }
  }

  lemma {:induction false} SentHaveSource(newcomers: seq<Free>, freed: set<Id>, f: Free)
    requires f in SendFrees(newcomers, freed).0
    ensures f.source != "" && f in newcomers
    decreases |newcomers|
  {
    var g, rest := newcomers[0], newcomers[1..];
    if g.source == "" || g.id in freed {
      SentHaveSource(rest, freed, f);
    } else if f != g {
      SentHaveSource(rest, freed + {g.id}, f);
    }
  }

  lemma {:induction false} NewcomerReported(reports: seq<Report>, track: bool, previous: set<Id>, f: Free)
    requires f in Newcomers(reports, track, previous)
    ensures track && f.id !in previous && exists r | r in reports :: Free(r.source, r.id) == f
  {
    var r, rest := reports[0], reports[1..];
    if IsNew(track, previous, r) && Free(r.source, r.id) == f {
    } else {
      NewcomerReported(rest, track, previous, f);
    }
  }

  // ---- and goes to the engine that sent the sequence ----

  /** A report names the engine its sequence was sent from when it was admitted. */
  predicate Carries(sources: map<Id, string>, turns: seq<Turn>)
    decreases |turns|
  {
    turns == [] ||
    match turns[0]
    case Admit(id, source) => Carries(sources[id := source], turns[1..])
    case Abandon(_) => Carries(sources, turns[1..])
    case Pass(_, _, reports) =>
      (forall r | r in reports :: r.id in sources && r.source == sources[r.id]) && Carries(sources, turns[1..])
  }

  /** Before position `i` the last admission of `id` is one from `source`. */
  ghost predicate CameFrom(log: seq<Effect>, i: nat, id: Id, source: string)
    requires i <= |log|
  {
    exists j | 0 <= j < i :: log[j] == Admitted(id, source) && forall m | j < m < i :: !Admits(log[m], id)
  }

  ghost predicate FreesGoBack(log: seq<Effect>) {
    forall i | 0 <= i < |log| && log[i].Sent? ::
      log[i].free.source != "" && CameFrom(log, i, log[i].free.id, log[i].free.source)
  }

  ghost predicate Known(log: seq<Effect>, sources: map<Id, string>) {
    forall id | id in sources :: CameFrom(log, |log|, id, sources[id])
  }

  lemma CameFromStays(log: seq<Effect>, e: Effect, i: nat, id: Id, source: string)
    requires i <= |log| && CameFrom(log, i, id, source)
    ensures CameFrom(log + [e], i, id, source)
    ensures i == |log| && !Admits(e, id) ==> CameFrom(log + [e], |log| + 1, id, source)
  {
    var more := log + [e];
    var j :| 0 <= j < i && log[j] == Admitted(id, source) && forall m | j < m < i :: !Admits(log[m], id);
    assert more[j] == Admitted(id, source) && forall m | j < m < i :: more[m] == log[m];
    assert i == |log| ==> more[i] == e;
  }

  /** One more effect, which is no admission. */
  lemma GoesBack(log: seq<Effect>, e: Effect, sources: map<Id, string>)
    requires FreesGoBack(log) && Known(log, sources) && !e.Admitted?
    requires e.Sent? ==> e.free.source != "" && e.free.id in sources && sources[e.free.id] == e.free.source
    ensures FreesGoBack(log + [e]) && Known(log + [e], sources)
  {
    var more := log + [e];
    forall i | 0 <= i < |more| && more[i].Sent?
      ensures more[i].free.source != "" && CameFrom(more, i, more[i].free.id, more[i].free.source)
    {
      CameFromStays(log, e, i, more[i].free.id, more[i].free.source);
    }
    forall id | id in sources
      ensures CameFrom(more, |more|, id, sources[id])
    {
      CameFromStays(log, e, |log|, id, sources[id]);
    }
  }

  lemma AdmitsAnew(log: seq<Effect>, id: Id, source: string, sources: map<Id, string>)
    requires FreesGoBack(log) && Known(log, sources)
    ensures FreesGoBack(log + [Admitted(id, source)]) && Known(log + [Admitted(id, source)], sources[id := source])
  {
    var e, after := Admitted(id, source), sources[id := source];
    var more := log + [e];
    forall i | 0 <= i < |more| && more[i].Sent?
      ensures more[i].free.source != "" && CameFrom(more, i, more[i].free.id, more[i].free.source)
    {
      CameFromStays(log, e, i, more[i].free.id, more[i].free.source);
    }
    forall x | x in after
      ensures CameFrom(more, |more|, x, after[x])
    {
      if x == id { assert more[|log|] == Admitted(x, after[x]); } else { CameFromStays(log, e, |log|, x, after[x]); }
    }
  }

  lemma {:induction false} AllGoBack(log: seq<Effect>, frees: seq<Free>, sources: map<Id, string>)
    requires FreesGoBack(log) && Known(log, sources)
    requires forall f | f in frees :: f.source != "" && f.id in sources && sources[f.id] == f.source
    ensures FreesGoBack(log + AllSent(frees)) && Known(log + AllSent(frees), sources)
    decreases |frees|
  {
    if frees == [] {
      assert log + AllSent(frees) == log;
    } else {
      var e := Sent(frees[0]);
      assert frees[0] in frees;
      GoesBack(log, e, sources);
      AllGoBack(log + [e], frees[1..], sources);
      assert log + [e] + AllSent(frees[1..]) == log + AllSent(frees);
    }
  }

  lemma PassGoesBack(decode: bool, l: Loop, t: Turn, sources: map<Id, string>)
    requires t.Pass? && FreesGoBack(l.log) && Known(l.log, sources)
    requires forall r | r in t.reports :: r.id in sources && r.source == sources[r.id]
    ensures FreesGoBack(Turned(decode, l, t).log) && Known(Turned(decode, l, t).log, sources)
  {
    var newcomers, freed := Newcomers(t.reports, decode, l.previous), Unmarked(t.reports, l.freed);
    var e, frees := Scheduled(decode, t.prefill, t.batch), SendFrees(newcomers, freed).0;
    GoesBack(l.log, e, sources);
    forall f | f in frees
      ensures f.source != "" && f.id in sources && sources[f.id] == f.source
    {
      SentHaveSource(newcomers, freed, f);
      NewcomerReported(t.reports, decode, l.previous, f);
    }
    AllGoBack(l.log + [e], frees, sources);
  }

  lemma {:induction false} RunGoesBack(decode: bool, l: Loop, sources: map<Id, string>, turns: seq<Turn>)
    requires Carries(sources, turns) && FreesGoBack(l.log) && Known(l.log, sources)
    ensures FreesGoBack(Run(decode, l, turns).log)
    decreases |turns|
  {
    if turns != [] {
      var next := Turned(decode, l, turns[0]);
      match turns[0]
      case Admit(id, source) =>
        AdmitsAnew(l.log, id, source, sources);
        RunGoesBack(decode, next, sources[id := source], turns[1..]);
      case Abandon(_) =>
        RunGoesBack(decode, next, sources, turns[1..]);
      case Pass(prefill, batch, reports) =>
        PassGoesBack(decode, l, turns[0], sources);
        RunGoesBack(decode, next, sources, turns[1..]);
    }
  }

  /** Over every run of the backend loop: every FREE goes to the engine that sent the sequence, as
      told when it was last admitted. */
  lemma FreesReachSource(decode: bool, turns: seq<Turn>)
    requires Carries(map[], turns)
    ensures FreesGoBack(Run(decode, START, turns).log)
  {
    RunGoesBack(decode, START, map[], turns);
  }

  // ---- how often a sequence is freed ----

  /** The sequence is reported, with a source engine, and was not reported in the step before. */
  predicate Arrives(reports: seq<Report>, previous: set<Id>, id: Id) {
    id !in previous && exists r | r in reports :: r.id == id && r.source != ""
  }

  predicate Ends(reports: seq<Report>, id: Id) { exists r | r in reports :: r.id == id && r.finished }

  /** FREE messages for one sequence over the steps of a decode engine; `marked` tells whether
      it is marked as freed. The mark of a finished sequence is dropped before newcomers are
      looked at. */
  function Frees(steps: seq<seq<Report>>, previous: set<Id>, marked: bool, id: Id): nat
    decreases |steps|
  {
    if steps == [] then 0
    else
      var arrives, kept := Arrives(steps[0], previous, id), marked && !Ends(steps[0], id);
      (if arrives && !kept then 1 else 0) + Frees(steps[1..], IdsIn(steps[0]), arrives || kept, id)
  }

  /** Which sequences the step before step `k` reported. */
  function Before(steps: seq<seq<Report>>, previous: set<Id>, k: nat): set<Id>
    requires k < |steps|
  {
    if k == 0 then previous else IdsIn(steps[k - 1])
  }

  predicate ArrivesAt(steps: seq<seq<Report>>, previous: set<Id>, id: Id, k: nat) {
    k < |steps| && Arrives(steps[k], Before(steps, previous, k), id)
  }

  predicate EverArrives(steps: seq<seq<Report>>, previous: set<Id>, id: Id) {
    exists k | 0 <= k < |steps| :: ArrivesAt(steps, previous, id, k)
  }

  /** The steps of one admission: the sequence finishes in the last one, or not yet. */
  predicate OneAdmission(steps: seq<seq<Report>>, id: Id) {
    forall k | 0 <= k < |steps| - 1 :: !Ends(steps[k], id)
  }

  /** It comes back, after a step without it, in the step in which it finishes. */
  predicate EndsArriving(steps: seq<seq<Report>>, previous: set<Id>, id: Id) {
    steps != [] && ArrivesAt(steps, previous, id, |steps| - 1) && Ends(steps[|steps| - 1], id)
  }

  predicate LateReturn(steps: seq<seq<Report>>, previous: set<Id>, id: Id) {
    EndsArriving(steps, previous, id) && EverArrives(steps[..|steps| - 1], previous, id)
  }

  lemma {:induction false} FreesWhenMarked(steps: seq<seq<Report>>, previous: set<Id>, id: Id)
    requires OneAdmission(steps, id)
    ensures Frees(steps, previous, true, id) == if EndsArriving(steps, previous, id) then 1 else 0
    decreases |steps|
  {
    if |steps| == 1 {
      assert steps[1..] == [];
    } else if |steps| > 1 {
      StepsLater(steps, previous, id);
      FreesWhenMarked(steps[1..], IdsIn(steps[0]), id);
    }
  }

  lemma StepsLater(steps: seq<seq<Report>>, previous: set<Id>, id: Id)
    requires |steps| > 1
    ensures var rest, seen := steps[1..], IdsIn(steps[0]);
      && (forall k | 0 <= k < |rest| :: ArrivesAt(rest, seen, id, k) == ArrivesAt(steps, previous, id, k + 1))
      && EndsArriving(rest, seen, id) == EndsArriving(steps, previous, id)
      && EverArrives(steps, previous, id) == (ArrivesAt(steps, previous, id, 0) || EverArrives(rest, seen, id))
      && (OneAdmission(steps, id) ==> OneAdmission(rest, id))
  {
    var rest, seen := steps[1..], IdsIn(steps[0]);
    assert forall k | 0 <= k < |rest| :: rest[k] == steps[k + 1];
    forall k | 0 <= k < |rest|
      ensures ArrivesAt(rest, seen, id, k) == ArrivesAt(steps, previous, id, k + 1)
    {
    }
    if EverArrives(steps, previous, id) && !ArrivesAt(steps, previous, id, 0) {
      var k :| 0 <= k < |steps| && ArrivesAt(steps, previous, id, k);
      assert ArrivesAt(rest, seen, id, k - 1);
    }
    if EverArrives(rest, seen, id) {
      var k :| 0 <= k < |rest| && ArrivesAt(rest, seen, id, k);
      assert ArrivesAt(steps, previous, id, k + 1);
    }
  }

  /** One FREE for an admission in which the sequence arrives, however often it leaves and
      comes back, and a second one exactly for a late return. */
  lemma {:induction false} FreesPerAdmission(steps: seq<seq<Report>>, previous: set<Id>, id: Id)
    requires OneAdmission(steps, id)
    ensures Frees(steps, previous, false, id)
         == (if EverArrives(steps, previous, id) then 1 else 0) + (if LateReturn(steps, previous, id) then 1 else 0)
    decreases |steps|
  {
    if |steps| == 1 {
      assert steps[1..] == [] && steps[..0] == [];
      assert ArrivesAt(steps, previous, id, 0) == EverArrives(steps, previous, id);
    } else if |steps| > 1 {
      var rest, seen := steps[1..], IdsIn(steps[0]);
      StepsLater(steps, previous, id);
      LateLater(steps, previous, id);
      if ArrivesAt(steps, previous, id, 0) {
        FreesWhenMarked(rest, seen, id);
      } else {
        FreesPerAdmission(rest, seen, id);
      }
    }
  }

  lemma LateLater(steps: seq<seq<Report>>, previous: set<Id>, id: Id)
    requires |steps| > 1
    ensures LateReturn(steps, previous, id) ==
            (EndsArriving(steps, previous, id) &&
             (ArrivesAt(steps, previous, id, 0) || EverArrives(steps[1..][..|steps| - 2], IdsIn(steps[0]), id)))
  {
    var front := steps[..|steps| - 1];
    assert front[1..] == steps[1..][..|steps| - 2] && front[0] == steps[0];
    assert ArrivesAt(front, previous, id, 0) == ArrivesAt(steps, previous, id, 0);
    if |front| > 1 {
      StepsLater(front, previous, id);
    } else {
      assert EverArrives(front, previous, id) == ArrivesAt(front, previous, id, 0);
    }
  }

  // ---- the loop's frees are these ----

  function FreesFor(log: seq<Effect>, id: Id): nat {
    if log == [] then 0
    else (if log[0].Sent? && log[0].free.id == id then 1 else 0) + FreesFor(log[1..], id)
  }

  lemma {:induction false} FreesForAppends(a: seq<Effect>, b: seq<Effect>, id: Id)
    ensures FreesFor(a + b, id) == FreesFor(a, id) + FreesFor(b, id)
  {
    if a == [] {
      assert a + b == b;
    } else {
      assert (a + b)[1..] == a[1..] + b;
      FreesForAppends(a[1..], b, id);
    }
  }

  predicate Comes(newcomers: seq<Free>, id: Id) {
    exists f | f in newcomers :: f.id == id && f.source != ""
  }

  lemma {:induction false} SendFreesFor(newcomers: seq<Free>, freed: set<Id>, id: Id)
    ensures var (frees, marks) := SendFrees(newcomers, freed);
      && FreesFor(AllSent(frees), id) == (if Comes(newcomers, id) && id !in freed then 1 else 0)
      && (id in marks <==> id in freed || Comes(newcomers, id))
    decreases |newcomers|
  {
    if newcomers != [] {
      var f, rest := newcomers[0], newcomers[1..];
      var next := if f.source == "" || f.id in freed then freed else freed + {f.id};
      SendFreesFor(rest, next, id);
      SentFirst(f, SendFrees(rest, next).0, id);
      assert newcomers == [f] + rest;
      ComesFirst(f, rest, id);
    }
  }

  lemma SentFirst(f: Free, frees: seq<Free>, id: Id)
    ensures FreesFor(AllSent([f] + frees), id) == (if f.id == id then 1 else 0) + FreesFor(AllSent(frees), id)
  {
    var all := AllSent([f] + frees);
    assert all[0] == Sent(f) && all[1..] == AllSent(frees);
  }

  lemma ComesFirst(f: Free, rest: seq<Free>, id: Id)
    ensures Comes([f] + rest, id) <==> (f.id == id && f.source != "") || Comes(rest, id)
  {
  }

  lemma {:induction false} NewcomersOf(reports: seq<Report>, previous: set<Id>, id: Id)
    ensures Comes(Newcomers(reports, true, previous), id) <==> Arrives(reports, previous, id)
  {
    if reports != [] {
      var r, rest := reports[0], reports[1..];
      NewcomersOf(rest, previous, id);
      assert reports == [r] + rest;
      ComesFirst(Free(r.source, r.id), Newcomers(rest, true, previous), id);
    }
  }

  lemma {:induction false} UnmarkedOf(reports: seq<Report>, freed: set<Id>, id: Id)
    ensures id in Unmarked(reports, freed) <==> id in freed && !Ends(reports, id)
    decreases |reports|
  {
    if reports != [] {
      var r, rest := reports[0], reports[1..];
      UnmarkedOf(rest, if r.finished then freed - {r.id} else freed, id);
      assert reports == [r] + rest;
    }
  }

  /** The steps among the turns. */
  function Steps(turns: seq<Turn>): seq<seq<Report>> {
    if turns == [] then []
    else if turns[0].Pass? then [turns[0].reports] + Steps(turns[1..])
    else Steps(turns[1..])
  }

  /** The sequence is neither admitted nor aborted. */
  predicate Undisturbed(turns: seq<Turn>, id: Id) {
    forall t | t in turns :: !(t.Admit? && t.id == id) && (t.Abandon? ==> id !in t.aborted)
  }

  lemma {:induction false} RunFrees(l: Loop, turns: seq<Turn>, id: Id)
    requires Undisturbed(turns, id)
    ensures FreesFor(Run(true, l, turns).log, id)
         == FreesFor(l.log, id) + Frees(Steps(turns), l.previous, id in l.freed, id)
    decreases |turns|
  {
    if turns != [] {
      var next, rest := Turned(true, l, turns[0]), turns[1..];
      assert turns == [turns[0]] + rest && turns[0] in turns;
      RunFrees(next, rest, id);
      match turns[0]
      case Admit(other, source) => FreesForAppends(l.log, [Admitted(other, source)], id);
      case Abandon(_) =>
      case Pass(prefill, batch, reports) =>
        PassFrees(l, turns[0], id);
        assert ([reports] + Steps(rest))[1..] == Steps(rest);
    }
  }

  lemma PassFrees(l: Loop, t: Turn, id: Id)
    requires t.Pass?
    ensures var next := Turned(true, l, t);
            var arrives, kept := Arrives(t.reports, l.previous, id), id in l.freed && !Ends(t.reports, id);
      && FreesFor(next.log, id) == FreesFor(l.log, id) + (if arrives && !kept then 1 else 0)
      && next.previous == IdsIn(t.reports) && (id in next.freed <==> arrives || kept)
  {
    var newcomers, freed := Newcomers(t.reports, true, l.previous), Unmarked(t.reports, l.freed);
    NewcomersOf(t.reports, l.previous, id);
    UnmarkedOf(t.reports, l.freed, id);
    SendFreesFor(newcomers, freed, id);
    var e := Scheduled(true, t.prefill, t.batch);
    FreesForAppends(l.log, [e], id);
    assert FreesFor([e], id) == 0 by { assert [e][1..] == []; }
    FreesForAppends(l.log + [e], AllSent(SendFrees(newcomers, freed).0), id);
  }

  /** Over the turns of one admission, with other sequences interleaved in any way: the source
      engine is told to free the sequence at most once if and only if there is no late return. */
  lemma AdmissionFreedOnce(l: Loop, turns: seq<Turn>, id: Id)
    requires Undisturbed(turns, id) && id !in l.freed && OneAdmission(Steps(turns), id)
    ensures FreesFor(Run(true, l, turns).log, id) <= FreesFor(l.log, id) + 1 <==> !LateReturn(Steps(turns), l.previous, id)
  {
    RunFrees(l, turns, id);
    FreesPerAdmission(Steps(turns), l.previous, id);
    var steps := Steps(turns);
    if LateReturn(steps, l.previous, id) { assert ArrivesAt(steps, l.previous, id, |steps| - 1); }
  }

  predicate Shows(reports: seq<Report>, id: Id) { id in IdsIn(reports) }

  /** A migrated sequence: every report names its source. */
  predicate FromElsewhere(steps: seq<seq<Report>>, id: Id) {
    forall k | 0 <= k < |steps| :: forall r | r in steps[k] && r.id == id :: r.source != ""
  }

  /** In terms of the reports alone: the sequence is reported, is missing from the last step but
      one, and finishes in the last. */
  lemma LateReturnIs(steps: seq<seq<Report>>, previous: set<Id>, id: Id)
    requires id !in previous && FromElsewhere(steps, id)
    ensures LateReturn(steps, previous, id) <==>
            var n := |steps| - 1;
            n > 0 && Ends(steps[n], id) && !Shows(steps[n - 1], id) && exists j | 0 <= j < n :: Shows(steps[j], id)
  {
    var n := |steps| - 1;
    if n > 0 {
      var front := steps[..n];
      if EverArrives(front, previous, id) {
        var j :| 0 <= j < |front| && ArrivesAt(front, previous, id, j);
        assert Shows(steps[j], id);
      }
      if exists j | 0 <= j < n :: Shows(steps[j], id) {
        var j :| 0 <= j < n && Shows(steps[j], id);
        FirstShowArrives(front, previous, id, j);
      }
      if Ends(steps[n], id) && !Shows(steps[n - 1], id) { assert ArrivesAt(steps, previous, id, n); }
    }
  }

  lemma {:induction false} FirstShowArrives(steps: seq<seq<Report>>, previous: set<Id>, id: Id, j: nat)
    requires id !in previous && FromElsewhere(steps, id) && j < |steps| && Shows(steps[j], id)
    ensures EverArrives(steps, previous, id)
    decreases j
  {
    if j > 0 && Shows(steps[j - 1], id) {
      FirstShowArrives(steps, previous, id, j - 1);
    } else {
      assert ArrivesAt(steps, previous, id, j);
    }
  }

  lemma PassFirst(scheduled: set<Id>, prefill: bool, r: Report, rest: seq<Turn>)
    requires (prefill || r.id in scheduled) && Schedules(scheduled + {r.id}, rest)
    ensures var turns := [Pass(prefill, [r.id], [r])] + rest;
            Schedules(scheduled, turns) && Steps(turns) == [[r]] + Steps(rest)
  {
    var turns := [Pass(prefill, [r.id], [r])] + rest;
    assert turns[1..] == rest;
    assert SetOf([r.id]) == {r.id};
  }

  lemma AdmitFirst(scheduled: set<Id>, id: Id, source: string, rest: seq<Turn>)
    requires Schedules(scheduled - {id}, rest)
    ensures Schedules(scheduled, [Admit(id, source)] + rest) && Steps([Admit(id, source)] + rest) == Steps(rest)
  {
    assert ([Admit(id, source)] + rest)[1..] == rest;
  }

  /** The loop gets there: while another sequence is handed over, the first one is not scheduled,
      and it finishes in the step after that. */
  lemma LateReturnHappens(a: Report, b: Report, c: Report)
    requires a.id == c.id != b.id && a.source == c.source != "" && !a.finished && c.finished
    ensures var turns := [Pass(true, [a.id], [a]), Admit(b.id, b.source), Pass(true, [b.id], [b]), Pass(false, [c.id], [c])];
      && Schedules({}, [Admit(a.id, a.source)] + turns) && Undisturbed(turns, a.id)
      && OneAdmission(Steps(turns), a.id) && LateReturn(Steps(turns), {}, a.id)
  {
    var t1, t3, t4 := Pass(true, [a.id], [a]), Pass(true, [b.id], [b]), Pass(false, [c.id], [c]);
    PassFirst({a.id} - {b.id} + {b.id}, false, c, []);
    PassFirst({a.id} - {b.id}, true, b, [t4] + []);
    AdmitFirst({a.id}, b.id, b.source, [t3] + ([t4] + []));
    assert {} + {a.id} == {a.id};
    PassFirst({}, true, a, [Admit(b.id, b.source)] + ([t3] + ([t4] + [])));
    assert {} - {a.id} == {};
    AdmitFirst({}, a.id, a.source, [t1] + ([Admit(b.id, b.source)] + ([t3] + ([t4] + []))));
    assert [t1, Admit(b.id, b.source), t3, t4] == [t1] + ([Admit(b.id, b.source)] + ([t3] + ([t4] + [])));
    ThreeSteps(a, b, c, [[a]] + ([[b]] + ([[c]] + [])));
  }

  lemma ThreeSteps(a: Report, b: Report, c: Report, steps: seq<seq<Report>>)
    requires a.id == c.id != b.id && a.source == c.source != "" && !a.finished && c.finished
    requires |steps| == 3 && steps[0] == [a] && steps[1] == [b] && steps[2] == [c]
    ensures OneAdmission(steps, a.id) && LateReturn(steps, {}, a.id)
  {
    assert c in steps[2] && a in steps[0] && Shows(steps[0], a.id);
    LateReturnIs(steps, {}, a.id);
  }

  /** A sequence that arrives and finishes in one step keeps its mark; the next admission with
      its id, if it does not end that way too, is never freed. */
  lemma StaleMark(l: Loop, last: Turn, turns: seq<Turn>, id: Id, source: string)
    requires last.Pass? && Arrives(last.reports, l.previous, id) && Ends(last.reports, id)
    requires Undisturbed(turns, id) && OneAdmission(Steps(turns), id)
    requires !EndsArriving(Steps(turns), IdsIn(last.reports), id)
    ensures var before, again := Turned(true, l, last), Turned(true, Turned(true, l, last), Admit(id, source));
            FreesFor(Run(true, again, turns).log, id) == FreesFor(before.log, id)
  {
    PassFrees(l, last, id);
    var before := Turned(true, l, last);
    FreesForAppends(before.log, [Admitted(id, source)], id);
    RunFrees(Turned(true, before, Admit(id, source)), turns, id);
    FreesWhenMarked(Steps(turns), IdsIn(last.reports), id);
  }

  /** Nor is one that is admitted again and reported in every step from then on, without a step
      in between: it is never newly running. */
  lemma {:induction false} NeverNew(steps: seq<seq<Report>>, previous: set<Id>, marked: bool, id: Id)
    requires id in previous && forall k | 0 <= k < |steps| :: Shows(steps[k], id)
    ensures Frees(steps, previous, marked, id) == 0
    decreases |steps|
  {
    if steps != [] {
      assert Shows(steps[0], id) && forall k | 0 <= k < |steps[1..]| :: steps[1..][k] == steps[k + 1];
      NeverNew(steps[1..], IdsIn(steps[0]), marked && !Ends(steps[0], id), id);
    }
  }

  // ---- what the step of a hand-over tells the client ----

  /** A sequence that is handed over puts nothing on the results queue, although its last token,
      the one sampled by the prefill engine, is known: if and only if no tokens are left over from
      the last run, and it is newly running. */
  lemma HandOverIsSilent(reports: seq<Report>, previous: set<Id>, r: Report)
    requires (forall i, j | 0 <= i < j < |reports| :: reports[i].id != reports[j].id) && r in reports
    requires !r.finished && !r.toBeMigrated && r.numTokens > 0
    ensures PacketsOf(Flatten(Emit(EventsIn(reports, true, previous))), r.id) == [] <==>
            r.tokenIds == [] && r.id !in previous
  {
    Safety.EmitOf(EventsIn(reports, true, previous), r.id);
    Safety.OwnEvents(reports, true, previous, true, r);
    Safety.ReportOfOne(EventOf(r, IsNew(true, previous, r)));
  }
}
