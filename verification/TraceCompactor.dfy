/** Collapsing repeated CUDA Graph branch lanes: lanes of one process with equal kernel counts
    are mapped onto one of them. */
module TraceCompactor {
  import opened Patterns
  import opened TraceIds

  /** `args` of an event, as far as it matters here. */
  datatype Args = Args(stream: Option<Ident>, name: Option<string>, labels: Option<string>, rest: string)

  datatype Event = Event(pid: Option<Ident>, tid: Option<Ident>, ph: string, cat: string, name: string,
                         args: Option<Args>, rest: string)

  type Lane = (Ident, Ident)

  /** A JSON null; as a target it is taken for none. */
  const NULL := Odd("null")

  predicate Moves(mapping: map<Lane, Ident>, l: Lane) { l in mapping && mapping[l] != NULL }

  predicate IsKernel(e: Event) { e.cat == "kernel" && e.ph == "X" && e.pid.Some? && e.tid.Some? }

  predicate IsLaunch(e: Event) { e.cat == "cuda_runtime" && e.name == "cudaGraphLaunch" }

  predicate IsThreadName(e: Event) { e.ph == "M" && e.name == "thread_name" && e.args.Some? }

  function LaneOf(e: Event): Lane
    requires e.pid.Some? && e.tid.Some?
  {
    (e.pid.value, e.tid.value)
  }

  // ---- what is observed ----

  /** The kernels of a lane, as a bag of names. */
  function KernelsOn(events: seq<Event>, lane: Lane): multiset<string> {
    if events == [] then multiset{}
    else if IsKernel(events[0]) && LaneOf(events[0]) == lane then multiset{events[0].name} + KernelsOn(events[1..], lane)
    else KernelsOn(events[1..], lane)
  }

  /** Lanes with kernels, in the order of their first kernel. */
  function Lanes(events: seq<Event>, seen: seq<Lane>): seq<Lane>
    decreases |events|
  {
    if events == [] then seen
    else if IsKernel(events[0]) && LaneOf(events[0]) !in seen then Lanes(events[1..], seen + [LaneOf(events[0])])
    else Lanes(events[1..], seen)
  }

  // ---- grouping ----

  /** Lanes go together when they have the same process and the same kernels. */
  type GroupKey = (Ident, multiset<string>)

  function KeyOf(kernels: map<Lane, multiset<string>>, lane: Lane): GroupKey
    requires lane in kernels
  {
    (lane.0, kernels[lane])
  }

  /** The thread ids of a group, in the order of the lanes. */
  function TidsOf(lanes: seq<Lane>, kernels: map<Lane, multiset<string>>, key: GroupKey): seq<Ident>
    requires forall l | l in lanes :: l in kernels
  {
    if lanes == [] then []
    else if KeyOf(kernels, lanes[0]) == key then [lanes[0].1] + TidsOf(lanes[1..], kernels, key)
    else TidsOf(lanes[1..], kernels, key)
  }

  predicate AllNumbers(tids: seq<Ident>) { forall t | t in tids :: t.Number? }

  function Least(tids: seq<Ident>): (t: Ident)
    requires tids != [] && AllNumbers(tids)
    ensures t in tids && forall u | u in tids :: t.n <= u.n
  {
    if |tids| == 1 then tids[0]
    else
      var r := Least(tids[1..]);
      if r.n < tids[0].n then r else tids[0]
  }

  function Target(tids: seq<Ident>): (t: Ident)
    requires tids != []
    ensures t in tids
  {
    if AllNumbers(tids) then Least(tids) else tids[0]
  }

  class StreamLaneCompactor {
    const minGroupSize: nat
    var launches: nat
    var lanes: seq<Lane>                     // insertion order of `kernels`
    var kernels: map<Lane, multiset<string>>
    var mapping: map<Lane, Ident>
    var groupSizes: map<Lane, nat>
    var emitted: set<Lane>

    constructor (minGroupSize: nat)
      requires minGroupSize >= 2
      ensures this.minGroupSize == minGroupSize && Watching([])
      ensures mapping == map[] && emitted == {} && groupSizes == map[]
    {
      this.minGroupSize := minGroupSize;
      launches, lanes, kernels, mapping, groupSizes, emitted := 0, [], map[], map[], map[], {};
    }

    /** The counters hold what the events show. */
    ghost predicate Watching(events: seq<Event>)
      reads this
    {
      launches == Launches(events) && Counts(events, lanes, kernels)
    }

    method Observe(e: Event, ghost before: seq<Event>)
      requires Watching(before)
      modifies `launches, `lanes, `kernels
      ensures Watching(before + [e])
    {
      LaunchesAppend(before, e);
      if IsLaunch(e) { launches := launches + 1; }
      if IsKernel(e) {
        CountsKernel(before, e, lanes, kernels);
        var lane := LaneOf(e);
        if lane !in kernels { lanes := lanes + [lane]; }
        kernels := kernels[lane := (if lane in kernels then kernels[lane] else multiset{}) + multiset{e.name}];
      } else {
        CountsOther(before, e, lanes, kernels);
      }
    }

    /** `finalize`: every lane of a large enough group is mapped to the group's target, which
        keeps the size of the group; nothing is mapped unless a graph was launched. */
    method Finalize(ghost events: seq<Event>) returns (compacted: nat)
      requires Watching(events) && mapping == map[] && groupSizes == map[]
      modifies `mapping, `groupSizes
      ensures compacted == |Moved(mapping)| && Decided(events, minGroupSize, mapping, groupSizes)
    {
      LaunchesSome(events);
      if launches == 0 {
        assert Moved(mapping) == {};
        return 0;
      }
      LanesDistinct(events, []);
      TallyIs(events, lanes, kernels);
      var order, groups := GroupLanes();
      assert Moved(mapping) == {};
      compacted := MapAll(order, groups);
    }

    method MapAll(order: seq<GroupKey>, groups: map<GroupKey, seq<Ident>>) returns (compacted: nat)
      requires Lined(lanes, kernels) && Distinct(lanes) && Grouped(order, groups, lanes, kernels)
      requires mapping == map[] && groupSizes == map[] && Moved(mapping) == {}
      modifies `mapping, `groupSizes
      ensures compacted == |Moved(mapping)| && Measures(mapping, groupSizes, lanes, kernels)
      ensures Maps(mapping, lanes, kernels, minGroupSize, Keys(lanes, kernels))
    {
      compacted := 0;
      ghost var done: set<GroupKey> := {};
      for k := 0 to |order|
        invariant (forall key :: key in done <==> key in order[..k]) && compacted == |Moved(mapping)|
        invariant Maps(mapping, lanes, kernels, minGroupSize, done) && Measures(mapping, groupSizes, lanes, kernels)
      {
        assert order[..k + 1] == order[..k] + [order[k]];
        assert order[k] in order && order[k] !in order[..k];
        var n := MapIfLarge(order[k], groups[order[k]], done);
        compacted := compacted + n;
        done := done + {order[k]};
      }
      assert order[..|order|] == order;
      assert done == Keys(lanes, kernels);
    }

    /** `compact` */
    method Compact(e: Event) returns (kept: Option<Event>)
      requires Sized(mapping, groupSizes)
      modifies `emitted
      ensures (kept, emitted) == CompactOne(mapping, groupSizes, old(emitted), e)
    {
      if e.pid.None? || e.tid.None? || LaneOf(e) !in mapping || mapping[LaneOf(e)] == NULL { return Some(e); }
      var target := mapping[LaneOf(e)];
      var moved := e.(tid := Some(target));
      if e.args.Some? {
        var args := e.args.value;
        if args.stream == e.tid { args := args.(stream := Some(target)); }
        if IsThreadName(e) {
          var lane := (e.pid.value, target);
          if lane in emitted { return None; }
          emitted := emitted + {lane};
          args := args.(name := Some("logical CUDA graph branch (" + Digits(groupSizes[lane]) + " lanes)"));
        }
        moved := moved.(args := Some(args));
      }
      return Some(moved);
    }

    method MapIfLarge(key: GroupKey, tids: seq<Ident>, ghost done: set<GroupKey>) returns (moved: nat)
      requires Lined(lanes, kernels) && Distinct(lanes) && Maps(mapping, lanes, kernels, minGroupSize, done) && key !in done
      requires tids == TidsOf(lanes, kernels, key) && tids != [] && Measures(mapping, groupSizes, lanes, kernels)
      modifies `mapping, `groupSizes
      ensures Maps(mapping, lanes, kernels, minGroupSize, done + {key}) && Measures(mapping, groupSizes, lanes, kernels)
      ensures |Moved(mapping)| == |Moved(old(mapping))| + moved
    {
      ghost var before := mapping;
      FreshGroup(lanes, kernels, minGroupSize, done, mapping, key);
      moved := 0;
      if |tids| >= minGroupSize {
        MeasuresGrow(lanes, kernels, mapping, groupSizes, key);
        moved := MapGroup(key.0, tids);
      }
      MapsGrow(lanes, kernels, minGroupSize, done, before, mapping, key);
    }

    /** The groups and their thread ids, in order of appearance. */
    method GroupLanes() returns (order: seq<GroupKey>, groups: map<GroupKey, seq<Ident>>)
      requires Lined(lanes, kernels)
      ensures Grouped(order, groups, lanes, kernels)
    {
      order, groups := [], map[];
      for i := 0 to |lanes|
        invariant Grouped(order, groups, lanes[..i], kernels)
      {
        var lane := lanes[i];
        var key := KeyOf(kernels, lane);
        assert lanes[..i + 1] == lanes[..i] + [lane];
        GroupedGrows(order, groups, lanes[..i], kernels, lane);
        if key !in groups { order := order + [key]; }
        groups := groups[key := (if key in groups then groups[key] else []) + [lane.1]];
      }
      assert lanes[..|lanes|] == lanes;
    }

    /** One group: all its lanes go to the target, which keeps the size of the group. */
    method MapGroup(pid: Ident, tids: seq<Ident>) returns (moved: nat)
      requires tids != [] && DistinctIds(tids) && (forall t | t in tids :: (pid, t) !in mapping)
      modifies `mapping, `groupSizes
      ensures mapping == Extended(old(mapping), pid, tids, Target(tids))
      ensures groupSizes == old(groupSizes)[(pid, Target(tids)) := |tids|]
      ensures |Moved(mapping)| == |Moved(old(mapping))| + moved
    {
      var target := Target(tids);
      groupSizes := groupSizes[(pid, target) := |tids|];
      moved := 0;
      ghost var before := mapping;
      for i := 0 to |tids|
        invariant groupSizes == old(groupSizes)[(pid, target) := |tids|]
        invariant mapping == Extended(before, pid, tids[..i], target) && |Moved(mapping)| == |Moved(before)| + moved
      {
        MapStep(before, pid, tids, i, target);
        mapping := mapping[(pid, tids[i]) := target];
        if tids[i] != target { moved := moved + 1; }
      }
      assert tids[..|tids|] == tids;
    }
  }

  ghost predicate DistinctIds(tids: seq<Ident>) { forall i, j | 0 <= i < j < |tids| :: tids[i] != tids[j] }

  lemma MapStep(before: map<Lane, Ident>, pid: Ident, tids: seq<Ident>, i: nat, target: Ident)
    requires DistinctIds(tids) && i < |tids| && forall t | t in tids :: (pid, t) !in before
    ensures var now, next := Extended(before, pid, tids[..i], target), Extended(before, pid, tids[..i + 1], target);
            next == now[(pid, tids[i]) := target] && |Moved(next)| == |Moved(now)| + (if tids[i] != target then 1 else 0)
  {
    var now := Extended(before, pid, tids[..i], target);
    assert tids[..i + 1] == tids[..i] + [tids[i]];
    ExtendedGrows(before, pid, tids[..i], tids[i], target);
    assert tids[i] !in tids[..i];
    MovedGrows(now, (pid, tids[i]), target);
  }

  /** Lanes that are mapped to another one; `remapped_lane_count` is their number. */
  function Moved(mapping: map<Lane, Ident>): set<Lane> { set l | l in mapping && mapping[l] != l.1 }

  function Extended(mapping: map<Lane, Ident>, pid: Ident, tids: seq<Ident>, target: Ident): map<Lane, Ident> {
    map l | l in mapping.Keys + (set t | t in tids :: (pid, t)) :: if l in mapping then mapping[l] else target
  }

  lemma ExtendedGrows(mapping: map<Lane, Ident>, pid: Ident, tids: seq<Ident>, t: Ident, target: Ident)
    requires (pid, t) !in mapping
    ensures Extended(mapping, pid, tids, target)[(pid, t) := target] == Extended(mapping, pid, tids + [t], target)
  {
    assert (set u | u in tids + [t] :: (pid, u)) == (set u | u in tids :: (pid, u)) + {(pid, t)};
  }

  ghost function Keys(lanes: seq<Lane>, kernels: map<Lane, multiset<string>>): set<GroupKey>
    requires forall l | l in lanes :: l in kernels
  {
    set l | l in lanes :: KeyOf(kernels, l)
  }

  /** `order` lists the groups once each, and `groups` holds their thread ids. */
  ghost predicate Grouped(order: seq<GroupKey>, groups: map<GroupKey, seq<Ident>>, lanes: seq<Lane>,
                          kernels: map<Lane, multiset<string>>)
    requires forall l | l in lanes :: l in kernels
  {
    && (forall i, j | 0 <= i < j < |order| :: order[i] != order[j])
    && (forall key :: key in order <==> key in Keys(lanes, kernels)) && (forall key :: key in order <==> key in groups)
    && forall key | key in groups :: groups[key] == TidsOf(lanes, kernels, key) && groups[key] != []
  }

  lemma GroupedGrows(order: seq<GroupKey>, groups: map<GroupKey, seq<Ident>>, lanes: seq<Lane>,
                     kernels: map<Lane, multiset<string>>, lane: Lane)
    requires (forall l | l in lanes :: l in kernels) && lane in kernels && Grouped(order, groups, lanes, kernels)
    ensures var key := KeyOf(kernels, lane);
            Grouped(if key in groups then order else order + [key],
                    groups[key := (if key in groups then groups[key] else []) + [lane.1]], lanes + [lane], kernels)
  {
    var key := KeyOf(kernels, lane);
    var order', groups' := if key in groups then order else order + [key],
                           groups[key := (if key in groups then groups[key] else []) + [lane.1]];
    KeysGrow(lanes, kernels, lane);
    forall k | k in groups'
      ensures groups'[k] == TidsOf(lanes + [lane], kernels, k) && groups'[k] != []
    {
      TidsAppend(lanes, kernels, lane, k);
      if k !in groups { NewGroup(lanes, kernels, k); }
    }
  }

  lemma KeysGrow(lanes: seq<Lane>, kernels: map<Lane, multiset<string>>, lane: Lane)
    requires (forall l | l in lanes :: l in kernels) && lane in kernels
    ensures Keys(lanes + [lane], kernels) == Keys(lanes, kernels) + {KeyOf(kernels, lane)}
  {
    assert forall l :: l in lanes + [lane] <==> l in lanes || l == lane;
  }

  lemma NewGroup(lanes: seq<Lane>, kernels: map<Lane, multiset<string>>, key: GroupKey)
    requires (forall l | l in lanes :: l in kernels) && key !in Keys(lanes, kernels)
    ensures TidsOf(lanes, kernels, key) == []
  {
    assert forall l | l in lanes :: KeyOf(kernels, l) in Keys(lanes, kernels);
    NoTids(lanes, kernels, key);
  }

  /** Every target's group has a size on record. */
  ghost predicate Sized(mapping: map<Lane, Ident>, sizes: map<Lane, nat>) {
    forall l | l in mapping :: (l.0, mapping[l]) in sizes
  }

  /** What the compactor decides for a trace, from the kernels of its lanes. */
  ghost predicate Decided(events: seq<Event>, least: nat, mapping: map<Lane, Ident>, sizes: map<Lane, nat>) {
    if !(exists e | e in events :: IsLaunch(e)) then mapping == map[] && sizes == map[]
    else
      var lanes, kernels := Lanes(events, []), Tally(events);
      Maps(mapping, lanes, kernels, least, Keys(lanes, kernels)) && Measures(mapping, sizes, lanes, kernels)
  }

  /** Sizes are recorded for the targets, each with the number of lanes of its group. */
  ghost predicate Measures(mapping: map<Lane, Ident>, sizes: map<Lane, nat>, lanes: seq<Lane>,
                           kernels: map<Lane, multiset<string>>)
    requires Lined(lanes, kernels)
  {
    forall l: Lane :: MeasuresLane(mapping, sizes, lanes, kernels, l)
  }

  ghost predicate MeasuresLane(mapping: map<Lane, Ident>, sizes: map<Lane, nat>, lanes: seq<Lane>,
                               kernels: map<Lane, multiset<string>>, l: Lane)
    requires Lined(lanes, kernels)
  {
    && (l in sizes <==> l in mapping && mapping[l] == l.1)
    && (l in sizes ==> l in kernels && sizes[l] == |TidsOf(lanes, kernels, KeyOf(kernels, l))|)
  }

  lemma MeasuresGrow(lanes: seq<Lane>, kernels: map<Lane, multiset<string>>, mapping: map<Lane, Ident>,
                     sizes: map<Lane, nat>, key: GroupKey)
    requires Lined(lanes, kernels) && Measures(mapping, sizes, lanes, kernels)
    requires var tids := TidsOf(lanes, kernels, key); tids != [] && forall t | t in tids :: (key.0, t) !in mapping
    ensures var tids := TidsOf(lanes, kernels, key);
            Measures(Extended(mapping, key.0, tids, Target(tids)), sizes[(key.0, Target(tids)) := |tids|], lanes, kernels)
  {
    var tids := TidsOf(lanes, kernels, key);
    var after, larger := Extended(mapping, key.0, tids, Target(tids)), sizes[(key.0, Target(tids)) := |tids|];
    forall l
      ensures MeasuresLane(after, larger, lanes, kernels, l)
    {
      assert MeasuresLane(mapping, sizes, lanes, kernels, l);
      TidsIn(lanes, kernels, key, l.1);
    }
  }

  /** The target of a lane's group stands for itself, so its size is on record. */
  lemma DecidedIsSized(events: seq<Event>, least: nat, mapping: map<Lane, Ident>, sizes: map<Lane, nat>)
    requires Decided(events, least, mapping, sizes)
    ensures Sized(mapping, sizes)
  {
    if exists e | e in events :: IsLaunch(e) {
      var lanes, kernels := Lanes(events, []), Tally(events);
      forall l | l in mapping
        ensures (l.0, mapping[l]) in sizes
      {
        var target := (l.0, mapping[l]);
        assert MapsLane(mapping, lanes, kernels, least, Keys(lanes, kernels), l);
        TidsIn(lanes, kernels, KeyOf(kernels, l), mapping[l]);
        assert MapsLane(mapping, lanes, kernels, least, Keys(lanes, kernels), target);
        assert MeasuresLane(mapping, sizes, lanes, kernels, target);
      }
    }
  }

  /** The trace alone decides. */
  lemma DecidedOnce(events: seq<Event>, least: nat, mapping: map<Lane, Ident>, sizes: map<Lane, nat>,
                    mapping': map<Lane, Ident>, sizes': map<Lane, nat>)
    requires Decided(events, least, mapping, sizes) && Decided(events, least, mapping', sizes')
    ensures mapping == mapping' && sizes == sizes'
  {
    if exists e | e in events :: IsLaunch(e) {
      var lanes, kernels := Lanes(events, []), Tally(events);
      forall l
        ensures (l in mapping <==> l in mapping') && (l in mapping ==> mapping[l] == mapping'[l])
      {
        assert MapsLane(mapping, lanes, kernels, least, Keys(lanes, kernels), l);
        assert MapsLane(mapping', lanes, kernels, least, Keys(lanes, kernels), l);
      }
      assert mapping == mapping';
      forall l
        ensures (l in sizes <==> l in sizes') && (l in sizes ==> sizes[l] == sizes'[l])
      {
        assert MeasuresLane(mapping, sizes, lanes, kernels, l);
        assert MeasuresLane(mapping', sizes', lanes, kernels, l);
      }
    }
  }

  /** Of the groups `done`, exactly the lanes of the large enough ones are mapped, to their target. */
  ghost predicate Maps(mapping: map<Lane, Ident>, lanes: seq<Lane>, kernels: map<Lane, multiset<string>>, least: nat,
                       done: set<GroupKey>)
    requires Lined(lanes, kernels)
  {
    forall l :: MapsLane(mapping, lanes, kernels, least, done, l)
  }

  ghost predicate MapsLane(mapping: map<Lane, Ident>, lanes: seq<Lane>, kernels: map<Lane, multiset<string>>, least: nat,
                           done: set<GroupKey>, l: Lane)
    requires Lined(lanes, kernels)
  {
    && (l in mapping <==> l in kernels && KeyOf(kernels, l) in done && |TidsOf(lanes, kernels, KeyOf(kernels, l))| >= least)
    && (l in mapping ==> TidsOf(lanes, kernels, KeyOf(kernels, l)) != []
                         && mapping[l] == Target(TidsOf(lanes, kernels, KeyOf(kernels, l))))
  }

  lemma MovedGrows(mapping: map<Lane, Ident>, lane: Lane, target: Ident)
    requires lane !in mapping
    ensures |Moved(mapping[lane := target])| == |Moved(mapping)| + (if lane.1 != target then 1 else 0)
  {
    var after := mapping[lane := target];
    if lane.1 != target {
      assert Moved(after) == Moved(mapping) + {lane};
    } else {
      assert Moved(after) == Moved(mapping);
    }
  }

  lemma {:induction false} TidsAppend(lanes: seq<Lane>, kernels: map<Lane, multiset<string>>, lane: Lane, key: GroupKey)
    requires (forall l | l in lanes :: l in kernels) && lane in kernels
    ensures TidsOf(lanes + [lane], kernels, key)
         == TidsOf(lanes, kernels, key) + (if key == KeyOf(kernels, lane) then [lane.1] else [])
  {
    if lanes == [] {
      assert lanes + [lane] == [lane] && [lane][1..] == [];
    } else {
      assert (lanes + [lane])[1..] == lanes[1..] + [lane];
      TidsAppend(lanes[1..], kernels, lane, key);
    }
  }

  lemma {:induction false} TidsIn(lanes: seq<Lane>, kernels: map<Lane, multiset<string>>, key: GroupKey, t: Ident)
    requires forall l | l in lanes :: l in kernels
    ensures t in TidsOf(lanes, kernels, key) <==> (key.0, t) in lanes && kernels[(key.0, t)] == key.1
  {
    if lanes != [] {
      TidsIn(lanes[1..], kernels, key, t);
      assert lanes == [lanes[0]] + lanes[1..];
    }
  }

  lemma NoTids(lanes: seq<Lane>, kernels: map<Lane, multiset<string>>, key: GroupKey)
    requires forall l | l in lanes :: l in kernels && KeyOf(kernels, l) != key
    ensures TidsOf(lanes, kernels, key) == []
  {
    if TidsOf(lanes, kernels, key) != [] {
      var t := TidsOf(lanes, kernels, key)[0];
      TidsIn(lanes, kernels, key, t);
    }
  }

  lemma {:induction false} TidsDistinct(lanes: seq<Lane>, kernels: map<Lane, multiset<string>>, key: GroupKey)
    requires (forall l | l in lanes :: l in kernels) && Distinct(lanes)
    ensures DistinctIds(TidsOf(lanes, kernels, key))
  {
    if lanes != [] {
      var rest := lanes[1..];
      TidsDistinct(rest, kernels, key);
      TidsIn(rest, kernels, key, lanes[0].1);
      assert lanes[0] !in rest;
    }
  }

  /** A group not done yet has no mapped lanes. */
  lemma FreshGroup(lanes: seq<Lane>, kernels: map<Lane, multiset<string>>, least: nat, done: set<GroupKey>,
                   mapping: map<Lane, Ident>, key: GroupKey)
    requires Lined(lanes, kernels) && Distinct(lanes) && Maps(mapping, lanes, kernels, least, done) && key !in done
    ensures forall t | t in TidsOf(lanes, kernels, key) :: (key.0, t) !in mapping
    ensures DistinctIds(TidsOf(lanes, kernels, key))
  {
    TidsDistinct(lanes, kernels, key);
    forall t | t in TidsOf(lanes, kernels, key)
      ensures (key.0, t) !in mapping
    {
      TidsIn(lanes, kernels, key, t);
      assert MapsLane(mapping, lanes, kernels, least, done, (key.0, t));
    }
  }

  lemma MapsGrow(lanes: seq<Lane>, kernels: map<Lane, multiset<string>>, least: nat, done: set<GroupKey>,
                 before: map<Lane, Ident>, after: map<Lane, Ident>, key: GroupKey)
    requires Lined(lanes, kernels) && Maps(before, lanes, kernels, least, done) && key !in done
    requires var tids := TidsOf(lanes, kernels, key);
             tids != [] && after == if |tids| >= least then Extended(before, key.0, tids, Target(tids)) else before
    ensures Maps(after, lanes, kernels, least, done + {key})
  {
    forall l
      ensures MapsLane(after, lanes, kernels, least, done + {key}, l)
    {
      assert MapsLane(before, lanes, kernels, least, done, l);
      TidsIn(lanes, kernels, key, l.1);
    }
  }

  /** `lanes` and `kernels` are the lanes of the events and their kernels. */
  ghost predicate Counts(events: seq<Event>, lanes: seq<Lane>, kernels: map<Lane, multiset<string>>) {
    lanes == Lanes(events, []) && Lined(lanes, kernels) && Tallied(events, kernels)
  }

  ghost predicate Lined(lanes: seq<Lane>, kernels: map<Lane, multiset<string>>) {
    forall l :: l in kernels <==> l in lanes
  }

  ghost predicate Tallied(events: seq<Event>, kernels: map<Lane, multiset<string>>) {
    forall lane | lane in kernels :: kernels[lane] == KernelsOn(events, lane)
  }

  /** The kernels of every lane that has some. */
  ghost function Tally(events: seq<Event>): (kernels: map<Lane, multiset<string>>)
    ensures Counts(events, Lanes(events, []), kernels)
  {
    map l | l in Lanes(events, []) :: KernelsOn(events, l)
  }

  lemma TallyIs(events: seq<Event>, lanes: seq<Lane>, kernels: map<Lane, multiset<string>>)
    requires Counts(events, lanes, kernels)
    ensures kernels == Tally(events)
  {
  }

  /** How many graphs were launched. */
  function Launches(events: seq<Event>): nat {
    if events == [] then 0 else (if IsLaunch(events[0]) then 1 else 0) + Launches(events[1..])
  }

  lemma {:induction false} LaunchesAppend(events: seq<Event>, e: Event)
    ensures Launches(events + [e]) == Launches(events) + (if IsLaunch(e) then 1 else 0)
  {
    if events == [] {
      assert events + [e] == [e] && [e][1..] == [];
    } else {
      assert (events + [e])[1..] == events[1..] + [e];
      LaunchesAppend(events[1..], e);
    }
  }

  lemma {:induction false} LaunchesSome(events: seq<Event>)
    ensures Launches(events) > 0 <==> exists e | e in events :: IsLaunch(e)
  {
    if events != [] {
      LaunchesSome(events[1..]);
      assert forall e :: e in events <==> e == events[0] || e in events[1..];
    }
  }

  lemma CountsOther(events: seq<Event>, e: Event, lanes: seq<Lane>, kernels: map<Lane, multiset<string>>)
    requires Counts(events, lanes, kernels) && !IsKernel(e)
    ensures Counts(events + [e], lanes, kernels)
  {
    LanesAppend(events, e, []);
    forall lane | lane in kernels
      ensures kernels[lane] == KernelsOn(events + [e], lane)
    {
      KernelsAppend(events, e, lane);
    }
  }

  lemma CountsKernel(events: seq<Event>, e: Event, lanes: seq<Lane>, kernels: map<Lane, multiset<string>>)
    requires Counts(events, lanes, kernels) && IsKernel(e)
    ensures var lane := LaneOf(e);
            Counts(events + [e], if lane in kernels then lanes else lanes + [lane],
                   kernels[lane := (if lane in kernels then kernels[lane] else multiset{}) + multiset{e.name}])
  {
    var own := LaneOf(e);
    LanesAppend(events, e, []);
    var before := if own in kernels then kernels[own] else multiset{};
    assert before == KernelsOn(events, own) by { if own !in kernels { NoKernels(events, own); } }
    TallyOne(events, e, kernels, own, before + multiset{e.name});
  }

  lemma TallyOne(events: seq<Event>, e: Event, kernels: map<Lane, multiset<string>>, own: Lane, tally: multiset<string>)
    requires Tallied(events, kernels) && IsKernel(e) && own == LaneOf(e) && tally == KernelsOn(events, own) + multiset{e.name}
    ensures Tallied(events + [e], kernels[own := tally])
  {
    var after := kernels[own := tally];
    forall lane | lane in after
      ensures after[lane] == KernelsOn(events + [e], lane)
    {
      KernelsAppend(events, e, lane);
      assert KernelsOn(events, lane) + multiset{} == KernelsOn(events, lane);
    }
  }

  function KernelOf(e: Event, lane: Lane): multiset<string> {
    if IsKernel(e) && LaneOf(e) == lane then multiset{e.name} else multiset{}
  }

  lemma {:induction false} KernelsAppend(events: seq<Event>, e: Event, lane: Lane)
    ensures KernelsOn(events + [e], lane) == KernelsOn(events, lane) + KernelOf(e, lane)
  {
    if events == [] {
      assert events + [e] == [e] && [e][1..] == [];
    } else {
      assert (events + [e])[1..] == events[1..] + [e];
      KernelsAppend(events[1..], e, lane);
    }
  }

  lemma {:induction false} LanesAppend(events: seq<Event>, e: Event, seen: seq<Lane>)
    ensures var lanes := Lanes(events, seen);
            Lanes(events + [e], seen) == if IsKernel(e) && LaneOf(e) !in lanes then lanes + [LaneOf(e)] else lanes
    decreases |events|
  {
    if events == [] {
      assert events + [e] == [e] && [e][1..] == [];
    } else {
      assert (events + [e])[1..] == events[1..] + [e];
      LanesAppend(events[1..], e, if IsKernel(events[0]) && LaneOf(events[0]) !in seen then seen + [LaneOf(events[0])] else seen);
    }
  }

  lemma {:induction false} LanesHold(events: seq<Event>, seen: seq<Lane>, lane: Lane)
    ensures lane in seen ==> lane in Lanes(events, seen)
    ensures KernelsOn(events, lane) != multiset{} ==> lane in Lanes(events, seen)
    decreases |events|
  {
    if events != [] {
      var e := events[0];
      LanesHold(events[1..], if IsKernel(e) && LaneOf(e) !in seen then seen + [LaneOf(e)] else seen, lane);
    }
  }

  lemma NoKernels(events: seq<Event>, lane: Lane)
    requires lane !in Lanes(events, [])
    ensures KernelsOn(events, lane) == multiset{}
  {
    LanesHold(events, [], lane);
  }

  ghost predicate Distinct(lanes: seq<Lane>) { forall i, j | 0 <= i < j < |lanes| :: lanes[i] != lanes[j] }

  lemma {:induction false} LanesDistinct(events: seq<Event>, seen: seq<Lane>)
    requires Distinct(seen)
    ensures Distinct(Lanes(events, seen))
    decreases |events|
  {
    if events != [] {
      var e := events[0];
      if IsKernel(e) && LaneOf(e) !in seen {
        assert Distinct(seen + [LaneOf(e)]);
        LanesDistinct(events[1..], seen + [LaneOf(e)]);
      } else {
        LanesDistinct(events[1..], seen);
      }
    }
  }

  /** Two lanes end up on one only if they have the same process and the same kernels; and a
      target is a lane of its own group, so no other lane is in its place. */
  lemma MergesOnlyEqual(mapping: map<Lane, Ident>, lanes: seq<Lane>, kernels: map<Lane, multiset<string>>, least: nat,
                        a: Lane, b: Lane)
    requires Lined(lanes, kernels) && Maps(mapping, lanes, kernels, least, Keys(lanes, kernels))
    requires a.0 == b.0 && (if Moves(mapping, a) then mapping[a] else a.1) == (if Moves(mapping, b) then mapping[b] else b.1)
    ensures a == b || (a in kernels && b in kernels && kernels[a] == kernels[b])
  {
    assert MapsLane(mapping, lanes, kernels, least, Keys(lanes, kernels), a);
    assert MapsLane(mapping, lanes, kernels, least, Keys(lanes, kernels), b);
    if a in mapping { TargetOf(mapping, lanes, kernels, least, a); }
    if b in mapping { TargetOf(mapping, lanes, kernels, least, b); }
  }

  lemma TargetOf(mapping: map<Lane, Ident>, lanes: seq<Lane>, kernels: map<Lane, multiset<string>>, least: nat, l: Lane)
    requires Lined(lanes, kernels) && Maps(mapping, lanes, kernels, least, Keys(lanes, kernels)) && l in mapping
    ensures l in kernels && (l.0, mapping[l]) in kernels && kernels[(l.0, mapping[l])] == kernels[l]
    ensures (l.0, mapping[l]) in mapping && mapping[(l.0, mapping[l])] == mapping[l]
  {
    assert MapsLane(mapping, lanes, kernels, least, Keys(lanes, kernels), l);
    var t := mapping[l];
    TidsIn(lanes, kernels, KeyOf(kernels, l), t);
    assert MapsLane(mapping, lanes, kernels, least, Keys(lanes, kernels), (l.0, t));
  }

  // ---- compacting events ----

  function TargetFor(mapping: map<Lane, Ident>, e: Event): Option<Ident> {
    if e.pid.Some? && e.tid.Some? && Moves(mapping, LaneOf(e)) then Some(mapping[LaneOf(e)]) else None
  }

  /** `compact`: the event on its new lane, or nothing for a repeated thread name. */
  function CompactOne(mapping: map<Lane, Ident>, sizes: map<Lane, nat>, emitted: set<Lane>, e: Event): (Option<Event>, set<Lane>)
    requires Sized(mapping, sizes)
  {
    match TargetFor(mapping, e)
    case None => (Some(e), emitted)
    case Some(target) =>
      var lane := (e.pid.value, target);
      if IsThreadName(e) && lane in emitted then (None, emitted)
      else (Some(OnLane(e, target, sizes[lane])), if IsThreadName(e) then emitted + {lane} else emitted)
  }

  function BranchName(lanes: nat): string { "logical CUDA graph branch (" + Digits(lanes) + " lanes)" }

  function OnLane(e: Event, target: Ident, size: nat): Event
    requires e.tid.Some?
  {
    if e.args.None? then e.(tid := Some(target))
    else
      var args := e.args.value;
      var moved := if args.stream == e.tid then args.(stream := Some(target)) else args;
      e.(tid := Some(target),
         args := Some(if IsThreadName(e) then moved.(name := Some(BranchName(size))) else moved))
  }

  function CompactAll(mapping: map<Lane, Ident>, sizes: map<Lane, nat>, emitted: set<Lane>, events: seq<Event>): seq<Event>
    requires Sized(mapping, sizes)
    decreases |events|
  {
    if events == [] then []
    else
      var (kept, next) := CompactOne(mapping, sizes, emitted, events[0]);
      (if kept.Some? then [kept.value] else []) + CompactAll(mapping, sizes, next, events[1..])
  }

  /** The kernels of a process, as a bag of names. */
  function KernelsIn(events: seq<Event>, pid: Ident): multiset<string> {
    if events == [] then multiset{}
    else if IsKernel(events[0]) && events[0].pid.value == pid then multiset{events[0].name} + KernelsIn(events[1..], pid)
    else KernelsIn(events[1..], pid)
  }

  /** Compaction keeps every kernel of every process. */
  lemma {:induction false} KernelsConserved(mapping: map<Lane, Ident>, sizes: map<Lane, nat>, emitted: set<Lane>,
                                            events: seq<Event>, pid: Ident)
    requires Sized(mapping, sizes)
    ensures KernelsIn(CompactAll(mapping, sizes, emitted, events), pid) == KernelsIn(events, pid)
    decreases |events|
  {
    if events != [] {
      var (kept, next) := CompactOne(mapping, sizes, emitted, events[0]);
      var rest := CompactAll(mapping, sizes, next, events[1..]);
      KernelsConserved(mapping, sizes, next, events[1..], pid);
      KindKept(mapping, sizes, emitted, events[0]);
      if kept.Some? { assert ([kept.value] + rest)[1..] == rest; } else { assert [] + rest == rest; }
    }
  }

  lemma KindKept(mapping: map<Lane, Ident>, sizes: map<Lane, nat>, emitted: set<Lane>, e: Event)
    requires Sized(mapping, sizes)
    ensures var kept := CompactOne(mapping, sizes, emitted, e).0;
      && (kept.None? ==> IsThreadName(e) && !IsKernel(e))
      && (kept.Some? ==> IsKernel(kept.value) == IsKernel(e) && kept.value.name == e.name && kept.value.pid == e.pid)
  {
    assert "M"[0] != "X"[0];
  }

  // ---- what is dropped ----

  /** A thread name for a lane that an earlier one in the list already names. */
  predicate Repeats(mapping: map<Lane, Ident>, events: seq<Event>, i: nat)
    requires i < |events|
  {
    && IsThreadName(events[i]) && TargetFor(mapping, events[i]).Some?
    && exists j | 0 <= j < i :: Names(mapping, events[j], (events[i].pid.value, TargetFor(mapping, events[i]).value))
  }

  predicate Names(mapping: map<Lane, Ident>, e: Event, lane: Lane) {
    IsThreadName(e) && TargetFor(mapping, e).Some? && (e.pid.value, TargetFor(mapping, e).value) == lane
  }

  /** Of the first `n` events those that are kept, as they were. */
  function Kept(mapping: map<Lane, Ident>, events: seq<Event>, n: nat): seq<Event>
    requires n <= |events|
  {
    if n == 0 then []
    else Kept(mapping, events, n - 1) + (if Repeats(mapping, events, n - 1) then [] else [events[n - 1]])
  }

  predicate SameKind(a: Event, b: Event) { a.ph == b.ph && a.cat == b.cat && a.name == b.name && a.rest == b.rest }

  /** `out` is the event `e` on the lane it is mapped to: only the thread id changes, a stream
      argument that names it, and the name given to the thread. */
  predicate Relaned(mapping: map<Lane, Ident>, sizes: map<Lane, nat>, e: Event, out: Event)
    requires Sized(mapping, sizes)
  {
    if e.pid.None? || e.tid.None? || !Moves(mapping, (e.pid.value, e.tid.value)) then out == e
    else
      var target := mapping[(e.pid.value, e.tid.value)];
      && out.pid == e.pid && out.tid == Some(target) && SameKind(out, e) && (out.args.Some? <==> e.args.Some?)
      && (e.args.Some? ==> RelanedArgs(e, target, sizes[(e.pid.value, target)], out.args.value))
  }

  predicate RelanedArgs(e: Event, target: Ident, size: nat, args: Args)
    requires e.args.Some?
  {
    var was := e.args.value;
    && args.labels == was.labels && args.rest == was.rest
    && args.stream == (if was.stream == e.tid then Some(target) else was.stream)
    && args.name == if e.ph == "M" && e.name == "thread_name" then
         Some("logical CUDA graph branch (" + Digits(size) + " lanes)")
       else was.name
  }

  function EmittedBy(mapping: map<Lane, Ident>, events: seq<Event>, emitted: set<Lane>, n: nat): set<Lane>
    requires n <= |events|
  {
    if n == 0 then emitted
    else
      var e := events[n - 1];
      var before := EmittedBy(mapping, events, emitted, n - 1);
      if IsThreadName(e) && TargetFor(mapping, e).Some? then before + {(e.pid.value, TargetFor(mapping, e).value)} else before
  }

  lemma {:induction false} EmittedIs(mapping: map<Lane, Ident>, events: seq<Event>, n: nat, lane: Lane)
    requires n <= |events|
    ensures lane in EmittedBy(mapping, events, {}, n) <==> exists j | 0 <= j < n :: Names(mapping, events[j], lane)
  {
    if n > 0 {
      EmittedIs(mapping, events, n - 1, lane);
      assert Names(mapping, events[n - 1], lane) ==> exists j | 0 <= j < n :: Names(mapping, events[j], lane);
    }
  }

  /** `out` starts with the events `kept`, each on its lane, and goes on with `tail`. */
  ghost predicate Starts(mapping: map<Lane, Ident>, sizes: map<Lane, nat>, out: seq<Event>, kept: seq<Event>, tail: seq<Event>)
    requires Sized(mapping, sizes)
  {
    && |kept| <= |out| && out[|kept|..] == tail
    && forall k | 0 <= k < |kept| :: Relaned(mapping, sizes, kept[k], out[k])
  }

  lemma StartsOn(mapping: map<Lane, Ident>, sizes: map<Lane, nat>, out: seq<Event>, kept: seq<Event>, tail: seq<Event>, e: Event)
    requires Sized(mapping, sizes) && Starts(mapping, sizes, out, kept, tail) && tail != [] && Relaned(mapping, sizes, e, tail[0])
    ensures Starts(mapping, sizes, out, kept + [e], tail[1..])
  {
    assert out[|kept|] == tail[0];
  }

  /** Exactly the repeated thread names are dropped; the rest stays in order, each event on the
      lane it is mapped to. */
  lemma {:induction false} DropsOnlyRepeats(mapping: map<Lane, Ident>, sizes: map<Lane, nat>, events: seq<Event>, n: nat)
    requires Sized(mapping, sizes) && n <= |events|
    ensures Starts(mapping, sizes, CompactAll(mapping, sizes, {}, events), Kept(mapping, events, n),
                   CompactAll(mapping, sizes, EmittedBy(mapping, events, {}, n), events[n..]))
  {
    var out := CompactAll(mapping, sizes, {}, events);
    if n == 0 {
      assert events[0..] == events && out[0..] == out;
    } else {
      DropsOnlyRepeats(mapping, sizes, events, n - 1);
      var emitted := EmittedBy(mapping, events, {}, n - 1);
      assert events[n - 1..][0] == events[n - 1] && events[n - 1..][1..] == events[n..];
      CompactHead(mapping, sizes, emitted, events[n - 1..]);
      DroppedIfRepeats(mapping, sizes, events, n - 1);
      var kept, tail := Kept(mapping, events, n - 1), CompactAll(mapping, sizes, emitted, events[n - 1..]);
      if Repeats(mapping, events, n - 1) {
        assert kept + [] == kept;
      } else {
        StartsOn(mapping, sizes, out, kept, tail, events[n - 1]);
      }
    }
  }

  lemma DroppedIfRepeats(mapping: map<Lane, Ident>, sizes: map<Lane, nat>, events: seq<Event>, i: nat)
    requires Sized(mapping, sizes) && i < |events|
    ensures var (kept, next) := CompactOne(mapping, sizes, EmittedBy(mapping, events, {}, i), events[i]);
            (kept.None? <==> Repeats(mapping, events, i)) && next == EmittedBy(mapping, events, {}, i + 1)
  {
    var e := events[i];
    if TargetFor(mapping, e).Some? { EmittedIs(mapping, events, i, (e.pid.value, TargetFor(mapping, e).value)); }
  }

  lemma CompactHead(mapping: map<Lane, Ident>, sizes: map<Lane, nat>, emitted: set<Lane>, events: seq<Event>)
    requires Sized(mapping, sizes) && events != []
    ensures var (kept, next) := CompactOne(mapping, sizes, emitted, events[0]);
            var out, rest := CompactAll(mapping, sizes, emitted, events), CompactAll(mapping, sizes, next, events[1..]);
            if kept.None? then out == rest else out != [] && Relaned(mapping, sizes, events[0], out[0]) && out[1..] == rest
  {
    var (kept, next) := CompactOne(mapping, sizes, emitted, events[0]);
    var rest := CompactAll(mapping, sizes, next, events[1..]);
    Put(kept, rest);
    EventKept(mapping, sizes, emitted, events[0]);
  }

  lemma Put(kept: Option<Event>, rest: seq<Event>)
    ensures var out := (if kept.Some? then [kept.value] else []) + rest;
            if kept.None? then out == rest else out != [] && out[0] == kept.value && out[1..] == rest
  {
  }

  lemma EventKept(mapping: map<Lane, Ident>, sizes: map<Lane, nat>, emitted: set<Lane>, e: Event)
    requires Sized(mapping, sizes)
    ensures var kept := CompactOne(mapping, sizes, emitted, e).0; kept.Some? ==> Relaned(mapping, sizes, e, kept.value)
  {
  }

  /** A whole trace: what is kept, event by event on its lane, and nothing else. */
  lemma CompactedIs(mapping: map<Lane, Ident>, sizes: map<Lane, nat>, events: seq<Event>)
    requires Sized(mapping, sizes)
    ensures var out, kept := CompactAll(mapping, sizes, {}, events), Kept(mapping, events, |events|);
            |out| == |kept| && forall k | 0 <= k < |out| :: Relaned(mapping, sizes, kept[k], out[k])
  {
    DropsOnlyRepeats(mapping, sizes, events, |events|);
    assert events[|events|..] == [];
  }

  lemma {:induction false} NothingDropped(events: seq<Event>, n: nat)
    requires n <= |events|
    ensures Kept(map[], events, n) == events[..n]
  {
    if n > 0 { NothingDropped(events, n - 1); }
  }
}
