/** How the rounds of the prefill pipeline are laid out over cells and stages. */
module PrefillRounds {
  import opened Patterns
  import opened PrefillPipeline
  import opened PrefillDriver

  /** `items * n` */
  function Repeat<T>(items: seq<T>, n: nat): (all: seq<T>)
    ensures |all| == n * |items|
  {
    if n == 0 then [] else items + Repeat(items, n - 1)
  }

  /** `_replicate_for_pp` */
  function ReplicateForPp<T>(items: seq<T>, stages: int): seq<T> {
    if stages <= 1 then items else Repeat(items, stages)
  }

  /** Every stage's workers line up with the same items. */
  lemma {:induction false} ReplicateAligns<T>(items: seq<T>, stages: nat, stage: nat, cell: nat)
    requires stage < stages && cell < |items|
    ensures stage * |items| + cell < |Repeat(items, stages)| && Repeat(items, stages)[stage * |items| + cell] == items[cell]
    ensures stages >= 1 && ReplicateForPp(items, stages) == Repeat(items, stages)
    decreases stages
  {
    assert stages * |items| == (stages - 1) * |items| + |items|;
    if stages == 1 {
      assert Repeat(items, 1) == items + Repeat(items, 0) == items;
    }
    if stage > 0 {
      ReplicateAligns(items, stages - 1, stage - 1, cell);
      assert stage * |items| == |items| + (stage - 1) * |items|;
    }
  }

  /** What a cell is given in a round; a cell out of work gets the dummy. */
  function Assigned<P>(cell: CellRounds<P>, round: nat, dummy: P): (P, Fragments) {
    if round < |cell| then cell[round] else (dummy, [])
  }

  function LongestOf<P>(cells: seq<CellRounds<P>>): nat {
    if cells == [] then 0 else Max(|cells[0]|, LongestOf(cells[1..]))
  }

  lemma {:induction false} LongestBounds<P>(cells: seq<CellRounds<P>>)
    ensures forall c | 0 <= c < |cells| :: |cells[c]| <= LongestOf(cells)
    ensures cells != [] ==> exists c | 0 <= c < |cells| :: |cells[c]| == LongestOf(cells)
  {
    if cells != [] {
      var rest := cells[1..];
      LongestBounds(rest);
      assert forall c | 1 <= c < |cells| :: cells[c] == rest[c - 1];
      if rest != [] && |cells[0]| < LongestOf(rest) {
        var c :| 0 <= c < |rest| && |rest[c]| == LongestOf(rest);
        assert |cells[c + 1]| == LongestOf(cells);
      } else {
        assert |cells[0]| == LongestOf(cells);
      }
    }
  }

  /** In a round each worker, in every stage, has its cell's microbatch of that round or the dummy. */
  ghost predicate LaysRound<P>(job: Job<seq<P>>, cells: seq<CellRounds<P>>, k: nat, dummy: P, stages: nat) {
    && |job.metadata| == |cells| && |job.payload| == stages * |cells|
    && (forall c | 0 <= c < |cells| :: job.metadata[c] == Assigned(cells[c], k, dummy).1)
    && forall c, stage | 0 <= c < |cells| && 0 <= stage < stages ::
         Given(job.payload, stage, |cells|, c, Assigned(cells[c], k, dummy).0)
  }

  ghost predicate Lays<P>(jobs: seq<Job<seq<P>>>, cells: seq<CellRounds<P>>, dummy: P, stages: nat) {
    |jobs| == LongestOf(cells) && forall k | 0 <= k < |jobs| :: LaysRound(jobs[k], cells, k, dummy, stages)
  }

  /** The loop that builds `rounds`. */
  method BuildRounds<P(==)>(cells: seq<CellRounds<P>>, dummy: P, stages: nat) returns (jobs: seq<Job<seq<P>>>)
    requires stages > 0
    ensures Lays(jobs, cells, dummy, stages)
  {
    jobs := [];
    var n := LongestOf(cells);
    for k := 0 to n
      invariant |jobs| == k && forall j | 0 <= j < k :: LaysRound(jobs[j], cells, j, dummy, stages)
    {
      var payloads, metadata := RoundOf(cells, k, dummy);
      forall c, stage | 0 <= c < |cells| && 0 <= stage < stages
        ensures Given(Repeat(payloads, stages), stage, |cells|, c, Assigned(cells[c], k, dummy).0)
      {
        ReplicateAligns(payloads, stages, stage, c);
      }
      jobs := jobs + [Job(Repeat(payloads, stages), metadata)];
    }
  }

  /** Worker `cell` of a stage is given `payload`. */
  ghost predicate Given<P>(payloads: seq<P>, stage: nat, inner: nat, cell: nat, payload: P) {
    stage * inner + cell < |payloads| && payloads[stage * inner + cell] == payload
  }

  method RoundOf<P(==)>(cells: seq<CellRounds<P>>, k: nat, dummy: P) returns (payloads: seq<P>, metadata: seq<Fragments>)
    ensures |payloads| == |metadata| == |cells|
    ensures forall c | 0 <= c < |cells| :: (payloads[c], metadata[c]) == Assigned(cells[c], k, dummy)
  {
    payloads, metadata := [], [];
    for c := 0 to |cells|
      invariant |payloads| == |metadata| == c
      invariant forall d | 0 <= d < c :: (payloads[d], metadata[d]) == Assigned(cells[d], k, dummy)
    {
      if k < |cells[c]| {
        payloads, metadata := payloads + [cells[c][k].0], metadata + [cells[c][k].1];
      } else {
        payloads, metadata := payloads + [dummy], metadata + [[]];
      }
    }
  }
}
