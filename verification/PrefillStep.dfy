/** `_run_static_pp_prefill_pipeline` as a whole: every cell's batch is cut into microbatches,
    the rounds are padded, replicated over the stages and run with a bounded number in flight,
    and every sequence gets the row of its last fragment. */
module PrefillStep {
  import opened Patterns
  import opened PrefillPipeline
  import opened PrefillDriver
  import opened PrefillRounds
  import opened Microbatches

  type Answer = seq<seq<Payload>> -> seq<Out>

  /** Every worker answers every round. */
  ghost predicate Complete(answer: Answer, workers: nat) {
    forall rounds :: |answer(rounds)| == workers
  }

  /** What the worker at group `k`'s first cell, in the last stage, answers to round `r` of those
      submitted. */
  ghost function Reply(s: Shape, answer: Answer, submitted: seq<seq<Payload>>, k: nat, r: nat): Out
    requires s.Valid() && Complete(answer, s.stages * (s.groups * s.tp)) && k < s.groups && r < |submitted|
  {
    var all := answer(submitted[..r + 1]);
    ReporterInLastStage(s, all, k);
    LastStage(s, all)[k * s.tp]
  }

  /** A group's fragments and its reporter's answers, round by round. */
  ghost predicate Answered(feeds: seq<Feed>, s: Shape, answer: Answer, submitted: seq<seq<Payload>>, k: nat,
                           parts: seq<seq<Fragment>>)
    requires s.Valid() && Complete(answer, s.stages * (s.groups * s.tp)) && k < s.groups
  {
    && |feeds| == |submitted|
    && forall r | 0 <= r < |feeds| :: feeds[r] == Feed(Reply(s, answer, submitted, k, r), Padded(parts, r))
  }

  /** `out` has, for sequence `i`, the row its last fragment has in the answer to its round. */
  ghost predicate RowIsLast(out: Out, feeds: seq<Feed>, parts: seq<seq<Fragment>>, i: nat) {
    exists r: nat, row: nat | MarksLast(parts, i, r, row) && r < |feeds| ::
      TokensAt(out, i) == TokensAt(feeds[r].out, row) && LogprobsAt(out, i) == LogprobsAt(feeds[r].out, row)
  }

  /** The folded rows of a group of `n` sequences. */
  ghost predicate Aggregated(out: Out, feeds: seq<Feed>, parts: seq<seq<Fragment>>, lens: seq<nat>, n: nat) {
    && |out.tokens| == n && (out.logprobs.Some? ==> |out.logprobs.value| == n)
    && (forall i: nat | i < n && HasTokens(lens, i) :: RowIsLast(out, feeds, parts, i))
    && (forall i: nat | i < n && !HasTokens(lens, i) :: TokensAt(out, i) == [] && LogprobsAt(out, i) == [])
    && (out.logprobs.Some? <==> exists f | f in feeds :: AnyLogs(f, n, 0)) && Slowest(out.ns, 0, feeds)
  }

  /** What is returned for a group: the aggregate of several rounds, or the answer to the only one. */
  ghost predicate RightFor(out: Out, feeds: seq<Feed>, parts: seq<seq<Fragment>>, lens: seq<nat>, n: nat, several: bool) {
    && (several ==> Aggregated(out, feeds, parts, lens, n))
    && (!several ==> feeds != [] && out == feeds[0].out)
    && (!several && (forall i | 0 <= i < |lens| :: lens[i] > 0) ==> forall i: nat | i < |lens| :: RowIsLast(out, feeds, parts, i))
  }

  ghost predicate RightForGroup(out: Out, s: Shape, answer: Answer, submitted: seq<seq<Payload>>,
                                parts: seq<seq<seq<Fragment>>>, batches: seq<Batch>, numSeqs: seq<nat>, k: nat, several: bool)
    requires s.Valid() && Complete(answer, s.stages * (s.groups * s.tp)) && |parts| == |batches| == s.groups * s.tp
    requires |numSeqs| == s.groups && k < s.groups
  {
    ReporterInRange(s, k);
    exists feeds :: Answered(feeds, s, answer, submitted, k, parts[k * s.tp])
                 && RightFor(out, feeds, parts[k * s.tp], batches[k * s.tp].lens, numSeqs[k], several)
  }

  predicate Several(batches: seq<Batch>, maxTokens: nat) { exists b | b in batches :: Splits(b, maxTokens) }

  // ---- cutting ----

  method CutAll(batches: seq<Batch>, maxTokens: nat)
    returns (cells: seq<CellRounds<Payload>>, ghost parts: seq<seq<seq<Fragment>>>)
    ensures |cells| == |parts| == |batches|
    ensures forall c | 0 <= c < |cells| ::
      Packed(parts[c], batches[c], maxTokens) && Shipped(cells[c], parts[c], batches[c], maxTokens)
  {
    cells, parts := [], [];
    for i := 0 to |batches|
      invariant |cells| == |parts| == i
      invariant forall c | 0 <= c < i ::
        Packed(parts[c], batches[c], maxTokens) && Shipped(cells[c], parts[c], batches[c], maxTokens)
    {
      ghost var part;
      var cell;
      cell, part := PrefillMicrobatches(batches[i], maxTokens);
      cells, parts := cells + [cell], parts + [part];
    }
  }

  lemma SeveralRounds(cells: seq<CellRounds<Payload>>, parts: seq<seq<seq<Fragment>>>, batches: seq<Batch>, maxTokens: nat)
    requires |cells| == |parts| == |batches|
    requires forall c | 0 <= c < |cells| ::
      Packed(parts[c], batches[c], maxTokens) && Shipped(cells[c], parts[c], batches[c], maxTokens)
    ensures LongestOf(cells) > 1 <==> Several(batches, maxTokens)
    ensures forall c | 0 <= c < |parts| :: |parts[c]| <= LongestOf(cells)
  {
    LongestBounds(cells);
    forall c | 0 <= c < |cells|
      ensures |cells[c]| == |parts[c]| && (|cells[c]| > 1 <==> Splits(batches[c], maxTokens))
    {
      RoundsNeeded(parts[c], batches[c], maxTokens);
    }
    if Several(batches, maxTokens) {
      var b :| b in batches && Splits(b, maxTokens);
      var c :| 0 <= c < |batches| && batches[c] == b;
      assert |cells[c]| > 1;
    }
    if LongestOf(cells) > 1 {
      var c :| 0 <= c < |cells| && |cells[c]| == LongestOf(cells);
      assert batches[c] in batches;
    }
  }

  // ---- several rounds ----

  function OutOf(g: Group): Out { Out(g.tokens, if g.hasLogprobs then Some(g.logprobs) else None, g.ns) }

  /** Without the flag there is nothing to report. */
  lemma {:induction false} NothingLogged(g: Group, feeds: seq<Feed>, i: nat)
    requires Fits(g) && i < |g.tokens| && (!g.hasLogprobs ==> g.logprobs[i] == [])
    ensures !FoldFeeds(g, feeds).hasLogprobs ==> FoldFeeds(g, feeds).logprobs[i] == []
    decreases |feeds|
  {
    if feeds != [] {
      RowsLogged(g, feeds[0].out, 0, feeds[0].fragments, i);
      NothingLogged(Fold(g, feeds[0].out, feeds[0].fragments), feeds[1..], i);
    }
  }

  lemma {:induction false} RowsLogged(g: Group, out: Out, row: nat, fragments: Fragments, i: nat)
    requires Fits(g) && i < |g.tokens| && (!g.hasLogprobs ==> g.logprobs[i] == [])
    ensures !PutRows(g, out, row, fragments).hasLogprobs ==> PutRows(g, out, row, fragments).logprobs[i] == []
    decreases |fragments|
  {
    if fragments != [] { RowsLogged(PutRow(g, out, row, fragments[0]), out, row + 1, fragments[1..], i); }
  }

  lemma FoldIsAggregate(feeds: seq<Feed>, parts: seq<seq<Fragment>>, lens: seq<nat>, n: nat)
    requires Covers(Flatten(parts), lens) && |parts| <= |feeds|
    requires forall r | 0 <= r < |feeds| :: feeds[r].fragments == Padded(parts, r)
    ensures Aggregated(OutOf(FoldFeeds(Blank(n), feeds)), feeds, parts, lens, n)
  {
    var g := FoldFeeds(Blank(n), feeds);
    FeedsFlag(Blank(n), feeds);
    FeedsTime(Blank(n), feeds);
    forall i: nat | i < n
      ensures HasTokens(lens, i) ==> RowIsLast(OutOf(g), feeds, parts, i)
      ensures !HasTokens(lens, i) ==> TokensAt(OutOf(g), i) == [] && LogprobsAt(OutOf(g), i) == []
    {
      RowFolded(feeds, parts, lens, n, i);
    }
  }

  lemma RowFolded(feeds: seq<Feed>, parts: seq<seq<Fragment>>, lens: seq<nat>, n: nat, i: nat)
    requires Covers(Flatten(parts), lens) && |parts| <= |feeds| && i < n
    requires forall r | 0 <= r < |feeds| :: feeds[r].fragments == Padded(parts, r)
    ensures var out := OutOf(FoldFeeds(Blank(n), feeds));
      if HasTokens(lens, i) then RowIsLast(out, feeds, parts, i) else TokensAt(out, i) == [] && LogprobsAt(out, i) == []
  {
    var r, row := SequenceRow(lens, parts, feeds, n, i);
    NothingLogged(Blank(n), feeds, i);
  }

  /** The rows of a group when the rounds are folded one after the other. */
  ghost function Folded(s: Shape, answer: Answer, jobs: seq<Job<seq<Payload>>>, n: nat, k: nat): Out
    requires k < s.groups && AllFit(s, Rounds(answer, jobs))
  {
    OutOf(FoldFeeds(Blank(n), FeedsOf(s, Rounds(answer, jobs), k)))
  }

  lemma LaysFit(s: Shape, answer: Answer, jobs: seq<Job<seq<Payload>>>, cells: seq<CellRounds<Payload>>)
    requires s.Valid() && |cells| == s.Inner() && Complete(answer, s.stages * s.Inner()) && Lays(jobs, cells, Dummy, s.stages)
    ensures AllFit(s, Rounds(answer, jobs))
  {
    forall i | 0 <= i < |jobs|
      ensures RoundFits(s, Rounds(answer, jobs)[i])
    {
      assert LaysRound(jobs[i], cells, i, Dummy, s.stages);
    }
  }

  method RunRounds(s: Shape, cells: seq<CellRounds<Payload>>, numSeqs: seq<nat>, depth: nat, executor: Executor<seq<Payload>>)
    returns (outs: seq<Out>, ghost jobs: seq<Job<seq<Payload>>>)
    requires s.Valid() && |cells| == s.Inner() && |numSeqs| == s.groups && depth >= 1
    requires executor.submitted == [] && executor.collected == [] && executor.peak == 0
    requires Complete(executor.answer, s.stages * s.Inner())
    modifies executor
    ensures executor.submitted == Payloads(jobs) && executor.collected == Upto(|jobs|) && executor.peak <= depth
    ensures Lays(jobs, cells, Dummy, s.stages) && AllFit(s, Rounds(executor.answer, jobs))
    ensures |outs| == s.groups && forall k | 0 <= k < s.groups :: outs[k] == Folded(s, executor.answer, jobs, numSeqs[k], k)
  {
    var rounds := BuildRounds(cells, Dummy, s.stages);
    jobs := rounds;
    LaysFit(s, executor.answer, jobs, cells);
    var driver := new Driver(s, executor, numSeqs);
    driver.Run(rounds, depth);
    outs := OutsOf(s, driver.groups, executor.answer, numSeqs, jobs);
  }

  method OutsOf(s: Shape, groups: seq<Group>, ghost answer: Answer, ghost numSeqs: seq<nat>, ghost jobs: seq<Job<seq<Payload>>>)
    returns (outs: seq<Out>)
    requires |numSeqs| == s.groups && AllFit(s, Rounds(answer, jobs)) && GroupsFit(s, Blanks(numSeqs))
    requires groups == FoldAll(s, Blanks(numSeqs), Rounds(answer, jobs))
    ensures |outs| == s.groups && forall k | 0 <= k < s.groups :: outs[k] == Folded(s, answer, jobs, numSeqs[k], k)
  {
    outs := [];
    for k := 0 to s.groups
      invariant |outs| == k && forall j | 0 <= j < k :: outs[j] == Folded(s, answer, jobs, numSeqs[j], j)
    {
      FoldAllAt(s, Blanks(numSeqs), Rounds(answer, jobs), k);
      outs := outs + [OutOf(groups[k])];
    }
  }

  lemma {:induction false} FeedsAt(s: Shape, rounds: seq<Round>, k: nat, r: nat)
    requires k < s.groups && r < |rounds| && forall i | 0 <= i < |rounds| :: RoundFits(s, rounds[i])
    ensures |FeedsOf(s, rounds, k)| == |rounds| && FeedsOf(s, rounds, k)[r] == FeedOf(s, rounds[r], k)
  {
    if r > 0 {
      FeedsAt(s, rounds[1..], k, r - 1);
    } else if |rounds| > 1 {
      FeedsAt(s, rounds[1..], k, 0);
    }
  }

  lemma GroupAggregated(s: Shape, answer: Answer, jobs: seq<Job<seq<Payload>>>, parts: seq<seq<seq<Fragment>>>,
                        batches: seq<Batch>, numSeqs: seq<nat>, maxTokens: nat, k: nat)
    requires s.Valid() && Complete(answer, s.stages * s.Inner()) && |parts| == |batches| == s.Inner()
    requires |numSeqs| == s.groups && k < s.groups && AllFit(s, Rounds(answer, jobs))
    requires forall c | 0 <= c < |parts| :: Packed(parts[c], batches[c], maxTokens) && |parts[c]| <= |jobs|
    requires forall r, c | 0 <= r < |jobs| && 0 <= c < |parts| ::
      |jobs[r].metadata| == |parts| && jobs[r].metadata[c] == Padded(parts[c], r)
    ensures RightForGroup(Folded(s, answer, jobs, numSeqs[k], k), s, answer, Payloads(jobs), parts, batches, numSeqs, k, true)
  {
    ReporterInRange(s, k);
    var rounds, own := Rounds(answer, jobs), parts[s.Cell(k)];
    var feeds := FeedsOf(s, rounds, k);
    if rounds != [] { FeedsAt(s, rounds, k, 0); }
    forall r | 0 <= r < |feeds|
      ensures feeds[r] == Feed(Reply(s, answer, Payloads(jobs), k, r), Padded(own, r))
    {
      FeedsAt(s, rounds, k, r);
      ReporterInLastStage(s, rounds[r].outs, k);
    }
    FoldIsAggregate(feeds, own, batches[s.Cell(k)].lens, numSeqs[k]);
    assert Answered(feeds, s, answer, Payloads(jobs), k, own);
  }

  // ---- one round ----

  /** The batches as they are, to every stage. */
  method RunOnce(s: Shape, batches: seq<Batch>, executor: Executor<seq<Payload>>) returns (outs: seq<Out>)
    requires s.Valid() && |batches| == s.Inner()
    requires executor.submitted == [] && executor.collected == [] && executor.peak == 0
    requires Complete(executor.answer, s.stages * s.Inner())
    modifies executor
    ensures executor.submitted == [Repeat(Entires(batches), s.stages)] && executor.collected == [0] && executor.peak == 1
    ensures |outs| == s.groups
    ensures forall k | 0 <= k < s.groups :: Reports(s, executor.answer, executor.submitted, k, outs[k])
  {
    var payloads := Repeat(Entires(batches), s.stages);
    var handle := executor.RunAsync(payloads);
    assert executor.submitted == [payloads] && executor.submitted[..1] == [payloads];
    var all := executor.Wait(handle);
    outs := PickReporters(s, all);
  }

  ghost predicate FirstOfCell(s: Shape, all: seq<Out>, k: nat, out: Out)
    requires s.Valid() && |all| == s.stages * (s.groups * s.tp) && k < s.groups
  {
    ReporterInLastStage(s, all, k);
    out == LastStage(s, all)[k * s.tp]
  }

  /** The last stage's workers, one per group. */
  method PickReporters(s: Shape, all: seq<Out>) returns (outs: seq<Out>)
    requires s.Valid() && |all| == s.stages * (s.groups * s.tp)
    ensures |outs| == s.groups && forall k | 0 <= k < s.groups :: FirstOfCell(s, all, k, outs[k])
  {
    outs := [];
    for k := 0 to s.groups
      invariant |outs| == k && forall j | 0 <= j < k :: FirstOfCell(s, all, j, outs[j])
    {
      ReporterInLastStage(s, all, k);
      outs := outs + [all[s.Reporter(k)]];
    }
  }

  function Entires(batches: seq<Batch>): (payloads: seq<Payload>)
    ensures |payloads| == |batches| && forall c | 0 <= c < |batches| :: payloads[c] == Entire(batches[c])
  {
    seq(|batches|, c requires 0 <= c < |batches| => Entire(batches[c]))
  }

  ghost predicate Reports(s: Shape, answer: Answer, submitted: seq<seq<Payload>>, k: nat, out: Out)
    requires s.Valid() && Complete(answer, s.stages * (s.groups * s.tp)) && k < s.groups && submitted != []
  {
    out == Reply(s, answer, submitted, k, 0)
  }

  lemma GroupReported(s: Shape, answer: Answer, submitted: seq<seq<Payload>>, parts: seq<seq<seq<Fragment>>>,
                      batches: seq<Batch>, numSeqs: seq<nat>, maxTokens: nat, k: nat, out: Out)
    requires s.Valid() && Complete(answer, s.stages * s.Inner()) && |parts| == |batches| == s.Inner()
    requires |numSeqs| == s.groups && k < s.groups && |submitted| == 1 && Reports(s, answer, submitted, k, out)
    requires forall c | 0 <= c < |parts| :: Packed(parts[c], batches[c], maxTokens) && |parts[c]| <= 1
    ensures RightForGroup(out, s, answer, submitted, parts, batches, numSeqs, k, false)
  {
    ReporterInRange(s, k);
    var own, b := parts[s.Cell(k)], batches[s.Cell(k)];
    var feeds := [Feed(out, Padded(own, 0))];
    if forall i | 0 <= i < |b.lens| :: b.lens[i] > 0 {
      forall i: nat | i < |b.lens|
        ensures RowIsLast(out, feeds, own, i)
      {
        OnePiece(own, b, maxTokens, i);
        assert feeds[0].out == out;
      }
    }
    assert Answered(feeds, s, answer, submitted, k, own);
  }

  // ---- the whole step ----

  /** What a cell's workers are given in round `r`: of several rounds their microbatch or the
      dummy, in a single one the batch as it is. */
  function Sent(parts: seq<seq<Fragment>>, b: Batch, maxTokens: nat, several: bool, r: nat): Payload {
    if several && r >= |parts| then Dummy
    else if !several || StaysWhole(b, maxTokens) || parts == [[]] then Entire(b)
    else Micro(parts[r])
  }

  ghost predicate LaidOut(submitted: seq<seq<Payload>>, s: Shape, parts: seq<seq<seq<Fragment>>>, batches: seq<Batch>,
                          maxTokens: nat)
    requires |parts| == |batches| == s.Inner()
  {
    forall r, c, stage | 0 <= r < |submitted| && 0 <= c < |parts| && 0 <= stage < s.stages ::
      Given(submitted[r], stage, |parts|, c, Sent(parts[c], batches[c], maxTokens, Several(batches, maxTokens), r))
  }

  ghost predicate MostRounds(parts: seq<seq<seq<Fragment>>>, n: nat) {
    (forall c | 0 <= c < |parts| :: |parts[c]| <= n) && exists c :: 0 <= c < |parts| && |parts[c]| == n
  }

  /** A completed step: what was sent in each round to each stage, and what came out of it. */
  ghost predicate Ran(s: Shape, batches: seq<Batch>, numSeqs: seq<nat>, maxTokens: nat, answer: Answer,
                      submitted: seq<seq<Payload>>, parts: seq<seq<seq<Fragment>>>, result: seq<Out>)
    requires s.Valid() && |batches| == s.groups * s.tp && |numSeqs| == s.groups
    requires Complete(answer, s.stages * (s.groups * s.tp))
  {
    && |parts| == |batches| && (forall c | 0 <= c < |parts| :: Packed(parts[c], batches[c], maxTokens))
    && LaidOut(submitted, s, parts, batches, maxTokens)
    && (forall r | 0 <= r < |submitted| :: |submitted[r]| == s.stages * (s.groups * s.tp))
    && (if Several(batches, maxTokens) then MostRounds(parts, |submitted|) else |submitted| == 1)
    && |result| == s.groups
    && forall k | 0 <= k < s.groups ::
         RightForGroup(result[k], s, answer, submitted, parts, batches, numSeqs, k, Several(batches, maxTokens))
  }

  /** `_run_static_pp_prefill_pipeline`; nothing stands for its error. */
  method RunStaticPpPrefillPipeline(s: Shape, batches: seq<Batch>, numSeqs: seq<nat>, maxTokens: nat, configured: int,
                                    slots: Option<int>, executor: Executor<seq<Payload>>)
    returns (result: Option<seq<Out>>, ghost parts: seq<seq<seq<Fragment>>>)
    requires s.Valid() && |batches| == s.Inner() && |numSeqs| == s.groups
    requires executor.submitted == [] && executor.collected == [] && executor.peak == 0
    requires Complete(executor.answer, s.stages * s.Inner())
    modifies executor
    ensures |parts| == |batches| && forall c | 0 <= c < |parts| :: Packed(parts[c], batches[c], maxTokens)
    ensures result.None? <==> Several(batches, maxTokens) && slots.Some? && slots.value < 2
    ensures result.Some? ==>
      Ran(s, batches, numSeqs, maxTokens, executor.answer, executor.submitted, parts, result.value)
    ensures !Several(batches, maxTokens) ==>
      forall k | 0 <= k < s.groups :: FirstOfCell(s, executor.answer(executor.submitted), k, result.value[k])
    ensures result.Some? ==> executor.collected == Upto(|executor.submitted|)
    ensures result.Some? && Several(batches, maxTokens) ==>
      PipelineDepth(configured, s.stages, slots).Some? && executor.peak <= PipelineDepth(configured, s.stages, slots).value
    ensures !Several(batches, maxTokens) ==> executor.peak == 1
    ensures result.None? ==> executor.submitted == []
  {
    var cells;
    cells, parts := CutAll(batches, maxTokens);
    SeveralRounds(cells, parts, batches, maxTokens);
    if LongestOf(cells) <= 1 {
      var outs := RunOnce(s, batches, executor);
      forall k | 0 <= k < s.groups
        ensures RightForGroup(outs[k], s, executor.answer, executor.submitted, parts, batches, numSeqs, k, false)
      {
        GroupReported(s, executor.answer, executor.submitted, parts, batches, numSeqs, maxTokens, k, outs[k]);
      }
      OnceLaidOut(s, parts, batches, maxTokens);
      assert executor.submitted[..1] == executor.submitted;
      return Some(outs), parts;
    }
    var depth := PipelineDepth(configured, s.stages, slots);
    if depth.None? { return None, parts; }
    ghost var jobs;
    var outs;
    outs, jobs := RunRounds(s, cells, numSeqs, depth.value, executor);
    RoundsLaidOut(s, jobs, cells, parts, batches, maxTokens);
    forall k | 0 <= k < s.groups
      ensures RightForGroup(outs[k], s, executor.answer, executor.submitted, parts, batches, numSeqs, k, true)
    {
      GroupAggregated(s, executor.answer, jobs, parts, batches, numSeqs, maxTokens, k);
    }
    result := Some(outs);
  }

  lemma RoundsLaidOut(s: Shape, jobs: seq<Job<seq<Payload>>>, cells: seq<CellRounds<Payload>>,
                      parts: seq<seq<seq<Fragment>>>, batches: seq<Batch>, maxTokens: nat)
    requires |cells| == |parts| == |batches| == s.Inner() && Several(batches, maxTokens) && Lays(jobs, cells, Dummy, s.stages)
    requires forall c | 0 <= c < |cells| :: Shipped(cells[c], parts[c], batches[c], maxTokens)
    ensures LaidOut(Payloads(jobs), s, parts, batches, maxTokens) && MostRounds(parts, |jobs|)
    ensures forall r | 0 <= r < |jobs| :: |Payloads(jobs)[r]| == s.stages * |parts|
    ensures forall r, c | 0 <= r < |jobs| && 0 <= c < |parts| ::
      |jobs[r].metadata| == |parts| && jobs[r].metadata[c] == Padded(parts[c], r)
  {
    LongestShipped(cells, parts, batches, maxTokens);
    forall r | 0 <= r < |jobs|
      ensures |jobs[r].payload| == s.stages * |parts|
    {
      assert LaysRound(jobs[r], cells, r, Dummy, s.stages);
    }
    forall r, c | 0 <= r < |jobs| && 0 <= c < |parts|
      ensures |jobs[r].metadata| == |parts| && jobs[r].metadata[c] == Padded(parts[c], r)
    {
      assert LaysRound(jobs[r], cells, r, Dummy, s.stages);
    }
    forall r, c, stage | 0 <= r < |jobs| && 0 <= c < |parts| && 0 <= stage < s.stages
      ensures Given(jobs[r].payload, stage, |parts|, c, Sent(parts[c], batches[c], maxTokens, true, r))
    {
      assert LaysRound(jobs[r], cells, r, Dummy, s.stages);
      assert Given(jobs[r].payload, stage, |cells|, c, Assigned(cells[c], r, Dummy).0);
    }
  }

  lemma LongestShipped(cells: seq<CellRounds<Payload>>, parts: seq<seq<seq<Fragment>>>, batches: seq<Batch>, maxTokens: nat)
    requires |cells| == |parts| == |batches| && Several(batches, maxTokens)
    requires forall c | 0 <= c < |cells| :: Shipped(cells[c], parts[c], batches[c], maxTokens)
    ensures MostRounds(parts, LongestOf(cells))
  {
    LongestBounds(cells);
    assert forall c | 0 <= c < |cells| :: |cells[c]| == |parts[c]|;
    assert |batches| > 0;
    var c :| 0 <= c < |cells| && |cells[c]| == LongestOf(cells);
    assert |parts[c]| == LongestOf(cells);
  }

  lemma OnceLaidOut(s: Shape, parts: seq<seq<seq<Fragment>>>, batches: seq<Batch>, maxTokens: nat)
    requires |parts| == |batches| == s.Inner() && s.stages > 0 && !Several(batches, maxTokens)
    ensures LaidOut([Repeat(Entires(batches), s.stages)], s, parts, batches, maxTokens)
    ensures |Repeat(Entires(batches), s.stages)| == s.stages * |batches|
  {
    forall c, stage | 0 <= c < |parts| && 0 <= stage < s.stages
      ensures Given(Repeat(Entires(batches), s.stages), stage, |parts|, c, Entire(batches[c]))
    {
      ReplicateAligns(Entires(batches), s.stages, stage, c);
    }
  }

  // ---- when the short cut is right ----

  /** Returning the answer to the only round as it is gives what folding it would, for every
      answer with one row per sequence, exactly if no sequence is without tokens. */
  lemma FastPathExactly(parts: seq<seq<Fragment>>, b: Batch, maxTokens: nat)
    requires Packed(parts, b, maxTokens) && |parts| == 1
    ensures (forall out: Out | |out.tokens| == |b.lens| :: SameRows(out, parts[0], |b.lens|))
       <==> forall i | 0 <= i < |b.lens| :: b.lens[i] > 0
  {
    var n := |b.lens|;
    if forall i | 0 <= i < n :: b.lens[i] > 0 {
      forall out: Out | |out.tokens| == n
        ensures SameRows(out, parts[0], n)
      {
        OneRoundRows(parts, b, maxTokens, out);
      }
    } else {
      var i :| 0 <= i < n && b.lens[i] == 0;
      var out := Out(seq(n, _ => [0]), None, 0);
      var feeds := [Feed(out, Meta(parts[0]))];
      var r, row := SequenceRow(b.lens, parts, feeds, n, i);
      OneFeed(Blank(n), feeds[0]);
      assert !SameRows(out, parts[0], n);
    }
  }

  ghost predicate SameRows(out: Out, part: seq<Fragment>, n: nat) {
    Fold(Blank(n), out, Meta(part)).tokens == out.tokens
  }

  lemma OneFeed(g: Group, f: Feed)
    requires Fits(g)
    ensures FoldFeeds(g, [f]) == Fold(g, f.out, f.fragments)
  {
    assert [f][1..] == [];
  }

  lemma OneRoundRows(parts: seq<seq<Fragment>>, b: Batch, maxTokens: nat, out: Out)
    requires Packed(parts, b, maxTokens) && |parts| == 1 && (forall i | 0 <= i < |b.lens| :: b.lens[i] > 0)
    requires |out.tokens| == |b.lens|
    ensures SameRows(out, parts[0], |b.lens|)
  {
    var n, feeds := |b.lens|, [Feed(out, Meta(parts[0]))];
    OneFeed(Blank(n), feeds[0]);
    forall i: nat | i < n
      ensures FoldFeeds(Blank(n), feeds).tokens[i] == out.tokens[i]
    {
      OneRoundRow(parts, b, maxTokens, feeds, i);
    }
  }

  lemma OneRoundRow(parts: seq<seq<Fragment>>, b: Batch, maxTokens: nat, feeds: seq<Feed>, i: nat)
    requires Packed(parts, b, maxTokens) && |parts| == |feeds| == 1 && (forall j | 0 <= j < |b.lens| :: b.lens[j] > 0)
    requires feeds[0].fragments == Meta(parts[0]) && |feeds[0].out.tokens| == |b.lens| && i < |b.lens|
    ensures FoldFeeds(Blank(|b.lens|), feeds).tokens[i] == feeds[0].out.tokens[i]
  {
    var r, row := SequenceRow(b.lens, parts, feeds, |b.lens|, i);
    OnePiece(parts, b, maxTokens, i);
    OneLastEach(Flatten(parts), b.lens, i);
    var r', row' := LastPlace(parts, i);
    assert MarksLast(parts, i, r, row) && MarksLast(parts, i, 0, i);
  }
}
