/** The pipeline-parallel prefill driver: rounds of microbatches are submitted with a bounded
    number in flight, and each request's final row is folded back into scheduler order. */
module PrefillPipeline {
  import opened Patterns

  type Row = seq<int>

  /** What one worker returns for one round. */
  datatype Out = Out(tokens: seq<Row>, logprobs: Option<seq<Row>>, ns: nat)

  /** The fragments of one cell in one round: (sequence index, is it its last fragment); no
      fragments stand for the dummy that pads a cell out of work. */
  type Fragments = seq<(nat, bool)>

  /** One cell's microbatches: payload and fragments. */
  type CellRounds<P> = seq<(P, Fragments)>

  /** The rows of one data-parallel group, in scheduler order. */
  datatype Group = Group(tokens: seq<Row>, logprobs: seq<Row>, hasLogprobs: bool, ns: nat)

  function Blank(numSeqs: nat): Group {
    Group(seq(numSeqs, _ => []), seq(numSeqs, _ => []), false, 0)
  }

  predicate Fits(g: Group) { |g.tokens| == |g.logprobs| }

  // ---- folding one round into the rows ----

  function PutRow(g: Group, out: Out, row: nat, fragment: (nat, bool)): (h: Group)
    requires Fits(g)
    ensures Fits(h) && |h.tokens| == |g.tokens|
  {
    var (i, last) := fragment;
    if !last || i >= |g.tokens| then g
    else
      var h := if row < |out.tokens| then g.(tokens := g.tokens[i := out.tokens[row]]) else g;
      if out.logprobs.Some? && row < |out.logprobs.value| then
        h.(logprobs := h.logprobs[i := out.logprobs.value[row]], hasLogprobs := true)
      else h
  }

  function PutRows(g: Group, out: Out, row: nat, fragments: Fragments): (h: Group)
    requires Fits(g)
    ensures Fits(h) && |h.tokens| == |g.tokens|
    decreases |fragments|
  {
    if fragments == [] then g else PutRows(PutRow(g, out, row, fragments[0]), out, row + 1, fragments[1..])
  }

  function Fold(g: Group, out: Out, fragments: Fragments): (h: Group)
    requires Fits(g)
    ensures Fits(h) && |h.tokens| == |g.tokens|
  {
    if fragments == [] then g
    else var h := PutRows(g, out, 0, fragments); h.(ns := Max(h.ns, out.ns))
  }

  /** Shape of the cluster: `inner` cells per stage, in tensor-parallel runs of `tp`. */
  datatype Shape = Shape(groups: nat, tp: nat, stages: nat)
  {
    predicate Valid() { tp > 0 && stages > 0 }
    function Inner(): nat { groups * tp }
    /** The cell whose worker reports for a group. */
    function Cell(group: nat): nat { group * tp }
    /** That worker, in the last stage. */
    function Reporter(group: nat): nat
      requires Valid()
    {
      (stages - 1) * Inner() + Cell(group)
    }
  }

  lemma ReporterInRange(s: Shape, group: nat)
    requires s.Valid() && group < s.groups
    ensures s.Cell(group) < s.Inner() && s.Reporter(group) < s.stages * s.Inner()
  {
    assert (group + 1) * s.tp <= s.groups * s.tp;
    assert (s.stages - 1) * s.Inner() + s.Inner() == s.stages * s.Inner();
  }

  /** What the workers of the last stage answer. */
  function LastStage(s: Shape, all: seq<Out>): seq<Out>
    requires s.Valid() && |all| == s.stages * (s.groups * s.tp)
  {
    LastStageFits(s);
    all[(s.stages - 1) * (s.groups * s.tp)..]
  }

  lemma LastStageFits(s: Shape)
    requires s.Valid()
    ensures 0 <= (s.stages - 1) * (s.groups * s.tp) <= s.stages * (s.groups * s.tp)
  {
    assert (s.stages - 1) * (s.groups * s.tp) + s.groups * s.tp == s.stages * (s.groups * s.tp);
  }

  /** A group's reporter is the worker at its first cell, in the last stage. */
  lemma ReporterInLastStage(s: Shape, all: seq<Out>, k: nat)
    requires s.Valid() && |all| == s.stages * (s.groups * s.tp) && k < s.groups
    ensures k * s.tp < |LastStage(s, all)| == s.groups * s.tp
    ensures s.Reporter(k) < |all| && LastStage(s, all)[k * s.tp] == all[s.Reporter(k)]
  {
    ReporterInRange(s, k);
    LastStageFits(s);
    assert (s.stages - 1) * (s.groups * s.tp) + s.groups * s.tp == s.stages * (s.groups * s.tp);
  }

  /** What the workers return for a round and what the cells were given. */
  datatype Round = Round(outs: seq<Out>, metadata: seq<Fragments>)

  predicate RoundFits(s: Shape, r: Round) {
    s.Valid() && |r.outs| == s.stages * s.Inner() && |r.metadata| == s.Inner()
  }

  ghost predicate GroupsFit(s: Shape, groups: seq<Group>) {
    |groups| == s.groups && forall g | g in groups :: Fits(g)
  }

  function FoldRound(s: Shape, groups: seq<Group>, r: Round, from: nat): (after: seq<Group>)
    requires RoundFits(s, r) && GroupsFit(s, groups) && from <= s.groups
    ensures GroupsFit(s, after)
    ensures forall k | 0 <= k < s.groups :: |after[k].tokens| == |groups[k].tokens|
    ensures forall k | 0 <= k < from :: after[k] == groups[k]
    decreases s.groups - from
  {
    if from == s.groups then groups
    else
      ReporterInRange(s, from);
      var g := Fold(groups[from], r.outs[s.Reporter(from)], r.metadata[s.Cell(from)]);
      FoldRound(s, groups[from := g], r, from + 1)
  }

  /** The reference: one round at a time, in order. */
  function FoldAll(s: Shape, groups: seq<Group>, rounds: seq<Round>): (after: seq<Group>)
    requires GroupsFit(s, groups) && forall i | 0 <= i < |rounds| :: RoundFits(s, rounds[i])
    ensures GroupsFit(s, after)
    decreases |rounds|
  {
    if rounds == [] then groups else FoldAll(s, FoldRound(s, groups, rounds[0], 0), rounds[1..])
  }

  // ---- what the fold computes ----

  /** Each group is folded on its own, from its reporter's rows. */
  lemma {:induction false} FoldRoundAt(s: Shape, groups: seq<Group>, r: Round, from: nat, k: nat)
    requires RoundFits(s, r) && GroupsFit(s, groups) && from <= k < s.groups
    ensures s.Reporter(k) < |r.outs| && s.Cell(k) < |r.metadata|
    ensures FoldRound(s, groups, r, from)[k] == Fold(groups[k], r.outs[s.Reporter(k)], r.metadata[s.Cell(k)])
    decreases s.groups - from
  {
    ReporterInRange(s, k);
    ReporterInRange(s, from);
    var g := Fold(groups[from], r.outs[s.Reporter(from)], r.metadata[s.Cell(from)]);
    if from < k { FoldRoundAt(s, groups[from := g], r, from + 1, k); }
  }

  /** Group `k` takes the rows that its first cell's worker in the last stage has for that cell's
      fragments. */
  ghost predicate TakesLastStage(s: Shape, before: seq<Group>, after: seq<Group>, r: Round, k: nat)
    requires RoundFits(s, r) && GroupsFit(s, before) && GroupsFit(s, after) && k < s.groups
  {
    ReporterInLastStage(s, r.outs, k);
    after[k] == Fold(before[k], LastStage(s, r.outs)[k * s.tp], r.metadata[k * s.tp])
  }

  lemma RoundTakesLastStage(s: Shape, groups: seq<Group>, r: Round, k: nat)
    requires RoundFits(s, r) && GroupsFit(s, groups) && k < s.groups
    ensures TakesLastStage(s, groups, FoldRound(s, groups, r, 0), r, k)
  {
    FoldRoundAt(s, groups, r, 0, k);
    ReporterInLastStage(s, r.outs, k);
  }

  /** One cell's fragments and its reporter's outputs, round by round. */
  datatype Feed = Feed(out: Out, fragments: Fragments)

  function FeedOf(s: Shape, r: Round, k: nat): Feed
    requires RoundFits(s, r) && k < s.groups
  {
    ReporterInRange(s, k);
    Feed(r.outs[s.Reporter(k)], r.metadata[s.Cell(k)])
  }

  function FeedsOf(s: Shape, rounds: seq<Round>, k: nat): seq<Feed>
    requires k < s.groups && forall i | 0 <= i < |rounds| :: RoundFits(s, rounds[i])
  {
    if rounds == [] then [] else [FeedOf(s, rounds[0], k)] + FeedsOf(s, rounds[1..], k)
  }

  function FoldFeeds(g: Group, feeds: seq<Feed>): (h: Group)
    requires Fits(g)
    ensures Fits(h) && |h.tokens| == |g.tokens|
    decreases |feeds|
  {
    if feeds == [] then g else FoldFeeds(Fold(g, feeds[0].out, feeds[0].fragments), feeds[1..])
  }

  lemma {:induction false} FoldAllAt(s: Shape, groups: seq<Group>, rounds: seq<Round>, k: nat)
    requires GroupsFit(s, groups) && k < s.groups && forall i | 0 <= i < |rounds| :: RoundFits(s, rounds[i])
    ensures FoldAll(s, groups, rounds)[k] == FoldFeeds(groups[k], FeedsOf(s, rounds, k))
    decreases |rounds|
  {
    if rounds != [] {
      FoldRoundAt(s, groups, rounds[0], 0, k);
      FoldAllAt(s, FoldRound(s, groups, rounds[0], 0), rounds[1..], k);
      assert FeedsOf(s, rounds, k)[1..] == FeedsOf(s, rounds[1..], k);
    }
  }

  /** The last fragment of sequence `i` stands in row `row` of round `k`. */
  predicate LastAt(feeds: seq<Feed>, i: nat, k: nat, row: nat) {
    k < |feeds| && row < |feeds[k].fragments| && feeds[k].fragments[row] == (i, true)
  }

  lemma {:induction false} RowsUntouched(g: Group, out: Out, row: nat, fragments: Fragments, i: nat)
    requires Fits(g) && i < |g.tokens| && forall r | 0 <= r < |fragments| :: fragments[r] != (i, true)
    ensures PutRows(g, out, row, fragments).tokens[i] == g.tokens[i]
    ensures PutRows(g, out, row, fragments).logprobs[i] == g.logprobs[i]
    decreases |fragments|
  {
    if fragments != [] {
      var h := PutRow(g, out, row, fragments[0]);
      assert h.tokens[i] == g.tokens[i] && h.logprobs[i] == g.logprobs[i];
      RowsUntouched(h, out, row + 1, fragments[1..], i);
    }
  }

  lemma {:induction false} RowTaken(g: Group, out: Out, row: nat, fragments: Fragments, i: nat, at: nat)
    requires Fits(g) && i < |g.tokens| && at < |fragments| && fragments[at] == (i, true)
    requires forall r | 0 <= r < |fragments| && fragments[r] == (i, true) :: r == at
    ensures var h := PutRows(g, out, row, fragments);
      && h.tokens[i] == (if row + at < |out.tokens| then out.tokens[row + at] else g.tokens[i])
      && h.logprobs[i] == (if out.logprobs.Some? && row + at < |out.logprobs.value| then out.logprobs.value[row + at]
                           else g.logprobs[i])
    decreases |fragments|
  {
    var h, rest := PutRow(g, out, row, fragments[0]), fragments[1..];
    assert forall r | 0 <= r < |rest| :: rest[r] == fragments[r + 1];
    if at == 0 {
      RowsUntouched(h, out, row + 1, rest, i);
    } else {
      assert rest[at - 1] == (i, true);
      assert fragments[0] != (i, true);
      assert h.tokens[i] == g.tokens[i] && h.logprobs[i] == g.logprobs[i];
      RowTaken(h, out, row + 1, rest, i, at - 1);
    }
  }

  lemma {:induction false} FeedsUntouched(g: Group, feeds: seq<Feed>, i: nat)
    requires Fits(g) && i < |g.tokens| && forall k: nat, row: nat :: !LastAt(feeds, i, k, row)
    ensures FoldFeeds(g, feeds).tokens[i] == g.tokens[i] && FoldFeeds(g, feeds).logprobs[i] == g.logprobs[i]
    decreases |feeds|
  {
    if feeds != [] {
      var f, rest := feeds[0], feeds[1..];
      forall r | 0 <= r < |f.fragments|
        ensures f.fragments[r] != (i, true)
      {
        assert !LastAt(feeds, i, 0, r);
      }
      forall k: nat, row: nat
        ensures !LastAt(rest, i, k, row)
      {
        assert !LastAt(feeds, i, k + 1, row);
      }
      RowsUntouched(g, f.out, 0, f.fragments, i);
      FeedsUntouched(Fold(g, f.out, f.fragments), rest, i);
    }
  }

  /** Row `row` of an answer, if it has that many. */
  function TokensAt(out: Out, row: nat): Row { if row < |out.tokens| then out.tokens[row] else [] }

  predicate HasLogprobs(out: Out, row: nat) { out.logprobs.Some? && row < |out.logprobs.value| }

  function LogprobsAt(out: Out, row: nat): Row { if HasLogprobs(out, row) then out.logprobs.value[row] else [] }

  /** A sequence gets the row of its last fragment, and only that. */
  lemma {:induction false} LastRowWins(g: Group, feeds: seq<Feed>, i: nat, k: nat, row: nat)
    requires Fits(g) && i < |g.tokens| && LastAt(feeds, i, k, row) && g.tokens[i] == [] && g.logprobs[i] == []
    requires forall k': nat, row': nat | LastAt(feeds, i, k', row') :: k' == k && row' == row
    ensures FoldFeeds(g, feeds).tokens[i] == TokensAt(feeds[k].out, row)
    ensures FoldFeeds(g, feeds).logprobs[i] == LogprobsAt(feeds[k].out, row)
    decreases |feeds|
  {
    var f, rest := feeds[0], feeds[1..];
    assert forall k' | 0 <= k' < |rest| :: rest[k'] == feeds[k' + 1];
    forall r | 0 <= r < |f.fragments| && f.fragments[r] == (i, true)
      ensures k == 0 && r == row
    {
      assert LastAt(feeds, i, 0, r);
    }
    forall k': nat, row': nat | LastAt(rest, i, k', row')
      ensures k' + 1 == k && row' == row
    {
      assert LastAt(feeds, i, k' + 1, row');
    }
    if k == 0 {
      RowTaken(g, f.out, 0, f.fragments, i, row);
      FeedsUntouched(Fold(g, f.out, f.fragments), rest, i);
    } else {
      RowsUntouched(g, f.out, 0, f.fragments, i);
      assert LastAt(rest, i, k - 1, row);
      LastRowWins(Fold(g, f.out, f.fragments), rest, i, k - 1, row);
    }
  }

  // ---- the flag and the time ----

  /** Some sequence's last row comes with log probabilities. */
  ghost predicate Logs(f: Feed, n: nat, from: nat, row: nat) {
    row < |f.fragments| && f.fragments[row].1 && f.fragments[row].0 < n && HasLogprobs(f.out, from + row)
  }

  ghost predicate AnyLogs(f: Feed, n: nat, from: nat) { exists row: nat :: Logs(f, n, from, row) }

  lemma {:induction false} RowsFlag(g: Group, f: Feed, from: nat)
    requires Fits(g)
    ensures PutRows(g, f.out, from, f.fragments).hasLogprobs <==> g.hasLogprobs || AnyLogs(f, |g.tokens|, from)
    decreases |f.fragments|
  {
    if f.fragments != [] {
      var rest := Feed(f.out, f.fragments[1..]);
      RowsFlag(PutRow(g, f.out, from, f.fragments[0]), rest, from + 1);
      LogsUnfold(f, |g.tokens|, from);
    }
  }

  lemma LogsUnfold(f: Feed, n: nat, from: nat)
    requires f.fragments != []
    ensures AnyLogs(f, n, from) <==> Logs(f, n, from, 0) || AnyLogs(Feed(f.out, f.fragments[1..]), n, from + 1)
  {
    var rest, next := Feed(f.out, f.fragments[1..]), from + 1;
    if row: nat :| Logs(rest, n, next, row) { assert Logs(f, n, from, row + 1); }
    if row: nat :| Logs(f, n, from, row) { if row > 0 { assert Logs(rest, n, next, row - 1); } }
  }

  /** Log probabilities are reported exactly if some last row has them. */
  lemma {:induction false} FeedsFlag(g: Group, feeds: seq<Feed>)
    requires Fits(g)
    ensures FoldFeeds(g, feeds).hasLogprobs <==> g.hasLogprobs || exists f | f in feeds :: AnyLogs(f, |g.tokens|, 0)
    decreases |feeds|
  {
    if feeds != [] {
      RowsFlag(g, feeds[0], 0);
      FeedsFlag(Fold(g, feeds[0].out, feeds[0].fragments), feeds[1..]);
      assert forall f :: f in feeds <==> f == feeds[0] || f in feeds[1..];
    }
  }

  /** `ns` is the largest handler time of the rounds with fragments, or `floor`. */
  ghost predicate Slowest(ns: nat, floor: nat, feeds: seq<Feed>) {
    && floor <= ns && (forall f | f in feeds && f.fragments != [] :: f.out.ns <= ns)
    && (ns == floor || exists f | f in feeds && f.fragments != [] :: f.out.ns == ns)
  }

  lemma {:induction false} RowsKeepTime(g: Group, out: Out, row: nat, fragments: Fragments)
    requires Fits(g)
    ensures PutRows(g, out, row, fragments).ns == g.ns
    decreases |fragments|
  {
    if fragments != [] { RowsKeepTime(PutRow(g, out, row, fragments[0]), out, row + 1, fragments[1..]); }
  }

  lemma {:induction false} FeedsTime(g: Group, feeds: seq<Feed>)
    requires Fits(g)
    ensures Slowest(FoldFeeds(g, feeds).ns, g.ns, feeds)
    decreases |feeds|
  {
    if feeds != [] {
      var f := feeds[0];
      RowsKeepTime(g, f.out, 0, f.fragments);
      FeedsTime(Fold(g, f.out, f.fragments), feeds[1..]);
      assert forall x :: x in feeds <==> x == f || x in feeds[1..];
    }
  }
}
