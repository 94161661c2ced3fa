/** Only the last stage is heard: what a prefill step returns is decided by its batches and by
    the answers of the last stage's workers. */
module PrefillLastStage {
  import opened Patterns
  import opened PrefillPipeline
  import opened PrefillDriver
  import opened PrefillRounds
  import opened Microbatches
  import opened PackingUnique
  import opened PrefillStep

  /** The answers agree at every index from the last stage on. */
  ghost predicate SameLastStage(s: Shape, a: Answer, b: Answer)
    requires s.Valid() && Complete(a, s.stages * (s.groups * s.tp)) && Complete(b, s.stages * (s.groups * s.tp))
  {
    forall rounds :: LastStage(s, a(rounds)) == LastStage(s, b(rounds))
  }

  // ---- what is sent does not depend on the answers ----

  lemma SameParts(p: seq<seq<seq<Fragment>>>, q: seq<seq<seq<Fragment>>>, batches: seq<Batch>, maxTokens: nat)
    requires |p| == |q| == |batches|
    requires forall c | 0 <= c < |batches| :: Packed(p[c], batches[c], maxTokens) && Packed(q[c], batches[c], maxTokens)
    ensures p == q
  {
    forall c | 0 <= c < |p|
      ensures p[c] == q[c]
    {
      PackedUnique(p[c], q[c], batches[c], maxTokens);
    }
  }

  lemma WorkerPlace(j: nat, inner: nat, stages: nat) returns (stage: nat, c: nat)
    requires j < stages * inner
    ensures stage < stages && c < inner && j == stage * inner + c
  {
    stage, c := j / inner, j % inner;
    SmallerFactor(stage, stages, inner);
  }

  lemma SmallerFactor(a: nat, b: nat, n: nat)
    requires a * n < b * n
    ensures a < b
  {
  }

  lemma SameRound(s: Shape, a: seq<seq<Payload>>, b: seq<seq<Payload>>, parts: seq<seq<seq<Fragment>>>, batches: seq<Batch>,
                  maxTokens: nat, r: nat)
    requires |parts| == |batches| == s.groups * s.tp && LaidOut(a, s, parts, batches, maxTokens)
    requires LaidOut(b, s, parts, batches, maxTokens) && r < |a| && r < |b|
    requires |a[r]| == |b[r]| == s.stages * (s.groups * s.tp)
    ensures a[r] == b[r]
  {
    forall j | 0 <= j < |a[r]|
      ensures a[r][j] == b[r][j]
    {
      var stage, c := WorkerPlace(j, |parts|, s.stages);
      var sent := Sent(parts[c], batches[c], maxTokens, Several(batches, maxTokens), r);
      assert Given(a[r], stage, |parts|, c, sent) && Given(b[r], stage, |parts|, c, sent);
    }
  }

  /** The rounds are the same whatever the workers answer. */
  lemma SameSubmitted(s: Shape, batches: seq<Batch>, numSeqs: seq<nat>, maxTokens: nat, a: Answer, b: Answer,
                      x: seq<seq<Payload>>, y: seq<seq<Payload>>, p: seq<seq<seq<Fragment>>>, q: seq<seq<seq<Fragment>>>,
                      one: seq<Out>, two: seq<Out>)
    requires s.Valid() && |batches| == s.groups * s.tp && |numSeqs| == s.groups
    requires Complete(a, s.stages * (s.groups * s.tp)) && Complete(b, s.stages * (s.groups * s.tp))
    requires Ran(s, batches, numSeqs, maxTokens, a, x, p, one) && Ran(s, batches, numSeqs, maxTokens, b, y, q, two)
    ensures p == q && x == y
  {
    SameParts(p, q, batches, maxTokens);
    assert |x| == |y|;
    forall r | 0 <= r < |x|
      ensures x[r] == y[r]
    {
      SameRound(s, x, y, p, batches, maxTokens, r);
    }
  }

  // ---- what comes out of it ----

  lemma SameFeeds(s: Shape, a: Answer, b: Answer, submitted: seq<seq<Payload>>, k: nat, parts: seq<seq<Fragment>>,
                  f: seq<Feed>, g: seq<Feed>)
    requires s.Valid() && Complete(a, s.stages * (s.groups * s.tp)) && Complete(b, s.stages * (s.groups * s.tp))
    requires k < s.groups && SameLastStage(s, a, b)
    requires Answered(f, s, a, submitted, k, parts) && Answered(g, s, b, submitted, k, parts)
    ensures f == g
  {
    forall r | 0 <= r < |f|
      ensures f[r] == g[r]
    {
      assert LastStage(s, a(submitted[..r + 1])) == LastStage(s, b(submitted[..r + 1]));
    }
  }

  lemma SlowestUnique(x: nat, y: nat, feeds: seq<Feed>)
    requires Slowest(x, 0, feeds) && Slowest(y, 0, feeds)
    ensures x == y
  {
  }

  lemma SameRow(one: Out, two: Out, feeds: seq<Feed>, parts: seq<seq<Fragment>>, lens: seq<nat>, i: nat)
    requires Covers(Flatten(parts), lens) && RowIsLast(one, feeds, parts, i) && RowIsLast(two, feeds, parts, i)
    ensures TokensAt(one, i) == TokensAt(two, i) && LogprobsAt(one, i) == LogprobsAt(two, i)
  {
    OneLastEach(Flatten(parts), lens, i);
    var r, row := LastPlace(parts, i);
    var a: nat, x: nat :| MarksLast(parts, i, a, x) && a < |feeds|
      && TokensAt(one, i) == TokensAt(feeds[a].out, x) && LogprobsAt(one, i) == LogprobsAt(feeds[a].out, x);
    var b: nat, y: nat :| MarksLast(parts, i, b, y) && b < |feeds|
      && TokensAt(two, i) == TokensAt(feeds[b].out, y) && LogprobsAt(two, i) == LogprobsAt(feeds[b].out, y);
    assert a == r == b && x == row == y;
  }

  lemma SameAggregate(one: Out, two: Out, feeds: seq<Feed>, parts: seq<seq<Fragment>>, lens: seq<nat>, n: nat)
    requires Covers(Flatten(parts), lens) && Aggregated(one, feeds, parts, lens, n) && Aggregated(two, feeds, parts, lens, n)
    ensures one == two
  {
    SlowestUnique(one.ns, two.ns, feeds);
    forall i: nat | i < n
      ensures TokensAt(one, i) == TokensAt(two, i) && LogprobsAt(one, i) == LogprobsAt(two, i)
    {
      if HasTokens(lens, i) { SameRow(one, two, feeds, parts, lens, i); }
    }
    RowsDecide(one, two, n);
  }

  lemma RowsDecide(one: Out, two: Out, n: nat)
    requires |one.tokens| == |two.tokens| == n && (one.logprobs.Some? <==> two.logprobs.Some?) && one.ns == two.ns
    requires (one.logprobs.Some? ==> |one.logprobs.value| == n) && (two.logprobs.Some? ==> |two.logprobs.value| == n)
    requires forall i: nat | i < n :: TokensAt(one, i) == TokensAt(two, i) && LogprobsAt(one, i) == LogprobsAt(two, i)
    ensures one == two
  {
    assert forall i: nat | i < n :: TokensAt(one, i) == one.tokens[i] && TokensAt(two, i) == two.tokens[i];
    assert one.tokens == two.tokens;
    if one.logprobs.Some? {
      assert forall i: nat | i < n ::
        LogprobsAt(one, i) == one.logprobs.value[i] && LogprobsAt(two, i) == two.logprobs.value[i];
      assert one.logprobs.value == two.logprobs.value;
    }
  }

  lemma SameForGroup(s: Shape, batches: seq<Batch>, numSeqs: seq<nat>, maxTokens: nat, a: Answer, b: Answer,
                     submitted: seq<seq<Payload>>, parts: seq<seq<seq<Fragment>>>, k: nat, one: Out, two: Out)
    requires s.Valid() && |parts| == |batches| == s.groups * s.tp && |numSeqs| == s.groups && k < s.groups
    requires Complete(a, s.stages * (s.groups * s.tp)) && Complete(b, s.stages * (s.groups * s.tp)) && SameLastStage(s, a, b)
    requires forall c | 0 <= c < |parts| :: Packed(parts[c], batches[c], maxTokens)
    requires RightForGroup(one, s, a, submitted, parts, batches, numSeqs, k, Several(batches, maxTokens))
    requires RightForGroup(two, s, b, submitted, parts, batches, numSeqs, k, Several(batches, maxTokens))
    ensures one == two
  {
    ReporterInRange(s, k);
    var own, lens, several := parts[k * s.tp], batches[k * s.tp].lens, Several(batches, maxTokens);
    var f :| Answered(f, s, a, submitted, k, own) && RightFor(one, f, own, lens, numSeqs[k], several);
    var g :| Answered(g, s, b, submitted, k, own) && RightFor(two, g, own, lens, numSeqs[k], several);
    SameFeeds(s, a, b, submitted, k, own, f, g);
    if several { SameAggregate(one, two, f, own, lens, numSeqs[k]); }
  }

  /** Two executors whose answers agree in the last stage give the same result, whatever the
      workers of the other stages answer. */
  lemma LastStageDecides(s: Shape, batches: seq<Batch>, numSeqs: seq<nat>, maxTokens: nat, a: Answer, b: Answer,
                         x: seq<seq<Payload>>, y: seq<seq<Payload>>, p: seq<seq<seq<Fragment>>>, q: seq<seq<seq<Fragment>>>,
                         one: seq<Out>, two: seq<Out>)
    requires s.Valid() && |batches| == s.groups * s.tp && |numSeqs| == s.groups
    requires Complete(a, s.stages * (s.groups * s.tp)) && Complete(b, s.stages * (s.groups * s.tp)) && SameLastStage(s, a, b)
    requires Ran(s, batches, numSeqs, maxTokens, a, x, p, one) && Ran(s, batches, numSeqs, maxTokens, b, y, q, two)
    ensures one == two
  {
    SameSubmitted(s, batches, numSeqs, maxTokens, a, b, x, y, p, q, one, two);
    forall k | 0 <= k < s.groups
      ensures one[k] == two[k]
    {
      SameForGroup(s, batches, numSeqs, maxTokens, a, b, x, p, k, one[k], two[k]);
    }
  }
}
