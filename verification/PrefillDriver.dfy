/** The driver loop of the prefill pipeline. The executor's answer to a round depends on the
    rounds submitted up to it, not on when it is waited for. */
module PrefillDriver {
  import opened Patterns
  import opened PrefillPipeline

  class Executor<P(==)> {
    const answer: seq<P> -> seq<Out>
    var submitted: seq<P>
    var collected: seq<nat>
    var peak: nat

    constructor (answer: seq<P> -> seq<Out>)
      ensures this.answer == answer && submitted == [] && collected == [] && peak == 0
    {
      this.answer, submitted, collected, peak := answer, [], [], 0;
    }

    method RunAsync(payload: P) returns (handle: nat)
      requires |collected| <= |submitted|
      modifies this
      ensures submitted == old(submitted) + [payload] && handle == |old(submitted)| && collected == old(collected)
      ensures peak == Max(old(peak), |submitted| - |collected|)
    {
      handle := |submitted|;
      submitted := submitted + [payload];
      peak := Max(peak, |submitted| - |collected|);
    }

    method Wait(handle: nat) returns (outs: seq<Out>)
      requires handle < |submitted|
      modifies `collected
      ensures collected == old(collected) + [handle] && outs == answer(submitted[..handle + 1])
    {
      collected := collected + [handle];
      outs := answer(submitted[..handle + 1]);
    }
  }

  /** A round as the driver prepares it. */
  datatype Job<P> = Job(payload: P, metadata: seq<Fragments>)

  function Payloads<P>(jobs: seq<Job<P>>): (ps: seq<P>)
    ensures |ps| == |jobs| && forall i | 0 <= i < |ps| :: ps[i] == jobs[i].payload
  {
    seq(|jobs|, i requires 0 <= i < |jobs| => jobs[i].payload)
  }

  /** The rounds with their answers, as if each were run and awaited before the next. */
  function Rounds<P>(answer: seq<P> -> seq<Out>, jobs: seq<Job<P>>): (rs: seq<Round>)
    ensures |rs| == |jobs|
    ensures forall i | 0 <= i < |rs| :: rs[i] == Round(answer(Payloads(jobs)[..i + 1]), jobs[i].metadata)
  {
    seq(|jobs|, i requires 0 <= i < |jobs| => Round(answer(Payloads(jobs)[..i + 1]), jobs[i].metadata))
  }

  lemma PayloadsGrow<P>(jobs: seq<Job<P>>, i: nat)
    requires i < |jobs|
    ensures Payloads(jobs)[..i + 1] == Payloads(jobs)[..i] + [jobs[i].payload]
  {
  }

  function Blanks(numSeqs: seq<nat>): (groups: seq<Group>)
    ensures |groups| == |numSeqs| && forall i | 0 <= i < |groups| :: groups[i] == Blank(numSeqs[i])
  {
    seq(|numSeqs|, i requires 0 <= i < |numSeqs| => Blank(numSeqs[i]))
  }

  function Upto(n: nat): seq<nat> { seq(n, i => i) }

  class Driver<P(==)> {
    const shape: Shape
    const executor: Executor<P>
    var groups: seq<Group>
    var pending: seq<(nat, seq<Fragments>)>

    constructor (shape: Shape, executor: Executor<P>, numSeqs: seq<nat>)
      requires |numSeqs| == shape.groups
      ensures this.shape == shape && this.executor == executor && pending == []
      ensures groups == Blanks(numSeqs) && GroupsFit(shape, groups)
    {
      this.shape, this.executor, pending := shape, executor, [];
      groups := Blanks(numSeqs);
    }

    /** The body of `consume`, once the answers are there. */
    method Consume(outs: seq<Out>, metadata: seq<Fragments>)
      requires GroupsFit(shape, groups) && RoundFits(shape, Round(outs, metadata))
      modifies `groups
      ensures groups == FoldRound(shape, old(groups), Round(outs, metadata), 0) && GroupsFit(shape, groups)
      ensures forall k: nat | k < shape.groups :: TakesLastStage(shape, old(groups), groups, Round(outs, metadata), k)
    {
      ghost var goal := FoldRound(shape, groups, Round(outs, metadata), 0);
      ghost var before := groups;
      forall k: nat | k < shape.groups
        ensures TakesLastStage(shape, before, goal, Round(outs, metadata), k)
      {
        RoundTakesLastStage(shape, before, Round(outs, metadata), k);
      }
      for k := 0 to shape.groups
        invariant GroupsFit(shape, groups) && goal == FoldRound(shape, groups, Round(outs, metadata), k)
      {
        ReporterInRange(shape, k);
        var out, fragments := outs[shape.Reporter(k)], metadata[shape.Cell(k)];
        if fragments != [] {
          var g := TakeRows(groups[k], out, fragments);
          groups := groups[k := g.(ns := Max(g.ns, out.ns))];
        } else {
          assert groups[k := groups[k]] == groups;
        }
      }
    }

    method TakeRows(g: Group, out: Out, fragments: Fragments) returns (h: Group)
      requires Fits(g)
      ensures h == PutRows(g, out, 0, fragments)
    {
      h := g;
      assert fragments[0..] == fragments;
      for row := 0 to |fragments|
        invariant Fits(h) && PutRows(g, out, 0, fragments) == PutRows(h, out, row, fragments[row..])
      {
        var (i, last) := fragments[row];
        assert fragments[row..][0] == fragments[row] && fragments[row..][1..] == fragments[row + 1..];
        if last && i < |h.tokens| {
          if row < |out.tokens| { h := h.(tokens := h.tokens[i := out.tokens[row]]); }
          if out.logprobs.Some? && row < |out.logprobs.value| {
            h := h.(logprobs := h.logprobs[i := out.logprobs.value[row]], hasLogprobs := true);
          }
        }
      }
      assert fragments[|fragments|..] == [];
    }

    /** Rounds up to `done` are folded; `goal` is where the sequential run ends. */
    ghost predicate Folding(jobs: seq<Job<P>>, done: nat, goal: seq<Group>)
      reads `groups
    {
      && done <= |jobs| && GroupsFit(shape, groups) && AllFit(shape, Rounds(executor.answer, jobs))
      && goal == FoldAll(shape, groups, Rounds(executor.answer, jobs)[done..])
    }

    /** Rounds up to `sent` are submitted, those up to `done` collected. */
    ghost predicate InFlight(jobs: seq<Job<P>>, done: nat, sent: nat)
      reads `pending, executor
    {
      Queued(pending, jobs, done, sent) && executor.submitted == Payloads(jobs)[..sent] && executor.collected == Upto(done)
    }

    /** Wait for the oldest round in flight and fold it. */
    method ConsumeOldest(ghost jobs: seq<Job<P>>, ghost done: nat, ghost sent: nat, ghost goal: seq<Group>)
      requires InFlight(jobs, done, sent) && Folding(jobs, done, goal) && done < sent
      modifies `groups, `pending, executor`collected
      ensures InFlight(jobs, done + 1, sent) && Folding(jobs, done + 1, goal) && |pending| == |old(pending)| - 1
    {
      var (handle, metadata) := pending[0];
      pending := pending[1..];
      var outs := executor.Wait(handle);
      ghost var rounds := Rounds(executor.answer, jobs);
      assert executor.submitted[..done + 1] == Payloads(jobs)[..done + 1];
      assert rounds[done] == Round(outs, metadata);
      assert rounds[done..][0] == rounds[done] && rounds[done..][1..] == rounds[done + 1..];
      assert Upto(done) + [done] == Upto(done + 1);
      Consume(outs, metadata);
    }

    method SubmitNext(jobs: seq<Job<P>>, ghost done: nat, i: nat)
      requires InFlight(jobs, done, i) && i < |jobs|
      modifies `pending, executor
      ensures InFlight(jobs, done, i + 1) && |pending| == |old(pending)| + 1
      ensures executor.peak <= Max(old(executor.peak), i + 1 - done)
    {
      assert Upto(done) == executor.collected && |Upto(done)| == done;
      var handle := executor.RunAsync(jobs[i].payload);
      pending := pending + [(handle, jobs[i].metadata)];
      PayloadsGrow(jobs, i);
    }

    method SubmitAll(jobs: seq<Job<P>>, depth: nat, ghost goal: seq<Group>) returns (ghost done: nat)
      requires depth >= 1 && InFlight(jobs, 0, 0) && Folding(jobs, 0, goal) && executor.peak <= depth
      modifies this, executor
      ensures InFlight(jobs, done, |jobs|) && Folding(jobs, done, goal) && executor.peak <= depth
    {
      done := 0;
      for i := 0 to |jobs|
        invariant InFlight(jobs, done, i) && Folding(jobs, done, goal) && |pending| < depth && executor.peak <= depth
      {
        SubmitNext(jobs, done, i);
        if |pending| >= depth {
          ConsumeOldest(jobs, done, i + 1, goal);
          done := done + 1;
        }
      }
    }

    method Drain(ghost jobs: seq<Job<P>>, ghost from: nat, ghost goal: seq<Group>)
      requires InFlight(jobs, from, |jobs|) && Folding(jobs, from, goal)
      modifies `groups, `pending, executor`collected
      ensures InFlight(jobs, |jobs|, |jobs|) && Folding(jobs, |jobs|, goal)
    {
      ghost var done := from;
      while pending != []
        invariant done <= |jobs| && |pending| == |jobs| - done
        invariant InFlight(jobs, done, |jobs|) && Folding(jobs, done, goal)
        decreases |pending|
      {
        ConsumeOldest(jobs, done, |jobs|, goal);
        done := done + 1;
      }
    }

    /** Submit all rounds in order with at most `depth` in flight, and fold them in order: the
        rows are those of running the rounds one at a time. */
    method Run(jobs: seq<Job<P>>, depth: nat)
      requires depth >= 1 && pending == [] && GroupsFit(shape, groups)
      requires executor.submitted == [] && executor.collected == [] && executor.peak == 0
      requires AllFit(shape, Rounds(executor.answer, jobs))
      modifies this, executor
      ensures groups == FoldAll(shape, old(groups), Rounds(executor.answer, jobs))
      ensures executor.submitted == Payloads(jobs) && executor.collected == Upto(|jobs|) && executor.peak <= depth
    {
      ghost var goal := FoldAll(shape, groups, Rounds(executor.answer, jobs));
      assert Rounds(executor.answer, jobs)[0..] == Rounds(executor.answer, jobs);
      ghost var done := SubmitAll(jobs, depth, goal);
      Drain(jobs, done, goal);
      assert Rounds(executor.answer, jobs)[|jobs|..] == [];
      assert Payloads(jobs)[..|jobs|] == Payloads(jobs);
    }
  }

  ghost predicate AllFit(s: Shape, rounds: seq<Round>) {
    forall i | 0 <= i < |rounds| :: RoundFits(s, rounds[i])
  }

  /** The rounds in flight, oldest first. */
  ghost predicate Queued<P>(pending: seq<(nat, seq<Fragments>)>, jobs: seq<Job<P>>, done: nat, submitted: nat) {
    done <= submitted <= |jobs| && |pending| == submitted - done &&
    forall j | 0 <= j < |pending| :: pending[j] == (done + j, jobs[done + j].metadata)
  }

  // ---- the depth ----

  /** No more than there are slots. */
  function AtMost(n: int, slots: Option<int>): int { if slots.Some? && slots.value < n then slots.value else n }

  /** What is configured, else one round per stage, sixteen at most; too few transport slots are an
      error. */
  function PipelineDepth(configured: int, stages: nat, slots: Option<int>): (depth: Option<nat>)
    ensures depth.Some? ==> 1 <= depth.value && (slots.Some? ==> depth.value <= slots.value)
    ensures depth.None? <==> slots.Some? && slots.value < 2
    ensures depth.Some? && configured > 0 ==> depth.value == AtMost(configured, slots)
    ensures depth.Some? && configured < 0 ==> depth.value == 1
    ensures depth.Some? && configured == 0 && stages > 0 ==> depth.value == AtMost(if stages < 16 then stages else 16, slots)
  {
    var wanted := if configured != 0 then configured else if stages < 16 then stages else 16;
    if slots.None? then Some(if wanted < 1 then 1 else wanted)
    else
      var transport := if slots.value < 1 then 1 else slots.value;
      if transport < 2 then None
      else
        var d := if wanted < transport then wanted else transport;
        Some(if d < 1 then 1 else d)
  }
}
