/** The stages of the prefill pipeline as a transition system: the driver submits and collects
    rounds, and each stage works on them in order once the stage before is done with them. */
module PipelineProgress {

  /** `done[s]` rounds have left stage `s`. */
  datatype Pipe = Pipe(sent: nat, done: seq<nat>, collected: nat)

  datatype Step = Submit | Work(stage: nat) | Collect

  datatype Plan = Plan(rounds: nat, stages: nat, depth: nat)
  {
    predicate Valid() { stages > 0 && depth > 0 }
  }

  function Start(plan: Plan): Pipe { Pipe(0, seq(plan.stages, _ => 0), 0) }

  predicate Enabled(plan: Plan, p: Pipe, s: Step)
    requires |p.done| == plan.stages
  {
    match s
    case Submit => p.sent < plan.rounds && p.sent - p.collected < plan.depth
    case Work(k) => k < plan.stages && p.done[k] < (if k == 0 then p.sent else p.done[k - 1])
    // The driver waits for the oldest round when the pipeline is full or everything is sent.
    case Collect => plan.stages > 0 && p.collected < p.done[plan.stages - 1] &&
                    (p.sent - p.collected >= plan.depth || p.sent == plan.rounds)
  }

  function Next(plan: Plan, p: Pipe, s: Step): Pipe
    requires |p.done| == plan.stages && Enabled(plan, p, s)
  {
    match s
    case Submit => p.(sent := p.sent + 1)
    case Work(k) => p.(done := p.done[k := p.done[k] + 1])
    case Collect => p.(collected := p.collected + 1)
  }

  /** Rounds move through the stages in order, and never too many are in flight. */
  predicate Kept(plan: Plan, p: Pipe) {
    && |p.done| == plan.stages && plan.Valid() && p.sent <= plan.rounds && p.sent - p.collected <= plan.depth
    && p.done[0] <= p.sent && p.collected <= p.done[plan.stages - 1]
    && forall i, j | 0 <= i <= j < plan.stages :: p.done[j] <= p.done[i]
  }

  lemma StartKept(plan: Plan)
    requires plan.Valid()
    ensures Kept(plan, Start(plan))
  {
  }

  lemma StepKeeps(plan: Plan, p: Pipe, s: Step)
    requires Kept(plan, p) && Enabled(plan, p, s)
    ensures Kept(plan, Next(plan, p, s))
  {
    if s.Work? {
      var k := s.stage;
      var q := Next(plan, p, s);
      forall i, j | 0 <= i <= j < plan.stages
        ensures q.done[j] <= q.done[i]
      {
        if j == k && i < k { assert p.done[k - 1] <= p.done[i]; }
      }
    }
  }

  // ---- progress ----

  function Sum(s: seq<nat>): nat { if s == [] then 0 else s[0] + Sum(s[1..]) }

  lemma {:induction false} SumBounded(s: seq<nat>, n: nat)
    requires forall i | 0 <= i < |s| :: s[i] <= n
    ensures Sum(s) <= |s| * n
  {
    if s != [] {
      SumBounded(s[1..], n);
      assert |s| * n == n + |s[1..]| * n;
    }
  }

  lemma {:induction false} SumGrows(s: seq<nat>, k: nat)
    requires k < |s|
    ensures Sum(s[k := s[k] + 1]) == Sum(s) + 1
  {
    var t := s[k := s[k] + 1];
    if k > 0 {
      SumGrows(s[1..], k - 1);
      assert t[1..] == s[1..][k - 1 := s[1..][k - 1] + 1];
    } else {
      assert t[1..] == s[1..];
    }
  }

  /** Work left: each round is submitted, passes every stage and is collected. */
  function Left(plan: Plan, p: Pipe): int { plan.rounds * (plan.stages + 2) - (p.sent + Sum(p.done) + p.collected) }

  /** Every step uses up exactly one unit of the work left, so every run ends. */
  lemma StepDecreases(plan: Plan, p: Pipe, s: Step)
    requires Kept(plan, p) && Enabled(plan, p, s)
    ensures Left(plan, Next(plan, p, s)) == Left(plan, p) - 1 >= 0
  {
    StepKeeps(plan, p, s);
    if s.Work? { SumGrows(p.done, s.stage); }
    LeftBounded(plan, Next(plan, p, s));
  }

  lemma LeftBounded(plan: Plan, p: Pipe)
    requires Kept(plan, p)
    ensures Left(plan, p) >= 0
  {
    assert p.done[plan.stages - 1] <= p.done[0];
    forall i | 0 <= i < |p.done|
      ensures p.done[i] <= plan.rounds
    {
      assert p.done[i] <= p.done[0];
    }
    SumBounded(p.done, plan.rounds);
    assert plan.rounds * (plan.stages + 2) == plan.stages * plan.rounds + 2 * plan.rounds;
  }

  /** No reachable state is stuck: while a round is missing, something can be done. */
  lemma NeverStuck(plan: Plan, p: Pipe) returns (s: Step)
    requires Kept(plan, p) && p.collected < plan.rounds
    ensures Enabled(plan, p, s)
  {
    var last := plan.stages - 1;
    if p.sent < plan.rounds && p.sent - p.collected < plan.depth {
      s := Submit;
    } else if p.collected < p.done[last] {
      s := Collect;
    } else {
      var k := Waiting(plan, p, last);
      s := Work(k);
    }
  }

  /** If the last stage lags behind what was sent, some stage has work it can do. */
  lemma {:induction false} Waiting(plan: Plan, p: Pipe, stage: nat) returns (k: nat)
    requires Kept(plan, p) && stage < plan.stages && p.done[stage] < p.sent
    ensures Enabled(plan, p, Work(k))
    decreases stage
  {
    if stage == 0 || p.done[stage] < p.done[stage - 1] {
      k := stage;
    } else {
      k := Waiting(plan, p, stage - 1);
    }
  }

  /** A run that has used up all work has collected every round, and one that has not can go on. */
  lemma DoneWhenNothingLeft(plan: Plan, p: Pipe)
    requires Kept(plan, p)
    ensures Left(plan, p) == 0 <==> p.collected == plan.rounds
  {
    if p.collected == plan.rounds {
      forall i | 0 <= i < |p.done|
        ensures p.done[i] == plan.rounds
      {
        assert p.done[plan.stages - 1] <= p.done[i] <= p.done[0];
      }
      SumEqual(p.done, plan.rounds);
      assert plan.rounds * (plan.stages + 2) == plan.stages * plan.rounds + 2 * plan.rounds;
    } else {
      var s := NeverStuck(plan, p);
      StepDecreases(plan, p, s);
    }
  }

  lemma {:induction false} SumEqual(s: seq<nat>, n: nat)
    requires forall i | 0 <= i < |s| :: s[i] == n
    ensures Sum(s) == |s| * n
  {
    if s != [] {
      SumEqual(s[1..], n);
      assert |s| * n == n + |s[1..]| * n;
    }
  }

  /** Over every run: the invariant holds, so rounds are collected in order with at most
      `depth` in flight; and after exactly `rounds * (stages + 2)` steps all are collected. */
  ghost predicate IsRun(plan: Plan, states: seq<Pipe>, steps: seq<Step>) {
    && |states| == |steps| + 1 && states[0] == Start(plan)
    && forall i | 0 <= i < |steps| ::
         |states[i].done| == plan.stages && Enabled(plan, states[i], steps[i]) && states[i + 1] == Next(plan, states[i], steps[i])
  }

  lemma {:induction false} RunKeeps(plan: Plan, states: seq<Pipe>, steps: seq<Step>, k: nat)
    requires plan.Valid() && IsRun(plan, states, steps) && k < |states|
    ensures Kept(plan, states[k]) && Left(plan, states[k]) == plan.rounds * (plan.stages + 2) - k
    ensures k <= plan.rounds * (plan.stages + 2)
    ensures k == plan.rounds * (plan.stages + 2) <==> states[k].collected == plan.rounds
    decreases k
  {
    if k == 0 {
      StartKept(plan);
      SumEqual(states[0].done, 0);
    } else {
      RunKeeps(plan, states, steps, k - 1);
      StepKeeps(plan, states[k - 1], steps[k - 1]);
      StepDecreases(plan, states[k - 1], steps[k - 1]);
    }
    LeftBounded(plan, states[k]);
    DoneWhenNothingLeft(plan, states[k]);
  }
}
