/** A loop that keeps taking steps while they make progress, and what it means for such a
    loop to be indifferent to how its input is cut up. */
module StreamLoop {

  datatype Step<+P, +A> = Step(parser: P, out: seq<A>, progressed: bool)

  /** `flaw` marks states from which the loop is not expected to be indifferent. */
  datatype Machine<!P(!new), !A> = Machine(step: P -> Step<P, A>, size: P -> nat, flaw: P -> bool)
  {
    ghost predicate Shrinks() {
      forall p :: step(p).progressed ==> size(step(p).parser) < size(p)
    }
  }

  datatype Outcome<+P, +A> = Outcome(parser: P, out: seq<A>, flawed: bool)

  ghost function Run<P(!new), A>(m: Machine<P, A>, p: P): Outcome<P, A>
    requires m.Shrinks()
    decreases m.size(p)
  {
    var s := m.step(p);
    if !s.progressed then Outcome(s.parser, s.out, m.flaw(p))
    else
      var r := Run(m, s.parser);
      Outcome(r.parser, s.out + r.out, m.flaw(p) || r.flawed)
  }

  lemma StepRuns<P(!new), A>(m: Machine<P, A>, p: P)
    requires m.Shrinks() && m.step(p).progressed
    ensures Run(m, p).parser == Run(m, m.step(p).parser).parser
    ensures Run(m, p).out == m.step(p).out + Run(m, m.step(p).parser).out
  {
  }

  /** Running from `p` shows `out` and then whatever running from `q` shows. */
  ghost predicate Leads<P(!new), A>(m: Machine<P, A>, p: P, out: seq<A>, q: P)
    requires m.Shrinks()
  {
    && Run(m, p).parser == Run(m, q).parser
    && Run(m, p).out == out + Run(m, q).out
    && Run(m, p).flawed == Run(m, q).flawed
  }

  lemma LeadsThen<P(!new), A>(m: Machine<P, A>, p: P, a: seq<A>, q: P, b: seq<A>, r: P)
    requires m.Shrinks() && Leads(m, p, a, q) && Leads(m, q, b, r)
    ensures Leads(m, p, a + b, r)
  {
  }

  lemma LeadsBack<P(!new), A>(m: Machine<P, A>, p: P, a: seq<A>, b: seq<A>, q: P, r: P)
    requires m.Shrinks() && Leads(m, p, a + b, r) && Leads(m, q, b, r)
    ensures Leads(m, p, a, q)
  {
  }

  lemma StepLeads<P(!new), A>(m: Machine<P, A>, p: P)
    requires m.Shrinks() && m.step(p).progressed && !m.flaw(p)
    ensures Leads(m, p, m.step(p).out, m.step(p).parser)
  {
  }

  /** Two states that make the same step up to a common prefix of output. */
  lemma StepsMeet<P(!new), A>(m: Machine<P, A>, p: P, out: seq<A>, q: P)
    requires m.Shrinks() && m.step(p).parser == m.step(q).parser
    requires m.step(p).progressed == m.step(q).progressed
    requires m.step(p).out == out + m.step(q).out && m.flaw(p) == m.flaw(q)
    ensures Leads(m, p, out, q)
  {
  }

  /** One step can be taken before or after the input is extended. */
  ghost predicate StepExtends<P(!new), A>(m: Machine<P, A>, extend: P -> P, p: P)
    requires m.Shrinks()
  {
    Run(m, extend(p)).flawed || Leads(m, extend(p), m.step(p).out, extend(m.step(p).parser))
  }

  /** Then so can the whole loop: running, extending and running again is running on the
      extended input. */
  lemma {:induction false} RunExtends<P(!new), A>(m: Machine<P, A>, extend: P -> P, p: P)
    requires m.Shrinks() && forall q :: StepExtends(m, extend, q)
    requires !Run(m, extend(p)).flawed
    ensures Leads(m, extend(p), Run(m, p).out, extend(Run(m, p).parser))
    decreases m.size(p)
  {
    assert StepExtends(m, extend, p);
    var s := m.step(p);
    if s.progressed {
      RunExtends(m, extend, s.parser);
      LeadsThen(m, extend(p), s.out, extend(s.parser), Run(m, s.parser).out, extend(Run(m, s.parser).parser));
    }
  }
}
