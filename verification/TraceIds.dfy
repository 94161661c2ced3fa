/** Profiler identifiers and how they are kept apart per rank. */
module TraceIds {
  import opened Patterns

  const STRIDE: nat := 100_000_000

  /** A process or thread id as JSON gives it; booleans, floats and the rest are `Odd`. */
  datatype Ident = Text(s: string) | Number(n: int) | Odd(raw: string)

  function Digit(d: nat): char
    requires d < 10
  {
    (('0' as int) + d) as char
  }

  /** Decimal notation. */
  function Digits(n: nat): string {
    if n < 10 then [Digit(n)] else Digits(n / 10) + [Digit(n % 10)]
  }

  /** `_remap_identifier`; an identifier of any other type is an error. */
  function Remap(id: Ident, delta: nat): Option<Ident> {
    match id
    case Text(s) => Some(Text(s + "_" + Digits(delta)))
    case Number(n) => Some(Number(n + delta))
    case Odd(_) => None
  }

  lemma {:induction false} DigitsPlain(n: nat)
    ensures Digits(n) != "" && '_' !in Digits(n)
    decreases n
  {
    if n >= 10 { DigitsPlain(n / 10); }
  }

  lemma {:induction false} DigitsInjective(a: nat, b: nat)
    requires Digits(a) == Digits(b)
    ensures a == b
    decreases a
  {
    var x, y := Digits(a), Digits(b);
    assert x[|x| - 1] == Digit(a % 10) && y[|y| - 1] == Digit(b % 10);
    DigitsPlain(a / 10);
    DigitsPlain(b / 10);
    if a >= 10 {
      assert x[..|x| - 1] == Digits(a / 10);
      assert |y| > 1;
      assert y[..|y| - 1] == Digits(b / 10);
      DigitsInjective(a / 10, b / 10);
    } else {
      assert |x| == 1;
      assert b >= 10 ==> |Digits(b)| > 1;
    }
  }

  lemma LastUnderscore(s: string, u: string, x: string)
    requires x == s + "_" + u && '_' !in u
    ensures x[|s|] == '_' && forall k | |s| < k < |x| :: x[k] != '_'
    ensures s == x[..|s|] && u == x[|s| + 1..]
  {
    forall k | |s| < k < |x|
      ensures x[k] != '_'
    {
      assert x[k] == u[k - |s| - 1];
    }
  }

  /** The last underscore separates the id from its suffix. */
  lemma SuffixSplits(s: string, u: string, t: string, v: string)
    requires s + "_" + u == t + "_" + v && '_' !in u && '_' !in v
    ensures s == t && u == v
  {
    LastUnderscore(s, u, s + "_" + u);
    LastUnderscore(t, v, t + "_" + v);
  }

  /** String ids of different ranks, or different string ids, never collide. */
  lemma TextsNeverCollide(s: string, rank: nat, t: string, rank': nat)
    ensures Remap(Text(s), rank * STRIDE) == Remap(Text(t), rank' * STRIDE) <==> s == t && rank == rank'
  {
    DigitsPlain(rank * STRIDE);
    DigitsPlain(rank' * STRIDE);
    if Remap(Text(s), rank * STRIDE) == Remap(Text(t), rank' * STRIDE) {
      SuffixSplits(s, Digits(rank * STRIDE), t, Digits(rank' * STRIDE));
      DigitsInjective(rank * STRIDE, rank' * STRIDE);
    }
  }

  /** Numeric ids collide exactly when they differ by as many strides as the ranks. */
  lemma NumbersCollideExactly(n: int, rank: nat, m: int, rank': nat)
    ensures Remap(Number(n), rank * STRIDE) == Remap(Number(m), rank' * STRIDE) <==> n - m == (rank' - rank) * STRIDE
    ensures 0 <= n < STRIDE && 0 <= m < STRIDE && Remap(Number(n), rank * STRIDE) == Remap(Number(m), rank' * STRIDE)
            ==> n == m && rank == rank'
  {
  }
}
