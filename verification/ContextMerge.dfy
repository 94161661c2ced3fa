/** Merging the partial attention of context-parallel ranks by their log-sum-exps, over the
    reals. The exponential is any positive function that turns sums into products; minus
    infinity, the log-sum-exp of an empty partition, is `None`. */
module ContextMerge {
  import opened Patterns

  type Lse = Option<real>

  ghost predicate IsExp(E: real -> real) {
    (forall x :: E(x) > 0.0) && forall x, y :: Multiplies(E, x, y)
  }

  ghost predicate Multiplies(E: real -> real, x: real, y: real) { E(x + y) == E(x) * E(y) }

  // ---- the kernels, one row at a time ----

  function Weight(E: real -> real, lse: Lse, maximum: Lse): real {
    if maximum.None? || lse.None? then 0.0 else E(lse.value - maximum.value)
  }

  /** `_pack`: the weighted values and, last, the weight. */
  function PackRow(E: real -> real, value: seq<real>, lse: Lse, maximum: Lse): (p: seq<real>)
    ensures |p| == |value| + 1
  {
    var w := Weight(E, lse, maximum);
    seq(|value|, c requires 0 <= c < |value| => value[c] * w) + [w]
  }

  /** `_finish` */
  function FinishRow(p: seq<real>): (v: seq<real>)
    requires p != []
    ensures |v| == |p| - 1
  {
    var n := |p| - 1;
    seq(n, c requires 0 <= c < n => if p[n] > 0.0 then p[c] / p[n] else 0.0)
  }

  function MaxOf(a: Lse, b: Lse): Lse {
    if a.None? then b else if b.None? then a else if a.value < b.value then b else a
  }

  /** The two all-reduces, for one row. */
  function ReduceMax(lses: seq<Lse>): Lse {
    if lses == [] then None else MaxOf(lses[0], ReduceMax(lses[1..]))
  }

  function AddRows(a: seq<real>, b: seq<real>): seq<real>
    requires |a| == |b|
  {
    seq(|a|, c requires 0 <= c < |a| => a[c] + b[c])
  }

  function ReduceSum(rows: seq<seq<real>>, width: nat): (sum: seq<real>)
    requires forall r | r in rows :: |r| == width
    ensures |sum| == width
  {
    if rows == [] then seq(width, _ => 0.0) else AddRows(rows[0], ReduceSum(rows[1..], width))
  }

  // ---- the reference ----

  datatype Key = Key(score: real, value: seq<real>)

  function Mass(E: real -> real, keys: seq<Key>): real {
    if keys == [] then 0.0 else E(keys[0].score) + Mass(E, keys[1..])
  }

  function Weighted(E: real -> real, keys: seq<Key>, c: nat): real
    requires forall k | k in keys :: c < |k.value|
  {
    if keys == [] then 0.0 else E(keys[0].score) * keys[0].value[c] + Weighted(E, keys[1..], c)
  }

  /** Softmax attention over the keys; a fully masked row gives zero. */
  function Attention(E: real -> real, keys: seq<Key>, c: nat): real
    requires forall k | k in keys :: c < |k.value|
  {
    if Mass(E, keys) > 0.0 then Weighted(E, keys, c) / Mass(E, keys) else 0.0
  }

  lemma {:induction false} MassPositive(E: real -> real, keys: seq<Key>)
    requires IsExp(E)
    ensures Mass(E, keys) >= 0.0 && (Mass(E, keys) > 0.0 <==> keys != [])
  {
    if keys != [] {
      MassPositive(E, keys[1..]);
      assert E(keys[0].score) > 0.0;
    }
  }

  ghost predicate Wide(keys: seq<Key>, width: nat) { forall k | k in keys :: |k.value| == width }

  lemma {:induction false} MassAdds(E: real -> real, a: seq<Key>, b: seq<Key>)
    ensures Mass(E, a + b) == Mass(E, a) + Mass(E, b)
    decreases |a|
  {
    if a == [] {
      assert a + b == b;
    } else {
      assert (a + b)[1..] == a[1..] + b;
      MassAdds(E, a[1..], b);
    }
  }

  lemma {:induction false} WeightedAdds(E: real -> real, a: seq<Key>, b: seq<Key>, c: nat, width: nat)
    requires Wide(a, width) && Wide(b, width) && Wide(a + b, width) && c < width
    ensures Weighted(E, a + b, c) == Weighted(E, a, c) + Weighted(E, b, c)
    decreases |a|
  {
    if a == [] {
      assert a + b == b;
    } else {
      assert (a + b)[1..] == a[1..] + b;
      WeightedAdds(E, a[1..], b, c, width);
    }
  }

  // ---- one row of the merge ----

  /** What a rank brings for one row: its own attention over its keys, and their log-sum-exp. */
  datatype Partial = Partial(value: seq<real>, lse: Lse)

  /** `part` is the attention over `keys`. */
  ghost predicate Summarises(E: real -> real, part: Partial, keys: seq<Key>, width: nat) {
    && |part.value| == width && Wide(keys, width)
    && (part.lse.None? <==> keys == [])
    && (part.lse.Some? ==> E(part.lse.value) == Mass(E, keys))
    && (part.lse.Some? ==> forall c | 0 <= c < width :: part.value[c] == Attention(E, keys, c))
  }

  ghost predicate AllSummarise(E: real -> real, parts: seq<Partial>, keys: seq<seq<Key>>, width: nat) {
    && |parts| == |keys| && (forall i | 0 <= i < |parts| :: |parts[i].value| == width)
    && forall i | 0 <= i < |parts| :: Summarises(E, parts[i], keys[i], width)
  }

  function Gather(keys: seq<seq<Key>>): seq<Key> {
    if keys == [] then [] else keys[0] + Gather(keys[1..])
  }

  function PackAll(E: real -> real, parts: seq<Partial>, shift: Lse, width: nat): (rows: seq<seq<real>>)
    requires forall i | 0 <= i < |parts| :: |parts[i].value| == width
    ensures |rows| == |parts| && forall r | r in rows :: |r| == width + 1
  {
    seq(|parts|, i requires 0 <= i < |parts| => PackRow(E, parts[i].value, parts[i].lse, shift))
  }

  /** Under a shift, a rank's weight is the mass of its keys, scaled. */
  lemma WeightIsMass(E: real -> real, part: Partial, keys: seq<Key>, width: nat, m: real, c: nat)
    requires IsExp(E) && Summarises(E, part, keys, width) && c < width
    ensures Weight(E, part.lse, Some(m)) == Mass(E, keys) * E(-m)
    ensures part.value[c] * Weight(E, part.lse, Some(m)) == Weighted(E, keys, c) * E(-m)
  {
    MassPositive(E, keys);
    if part.lse.Some? {
      var l := part.lse.value;
      assert l - m == l + (-m);
      assert Multiplies(E, l, -m);
      var z, n := Mass(E, keys), Weighted(E, keys, c);
      assert part.value[c] == n / z;
      Rescale(n, z, E(-m));
    }
  }

  lemma Rescale(n: real, z: real, s: real)
    requires z > 0.0
    ensures n / z * (z * s) == n * s
  {
    assert n / z * z == n;
    assert n / z * (z * s) == (n / z * z) * s;
  }

  function Total(xs: seq<real>): real { if xs == [] then 0.0 else xs[0] + Total(xs[1..]) }

  /** A function that respects sums, such as scaling by a factor. */
  ghost predicate Additive(f: real -> real) { f(0.0) == 0.0 && forall x, y :: Adds(f, x, y) }

  ghost predicate Adds(f: real -> real, x: real, y: real) { f(x + y) == f(x) + f(y) }

  function By(s: real): real -> real { x => x * s }

  lemma ScalingAdds(s: real)
    ensures Additive(By(s))
  {
    forall x, y
      ensures Adds(By(s), x, y)
    {
      Distribute(x, y, s);
    }
  }

  lemma Distribute(x: real, y: real, s: real)
    ensures (x + y) * s == x * s + y * s
  {
  }

  /** Row `i` of the packed rows holds mass `masses[i]` and weighted value `sums[i]`, scaled. */
  ghost predicate RowsScaled(rows: seq<seq<real>>, masses: seq<real>, sums: seq<real>, width: nat, c: nat, f: real -> real) {
    && |rows| == |masses| == |sums| && c < width
    && forall i | 0 <= i < |rows| :: RowScaled(rows[i], masses[i], sums[i], width, c, f)
  }

  ghost predicate RowScaled(row: seq<real>, mass: real, sum: real, width: nat, c: nat, f: real -> real) {
    c < width && |row| == width + 1 && row[width] == f(mass) && row[c] == f(sum)
  }

  lemma {:induction false} SumIsScaled(rows: seq<seq<real>>, masses: seq<real>, sums: seq<real>, width: nat, c: nat,
                                       f: real -> real)
    requires RowsScaled(rows, masses, sums, width, c, f) && Additive(f) && forall r | r in rows :: |r| == width + 1
    ensures RowScaled(ReduceSum(rows, width + 1), Total(masses), Total(sums), width, c, f)
    decreases |rows|
  {
    if rows != [] {
      SumIsScaled(rows[1..], masses[1..], sums[1..], width, c, f);
      assert RowScaled(rows[0], masses[0], sums[0], width, c, f);
      assert Adds(f, masses[0], Total(masses[1..])) && Adds(f, sums[0], Total(sums[1..]));
    }
  }

  function Masses(E: real -> real, keys: seq<seq<Key>>): (ms: seq<real>)
    ensures |ms| == |keys| && forall i | 0 <= i < |ms| :: ms[i] == Mass(E, keys[i])
  {
    seq(|keys|, i requires 0 <= i < |keys| => Mass(E, keys[i]))
  }

  ghost function Sums(E: real -> real, keys: seq<seq<Key>>, c: nat, width: nat): (ss: seq<real>)
    requires c < width && forall i | 0 <= i < |keys| :: Wide(keys[i], width)
    ensures |ss| == |keys| && forall i | 0 <= i < |ss| :: Wide(keys[i], width) && ss[i] == Weighted(E, keys[i], c)
  {
    seq(|keys|, i requires 0 <= i < |keys| => assert Wide(keys[i], width); Weighted(E, keys[i], c))
  }

  lemma {:induction false} GatherAdds(E: real -> real, keys: seq<seq<Key>>, width: nat, c: nat)
    requires c < width && forall i | 0 <= i < |keys| :: Wide(keys[i], width)
    ensures Wide(Gather(keys), width)
    ensures Mass(E, Gather(keys)) == Total(Masses(E, keys)) && Weighted(E, Gather(keys), c) == Total(Sums(E, keys, c, width))
    decreases |keys|
  {
    if keys != [] {
      var k, rest := keys[0], keys[1..];
      GatherAdds(E, rest, width, c);
      WideTogether(k, Gather(rest), width);
      MassAdds(E, k, Gather(rest));
      WeightedAdds(E, k, Gather(rest), c, width);
      assert Masses(E, keys)[1..] == Masses(E, rest) && Sums(E, keys, c, width)[1..] == Sums(E, rest, c, width);
    }
  }

  lemma PackedScaled(E: real -> real, parts: seq<Partial>, keys: seq<seq<Key>>, width: nat, m: real, c: nat)
    requires IsExp(E) && AllSummarise(E, parts, keys, width) && c < width && forall i | 0 <= i < |keys| :: Wide(keys[i], width)
    ensures RowsScaled(PackAll(E, parts, Some(m), width), Masses(E, keys), Sums(E, keys, c, width), width, c, By(E(-m)))
  {
    var rows := PackAll(E, parts, Some(m), width);
    forall i | 0 <= i < |rows|
      ensures RowScaled(rows[i], Masses(E, keys)[i], Sums(E, keys, c, width)[i], width, c, By(E(-m)))
    {
      RowPackedScaled(E, parts[i], keys[i], width, m, c);
    }
  }

  lemma RowPackedScaled(E: real -> real, part: Partial, keys: seq<Key>, width: nat, m: real, c: nat)
    requires IsExp(E) && Summarises(E, part, keys, width) && c < width
    ensures RowScaled(PackRow(E, part.value, part.lse, Some(m)), Mass(E, keys), Weighted(E, keys, c), width, c, By(E(-m)))
  {
    WeightIsMass(E, part, keys, width, m, c);
  }

  lemma WideTogether(a: seq<Key>, b: seq<Key>, width: nat)
    requires Wide(a, width) && Wide(b, width)
    ensures Wide(a + b, width)
  {
  }

  lemma Cancel(n: real, z: real, s: real)
    requires z > 0.0 && s > 0.0
    ensures z * s > 0.0 && (n * s) / (z * s) == n / z
  {
    var q := n / z;
    assert q * z == n;
    assert q * (z * s) == (q * z) * s == n * s;
  }

  /** Whatever the shift, packing, summing and dividing gives full softmax attention. */
  lemma MergeWithAnyShift(E: real -> real, parts: seq<Partial>, keys: seq<seq<Key>>, width: nat, m: real, c: nat)
    requires IsExp(E) && AllSummarise(E, parts, keys, width) && c < width
    ensures Wide(Gather(keys), width)
    ensures FinishRow(ReduceSum(PackAll(E, parts, Some(m), width), width + 1))[c] == Attention(E, Gather(keys), c)
  {
    AllWide(E, parts, keys, width);
    GatherAdds(E, keys, width, c);
    PackedScaled(E, parts, keys, width, m, c);
    ScalingAdds(E(-m));
    SumIsScaled(PackAll(E, parts, Some(m), width), Masses(E, keys), Sums(E, keys, c, width), width, c, By(E(-m)));
    MassPositive(E, Gather(keys));
    assert E(-m) > 0.0;
    FinishScaled(ReduceSum(PackAll(E, parts, Some(m), width), width + 1), Mass(E, Gather(keys)), Weighted(E, Gather(keys), c),
                 width, c, E(-m));
  }

  lemma AllWide(E: real -> real, parts: seq<Partial>, keys: seq<seq<Key>>, width: nat)
    requires AllSummarise(E, parts, keys, width)
    ensures forall i | 0 <= i < |keys| :: Wide(keys[i], width)
  {
    forall i | 0 <= i < |keys|
      ensures Wide(keys[i], width)
    {
      assert Summarises(E, parts[i], keys[i], width);
    }
  }

  lemma FinishScaled(sum: seq<real>, z: real, n: real, width: nat, c: nat, s: real)
    requires RowScaled(sum, z, n, width, c, By(s)) && s > 0.0 && z >= 0.0
    ensures FinishRow(sum)[c] == if z > 0.0 then n / z else 0.0
  {
    if z > 0.0 { Cancel(n, z, s); } else { assert z * s == 0.0; }
  }

  lemma {:induction false} MaxIsNone(lses: seq<Lse>)
    ensures ReduceMax(lses).None? <==> forall l | l in lses :: l.None?
  {
    if lses != [] {
      MaxIsNone(lses[1..]);
      assert lses == [lses[0]] + lses[1..];
    }
  }

  function LsesOf(parts: seq<Partial>): seq<Lse> { seq(|parts|, i requires 0 <= i < |parts| => parts[i].lse) }

  /** With the maximum as the shift; a row masked on every rank gives zero. */
  lemma MergeRow(E: real -> real, parts: seq<Partial>, keys: seq<seq<Key>>, width: nat, c: nat)
    requires IsExp(E) && AllSummarise(E, parts, keys, width) && c < width
    ensures Wide(Gather(keys), width)
    ensures FinishRow(ReduceSum(PackAll(E, parts, ReduceMax(LsesOf(parts)), width), width + 1))[c]
         == Attention(E, Gather(keys), c)
  {
    var m := ReduceMax(LsesOf(parts));
    MergeWithAnyShift(E, parts, keys, width, if m.Some? then m.value else 0.0, c);
    if m.None? {
      MaxIsNone(LsesOf(parts));
      forall i | 0 <= i < |parts|
        ensures keys[i] == []
      {
        assert LsesOf(parts)[i] == parts[i].lse;
      }
      NoKeys(keys);
      NoWeight(E, parts, width);
    }
  }

  lemma {:induction false} NoKeys(keys: seq<seq<Key>>)
    requires forall i | 0 <= i < |keys| :: keys[i] == []
    ensures Gather(keys) == []
  {
    if keys != [] { NoKeys(keys[1..]); }
  }

  lemma {:induction false} NoWeight(E: real -> real, parts: seq<Partial>, width: nat)
    requires forall i | 0 <= i < |parts| :: |parts[i].value| == width
    ensures ReduceSum(PackAll(E, parts, None, width), width + 1)[width] == 0.0
  {
    if parts != [] {
      NoWeight(E, parts[1..], width);
      assert PackAll(E, parts, None, width)[1..] == PackAll(E, parts[1..], None, width);
    }
  }
}
