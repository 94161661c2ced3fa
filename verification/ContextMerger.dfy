/** The merge as it runs: every rank overwrites its preallocated buffers, and two all-reduces
    combine them. Rows are laid out query-major, log-sum-exps head-major. */
module ContextMerger {
  import opened Patterns
  import opened ContextMerge

  /** One rank's arguments: an output row per (query, head), and a log-sum-exp per (head, query)
      that lies in memory with two strides. */
  datatype Input = Input(output: seq<seq<real>>, memory: seq<Lse>, headStride: nat, queryStride: nat)

  datatype Dims = Dims(queries: nat, heads: nat, width: nat)
  {
    function Rows(): nat { queries * heads }
  }

  predicate Stored(input: Input, h: nat, q: nat) { h * input.headStride + q * input.queryStride < |input.memory| }

  ghost predicate InMemory(d: Dims, input: Input) {
    forall h: nat, q: nat | h < d.heads && q < d.queries :: Stored(input, h, q)
  }

  function LseOf(d: Dims, input: Input, h: nat, q: nat): Lse
    requires InMemory(d, input) && h < d.heads && q < d.queries
  {
    assert Stored(input, h, q);
    input.memory[h * input.headStride + q * input.queryStride]
  }

  /** The log-sum-exp loaded for a row, and the one copied to a place of the maximum's buffer. */
  function RowLse(d: Dims, input: Input, row: nat): Lse
    requires InMemory(d, input) && row < d.Rows()
  {
    RowHasHeads(d, row);
    QuotientBound(row, d.heads, d.queries);
    LseOf(d, input, row % d.heads, row / d.heads)
  }

  function CellLse(d: Dims, input: Input, i: nat): Lse
    requires InMemory(d, input) && i < d.Rows()
  {
    CellHasQueries(d, i);
    QuotientBound(i, d.queries, d.heads);
    LseOf(d, input, i / d.queries, i % d.queries)
  }

  lemma CellHasQueries(d: Dims, i: nat)
    requires i < d.Rows()
    ensures d.queries > 0 && i < d.heads * d.queries
  {
  }

  /** Where the maximum of a row's log-sum-exps stands. */
  function LseIndex(d: Dims, row: nat): nat
    requires row < d.Rows()
  {
    RowHasHeads(d, row);
    row % d.heads * d.queries + row / d.heads
  }

  lemma RowHasHeads(d: Dims, row: nat)
    requires row < d.Rows()
    ensures d.heads > 0
  {
    assert d.heads == 0 ==> d.queries * d.heads == 0;
  }

  /** Row (query, head), the log-sum-exp loaded for it and the maximum it is weighted by belong
      to the same query and head, whatever the strides. */
  lemma LseIndexOf(d: Dims, input: Input, q: nat, h: nat)
    requires InMemory(d, input) && q < d.queries && h < d.heads
    ensures q * d.heads + h < d.Rows() && RowLse(d, input, q * d.heads + h) == LseOf(d, input, h, q)
    ensures h * d.queries + q < d.Rows() && CellLse(d, input, h * d.queries + q) == LseOf(d, input, h, q)
    ensures LseIndex(d, q * d.heads + h) == h * d.queries + q
  {
    CellBound(q, h, d.queries, d.heads);
    CellBound(h, q, d.heads, d.queries);
    DivMod(q, h, d.heads);
    DivMod(h, q, d.queries);
  }

  lemma RowIsCell(d: Dims, input: Input, row: nat)
    requires InMemory(d, input) && row < d.Rows()
    ensures LseIndex(d, row) < d.Rows() && CellLse(d, input, LseIndex(d, row)) == RowLse(d, input, row)
  {
    LseInRange(d, row);
    RowHasHeads(d, row);
    QuotientBound(row, d.heads, d.queries);
    DivMod(row % d.heads, row / d.heads, d.queries);
  }

  lemma DivMod(q: nat, h: nat, n: nat)
    requires h < n
    ensures (q * n + h) / n == q && (q * n + h) % n == h
  {
    var x := q * n + h;
    assert x == n * (x / n) + x % n;
    var k := x / n - q;
    assert n * k == h - x % n;
    Multiple(n, k);
  }

  lemma {:induction false} Multiple(n: nat, k: int)
    requires n > 0
    ensures k > 0 ==> n * k >= n
    ensures k < 0 ==> n * k <= -(n as int)
    decreases if k < 0 then -k else k
  {
    if k > 1 {
      Multiple(n, k - 1);
      assert n * k == n * (k - 1) + n;
    } else if k < -1 {
      Multiple(n, k + 1);
      assert n * k == n * (k + 1) - n;
    }
  }

  lemma LseInRange(d: Dims, row: nat)
    requires row < d.Rows()
    ensures LseIndex(d, row) < d.Rows()
  {
    RowHasHeads(d, row);
    QuotientBound(row, d.heads, d.queries);
    CellBound(row % d.heads, row / d.heads, d.heads, d.queries);
  }

  lemma QuotientBound(row: nat, heads: nat, queries: nat)
    requires heads > 0 && row < queries * heads
    ensures row / heads < queries
  {
    var q := row / heads;
    assert row == heads * q + row % heads;
    Multiple(heads, q - queries + 1);
    assert heads * (q - queries + 1) == heads * q - queries * heads + heads;
  }

  lemma CellBound(h: nat, q: nat, heads: nat, queries: nat)
    requires h < heads && q < queries
    ensures h * queries + q < queries * heads
  {
    assert (h + 1) * queries <= heads * queries;
    assert h * queries + queries == (h + 1) * queries;
  }

  ghost predicate InputsFit(d: Dims, inputs: seq<Input>) {
    forall r | 0 <= r < |inputs| :: InMemory(d, inputs[r]) && |inputs[r].output| == d.Rows() &&
      forall row | 0 <= row < d.Rows() :: |inputs[r].output[row]| == d.width
  }

  function PackPart(E: real -> real, p: Partial, maximum: Lse): seq<real> { PackRow(E, p.value, p.lse, maximum) }

  /** What the ranks bring for one row. */
  ghost function PartsAt(d: Dims, inputs: seq<Input>, row: nat): (parts: seq<Partial>)
    requires InputsFit(d, inputs) && row < d.Rows()
    ensures |parts| == |inputs| && forall r | 0 <= r < |parts| :: |parts[r].value| == d.width
  {
    seq(|inputs|, r requires 0 <= r < |inputs| => Partial(inputs[r].output[row], RowLse(d, inputs[r], row)))
  }

  class MergeGroup {
    const d: Dims
    var maximum: seq<Lse>           // equal on all ranks once reduced
    var packed: seq<seq<seq<real>>> // per rank, before it is reduced
    var total: seq<seq<real>>       // equal on all ranks once reduced
    var output: seq<seq<real>>

    constructor (d: Dims)
      ensures this.d == d
    {
      this.d := d;
      maximum, packed, total, output := [], [], [], [];
    }

    /** Copy the log-sum-exps and reduce them to their maximum. */
    method ReduceMaximum(inputs: seq<Input>)
      requires InputsFit(d, inputs)
      modifies `maximum
      ensures |maximum| == d.Rows()
      ensures forall row: nat | row < d.Rows() ::
        LseIndex(d, row) < |maximum| && maximum[LseIndex(d, row)] == ReduceMax(LsesOf(PartsAt(d, inputs, row)))
    {
      maximum := [];
      for i := 0 to d.Rows()
        invariant |maximum| == i && forall j | 0 <= j < i :: maximum[j] == ReduceMax(LseColumn(d, inputs, j))
      {
        maximum := maximum + [ReduceMax(LseColumn(d, inputs, i))];
      }
      forall row: nat | row < d.Rows()
        ensures LseIndex(d, row) < |maximum| && maximum[LseIndex(d, row)] == ReduceMax(LsesOf(PartsAt(d, inputs, row)))
      {
        ColumnOfRow(d, inputs, row);
      }
    }

    /** `_pack` on every rank. */
    method Pack(E: real -> real, inputs: seq<Input>)
      requires InputsFit(d, inputs) && |maximum| == d.Rows()
      modifies `packed
      ensures |packed| == |inputs| && forall r | 0 <= r < |packed| :: |packed[r]| == d.Rows()
      ensures forall r, row: nat | 0 <= r < |packed| && row < d.Rows() ::
        LseIndex(d, row) < |maximum| &&
        packed[r][row] == PackPart(E, PartsAt(d, inputs, row)[r], maximum[LseIndex(d, row)])
    {
      packed := [];
      for r := 0 to |inputs|
        invariant |packed| == r && forall k | 0 <= k < r :: PackedFrom(E, d, inputs[k], maximum, packed[k])
      {
        var rows := PackRank(E, d, inputs[r], maximum);
        packed := packed + [rows];
      }
      forall r, row: nat | 0 <= r < |packed| && row < d.Rows()
        ensures LseIndex(d, row) < |maximum| &&
          packed[r][row] == PackPart(E, PartsAt(d, inputs, row)[r], maximum[LseIndex(d, row)])
      {
        LseInRange(d, row);
        assert PackedFrom(E, d, inputs[r], maximum, packed[r]);
      }
    }

    /** Sum the packed rows over the ranks. */
    method ReduceTotal()
      requires PackedFits(packed, d)
      modifies `total
      ensures |total| == d.Rows() && forall row: nat | row < d.Rows() :: total[row] == TotalAt(packed, d, row)
    {
      total := [];
      for row := 0 to d.Rows()
        invariant |total| == row && forall k: nat | k < row :: total[k] == TotalAt(packed, d, k)
      {
        total := total + [TotalAt(packed, d, row)];
      }
    }

    /** `_finish` */
    method Finish()
      requires |total| == d.Rows() && forall row | 0 <= row < |total| :: total[row] != []
      modifies `output
      ensures |output| == d.Rows() && forall row: nat | row < d.Rows() :: output[row] == FinishRow(total[row])
    {
      output := [];
      for row := 0 to d.Rows()
        invariant |output| == row && forall k: nat | k < row :: output[k] == FinishRow(total[k])
      {
        output := output + [FinishRow(total[row])];
      }
    }
  }

  ghost predicate PackedFits(packed: seq<seq<seq<real>>>, d: Dims) {
    && (forall r | 0 <= r < |packed| :: |packed[r]| == d.Rows())
    && forall r, row: nat | 0 <= r < |packed| && row < d.Rows() :: |packed[r][row]| == d.width + 1
  }

  function TotalAt(packed: seq<seq<seq<real>>>, d: Dims, row: nat): (sum: seq<real>)
    requires PackedFits(packed, d) && row < d.Rows()
    ensures |sum| == d.width + 1
  {
    ReduceSum(Column(packed, row, d.width + 1), d.width + 1)
  }

  /** The ranks' log-sum-exps at one index. */
  function LseColumn(d: Dims, inputs: seq<Input>, i: nat): (lses: seq<Lse>)
    requires i < d.Rows() && forall r | 0 <= r < |inputs| :: InMemory(d, inputs[r])
    ensures |lses| == |inputs| && forall r | 0 <= r < |lses| :: lses[r] == CellLse(d, inputs[r], i)
  {
    seq(|inputs|, r requires 0 <= r < |inputs| => CellLse(d, inputs[r], i))
  }

  lemma ColumnOfRow(d: Dims, inputs: seq<Input>, row: nat)
    requires InputsFit(d, inputs) && row < d.Rows()
    ensures LseIndex(d, row) < d.Rows() && LseColumn(d, inputs, LseIndex(d, row)) == LsesOf(PartsAt(d, inputs, row))
  {
    LseInRange(d, row);
    forall r | 0 <= r < |inputs|
      ensures LseColumn(d, inputs, LseIndex(d, row))[r] == PartsAt(d, inputs, row)[r].lse
    {
      RowIsCell(d, inputs[r], row);
    }
  }

  /** The ranks' packed rows at one row index. */
  function Column(packed: seq<seq<seq<real>>>, row: nat, width: nat): (rows: seq<seq<real>>)
    requires forall r | 0 <= r < |packed| :: row < |packed[r]| && |packed[r][row]| == width
    ensures |rows| == |packed| && forall r | r in rows :: |r| == width
  {
    seq(|packed|, r requires 0 <= r < |packed| => packed[r][row])
  }

  ghost predicate PackedFrom(E: real -> real, d: Dims, input: Input, maximum: seq<Lse>, rows: seq<seq<real>>) {
    && |rows| == d.Rows() == |input.output| == |maximum| && InMemory(d, input)
    && forall row: nat | row < d.Rows() :: PackedAt(E, d, input, maximum, rows[row], row)
  }

  ghost predicate PackedAt(E: real -> real, d: Dims, input: Input, maximum: seq<Lse>, packed: seq<real>, row: nat)
    requires row < d.Rows() == |input.output| == |maximum| && InMemory(d, input)
  {
    LseIndex(d, row) < d.Rows() &&
    packed == PackRow(E, input.output[row], RowLse(d, input, row), maximum[LseIndex(d, row)])
  }

  method PackRank(E: real -> real, d: Dims, input: Input, maximum: seq<Lse>) returns (rows: seq<seq<real>>)
    requires |input.output| == |maximum| == d.Rows() && InMemory(d, input)
    ensures PackedFrom(E, d, input, maximum, rows)
  {
    rows := [];
    for row := 0 to d.Rows()
      invariant |rows| == row
      invariant forall k: nat | k < row :: PackedAt(E, d, input, maximum, rows[k], k)
    {
      LseInRange(d, row);
      rows := rows + [PackRow(E, input.output[row], RowLse(d, input, row), maximum[LseIndex(d, row)])];
    }
  }

  /** A whole call: every row and column of the result is softmax attention over the keys of
      all ranks, if every rank brought the attention over its own. */
  method Merge(E: real -> real, d: Dims, inputs: seq<Input>, ghost keys: nat -> seq<seq<Key>>) returns (output: seq<seq<real>>)
    requires IsExp(E) && InputsFit(d, inputs)
    requires forall row: nat | row < d.Rows() :: AllSummarise(E, PartsAt(d, inputs, row), keys(row), d.width)
    ensures |output| == d.Rows()
    ensures forall row: nat, c: nat | row < d.Rows() && c < d.width :: IsAttention(E, output[row], keys(row), d.width, c)
  {
    ghost var packed;
    output, packed := Call(E, d, inputs);
    forall row: nat, c: nat | row < d.Rows() && c < d.width
      ensures IsAttention(E, output[row], keys(row), d.width, c)
    {
      assert Finished(E, d, inputs, packed, output, row);
      RowMerged(E, d, inputs, packed, row, keys(row), c);
    }
  }

  /** Column `c` of a row is softmax attention over the keys of all ranks. */
  ghost predicate IsAttention(E: real -> real, row: seq<real>, keys: seq<seq<Key>>, width: nat, c: nat) {
    c < width && Wide(Gather(keys), width) && c < |row| && row[c] == Attention(E, Gather(keys), c)
  }

  /** `__call__`: copy and reduce the log-sum-exps, pack, reduce, finish. */
  method Call(E: real -> real, d: Dims, inputs: seq<Input>) returns (output: seq<seq<real>>, ghost packed: seq<seq<seq<real>>>)
    requires InputsFit(d, inputs)
    ensures PackedFits(packed, d) && |output| == d.Rows()
    ensures forall row: nat | row < d.Rows() :: Finished(E, d, inputs, packed, output, row)
  {
    var g := new MergeGroup(d);
    g.ReduceMaximum(inputs);
    g.Pack(E, inputs);
    packed := g.packed;
    forall r, row: nat | 0 <= r < |packed| && row < d.Rows()
      ensures |packed[r][row]| == d.width + 1
    {
      assert LseIndex(d, row) < |g.maximum|;
    }
    forall row: nat | row < d.Rows()
      ensures PacksRow(E, d, inputs, packed, row)
    {
      assert LseIndex(d, row) < |g.maximum|;
    }
    g.ReduceTotal();
    g.Finish();
    output := g.output;
  }

  ghost predicate Finished(E: real -> real, d: Dims, inputs: seq<Input>, packed: seq<seq<seq<real>>>,
                           output: seq<seq<real>>, row: nat)
    requires InputsFit(d, inputs) && PackedFits(packed, d) && row < d.Rows() == |output|
  {
    PacksRow(E, d, inputs, packed, row) && output[row] == FinishRow(TotalAt(packed, d, row))
  }

  /** A row is packed with the maximum of the ranks' log-sum-exps. */
  ghost predicate PacksRow(E: real -> real, d: Dims, inputs: seq<Input>, packed: seq<seq<seq<real>>>, row: nat)
    requires InputsFit(d, inputs) && PackedFits(packed, d) && row < d.Rows()
  {
    var parts := PartsAt(d, inputs, row);
    |packed| == |parts| &&
    forall r | 0 <= r < |packed| :: packed[r][row] == PackRow(E, parts[r].value, parts[r].lse, ReduceMax(LsesOf(parts)))
  }

  lemma RowMerged(E: real -> real, d: Dims, inputs: seq<Input>, packed: seq<seq<seq<real>>>, row: nat,
                  keys: seq<seq<Key>>, c: nat)
    requires IsExp(E) && InputsFit(d, inputs) && PackedFits(packed, d) && row < d.Rows() && c < d.width
    requires PacksRow(E, d, inputs, packed, row) && AllSummarise(E, PartsAt(d, inputs, row), keys, d.width)
    ensures Wide(Gather(keys), d.width) && FinishRow(TotalAt(packed, d, row))[c] == Attention(E, Gather(keys), c)
  {
    ColumnPacked(E, d, inputs, packed, row);
    MergeRow(E, PartsAt(d, inputs, row), keys, d.width, c);
  }

  lemma ColumnPacked(E: real -> real, d: Dims, inputs: seq<Input>, packed: seq<seq<seq<real>>>, row: nat)
    requires InputsFit(d, inputs) && PackedFits(packed, d) && row < d.Rows() && PacksRow(E, d, inputs, packed, row)
    ensures var parts := PartsAt(d, inputs, row);
            Column(packed, row, d.width + 1) == PackAll(E, parts, ReduceMax(LsesOf(parts)), d.width)
  {
  }
}
