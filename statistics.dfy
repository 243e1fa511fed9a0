/**
 * The numeric vocabulary shared by the feature aggregators and the detection pipeline:
 * feature rows of a fixed width, numpy's per-column statistics (kept uninterpreted and
 * passed in as a function), their concatenation in a fixed block order, and the sum and
 * maximum of a row of reals.
 */
module Statistics {

  /** Every per-packet feature vector in the system has ten entries. */
  const Width: nat := 10

  /** One feature vector, as a row of the matrix handed to numpy or scikit-learn. */
  type Row = seq<real>

  /** The column statistics the aggregators take, one block of `Width` values each. */
  datatype StatKind = Mean | Std | Median | Maximum | Minimum | Percentile(q: int)

  /**
   * numpy's reduction of one column (`np.mean`, `np.std`, `np.median`, `np.max`, `np.min`,
   * `np.percentile` along `axis=0`). Floating-point statistics are outside the model, so the
   * statistic is a parameter and nothing is assumed about its values.
   */
  type Statistic = (StatKind, seq<real>) -> real

  /** A two-dimensional numpy array whose rows all have `Width` entries. */
  predicate Rectangular(rows: seq<seq<real>>) {
    forall i :: 0 <= i < |rows| ==> |rows[i]| == Width
  }

  /** Column `j` of `rows`, top to bottom. */
  function Column(rows: seq<seq<real>>, j: nat): (c: seq<real>)
    requires Rectangular(rows) && j < Width
    ensures |c| == |rows|
  {
    seq(|rows|, i requires 0 <= i < |rows| => rows[i][j])
  }

  /** `stat(kind)` along `axis=0`: one value per column. */
  function StatBlock(rows: seq<seq<real>>, kind: StatKind, stat: Statistic): (b: seq<real>)
    requires Rectangular(rows)
    ensures |b| == Width
  {
    seq(Width, j requires 0 <= j < Width => stat(kind, Column(rows, j)))
  }

  /**
   * `np.concatenate` of one block per statistic in `kinds`: block `k` occupies
   * entries `Width * k` up to `Width * (k + 1)` and holds statistic `kinds[k]` of every column.
   */
  function Aggregate(rows: seq<seq<real>>, kinds: seq<StatKind>, stat: Statistic): (r: seq<real>)
    requires Rectangular(rows)
    ensures |r| == Width * |kinds|
    ensures forall k :: 0 <= k < |kinds| ==> r[Width * k..Width * (k + 1)] == StatBlock(rows, kinds[k], stat)
  {
    if kinds == [] then []
    else
      var rest := Aggregate(rows, kinds[1..], stat);
      var r := StatBlock(rows, kinds[0], stat) + rest;
      assert forall k :: 1 <= k < |kinds| ==> r[Width * k..Width * (k + 1)] == rest[Width * (k - 1)..Width * k];
      r
  }

  /** Entry `Width * k + j` of an aggregate is statistic `kinds[k]` of column `j`. */
  lemma AggregateAt(rows: seq<seq<real>>, kinds: seq<StatKind>, stat: Statistic, k: nat, j: nat)
    requires Rectangular(rows) && k < |kinds| && j < Width
    ensures Aggregate(rows, kinds, stat)[Width * k + j] == stat(kinds[k], Column(rows, j))
  {
    var r := Aggregate(rows, kinds, stat);
    assert r[Width * k..Width * (k + 1)][j] == r[Width * k + j];
  }

  /** Python's `sum` of a row, from the left. */
  function Sum(s: seq<real>): real {
    if s == [] then 0.0 else s[0] + Sum(s[1..])
  }

  /** `np.max` of a non-empty row: an entry of the row that no entry exceeds. */
  function MaxOf(s: seq<real>): (m: real)
    requires |s| > 0
    ensures m in s
    ensures forall i :: 0 <= i < |s| ==> s[i] <= m
  {
    if |s| == 1 then s[0]
    else
      var t := MaxOf(s[1..]);
      assert forall i :: 1 <= i < |s| ==> s[i] == s[1..][i - 1];
      if s[0] >= t then s[0] else t
  }

  /** Every entry divided by `c`, as numpy's broadcast division does. */
  function Scaled(s: seq<real>, c: real): (r: seq<real>)
    requires c != 0.0
    ensures |r| == |s|
  {
    seq(|s|, i requires 0 <= i < |s| => s[i] / c)
  }

  predicate NonNegative(s: seq<real>) {
    forall i :: 0 <= i < |s| ==> 0.0 <= s[i]
  }

  /** Dividing every entry by `c` divides the sum by `c`. */
  lemma {:induction false} SumScaled(s: seq<real>, c: real)
    requires c != 0.0
    ensures Sum(Scaled(s, c)) == Sum(s) / c
  {
    if s != [] {
      assert Scaled(s, c)[1..] == Scaled(s[1..], c);
      SumScaled(s[1..], c);
    }
  }

  /** The sum of non-negative entries is non-negative and bounds each of them. */
  lemma {:induction false} EntryAtMostSum(s: seq<real>, i: nat)
    requires NonNegative(s) && i < |s|
    ensures 0.0 <= s[i] <= Sum(s)
  {
    if i > 0 {
      assert NonNegative(s[1..]);
      EntryAtMostSum(s[1..], i - 1);
      assert s[1..][i - 1] == s[i];
    } else if |s| > 1 {
      assert NonNegative(s[1..]);
      EntryAtMostSum(s[1..], 0);
    }
  }

  /** A probability row: every entry in `[0, 1]` and the entries summing to one. */
  predicate IsDistribution(p: seq<real>) {
    (forall i :: 0 <= i < |p| ==> 0.0 <= p[i] <= 1.0) && Sum(p) == 1.0
  }

  lemma RatioInUnit(x: real, c: real)
    requires 0.0 <= x <= c && c > 0.0
    ensures 0.0 <= x / c <= 1.0
  {
    assert x / c * c == x;
  }

  lemma DivSelf(c: real)
    requires c > 0.0
    ensures c / c == 1.0
  {
  }

  /** Normalising a non-negative row with a positive sum yields a probability row. */
  lemma NormalisedIsDistribution(s: seq<real>)
    requires NonNegative(s) && Sum(s) > 0.0
    ensures IsDistribution(Scaled(s, Sum(s)))
  {
    var total := Sum(s);
    var p := Scaled(s, total);
    SumScaled(s, total);
    DivSelf(total);
    forall i | 0 <= i < |s|
      ensures 0.0 <= p[i] <= 1.0
    {
      EntryAtMostSum(s, i);
      RatioInUnit(s[i], total);
    }
  }
}
