/**
 * Floats and two-dimensional arrays as the forecasting code sees them through
 * numpy: a number is either NaN or a real value, a row is a sequence of numbers
 * and a matrix is a sequence of rows (row-major, as `arr[i][j]`).
 */
module Arrays {

  datatype Num = NaN | Val(v: real)

  type Row = seq<Num>

  type Matrix = seq<Row>

  function Min(a: nat, b: nat): nat
  {
    if a <= b then a else b
  }

  /** `np.isnan(row).any()` */
  predicate RowHasNaN(row: Row): (r: bool)
    ensures r <==> NaN in row
  {
    exists j :: 0 <= j < |row| && row[j].NaN?
  }

  /** `np.isnan(m).any()` */
  predicate HasNaN(m: Matrix): (r: bool)
    ensures !r <==> forall i, j :: 0 <= i < |m| && 0 <= j < |m[i]| ==> m[i][j].Val?
  {
    exists i :: 0 <= i < |m| && RowHasNaN(m[i])
  }

  /** `m` is a `rows` x `cols` array. */
  predicate Shaped(m: Matrix, rows: nat, cols: nat)
  {
    |m| == rows && forall i :: 0 <= i < |m| ==> |m[i]| == cols
  }

  /** Python's `row[lo:hi]` for non-negative bounds: both bounds are clamped to the row. */
  function Slice(row: Row, lo: nat, hi: nat): (r: Row)
    ensures |r| <= |row|
    ensures |r| == if lo <= Min(hi, |row|) then Min(hi, |row|) - lo else 0
    ensures forall j :: 0 <= j < |r| ==> lo + j < |row| && r[j] == row[lo + j]
  {
    var h := Min(hi, |row|);
    if lo <= h then row[lo..h] else []
  }

  /** `m[:, lo:hi]` */
  function Columns(m: Matrix, lo: nat, hi: nat): (r: Matrix)
    ensures |r| == |m|
    ensures forall i :: 0 <= i < |m| ==> r[i] == Slice(m[i], lo, hi)
  {
    seq(|m|, i requires 0 <= i < |m| => Slice(m[i], lo, hi))
  }

  /** `np.concatenate([a, b], axis=1)` */
  function HConcat(a: Matrix, b: Matrix): (r: Matrix)
    requires |a| == |b|
    ensures |r| == |a|
    ensures forall i :: 0 <= i < |a| ==> r[i] == a[i] + b[i]
  {
    seq(|a|, i requires 0 <= i < |a| => a[i] + b[i])
  }

  /**
   * `m[:, :k] = block`: the first `k` columns of every row are overwritten by
   * the corresponding row of `block`, the remaining columns keep their values.
   */
  function ReplaceColumns(m: Matrix, block: Matrix, k: nat): (r: Matrix)
    requires |block| == |m|
    requires forall i :: 0 <= i < |m| ==> |block[i]| == k <= |m[i]|
    ensures |r| == |m|
    ensures forall i :: 0 <= i < |m| ==> |r[i]| == |m[i]|
    ensures forall i, j :: 0 <= i < |m| && 0 <= j < k ==> r[i][j] == block[i][j]
    ensures forall i, j :: 0 <= i < |m| && k <= j < |m[i]| ==> r[i][j] == m[i][j]
  {
    seq(|m|, i requires 0 <= i < |m| => block[i] + m[i][k..])
  }

  /** `np.roll(m, -1, axis=0)`: every row moves up by one, the first row wraps to the end. */
  function Roll(m: Matrix): (r: Matrix)
    requires |m| > 0
    ensures |r| == |m|
    ensures forall i :: 0 <= i < |m| - 1 ==> r[i] == m[i + 1]
    ensures r[|m| - 1] == m[0]
  {
    m[1..] + [m[0]]
  }

  /** Every row has an entry at column `c`, so `m[:, c]` is defined. */
  predicate HasColumn(m: Matrix, c: nat)
  {
    forall i :: 0 <= i < |m| ==> c < |m[i]|
  }

  /** `m[:, c]` */
  function ColumnOf(m: Matrix, c: nat): (r: seq<Num>)
    requires HasColumn(m, c)
    ensures |r| == |m|
    ensures forall i :: 0 <= i < |m| ==> r[i] == m[i][c]
  {
    seq(|m|, i requires 0 <= i < |m| => m[i][c])
  }
}
