/** The numeric matrix container, reduced to what the orchestrator uses: shapes, element-wise
    maps, sums and column selection. Rows are classes, columns are samples of a batch. */
module Matrix {

  datatype Grid = Grid(rows: nat, cols: nat, cells: seq<seq<real>>)

  predicate Rectangular(g: Grid) {
    |g.cells| == g.rows && forall i :: 0 <= i < g.rows ==> |g.cells[i]| == g.cols
  }

  /** A rows x cols matrix of reals. */
  type Mat = g: Grid | Rectangular(g) witness Grid(0, 0, [])

  predicate SameShape(a: Mat, b: Mat) {
    a.rows == b.rows && a.cols == b.cols
  }

  /** The rows x cols matrix whose entry (i, j) is f(i, j). */
  function Tabulate(rows: nat, cols: nat, f: (nat, nat) -> real): (m: Mat)
    ensures m.rows == rows && m.cols == cols
    ensures forall i, j :: 0 <= i < rows && 0 <= j < cols ==> m.cells[i][j] == f(i, j)
  {
    Grid(rows, cols, seq(rows, (i: int) requires 0 <= i < rows =>
                       seq(cols, (j: int) requires 0 <= j < cols => f(i, j))))
  }

  /** Entry-wise combination of two matrices of one shape. */
  function Zip(a: Mat, b: Mat, f: (real, real) -> real): (m: Mat)
    requires SameShape(a, b)
    ensures SameShape(m, a)
    ensures forall i, j :: 0 <= i < a.rows && 0 <= j < a.cols ==>
              m.cells[i][j] == f(a.cells[i][j], b.cells[i][j])
  {
    Grid(a.rows, a.cols, seq(a.rows, (i: int) requires 0 <= i < a.rows =>
                           seq(a.cols, (j: int) requires 0 <= j < a.cols =>
                             f(a.cells[i][j], b.cells[i][j]))))
  }

  /** Entry-wise image of a matrix. */
  function MapEntries(a: Mat, f: real -> real): (m: Mat)
    ensures SameShape(m, a)
    ensures forall i, j :: 0 <= i < a.rows && 0 <= j < a.cols ==> m.cells[i][j] == f(a.cells[i][j])
  {
    Grid(a.rows, a.cols, seq(a.rows, (i: int) requires 0 <= i < a.rows =>
                           seq(a.cols, (j: int) requires 0 <= j < a.cols => f(a.cells[i][j]))))
  }

  /** The columns of `a` at positions `ind`, in that order (the container's column sub-matrix). */
  function Columns(a: Mat, ind: seq<nat>): (m: Mat)
    requires forall k :: 0 <= k < |ind| ==> ind[k] < a.cols
    ensures m.rows == a.rows && m.cols == |ind|
    ensures forall i, j :: 0 <= i < a.rows && 0 <= j < |ind| ==> m.cells[i][j] == a.cells[i][ind[j]]
  {
    Grid(a.rows, |ind|, seq(a.rows, (i: int) requires 0 <= i < a.rows =>
                          seq(|ind|, (j: int) requires 0 <= j < |ind| => a.cells[i][ind[j]])))
  }

  function SumSeq(s: seq<real>): real {
    if |s| == 0 then 0.0 else s[0] + SumSeq(s[1..])
  }

  function SumRows(rows: seq<seq<real>>): real {
    if |rows| == 0 then 0.0 else SumSeq(rows[0]) + SumRows(rows[1..])
  }

  /** The sum of all entries. */
  function Sum(a: Mat): real {
    SumRows(a.cells)
  }

  function Square(x: real): real {
    x * x
  }

  lemma SquareProperties(x: real)
    ensures Square(x) >= 0.0
    ensures Square(x) == 0.0 <==> x == 0.0
  {
    var s := Square(x);
    if s == 0.0 {
      assert x * s == 0.0;
      assert x * (x * x) == 0.0;
    }
  }

  /** Entry-wise square, the container's element-wise product of a matrix with itself. */
  function Squares(a: Mat): (m: Mat)
    ensures SameShape(m, a)
    ensures forall i, j :: 0 <= i < a.rows && 0 <= j < a.cols ==>
              m.cells[i][j] == Square(a.cells[i][j]) && m.cells[i][j] >= 0.0 &&
              (m.cells[i][j] == 0.0 <==> a.cells[i][j] == 0.0)
  {
    forall x: real ensures Square(x) >= 0.0 && (Square(x) == 0.0 <==> x == 0.0) {
      SquareProperties(x);
    }
    MapEntries(a, Square)
  }

  lemma {:induction false} SumSeqNonNegative(s: seq<real>)
    requires forall k :: 0 <= k < |s| ==> s[k] >= 0.0
    ensures SumSeq(s) >= 0.0
    ensures SumSeq(s) == 0.0 <==> forall k :: 0 <= k < |s| ==> s[k] == 0.0
  {
    if |s| > 0 {
      SumSeqNonNegative(s[1..]);
      assert forall k :: 1 <= k < |s| ==> s[1..][k - 1] == s[k];
    }
  }

  lemma {:induction false} SumRowsNonNegative(rows: seq<seq<real>>)
    requires forall i, j :: 0 <= i < |rows| && 0 <= j < |rows[i]| ==> rows[i][j] >= 0.0
    ensures SumRows(rows) >= 0.0
    ensures SumRows(rows) == 0.0 <==>
              forall i, j :: 0 <= i < |rows| && 0 <= j < |rows[i]| ==> rows[i][j] == 0.0
  {
    if |rows| > 0 {
      SumSeqNonNegative(rows[0]);
      SumRowsNonNegative(rows[1..]);
      assert forall i :: 1 <= i < |rows| ==> rows[1..][i - 1] == rows[i];
    }
  }

  /** A matrix of non-negative entries sums to a non-negative value, and to zero exactly when
      every entry is zero. */
  lemma SumNonNegative(a: Mat)
    requires forall i, j :: 0 <= i < a.rows && 0 <= j < a.cols ==> a.cells[i][j] >= 0.0
    ensures Sum(a) >= 0.0
    ensures Sum(a) == 0.0 <==> forall i, j :: 0 <= i < a.rows && 0 <= j < a.cols ==> a.cells[i][j] == 0.0
  {
    SumRowsNonNegative(a.cells);
  }

  /** Every entry of s is c times the matching entry of t. */
  predicate Scaled(s: seq<real>, t: seq<real>, c: real) {
    |s| == |t| && forall k :: 0 <= k < |s| ==> s[k] == c * t[k]
  }

  lemma {:induction false} SumSeqScale(s: seq<real>, t: seq<real>, c: real)
    requires Scaled(s, t, c)
    ensures SumSeq(s) == c * SumSeq(t)
  {
    if |s| > 0 {
      assert Scaled(s[1..], t[1..], c);
      SumSeqScale(s[1..], t[1..], c);
      var x, y := t[0], SumSeq(t[1..]);
      assert c * x + c * y == c * (x + y);
    }
  }

  lemma {:induction false} SumRowsScale(s: seq<seq<real>>, t: seq<seq<real>>, c: real)
    requires |s| == |t|
    requires forall i :: 0 <= i < |s| ==> Scaled(s[i], t[i], c)
    ensures SumRows(s) == c * SumRows(t)
  {
    if |s| > 0 {
      var s', t' := s[1..], t[1..];
      forall i | 0 <= i < |s'|
        ensures Scaled(s'[i], t'[i], c)
      {
        assert s'[i] == s[i + 1] && t'[i] == t[i + 1];
      }
      SumSeqScale(s[0], t[0], c);
      SumRowsScale(s', t', c);
      var x, y := SumSeq(t[0]), SumRows(t');
      calc {
        SumRows(s);
        SumSeq(s[0]) + SumRows(s');
        c * x + c * y;
        { assert c * x + c * y == c * (x + y); }
        c * (x + y);
        c * SumRows(t);
      }
    }
  }

  /** Scaling every entry by c scales the sum by c. */
  lemma SumScale(a: Mat, b: Mat, c: real)
    requires SameShape(a, b)
    requires forall i, j :: 0 <= i < a.rows && 0 <= j < a.cols ==> a.cells[i][j] == c * b.cells[i][j]
    ensures Sum(a) == c * Sum(b)
  {
    assert forall i :: 0 <= i < a.rows ==> Scaled(a.cells[i], b.cells[i], c);
    SumRowsScale(a.cells, b.cells, c);
  }
}
