/** The places where the containers' code, as written, departs from what its
    documentation and surrounding code evidently intend. Each departure is
    modelled as written, together with an input that exhibits it; the classes
    in Mathsci and Souffle implement the intended behaviour instead. */
module AsWritten {
  import opened Numeric

  // ---------------------------------------------------------------------------
  // Result buffers allocated with their dimensions swapped

  /** `[[0.0 for i in range(rows)] for j in range(cols)]`: `cols` lists of
      `rows` zeros, where a rows x cols result is filled next. */
  function TransposedBuffer(rows: int, cols: int): (buf: seq<seq<int>>)
    ensures |buf| == Count(cols) && Rect(buf, Count(rows))
  {
    Buffer(cols, rows)
  }

  /** Filling cell (i, j) for every i < rows, j < cols stays inside the
      transposed buffer exactly when the result is square or empty; on every
      other shape some write `result[i][j] = ...` raises IndexError. */
  lemma TransposedBufferFits(rows: nat, cols: nat)
    ensures CellsFit(TransposedBuffer(rows, cols), rows, cols) <==> (rows == cols || rows == 0 || cols == 0)
  {
    var buf := TransposedBuffer(rows, cols);
    if rows > 0 && cols > 0 && CellsFit(buf, rows, cols) {
      assert rows <= |buf| == cols;
      assert cols <= |buf[0]| == rows;
    }
  }

  /** A 2 x 3 matrix: the buffer has 3 rows of 2 cells, so writing cell
      (0, 2) raises. */
  lemma TransposedBufferRejects2x3()
    ensures |TransposedBuffer(2, 3)[0]| == 2
    ensures !CellsFit(TransposedBuffer(2, 3), 2, 3)
  {
  }

  // ---------------------------------------------------------------------------
  // Matrix equality guarded with `and`

  /** Row i of `Matrix.__eq__`'s scan: compare columns j.. of x with y,
      where `other.data[i][j]` raises once j passes the end of y. */
  function ScanRow(x: seq<int>, y: seq<int>, j: nat, cols: nat): (r: Result<bool>)
    requires cols <= |x|
    ensures r.Err? ==> r.error == IndexOutOfBounds && |y| < cols
    ensures r == Ok(true) ==> j >= cols || cols <= |y|
    ensures r == Ok(true) ==> forall k :: j <= k < cols && k < |y| ==> x[k] == y[k]
    ensures r == Ok(false) ==> exists k :: j <= k < cols && k < |y| && x[k] != y[k]
    decreases cols - j
  {
    if j >= cols then Ok(true)
    else if j >= |y| then Err(IndexOutOfBounds)
    else if x[j] != y[j] then Ok(false)
    else ScanRow(x, y, j + 1, cols)
  }

  /** Rows i.. of the scan. Row i of the other matrix is read only inside the
      column loop, so with no columns nothing of it is read and nothing
      raises; otherwise `other.data[i]` raises once i passes its last row. */
  function ScanRows(a: seq<seq<int>>, b: seq<seq<int>>, i: nat, cols: nat): (r: Result<bool>)
    requires forall k :: 0 <= k < |a| ==> cols <= |a[k]|
    ensures r.Err? ==> r.error == IndexOutOfBounds && cols > 0
    ensures r == Ok(true) && cols > 0 ==> i >= |a| || |a| <= |b|
    ensures r == Ok(true) ==> forall k :: i <= k < |a| && k < |b| && cols > 0 ==> cols <= |b[k]|
    ensures r == Ok(true) ==> forall k, c :: i <= k < |a| && k < |b| && 0 <= c < cols && c < |b[k]| ==> a[k][c] == b[k][c]
    decreases |a| - i
  {
    if i >= |a| then Ok(true)
    else if cols == 0 then ScanRows(a, b, i + 1, cols)
    else if i >= |b| then Err(IndexOutOfBounds)
    else
      var row := ScanRow(a[i], b[i], 0, cols);
      if row == Ok(true) then ScanRows(a, b, i + 1, cols) else row
  }

  /** `Matrix.__eq__` as written: it refuses the operands only when BOTH
      dimensions differ, then scans the receiver's cells. A True answer
      only says that the receiver's cells reappear in the other matrix. */
  function EqualsAsWritten(a: seq<seq<int>>, cols: int, b: seq<seq<int>>, otherCols: int): (r: Result<bool>)
    requires Rect(a, cols) && Rect(b, otherCols)
    ensures r == Err(DimensionMismatch) <==> |a| != |b| && cols != otherCols
    ensures r.Err? && r.error != DimensionMismatch ==> r.error == IndexOutOfBounds
    ensures r == Ok(true) && cols > 0 ==> |a| <= |b|
    ensures r == Ok(true) ==> forall k :: 0 <= k < |a| && k < |b| && cols > 0 ==> cols <= |b[k]|
    ensures r == Ok(true) ==> forall k, c :: 0 <= k < |a| && k < |b| && 0 <= c < cols && c < |b[k]| ==> a[k][c] == b[k][c]
  {
    if |a| != |b| && cols != otherCols then Err(DimensionMismatch)
    else ScanRows(a, b, 0, Count(cols))
  }

  /** Three empty rows against one: the guard passes (the widths agree) and
      the empty column loop never reads the other matrix, so the answer is
      True although the row counts differ. */
  lemma EqualsAsWrittenIgnoresRowsWithoutColumns()
    ensures EqualsAsWritten([[], [], []], 0, [[]], 0) == Ok(true)
  {
  }

  /** The receiver [[1, 2]] has the same width as [[1, 2], [3, 4]] but fewer
      rows, so the guard lets the pair through and the scan answers True. */
  lemma EqualsAsWrittenAcceptsTaller()
    ensures [[1, 2]] != [[1, 2], [3, 4]]
    ensures EqualsAsWritten([[1, 2]], 2, [[1, 2], [3, 4]], 2) == Ok(true)
  {
  }

  lemma {:induction false} ScanRowIsSuffixEquality(x: seq<int>, y: seq<int>, j: nat, cols: nat)
    requires |x| == |y| == cols && j <= cols
    ensures ScanRow(x, y, j, cols) == Ok(x[j..] == y[j..])
    decreases cols - j
  {
    if j < cols {
      ScanRowIsSuffixEquality(x, y, j + 1, cols);
      assert x[j..] == [x[j]] + x[j + 1..];
      assert y[j..] == [y[j]] + y[j + 1..];
    }
  }

  lemma {:induction false} ScanRowsIsSuffixEquality(a: seq<seq<int>>, b: seq<seq<int>>, i: nat, cols: nat)
    requires Rect(a, cols) && Rect(b, cols) && |a| == |b| && i <= |a|
    ensures ScanRows(a, b, i, cols) == Ok(a[i..] == b[i..])
    decreases |a| - i
  {
    if i < |a| && cols == 0 {
      ScanRowsIsSuffixEquality(a, b, i + 1, cols);
      assert a[i] == [] == b[i];
      assert a[i..] == [a[i]] + a[i + 1..];
      assert b[i..] == [b[i]] + b[i + 1..];
    } else if i < |a| {
      ScanRowIsSuffixEquality(a[i], b[i], 0, cols);
      assert a[i][0..] == a[i] && b[i][0..] == b[i];
      ScanRowsIsSuffixEquality(a, b, i + 1, cols);
      assert a[i..] == [a[i]] + a[i + 1..];
      assert b[i..] == [b[i]] + b[i + 1..];
    }
  }

  /** On operands of one shape the as-written equality is plain equality: the
      departure is confined to the guard. */
  lemma EqualsAsWrittenOnEqualShapes(a: seq<seq<int>>, b: seq<seq<int>>, cols: nat)
    requires Rect(a, cols) && Rect(b, cols) && |a| == |b|
    ensures EqualsAsWritten(a, cols, b, cols) == Ok(a == b)
  {
    ScanRowsIsSuffixEquality(a, b, 0, cols);
    assert a[0..] == a && b[0..] == b;
  }

  // ---------------------------------------------------------------------------
  // append_row on a matrix without rows

  /** The state of a Matrix: its rows and its two cached counts. */
  datatype Grid = Grid(data: seq<seq<int>>, nRows: int, nCols: int)

  ghost predicate Consistent(g: Grid) {
    g.nRows == |g.data| && Rect(g.data, g.nCols)
  }

  /** `append_row` as written: it accepts any row when there are no rows,
      and never updates `n_cols`. */
  function AppendRowAsWritten(g: Grid, row: seq<int>): (r: Result<Grid>)
    ensures r.Ok? <==> |row| == g.nCols || g.nRows == 0
    ensures r.Ok? ==> r.value.data == g.data + [row] && r.value.nCols == g.nCols
  {
    if |row| != g.nCols && g.nRows != 0 then Err(InvalidShape)
    else Ok(Grid(g.data + [row], |g.data| + 1, g.nCols))
  }

  /** From a consistent state, the as-written append keeps the counts
      consistent exactly when the row has the cached width. */
  lemma AppendRowAsWrittenConsistency(g: Grid, row: seq<int>)
    requires Consistent(g) && AppendRowAsWritten(g, row).Ok?
    ensures Consistent(AppendRowAsWritten(g, row).value) <==> |row| == g.nCols
  {
    var d := g.data + [row];
    assert d[|g.data|] == row;
  }

  /** `Matrix([[1, 2]])` after `remove_row(0)` holds no rows and `n_cols == 2`;
      appending [1, 2, 3] then leaves a 3-entry row under `n_cols == 2`. */
  lemma AppendRowAsWrittenLeavesWidthStale()
    ensures Consistent(Grid([], 0, 2))
    ensures AppendRowAsWritten(Grid([], 0, 2), [1, 2, 3]).Ok?
    ensures !Consistent(AppendRowAsWritten(Grid([], 0, 2), [1, 2, 3]).value)
  {
    AppendRowAsWrittenConsistency(Grid([], 0, 2), [1, 2, 3]);
  }

  // ---------------------------------------------------------------------------
  // The Souffle Matrix constructor storing membership tests

  /** `[[elem in row for elem in row] for row in data]`: every stored cell is
      the test `elem in row`, which holds for each of the row's own elements. */
  function StoredRowsAsWritten(rows: seq<seq<int>>): (stored: seq<seq<int>>)
    ensures |stored| == |rows|
    ensures forall i :: 0 <= i < |rows| ==> |stored[i]| == |rows[i]|
    ensures forall i, j :: 0 <= i < |rows| && 0 <= j < |rows[i]| ==> stored[i][j] == 1
  {
    seq(|rows|, i requires 0 <= i < |rows| =>
      seq(|rows[i]|, j requires 0 <= j < |rows[i]| => if rows[i][j] in rows[i] then 1 else 0))
  }

  /** The stored rows equal the given rows only when every entry is 1. */
  lemma StoredRowsAsWrittenKeepsOnlyOnes(rows: seq<seq<int>>)
    ensures StoredRowsAsWritten(rows) == rows <==>
      forall i, j :: 0 <= i < |rows| && 0 <= j < |rows[i]| ==> rows[i][j] == 1
  {
    var stored := StoredRowsAsWritten(rows);
    if forall i, j :: 0 <= i < |rows| && 0 <= j < |rows[i]| ==> rows[i][j] == 1 {
      forall i | 0 <= i < |rows|
        ensures stored[i] == rows[i]
      {
      }
    }
  }

  /** `Matrix([[2, 3]])` stores [[True, True]], that is [[1, 1]]. */
  lemma StoredRowsAsWrittenLosesValues()
    ensures StoredRowsAsWritten([[2, 3]]) == [[1, 1]]
    ensures StoredRowsAsWritten([[2, 3]]) != [[2, 3]]
  {
    var s := StoredRowsAsWritten([[2, 3]]);
    assert s[0] == [1, 1];
  }
}
