# Vector and Matrix containers, modelled in Dafny

This project models the numeric container layer of the `mathsci` and
`souffle` packages: a one-dimensional `Vector` (a list `data` with a cached
length `n_elems`) and a two-dimensional `Matrix` (a list of rows with cached
`n_rows` and `n_cols`). The layer exists twice. `mathsci/datatypes.py` is the
copy the tests import. Its operators are loops that build a result. The
Vector operators and the Matrix element-wise and product operators return a
new container; the Matrix unary operators return a raw nested list.
`souffle/datatypes.py` is a later refactor of the same layer, left
unfinished. Above its "continue refactoring here" mark the Vector operators
are list comprehensions. Below it `mul_matrix`, `get_col`, `append_col` and
`remove_col` keep the mathsci loops, and the Matrix element-wise operators are
half-refactored comprehensions that always raise. Its Matrix constructor
stores `elem in row` for every cell (see "## Findings") and then checks that
the rows have one length, a check mathsci leaves as a TODO. The model stores
the rows' values instead.

Layout:

- `numeric.dfy` (module `Numeric`) holds the shared vocabulary:
  - the error kinds, with `Result`, `Outcome` and `Option`;
  - Python's list subscript (`PyPos`, `At`), slice and insert rules (`Clip`, `Slice`, `InsertAt`, `RemoveAt`);
  - the specification functions the containers are proved against: element-wise maps (`MapUn`, `ZipBin`, `MapScalar`), `Dot`, `Column`, `MatMul`, `AppendColumn`, `DropColumn`, the zero-filled result `Buffer`;
  - the lemmas about those functions.
- `kernels.dfy` (module `Kernels`) holds the source's loops as methods over values. Each is proved equal to its specification function by loop invariants.
- `mathsci.dfy` (module `Mathsci`) holds the classes `Vector` and `Matrix`. Their fields are updated in place by the mutators, and every method keeps `Valid()`, the agreement of the cached counts with the lists.
- `souffle.dfy` (module `Souffle`) holds the same two classes in the souffle style. The comprehension operators are `reads` functions that return the new container's contents.
- `as_written.dfy` (module `AsWritten`) holds the code as written where it departs from its evident intent. See "## Findings".
- `scenarios.dfy` (module `Scenarios`) states the cases of `tests/test_datatypes.py` as client code of the classes whose results are proved. Non-integral test values are scaled by ten.

Modelling choices:

- Elements are mathematical integers.
- A comparison result is 1 or 0, because Python's `True` and `False` are those integers.
- A raised exception becomes an `Err` or `Fail` value: `ValueError` with the dimension message becomes `DimensionMismatch`, and Python's `IndexError` becomes `IndexOutOfBounds`.
- The code is read with Python 2 semantics, which its `__div__` methods and its subscripting of `zip(...)` presuppose.
- A single Vector key `k < 0` is first shifted to `n_elems + k` and then subscripted the Python way, which shifts a still-negative position again. So keys in `[-2n, -n)` return `data[2n + k]` instead of raising. The model keeps this (`Numeric.Subscript`, `Scenarios.VectorSubscripts`).
- `list.insert` clamps its index and `del` accepts negative indices; both are modelled exactly (`Clip`, `PyPos`).

## Model

| member | source | states |
|---|---|---|
| Numeric.Clip | mathsci/datatypes.py:441 | the position `list.insert` and a slice bound use: the index itself inside [0, n], n + i for -n <= i < 0, clamped to 0 below and to n above |
| Numeric.Subscript | mathsci/datatypes.py:59-63 | a key in [0, n) gives data[key]; in [-n, 0) gives data[n + key]; in [-2n, -n) gives data[2n + key]; any other key raises IndexError |
| Numeric.Slice | mathsci/datatypes.py:454-455 | `data[start:end]` is the plain subsequence for in-range bounds, never longer than the list, of length end - start after clamping, empty when the clamped bounds cross |
| Numeric.AddCommutes | mathsci/datatypes.py:246-247 | element-wise `a + b == b + a` |
| Numeric.SubUndoesAdd | mathsci/datatypes.py:246-268 | element-wise `(a + b) - b == a` |
| Numeric.NegInvolutive | mathsci/datatypes.py:99-101 | `-(-v) == v` |
| Numeric.AbsIgnoresSign | mathsci/datatypes.py:112-114 | `abs(-v) == abs(v)` |
| Numeric.PlusAndAbs | mathsci/datatypes.py:86-114 | `+v == v`, `abs` is idempotent and has no negative entry |
| Numeric.ComparisonDuality | mathsci/datatypes.py:156-226 | `a < b` equals `b > a`, `a <= b` equals `b >= a`, `a <= b` is the 0/1 complement of `a > b`, and every comparison entry is 0 or 1 |
| Numeric.SubScalarUndoesAddScalar | mathsci/datatypes.py:327-357 | `v.add_scalar(c).sub_scalar(c) == v` |
| Numeric.DotSymmetric | mathsci/datatypes.py:408 | the dot product is symmetric |
| Numeric.DotDistributes | mathsci/datatypes.py:408 | the dot product distributes over element-wise addition |
| Numeric.DotScales | mathsci/datatypes.py:408 | scaling one operand by c scales the dot product by c |
| Numeric.AtReaches | mathsci/datatypes.py:659 | a Python subscript succeeds exactly for -n <= i < n and reaches data[i] or data[n + i] |
| Numeric.SubscriptLast | mathsci/datatypes.py:59-63 | `v[-1]` is the last element, the same as `v[n - 1]` |
| Numeric.InsertAtPlaces | mathsci/datatypes.py:441 | inserting at p puts the value at p, keeps the prefix, shifts the suffix right by one |
| Numeric.RemoveAtShifts | mathsci/datatypes.py:451 | deleting position p keeps the prefix and shifts the suffix left by one |
| Numeric.RemoveAtUndoesInsertAt | mathsci/datatypes.py:432-452 | removing the element just inserted restores the list |
| Numeric.SliceSplit | mathsci/datatypes.py:454-455 | `v[:k] + v[k:] == v` for every int k, negative and out of range included |
| Numeric.SliceSuffix | mathsci/datatypes.py:454-455 | `v[-m:]` is the last m elements |
| Numeric.MatMulShape | mathsci/datatypes.py:645-648 | the product has shape (rows of A, cols of B) and cell (i, j) is row i of A dotted with column j of B |
| Numeric.MatMulDistributes | mathsci/datatypes.py:635-650 | `A.mul_matrix(B + C) == A.mul_matrix(B) + A.mul_matrix(C)` |
| Numeric.MatSubUndoesAdd | mathsci/datatypes.py:555-588 | matrix `(A + B) - B == A` |
| Numeric.AppendColumnShape | mathsci/datatypes.py:686-688 | appending a column widens every row by one, keeps every old column and makes the given values the last column |
| Numeric.DropColumnShape | mathsci/datatypes.py:695-697 | deleting column p narrows every row by one and shifts the later columns left |
| Numeric.DropUndoesAppendColumn | mathsci/datatypes.py:679-697 | removing the column just appended restores the matrix |
| Numeric.BufferFits | mathsci/datatypes.py:564-569 | a buffer of n_rows rows of n_cols zeros holds every cell the fill loop writes |
| Kernels.MapLoop | mathsci/datatypes.py:86-88 | the unary operator loop yields op applied to every element, in order |
| Kernels.ZipLoop | mathsci/datatypes.py:156-158 | the comparison/arithmetic loop yields a[i] op b[i] for every i |
| Kernels.ScalarLoop | mathsci/datatypes.py:337-339 | updating a copy in place yields data[i] op value for every i |
| Kernels.AllEqual | mathsci/datatypes.py:135-138 | the early-exit scan answers true iff every pair is equal, that is iff the lists are equal |
| Kernels.Select | mathsci/datatypes.py:65-71 | a batch key succeeds iff every key resolves; entry t is the resolution of key t; otherwise IndexError |
| Kernels.FillMap | mathsci/datatypes.py:507-512 | filling the buffer cell by cell yields op of every cell |
| Kernels.FillZip | mathsci/datatypes.py:564-569 | filling the buffer yields a[i][j] op b[i][j] for every cell |
| Kernels.FillProduct | mathsci/datatypes.py:642-648 | filling the buffer yields the matrix product |
| Kernels.GridEqual | mathsci/datatypes.py:547-551 | the nested early-exit scan answers true iff every cell is equal, that is iff the matrices are equal |
| Kernels.ColumnLoop | mathsci/datatypes.py:661-665 | `get_col` succeeds iff there are no rows or -n_cols <= idx < n_cols; entry i is data[i][idx], column idx or n_cols + idx |
| Mathsci.Vector.constructor | mathsci/datatypes.py:18-29 | the Vector holds the given list and caches its length |
| Mathsci.Vector.Empty | mathsci/datatypes.py:23-29 | `Vector()` is empty with length 0 |
| Mathsci.Vector.GetItem | mathsci/datatypes.py:49-75 | an int key follows `Subscript`; a list key gives every resolution in order or IndexError; any other key is refused |
| Mathsci.Vector.Pos | mathsci/datatypes.py:79-90 | `+v` has the same contents; the result is a new Vector |
| Mathsci.Vector.Neg | mathsci/datatypes.py:92-103 | `-v` negates every element; the result is a new Vector |
| Mathsci.Vector.Abs | mathsci/datatypes.py:105-116 | `abs(v)` is non-negative and equals each element or its negation; the result is a new Vector |
| Mathsci.Vector.Equals | mathsci/datatypes.py:120-138 | unequal lengths raise; otherwise true iff every pair is equal |
| Mathsci.Vector.Zip | mathsci/datatypes.py:151-160 | unequal lengths raise; otherwise the element-wise result; a successful result is a new Vector |
| Mathsci.Vector.Lt | mathsci/datatypes.py:140-160 | unequal lengths raise; entry i is 1 iff a[i] < b[i] and 0 otherwise; a successful result is a new Vector |
| Mathsci.Vector.Gt | mathsci/datatypes.py:162-182 | unequal lengths raise; entry i is 1 iff a[i] > b[i] and 0 otherwise; a successful result is a new Vector |
| Mathsci.Vector.Le | mathsci/datatypes.py:184-204 | unequal lengths raise; entry i is 1 iff a[i] <= b[i] and 0 otherwise; a successful result is a new Vector |
| Mathsci.Vector.Ge | mathsci/datatypes.py:206-226 | unequal lengths raise; entry i is 1 iff a[i] >= b[i] and 0 otherwise; a successful result is a new Vector |
| Mathsci.Vector.Add | mathsci/datatypes.py:230-249 | unequal lengths raise; entry i is a[i] + b[i]; a successful result is a new Vector |
| Mathsci.Vector.Sub | mathsci/datatypes.py:251-270 | unequal lengths raise; entry i is a[i] - b[i]; a successful result is a new Vector |
| Mathsci.Vector.Mul | mathsci/datatypes.py:272-291 | unequal lengths raise; entry i is a[i] * b[i]; a successful result is a new Vector |
| Mathsci.Vector.AddScalar | mathsci/datatypes.py:327-341 | entry i is data[i] + value; the result is a new Vector |
| Mathsci.Vector.SubScalar | mathsci/datatypes.py:343-357 | entry i is data[i] - value; the result is a new Vector |
| Mathsci.Vector.MulScalar | mathsci/datatypes.py:359-373 | entry i is data[i] * value; the result is a new Vector |
| Mathsci.Vector.DotProduct | mathsci/datatypes.py:393-408 | unequal lengths raise; otherwise the sum of pairwise products |
| Mathsci.Vector.Append | mathsci/datatypes.py:412-420 | the value is added last and the cached length follows |
| Mathsci.Vector.Prepend | mathsci/datatypes.py:422-430 | the value is added first and the cached length follows |
| Mathsci.Vector.Insert | mathsci/datatypes.py:432-442 | the value is inserted at the clamped position and the cached length follows |
| Mathsci.Vector.Remove | mathsci/datatypes.py:444-452 | succeeds iff -n <= idx < n, deleting exactly that position; otherwise IndexError and nothing changes |
| Mathsci.Vector.GetSlice | mathsci/datatypes.py:454-455 | `data[start:end]`, never longer than the Vector |
| Mathsci.Matrix.Init | mathsci/datatypes.py:461-474 | non-empty rows of one length make a valid Matrix with n_cols the row length |
| Mathsci.Matrix.FromRows | mathsci/datatypes.py:461-474 | an empty list raises IndexError; otherwise the Matrix holds the rows; a successful result is a new Matrix |
| Mathsci.Matrix.Pos | mathsci/datatypes.py:503-513 | `+m` returns the same cells |
| Mathsci.Matrix.Neg | mathsci/datatypes.py:515-525 | `-m` has the same shape with every cell negated |
| Mathsci.Matrix.Abs | mathsci/datatypes.py:527-537 | `abs(m)` has the same shape, every cell non-negative and equal to the cell or its negation |
| Mathsci.Matrix.Equals | mathsci/datatypes.py:541-551 | different shapes raise; otherwise true iff every cell is equal |
| Mathsci.Matrix.Zip | mathsci/datatypes.py:555-571 | different shapes raise; a row-less result cannot be rebuilt; otherwise cell-wise a op b, same shape; a successful result is a new Matrix |
| Mathsci.Matrix.Add | mathsci/datatypes.py:555-571 | different shapes raise; two row-less operands of one shape raise IndexError when the result is rebuilt; otherwise cell (i, j) is a[i][j] + b[i][j]; a successful result is a new Matrix |
| Mathsci.Matrix.Sub | mathsci/datatypes.py:573-588 | different shapes raise; two row-less operands of one shape raise IndexError when the result is rebuilt; otherwise cell (i, j) is a[i][j] - b[i][j]; a successful result is a new Matrix |
| Mathsci.Matrix.Mul | mathsci/datatypes.py:591-607 | different shapes raise; two row-less operands of one shape raise IndexError when the result is rebuilt; otherwise cell (i, j) is a[i][j] * b[i][j]; a successful result is a new Matrix |
| Mathsci.Matrix.MulMatrix | mathsci/datatypes.py:635-650 | succeeds iff A has rows and B has rows or no columns; shape (A rows, B cols); cell (i, j) is row i dotted with column j; a successful result is a new Matrix |
| Mathsci.Matrix.GetRow | mathsci/datatypes.py:658-659 | succeeds iff -n_rows <= idx < n_rows, giving that row, of length n_cols |
| Mathsci.Matrix.GetCol | mathsci/datatypes.py:661-665 | succeeds iff no rows or -n_cols <= idx < n_cols; one entry per row, the column at idx or n_cols + idx |
| Mathsci.Matrix.AppendRow | mathsci/datatypes.py:669-677 | a row of the wrong width is refused unless there are no rows; otherwise it goes last and both counts follow |
| Mathsci.Matrix.AppendCol | mathsci/datatypes.py:679-688 | a column of the wrong height is refused unless n_cols is 0; on success row i gains col[i] and n_cols grows by one |
| Mathsci.Matrix.RemoveRow | mathsci/datatypes.py:690-692 | succeeds iff -n_rows <= idx < n_rows, deleting exactly that row and decrementing n_rows |
| Mathsci.Matrix.RemoveCol | mathsci/datatypes.py:694-697 | with no rows only n_cols drops; otherwise succeeds iff the index is in range, deleting that position from every row |
| Souffle.Vector.constructor | souffle/datatypes.py:22-34 | the Vector holds a copy of the given list and caches its length |
| Souffle.Vector.GetItem | souffle/datatypes.py:49-75 | an int key follows `Subscript`; a list key gives every resolution in order or IndexError; any other key is refused |
| Souffle.Vector.Pos | souffle/datatypes.py:79-86 | `+v` has the same contents |
| Souffle.Vector.Neg | souffle/datatypes.py:88-95 | `-v` negates every element |
| Souffle.Vector.Abs | souffle/datatypes.py:97-104 | `abs(v)` is non-negative and equals each element or its negation |
| Souffle.Vector.Equals | souffle/datatypes.py:108-126 | unequal lengths raise; otherwise true iff the lists are equal |
| Souffle.Vector.Zip | souffle/datatypes.py:139-144 | unequal lengths raise; otherwise entry i is a[i] op b[i] |
| Souffle.Vector.Lt | souffle/datatypes.py:128-144 | unequal lengths raise; entry i is 1 iff a[i] < b[i] and 0 otherwise |
| Souffle.Vector.Gt | souffle/datatypes.py:146-162 | unequal lengths raise; entry i is 1 iff a[i] > b[i] and 0 otherwise |
| Souffle.Vector.Le | souffle/datatypes.py:164-180 | unequal lengths raise; entry i is 1 iff a[i] <= b[i] and 0 otherwise |
| Souffle.Vector.Ge | souffle/datatypes.py:182-198 | unequal lengths raise; entry i is 1 iff a[i] >= b[i] and 0 otherwise |
| Souffle.Vector.Add | souffle/datatypes.py:202-217 | unequal lengths raise; entry i is a[i] + b[i] |
| Souffle.Vector.Sub | souffle/datatypes.py:219-234 | unequal lengths raise; entry i is a[i] - b[i] |
| Souffle.Vector.Mul | souffle/datatypes.py:236-251 | unequal lengths raise; entry i is a[i] * b[i] |
| Souffle.Vector.AddScalar | souffle/datatypes.py:283-293 | entry i is data[i] + value |
| Souffle.Vector.SubScalar | souffle/datatypes.py:295-305 | entry i is data[i] - value |
| Souffle.Vector.MulScalar | souffle/datatypes.py:307-317 | entry i is data[i] * value |
| Souffle.Vector.DotProduct | souffle/datatypes.py:333-348 | unequal lengths raise; otherwise the sum of pairwise products, in either operand order |
| Souffle.Vector.Append | souffle/datatypes.py:352-360 | the value is added last and the cached length follows |
| Souffle.Vector.Prepend | souffle/datatypes.py:362-370 | the value is added first and the cached length follows |
| Souffle.Vector.Insert | souffle/datatypes.py:372-382 | the value is inserted at the clamped position and the cached length follows |
| Souffle.Vector.Remove | souffle/datatypes.py:384-392 | succeeds iff -n <= idx < n, deleting exactly that position; otherwise IndexError and nothing changes |
| Souffle.Vector.GetSlice | souffle/datatypes.py:394-404 | `data[start:end]`, never longer than the Vector |
| Souffle.Lengths | souffle/datatypes.py:424 | `row_lens` has one entry per row, its length |
| Souffle.ShiftedLengthsIffUniform | souffle/datatypes.py:424-426 | `row_lens[1:] == row_lens[:-1]` holds iff every row is as long as the first |
| Souffle.Matrix.Init | souffle/datatypes.py:410-426 | non-empty rows of one length make a valid Matrix with n_cols the row length |
| Souffle.Matrix.FromRows | souffle/datatypes.py:410-426 | an empty list is invalid input; rows of unequal length are refused; otherwise the Matrix holds the rows; a successful result is a new Matrix |
| Souffle.Matrix.Pos | souffle/datatypes.py:452-456 | a row-less matrix cannot be rebuilt; otherwise `+m` has the same cells |
| Souffle.Matrix.Neg | souffle/datatypes.py:458-462 | a row-less matrix cannot be rebuilt; otherwise the same shape with every cell negated |
| Souffle.Matrix.Abs | souffle/datatypes.py:464-468 | a row-less matrix cannot be rebuilt; otherwise the same shape, every cell non-negative and equal to the cell or its negation |
| Souffle.Matrix.Equals | souffle/datatypes.py:472-482 | different shapes raise; otherwise true iff the matrices are equal |
| Souffle.Matrix.MulMatrix | souffle/datatypes.py:554-569 | a row-less result is invalid input; an empty B with columns raises IndexError; otherwise shape (A rows, B cols) and cell (i, j) is row i dotted with column j; a successful result is a new Matrix |
| Souffle.Matrix.GetRow | souffle/datatypes.py:577-578 | succeeds iff -n_rows <= idx < n_rows, giving that row, of length n_cols |
| Souffle.Matrix.GetCol | souffle/datatypes.py:580-584 | succeeds iff no rows or -n_cols <= idx < n_cols; one entry per row, the column at idx or n_cols + idx |
| Souffle.Matrix.AppendRow | souffle/datatypes.py:588-596 | a row of the wrong width is refused unless there are no rows; otherwise it goes last and both counts follow |
| Souffle.Matrix.AppendCol | souffle/datatypes.py:598-607 | a column of the wrong height is refused unless n_cols is 0; on success row i gains col[i] and n_cols grows by one |
| Souffle.Matrix.RemoveRow | souffle/datatypes.py:609-611 | succeeds iff -n_rows <= idx < n_rows, deleting exactly that row and decrementing n_rows |
| Souffle.Matrix.RemoveCol | souffle/datatypes.py:613-616 | with no rows only n_cols drops; otherwise succeeds iff the index is in range, deleting that position from every row |
| AsWritten.TransposedBuffer | mathsci/datatypes.py:564-565 | the buffer as allocated has n_cols rows of n_rows zeros |
| AsWritten.TransposedBufferFits | mathsci/datatypes.py:564-569 | the fill loop stays inside that buffer iff the matrix is square or has no rows or no columns |
| AsWritten.TransposedBufferRejects2x3 | mathsci/datatypes.py:564-569 | for a 2 x 3 result the buffer's rows have 2 cells, so some write raises |
| AsWritten.ScanRow | mathsci/datatypes.py:548-550 | one row of the scan: `other.data[i][j]` raises only when the other row is shorter than `n_cols`; True means every compared cell agrees; False names a cell that differs |
| AsWritten.ScanRows | mathsci/datatypes.py:547-551 | the outer scan: with no columns it reads nothing of the other matrix and cannot raise; with columns True means the other matrix has at least as many rows, each wide enough, and every compared cell agrees |
| AsWritten.EqualsAsWritten | mathsci/datatypes.py:541-551 | the `and` guard raises exactly when both dimensions differ; otherwise only IndexError can be raised, and True only says that the receiver's cells reappear in the other matrix |
| AsWritten.EqualsAsWrittenAcceptsTaller | mathsci/datatypes.py:544-551 | the `and` guard lets [[1, 2]] and [[1, 2], [3, 4]] through and the scan answers True |
| AsWritten.EqualsAsWrittenIgnoresRowsWithoutColumns | mathsci/datatypes.py:544-551 | three empty rows compared with one empty row pass the guard and answer True, as the empty column loop reads nothing |
| AsWritten.ScanRowIsSuffixEquality | mathsci/datatypes.py:548-550 | on rows of one length the inner scan is equality of the remaining cells |
| AsWritten.ScanRowsIsSuffixEquality | mathsci/datatypes.py:547-551 | on matrices of one shape the outer scan is equality of the remaining rows |
| AsWritten.EqualsAsWrittenOnEqualShapes | mathsci/datatypes.py:541-551 | on operands of one shape the as-written equality is plain equality |
| AsWritten.AppendRowAsWritten | mathsci/datatypes.py:669-677 | accepts a row of the cached width or any row when there are no rows, and leaves n_cols alone |
| AsWritten.AppendRowAsWrittenConsistency | mathsci/datatypes.py:669-677 | the as-written append keeps the counts consistent iff the row has the cached width |
| AsWritten.AppendRowAsWrittenLeavesWidthStale | mathsci/datatypes.py:673-677 | a row-less matrix with n_cols 2 accepts [1, 2, 3] and keeps n_cols 2 |
| AsWritten.StoredRowsAsWritten | souffle/datatypes.py:419 | every stored cell is 1, the value of `elem in row` |
| AsWritten.StoredRowsAsWrittenKeepsOnlyOnes | souffle/datatypes.py:419 | the stored rows equal the input iff every entry is 1 |
| AsWritten.StoredRowsAsWrittenLosesValues | souffle/datatypes.py:419 | `Matrix([[2, 3]])` stores [[1, 1]] |
| Scenarios.VectorSubscripts | tests/test_datatypes.py:19 | `y[1] == 5`, `y[-1] == 6`, the doubly shifted `y[-4] == 6`, and `y[-7]` raises |
| Scenarios.VectorOperators | tests/test_datatypes.py:27-45 | the tests' `<`, `>`, `<=` and `>=` results, the sum, difference and element-wise product, and the dot product 32 |
| Scenarios.VectorUnaryAndScalar | tests/test_datatypes.py:22-41 | the tests' `+w`, `-w` and `abs(w)`, and the `add_scalar`, `sub_scalar` and `mul_scalar` results |
| Scenarios.VectorMutators | tests/test_datatypes.py:48-55 | append, prepend, insert and remove give [1, 2, 5, 3, 4] and [7, 5, 6] |
| Scenarios.MatrixSum | tests/test_datatypes.py:77-79 | the tests' matrix sum |
| Scenarios.MatrixDifference | tests/test_datatypes.py:80-82 | the tests' matrix difference [[0, -1, 1], [0, 2, 1], [3, 2, 4]] |
| Scenarios.MatrixElementProduct | tests/test_datatypes.py:83-85 | the tests' element-wise product [[1, 6, 6], [16, 15, 30], [28, 48, 45]] |
| Scenarios.MatrixProduct | tests/test_datatypes.py:88-90 | the tests' matrix product [[21, 27, 27], [48, 63, 63], [75, 99, 99]] |
| Scenarios.MatrixMutators | tests/test_datatypes.py:93-101 | `append_row` and `append_col` give the tests' 4 x 3 and 3 x 4 matrices |
| Scenarios.ResultsAreNew | mathsci/datatypes.py:79-90 | appending to `+v` and appending a row to `m + m` leave `v` and `m` unchanged, because the operators return new containers |
| Scenarios.CorrectedShapes | mathsci/datatypes.py:669-677 | emptying a one-row matrix and appending a 3-entry row gives width 3; comparing 1 x 2 with 2 x 2 raises |
| Scenarios.SouffleConstruction | souffle/datatypes.py:418-426 | an empty list is invalid input, ragged rows are refused, a 2 x 2 list is accepted |

## Left out

- Division (`__div__`, `div_scalar`) and the float behaviour it brings: elements are integers here.
- `set_type` and `get_typecasted`: they apply a Python type object to every element, a foreign call.
- `__str__` of both classes: it depends on Python's rendering of floats.
- `Matrix.__getitem__` and `inverse`: both are stubs that return nothing.
- The souffle Matrix element-wise operators: their result comprehensions iterate over an int (`for i in self.n_rows`) and so always raise `TypeError`; `__add__` first runs the transposed fill loop, which raises `IndexError` on a non-square shape.
- The linear-algebra collaborator is represented only by `Numeric.Dot`, the sum of pairwise products. Its module is not part of this model.
- `Vector()` in souffle leaves `n_elems` unset; only the constructor from a list is modelled. `Matrix()` with no data, in both copies, is not modelled.
- The `isinstance` checks on operands and on constructor input (`ERR_OP_NOT_VEC`, `ERR_OP_NOT_MAT`, `ERR_INPUT_NOT_LIST_TUPLE`): Dafny's types rule those inputs out. The same holds for souffle's `ERR_INPUT_INVALID` on a non-iterable Vector argument.
- Aliasing: the mathsci constructors store the caller's list itself, and the mutators change it in place. In both files `append_row` stores the caller's row itself and `get_row` hands out the stored row itself. So a row appended twice is one shared list, which `append_col` then extends twice: `Matrix([[0, 0]])` after `append_row(r)` twice with `r = [1, 2]` and `append_col([5, 6, 7])` holds [[0, 0, 5], [1, 2, 6, 7], [1, 2, 6, 7]], where the model's `AppendColumn` gives [[0, 0, 5], [1, 2, 6], [1, 2, 7]]. Likewise a caller that grows the row `get_row` returned widens the stored row while `n_cols` stays the same. The model gives containers and rows value semantics, so none of this sharing is captured.
- The `Vector.__getitem__` documentation says that a `None` key, the default, returns the whole Vector, but the code raises `ValueError` for it, as for any key that is neither an int nor a list or tuple. The model follows the code (`OtherKey` is refused).
- Mathsci.Vector.constructor: tuple input is modelled as a list. The mathsci constructor stores a tuple as it is, and on a non-empty tuple `add_scalar`, `sub_scalar` and `mul_scalar` then raise `TypeError` (`result[i] += value` on a copied tuple), `append`, `prepend` and `insert` raise `AttributeError`, and `remove` raises `TypeError`. The model's contracts promise success there, because its state is always a list.
- Mathsci.Matrix.FromRows: tuple input (a tuple of rows, or tuple rows) is modelled as lists. With a tuple of rows the source's `append_row` and `remove_row` raise, and with tuple rows `append_col` and `remove_col` raise; the model's contracts promise success there.
- Mathsci.Matrix.Init: ragged rows are excluded by its precondition, because the mathsci constructor does not check row lengths and its own comment marks that check as missing.
- Mathsci.Matrix.FromRows: ragged rows are excluded by its precondition, for the same reason.
- Mathsci.Matrix.MulMatrix: requires `n_cols == other.n_rows`, because the code does not check it and leaves unequal lengths to the linear-algebra collaborator, which is not modelled.
- Souffle.Matrix.MulMatrix: requires `n_cols == other.n_rows`, for the same reason.
- Mathsci.Matrix.AppendCol: when the column is shorter than `n_rows` and `n_cols` is 0, the code appends to the first rows before `col[i]` raises; the model reports the failure with the matrix unchanged.
- Souffle.Matrix.AppendCol: the same partial update is not modelled.
- The classes use the corrected behaviour of the four defects below (five rows, as the transposed buffer appears in both files), not the code as written. The as-written behaviour is in module `AsWritten`.

## Findings

| source | as written | input that shows it | evidently intended | confidence | as-written member | corrected member |
|---|---|---|---|---|---|---|
| mathsci/datatypes.py:564-565 | the result buffer of the Matrix unary and element-wise operators and of `mul_matrix` is `n_cols` lists of `n_rows` zeros (also lines 507-508, 519-520, 531-532, 582-583, 600-601, 642-643) | a 2 x 3 matrix added to itself: writing cell (0, 2) raises IndexError | `n_rows` lists of `n_cols` zeros | high; not executed | AsWritten.TransposedBufferRejects2x3 | Numeric.BufferFits |
| souffle/datatypes.py:561-562 | `mul_matrix` allocates the same transposed buffer | a 2 x 3 matrix times a 3 x 3 one raises IndexError | `n_rows` lists of `other.n_cols` zeros | high; not executed | AsWritten.TransposedBufferFits | Souffle.Matrix.MulMatrix |
| mathsci/datatypes.py:544 | `__eq__` raises only when both dimensions differ (`and`; the same at souffle/datatypes.py:475) | `Matrix([[1, 2]]) == Matrix([[1, 2], [3, 4]])` answers True | raise when either dimension differs | high; not executed | AsWritten.EqualsAsWrittenAcceptsTaller | Mathsci.Matrix.Equals |
| mathsci/datatypes.py:673-677 | `append_row` accepts any row when there are no rows but never updates `n_cols` (the same at souffle/datatypes.py:592-596) | `Matrix([[1, 2]])`, `remove_row(0)`, `append_row([1, 2, 3])` leaves `n_cols == 2` beside a 3-entry row | the first row of a row-less matrix sets `n_cols` | high; not executed | AsWritten.AppendRowAsWrittenLeavesWidthStale | Mathsci.Matrix.AppendRow |
| souffle/datatypes.py:419 | the constructor stores `elem in row`, which is True, for every cell | `Matrix([[2, 3]])` stores [[True, True]], that is [[1, 1]] | store the rows' values | high; not executed | AsWritten.StoredRowsAsWrittenLosesValues | Souffle.Matrix.FromRows |
