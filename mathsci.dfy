/** The container layer of mathsci/datatypes.py, the copy the tests import.
    Its operators build their results with loops (module Kernels). The Vector
    operators and the Matrix element-wise and product operators return new
    containers; the Matrix unary operators return raw nested lists. Its
    mutators change the receiver in place and keep the cached counters in
    step with the stored lists. */
module Mathsci {
  import opened Numeric
  import Kernels

  /** `Vector`: a list `data` and its cached length `n_elems`. */
  class Vector {
    var data: seq<int>
    var nElems: int

    /** The cached length agrees with the list. */
    ghost predicate Valid()
      reads this
    {
      nElems == |data|
    }

    /** `Vector(data)` */
    constructor (s: seq<int>)
      ensures Valid() && data == s
    {
      data := s;
      nElems := |s|;
    }

    /** `Vector()` */
    constructor Empty()
      ensures Valid() && data == []
    {
      data := [];
      nElems := 0;
    }

    /** `v[key]`: an int key gives one element, a list of keys gives the list
        of their elements in request order, any other key is refused. */
    method GetItem(key: Key) returns (r: Result<Item>)
      requires Valid()
      ensures key.Index? && Subscript(data, key.k).Ok? ==> r == Ok(Element(Subscript(data, key.k).value))
      ensures key.Index? && Subscript(data, key.k).Err? ==> r == Err(IndexOutOfBounds)
      ensures key.Indices? ==> (r.Ok? <==> forall t :: 0 <= t < |key.ks| ==> Subscript(data, key.ks[t]).Ok?)
      ensures key.Indices? && r.Ok? ==>
        && r.value.Elements?
        && |r.value.xs| == |key.ks|
        && forall t :: 0 <= t < |key.ks| ==> Subscript(data, key.ks[t]) == Ok(r.value.xs[t])
      ensures key.Indices? && r.Err? ==> r.error == IndexOutOfBounds
      ensures key.OtherKey? ==> r == Err(InvalidKey)
    {
      match key
      case Index(k) =>
        var e := if k >= 0 then k else nElems + k;
        match At(data, e) {
          case Some(x) => r := Ok(Element(x));
          case None => r := Err(IndexOutOfBounds);
        }
      case Indices(ks) =>
        var sel := Kernels.Select(data, ks);
        match sel {
          case Ok(xs) => r := Ok(Elements(xs));
          case Err(e) => r := Err(e);
        }
      case OtherKey =>
        r := Err(InvalidKey);
    }

    /** `+v` */
    method Pos() returns (r: Vector)
      requires Valid()
      ensures r.Valid() && r.data == data
      ensures fresh(r)
    {
      var s := Kernels.MapLoop(Plus, data);
      PlusAndAbs(data);
      r := new Vector(s);
    }

    /** `-v` */
    method Neg() returns (r: Vector)
      requires Valid()
      ensures r.Valid() && |r.data| == nElems
      ensures forall i :: 0 <= i < nElems ==> r.data[i] == -data[i]
      ensures fresh(r)
    {
      var s := Kernels.MapLoop(Minus, data);
      r := new Vector(s);
    }

    /** `abs(v)` */
    method Abs() returns (r: Vector)
      requires Valid()
      ensures r.Valid() && |r.data| == nElems
      ensures forall i :: 0 <= i < nElems ==> r.data[i] >= 0 && (r.data[i] == data[i] || r.data[i] == -data[i])
      ensures fresh(r)
    {
      var s := Kernels.MapLoop(Magnitude, data);
      r := new Vector(s);
    }

    /** `v == w`: one boolean, true iff every pair of elements is equal. */
    method Equals(other: Vector) returns (r: Result<bool>)
      requires Valid() && other.Valid()
      ensures r.Ok? <==> nElems == other.nElems
      ensures r.Err? ==> r.error == DimensionMismatch
      ensures r.Ok? ==> (r.value <==> forall i :: 0 <= i < nElems ==> data[i] == other.data[i])
    {
      if nElems != other.nElems {
        return Err(DimensionMismatch);
      }
      var eq := Kernels.AllEqual(data, other.data);
      return Ok(eq);
    }

    /** The shape every element-wise comparison and arithmetic operator
        shares: refuse operands of unequal length, else pair the elements. */
    method Zip(op: BinOp, other: Vector) returns (r: Result<Vector>)
      requires Valid() && other.Valid()
      ensures r.Ok? <==> nElems == other.nElems
      ensures r.Err? ==> r.error == DimensionMismatch
      ensures r.Ok? ==> r.value.Valid() && |data| == |other.data| && r.value.data == ZipBin(op, data, other.data)
      ensures r.Ok? ==> fresh(r.value)
    {
      if nElems != other.nElems {
        return Err(DimensionMismatch);
      }
      var s := Kernels.ZipLoop(op, data, other.data);
      var v := new Vector(s);
      return Ok(v);
    }

    /** `v < w`: a Vector of 1 (True) and 0 (False). */
    method Lt(other: Vector) returns (r: Result<Vector>)
      requires Valid() && other.Valid()
      ensures r.Ok? <==> nElems == other.nElems
      ensures r.Err? ==> r.error == DimensionMismatch
      ensures r.Ok? ==> r.value.Valid() && |r.value.data| == nElems
      ensures r.Ok? ==> forall i :: 0 <= i < nElems ==> (r.value.data[i] == 1 <==> data[i] < other.data[i])
      ensures r.Ok? ==> forall i :: 0 <= i < nElems ==> (r.value.data[i] == 0 <==> data[i] >= other.data[i])
      ensures r.Ok? ==> fresh(r.value)
    {
      r := Zip(BinOp.Lt, other);
    }

    /** `v > w` */
    method Gt(other: Vector) returns (r: Result<Vector>)
      requires Valid() && other.Valid()
      ensures r.Ok? <==> nElems == other.nElems
      ensures r.Err? ==> r.error == DimensionMismatch
      ensures r.Ok? ==> r.value.Valid() && |r.value.data| == nElems
      ensures r.Ok? ==> forall i :: 0 <= i < nElems ==> (r.value.data[i] == 1 <==> data[i] > other.data[i])
      ensures r.Ok? ==> forall i :: 0 <= i < nElems ==> (r.value.data[i] == 0 <==> data[i] <= other.data[i])
      ensures r.Ok? ==> fresh(r.value)
    {
      r := Zip(BinOp.Gt, other);
    }

    /** `v <= w` */
    method Le(other: Vector) returns (r: Result<Vector>)
      requires Valid() && other.Valid()
      ensures r.Ok? <==> nElems == other.nElems
      ensures r.Err? ==> r.error == DimensionMismatch
      ensures r.Ok? ==> r.value.Valid() && |r.value.data| == nElems
      ensures r.Ok? ==> forall i :: 0 <= i < nElems ==> (r.value.data[i] == 1 <==> data[i] <= other.data[i])
      ensures r.Ok? ==> forall i :: 0 <= i < nElems ==> (r.value.data[i] == 0 <==> data[i] > other.data[i])
      ensures r.Ok? ==> fresh(r.value)
    {
      r := Zip(BinOp.Le, other);
    }

    /** `v >= w` */
    method Ge(other: Vector) returns (r: Result<Vector>)
      requires Valid() && other.Valid()
      ensures r.Ok? <==> nElems == other.nElems
      ensures r.Err? ==> r.error == DimensionMismatch
      ensures r.Ok? ==> r.value.Valid() && |r.value.data| == nElems
      ensures r.Ok? ==> forall i :: 0 <= i < nElems ==> (r.value.data[i] == 1 <==> data[i] >= other.data[i])
      ensures r.Ok? ==> forall i :: 0 <= i < nElems ==> (r.value.data[i] == 0 <==> data[i] < other.data[i])
      ensures r.Ok? ==> fresh(r.value)
    {
      r := Zip(BinOp.Ge, other);
    }

    /** `v + w` */
    method Add(other: Vector) returns (r: Result<Vector>)
      requires Valid() && other.Valid()
      ensures r.Ok? <==> nElems == other.nElems
      ensures r.Err? ==> r.error == DimensionMismatch
      ensures r.Ok? ==> r.value.Valid() && |r.value.data| == nElems
      ensures r.Ok? ==> forall i :: 0 <= i < nElems ==> r.value.data[i] == data[i] + other.data[i]
      ensures r.Ok? ==> fresh(r.value)
    {
      r := Zip(BinOp.Add, other);
    }

    /** `v - w` */
    method Sub(other: Vector) returns (r: Result<Vector>)
      requires Valid() && other.Valid()
      ensures r.Ok? <==> nElems == other.nElems
      ensures r.Err? ==> r.error == DimensionMismatch
      ensures r.Ok? ==> r.value.Valid() && |r.value.data| == nElems
      ensures r.Ok? ==> forall i :: 0 <= i < nElems ==> r.value.data[i] == data[i] - other.data[i]
      ensures r.Ok? ==> fresh(r.value)
    {
      r := Zip(BinOp.Sub, other);
    }

    /** `v * w` (element-wise) */
    method Mul(other: Vector) returns (r: Result<Vector>)
      requires Valid() && other.Valid()
      ensures r.Ok? <==> nElems == other.nElems
      ensures r.Err? ==> r.error == DimensionMismatch
      ensures r.Ok? ==> r.value.Valid() && |r.value.data| == nElems
      ensures r.Ok? ==> forall i :: 0 <= i < nElems ==> r.value.data[i] == data[i] * other.data[i]
      ensures r.Ok? ==> fresh(r.value)
    {
      r := Zip(BinOp.Mul, other);
    }

    /** `v.add_scalar(value)` */
    method AddScalar(value: int) returns (r: Vector)
      requires Valid()
      ensures r.Valid() && |r.data| == nElems
      ensures forall i :: 0 <= i < nElems ==> r.data[i] == data[i] + value
      ensures fresh(r)
    {
      var s := Kernels.ScalarLoop(BinOp.Add, data, value);
      r := new Vector(s);
    }

    /** `v.sub_scalar(value)` */
    method SubScalar(value: int) returns (r: Vector)
      requires Valid()
      ensures r.Valid() && |r.data| == nElems
      ensures forall i :: 0 <= i < nElems ==> r.data[i] == data[i] - value
      ensures fresh(r)
    {
      var s := Kernels.ScalarLoop(BinOp.Sub, data, value);
      r := new Vector(s);
    }

    /** `v.mul_scalar(value)` */
    method MulScalar(value: int) returns (r: Vector)
      requires Valid()
      ensures r.Valid() && |r.data| == nElems
      ensures forall i :: 0 <= i < nElems ==> r.data[i] == data[i] * value
      ensures fresh(r)
    {
      var s := Kernels.ScalarLoop(BinOp.Mul, data, value);
      r := new Vector(s);
    }

    /** `v.dot_product(w)`, delegated to the linear-algebra collaborator. */
    method DotProduct(other: Vector) returns (r: Result<int>)
      requires Valid() && other.Valid()
      ensures r.Ok? <==> nElems == other.nElems
      ensures r.Err? ==> r.error == DimensionMismatch
      ensures r.Ok? ==> |data| == |other.data| && r.value == Dot(data, other.data)
    {
      if nElems != other.nElems {
        return Err(DimensionMismatch);
      }
      return Ok(Dot(data, other.data));
    }

    /** `v.append(value)` */
    method Append(value: int)
      requires Valid()
      modifies this
      ensures Valid() && data == old(data) + [value]
    {
      data := data + [value];
      nElems := |data|;
    }

    /** `v.prepend(value)` */
    method Prepend(value: int)
      requires Valid()
      modifies this
      ensures Valid() && data == [value] + old(data)
    {
      data := InsertAt(data, 0, value);
      nElems := |data|;
    }

    /** `v.insert(idx, value)`, with `list.insert`'s clamping of idx. */
    method Insert(idx: int, value: int)
      requires Valid()
      modifies this
      ensures Valid() && data == InsertAt(old(data), Clip(old(nElems), idx), value)
    {
      data := InsertAt(data, Clip(|data|, idx), value);
      nElems := |data|;
    }

    /** `v.remove(idx)`: `del data[idx]`, negative idx counting from the end. */
    method Remove(idx: int) returns (o: Outcome)
      requires Valid()
      modifies this
      ensures Valid()
      ensures o.Pass? <==> -old(nElems) <= idx < old(nElems)
      ensures o.Fail? ==> o.error == IndexOutOfBounds && data == old(data)
      ensures o.Pass? ==> data == RemoveAt(old(data), PyPos(|old(data)|, idx).value)
    {
      match PyPos(|data|, idx)
      case None =>
        return Fail(IndexOutOfBounds);
      case Some(p) =>
        data := RemoveAt(data, p);
        nElems := |data|;
        return Pass;
    }

    /** `v.get_slice(start, end)`: `data[start:end]`. */
    function GetSlice(start: int, end: int): (r: seq<int>)
      reads this
      requires Valid()
      ensures 0 <= start <= end <= nElems ==> r == data[start..end]
      ensures |r| <= nElems
    {
      Slice(data, start, end)
    }
  }

  /** `Matrix`: a list of rows and the cached counts `n_rows` and `n_cols`. */
  class Matrix {
    var data: seq<seq<int>>
    var nRows: int
    var nCols: int

    /** `n_rows` counts the rows and every row holds `n_cols` entries. */
    ghost predicate Valid()
      reads this
    {
      nRows == |data| && Rect(data, nCols)
    }

    /** Allocation over non-empty rows of one length. */
    constructor Init(rows: seq<seq<int>>)
      requires |rows| > 0 && Uniform(rows)
      ensures Valid() && data == rows && nRows == |rows| && nCols == |rows[0]|
    {
      data := rows;
      nRows := |rows|;
      nCols := |rows[0]|;
    }

    /** `Matrix(data)`: reading `len(data[0])` fails on an empty list. */
    static method FromRows(rows: seq<seq<int>>) returns (r: Result<Matrix>)
      requires Uniform(rows)
      ensures r.Ok? <==> |rows| > 0
      ensures r.Err? ==> r.error == IndexOutOfBounds
      ensures r.Ok? ==> r.value.Valid() && r.value.data == rows && r.value.nCols == |rows[0]|
      ensures r.Ok? ==> fresh(r.value)
    {
      if |rows| == 0 {
        return Err(IndexOutOfBounds);
      }
      var m := new Matrix.Init(rows);
      return Ok(m);
    }

    /** `+m`: the raw nested list, not a Matrix. */
    method Pos() returns (r: seq<seq<int>>)
      requires Valid()
      ensures r == data
    {
      r := Kernels.FillMap(Plus, data, nCols);
      forall i | 0 <= i < |data|
        ensures r[i] == data[i]
      {
        PlusAndAbs(data[i]);
      }
    }

    /** `-m`: the raw nested list, not a Matrix. */
    method Neg() returns (r: seq<seq<int>>)
      requires Valid()
      ensures |r| == nRows && Rect(r, nCols)
      ensures forall i, j :: 0 <= i < nRows && 0 <= j < nCols ==> r[i][j] == -data[i][j]
    {
      r := Kernels.FillMap(Minus, data, nCols);
    }

    /** `abs(m)`: the raw nested list, not a Matrix. */
    method Abs() returns (r: seq<seq<int>>)
      requires Valid()
      ensures |r| == nRows && Rect(r, nCols)
      ensures forall i, j :: 0 <= i < nRows && 0 <= j < nCols ==>
        r[i][j] >= 0 && (r[i][j] == data[i][j] || r[i][j] == -data[i][j])
    {
      r := Kernels.FillMap(Magnitude, data, nCols);
    }

    /** `m == other`, refusing operands whose shapes differ in either dimension. */
    method Equals(other: Matrix) returns (r: Result<bool>)
      requires Valid() && other.Valid()
      ensures r.Ok? <==> nRows == other.nRows && nCols == other.nCols
      ensures r.Err? ==> r.error == DimensionMismatch
      ensures r.Ok? ==> (r.value <==> data == other.data)
      ensures r.Ok? ==> (r.value <==> forall i, j :: 0 <= i < nRows && 0 <= j < nCols ==> data[i][j] == other.data[i][j])
    {
      if nRows != other.nRows || nCols != other.nCols {
        return Err(DimensionMismatch);
      }
      var eq := Kernels.GridEqual(data, other.data, nCols);
      return Ok(eq);
    }

    /** The shape the element-wise operators share: refuse unequal shapes,
        fill the result cell by cell, wrap it as `Matrix(result)`. */
    method Zip(op: BinOp, other: Matrix) returns (r: Result<Matrix>)
      requires Valid() && other.Valid()
      ensures r.Ok? <==> nRows == other.nRows && nCols == other.nCols && nRows > 0
      ensures r.Err? && (nRows != other.nRows || nCols != other.nCols) ==> r.error == DimensionMismatch
      ensures r.Err? && nRows == other.nRows && nCols == other.nCols ==> r.error == IndexOutOfBounds
      ensures r.Ok? ==> r.value.Valid() && r.value.nRows == nRows && r.value.nCols == nCols
      ensures r.Ok? ==> SameShape(data, other.data) && r.value.data == MatZip(op, data, other.data)
      ensures r.Ok? ==> fresh(r.value)
    {
      if !(nRows == other.nRows && nCols == other.nCols) {
        return Err(DimensionMismatch);
      }
      var g := Kernels.FillZip(op, data, other.data, nCols);
      r := FromRows(g);
    }

    /** `m + other` */
    method Add(other: Matrix) returns (r: Result<Matrix>)
      requires Valid() && other.Valid()
      ensures r.Ok? <==> nRows == other.nRows && nCols == other.nCols && nRows > 0
      ensures r.Err? && (nRows != other.nRows || nCols != other.nCols) ==> r.error == DimensionMismatch
      ensures r.Err? && nRows == other.nRows && nCols == other.nCols ==> r.error == IndexOutOfBounds
      ensures r.Ok? ==> r.value.Valid() && r.value.nRows == nRows && r.value.nCols == nCols
      ensures r.Ok? ==> forall i, j :: 0 <= i < nRows && 0 <= j < nCols ==>
        r.value.data[i][j] == data[i][j] + other.data[i][j]
      ensures r.Ok? ==> fresh(r.value)
    {
      r := Zip(BinOp.Add, other);
    }

    /** `m - other` */
    method Sub(other: Matrix) returns (r: Result<Matrix>)
      requires Valid() && other.Valid()
      ensures r.Ok? <==> nRows == other.nRows && nCols == other.nCols && nRows > 0
      ensures r.Err? && (nRows != other.nRows || nCols != other.nCols) ==> r.error == DimensionMismatch
      ensures r.Err? && nRows == other.nRows && nCols == other.nCols ==> r.error == IndexOutOfBounds
      ensures r.Ok? ==> r.value.Valid() && r.value.nRows == nRows && r.value.nCols == nCols
      ensures r.Ok? ==> forall i, j :: 0 <= i < nRows && 0 <= j < nCols ==>
        r.value.data[i][j] == data[i][j] - other.data[i][j]
      ensures r.Ok? ==> fresh(r.value)
    {
      r := Zip(BinOp.Sub, other);
    }

    /** `m * other` (element-wise) */
    method Mul(other: Matrix) returns (r: Result<Matrix>)
      requires Valid() && other.Valid()
      ensures r.Ok? <==> nRows == other.nRows && nCols == other.nCols && nRows > 0
      ensures r.Err? && (nRows != other.nRows || nCols != other.nCols) ==> r.error == DimensionMismatch
      ensures r.Err? && nRows == other.nRows && nCols == other.nCols ==> r.error == IndexOutOfBounds
      ensures r.Ok? ==> r.value.Valid() && r.value.nRows == nRows && r.value.nCols == nCols
      ensures r.Ok? ==> forall i, j :: 0 <= i < nRows && 0 <= j < nCols ==>
        r.value.data[i][j] == data[i][j] * other.data[i][j]
      ensures r.Ok? ==> fresh(r.value)
    {
      r := Zip(BinOp.Mul, other);
    }

    /** `m.mul_matrix(other)`: cell (i, j) is the dot product of row i and
        column j; the result has shape (n_rows, other.n_cols). */
    method MulMatrix(other: Matrix) returns (r: Result<Matrix>)
      requires Valid() && other.Valid()
      requires nCols == other.nRows
      ensures r.Ok? <==> nRows > 0 && (other.nRows > 0 || other.nCols <= 0)
      ensures r.Err? ==> r.error == IndexOutOfBounds
      ensures r.Ok? ==> r.value.Valid() && r.value.nRows == nRows && r.value.nCols == Count(other.nCols)
      ensures r.Ok? ==> forall i, j :: 0 <= i < nRows && 0 <= j < other.nCols ==>
        r.value.data[i][j] == Dot(data[i], Column(other.data, j))
      ensures r.Ok? ==> fresh(r.value)
    {
      if other.nRows == 0 && other.nCols > 0 && nRows > 0 {
        // zip(*other.data) is empty, so zip(*other.data)[j] raises
        return Err(IndexOutOfBounds);
      }
      var g := Kernels.FillProduct(data, other.data, other.nCols);
      MatMulShape(data, other.data, Count(other.nCols));
      r := FromRows(g);
    }

    /** `m.get_row(idx)`: `data[idx]`, negative idx counting from the end. */
    function GetRow(idx: int): (r: Result<seq<int>>)
      reads this
      requires Valid()
      ensures r.Ok? <==> -nRows <= idx < nRows
      ensures r.Err? ==> r.error == IndexOutOfBounds
      ensures r.Ok? ==> |r.value| == nCols && r.value == data[if idx >= 0 then idx else nRows + idx]
    {
      match At(data, idx)
      case Some(row) => Ok(row)
      case None => Err(IndexOutOfBounds)
    }

    /** `m.get_col(idx)`: entry i is `data[i][idx]`. */
    method GetCol(idx: int) returns (r: Result<seq<int>>)
      requires Valid()
      ensures r.Ok? <==> nRows == 0 || -nCols <= idx < nCols
      ensures r.Err? ==> r.error == IndexOutOfBounds
      ensures r.Ok? ==> |r.value| == nRows
      ensures r.Ok? && 0 <= idx ==> r.value == Column(data, idx)
      ensures r.Ok? && idx < 0 && nRows > 0 ==> r.value == Column(data, nCols + idx)
    {
      r := Kernels.ColumnLoop(data, nCols, idx);
    }

    /** `m.append_row(row)`: the row must match `n_cols` unless the matrix has
        no rows, in which case it sets the width. */
    method AppendRow(row: seq<int>) returns (o: Outcome)
      requires Valid()
      modifies this
      ensures Valid()
      ensures o.Pass? <==> |row| == old(nCols) || old(nRows) == 0
      ensures o.Fail? ==> o.error == InvalidShape && data == old(data) && nRows == old(nRows) && nCols == old(nCols)
      ensures o.Pass? ==> data == old(data) + [row] && nRows == old(nRows) + 1 && nCols == |row|
    {
      if |row| != nCols && nRows != 0 {
        return Fail(InvalidShape);
      }
      data := data + [row];
      nRows := |data|;
      nCols := |row|;
      return Pass;
    }

    /** `m.append_col(col)`: row i gains `col[i]` at its end. */
    method AppendCol(col: seq<int>) returns (o: Outcome)
      requires Valid()
      modifies this
      ensures Valid()
      ensures o.Pass? <==> old(nRows) > 0 && (|col| == old(nRows) || (old(nCols) == 0 && |col| > old(nRows)))
      ensures o.Fail? ==> data == old(data) && nRows == old(nRows) && nCols == old(nCols)
      ensures o.Fail? && |col| != old(nRows) && old(nCols) != 0 ==> o.error == InvalidShape
      ensures o.Fail? && (|col| == old(nRows) || old(nCols) == 0) ==> o.error == IndexOutOfBounds
      ensures o.Pass? ==> data == AppendColumn(old(data), col) && nRows == old(nRows) && nCols == old(nCols) + 1
    {
      if |col| != nRows && nCols != 0 {
        return Fail(InvalidShape);
      }
      if |col| < nRows {
        // col[i] raises part-way through the loop
        return Fail(IndexOutOfBounds);
      }
      if nRows == 0 {
        // len(self.data[0]) raises
        return Fail(IndexOutOfBounds);
      }
      var i := 0;
      while i < nRows
        invariant 0 <= i <= nRows == |data| == |old(data)|
        invariant nCols == old(nCols)
        invariant forall k :: 0 <= k < i ==> data[k] == old(data)[k] + [col[k]]
        invariant forall k :: i <= k < nRows ==> data[k] == old(data)[k]
      {
        data := data[i := data[i] + [col[i]]];
        i := i + 1;
      }
      nCols := |data[0]|;
      return Pass;
    }

    /** `m.remove_row(idx)`: `del data[idx]`, then one row fewer. */
    method RemoveRow(idx: int) returns (o: Outcome)
      requires Valid()
      modifies this
      ensures Valid()
      ensures o.Pass? <==> -old(nRows) <= idx < old(nRows)
      ensures o.Fail? ==> o.error == IndexOutOfBounds && data == old(data) && nRows == old(nRows)
      ensures nCols == old(nCols)
      ensures o.Pass? ==> data == RemoveAt(old(data), PyPos(|old(data)|, idx).value) && nRows == old(nRows) - 1
    {
      match PyPos(|data|, idx)
      case None =>
        return Fail(IndexOutOfBounds);
      case Some(p) =>
        data := RemoveAt(data, p);
        nRows := nRows - 1;
        return Pass;
    }

    /** `m.remove_col(idx)`: `del row[idx]` in every row, then one column
        fewer; with no rows only the count drops. */
    method RemoveCol(idx: int) returns (o: Outcome)
      requires Valid()
      modifies this
      ensures Valid()
      ensures o.Pass? <==> old(nRows) == 0 || -old(nCols) <= idx < old(nCols)
      ensures o.Fail? ==> o.error == IndexOutOfBounds && data == old(data) && nCols == old(nCols)
      ensures nRows == old(nRows)
      ensures o.Pass? ==> nCols == old(nCols) - 1
      ensures o.Pass? && old(nRows) == 0 ==> data == old(data)
      ensures o.Pass? && old(nRows) > 0 ==> data == DropColumn(old(data), PyPos(|old(data)[0]|, idx).value)
    {
      if nRows == 0 {
        nCols := nCols - 1;
        return Pass;
      }
      match PyPos(|data[0]|, idx)
      case None =>
        return Fail(IndexOutOfBounds);
      case Some(p) =>
        var i := 0;
        while i < nRows
          invariant 0 <= i <= nRows == |data| == |old(data)|
          invariant nCols == old(nCols)
          invariant forall k :: 0 <= k < i ==> data[k] == RemoveAt(old(data)[k], p)
          invariant forall k :: i <= k < nRows ==> data[k] == old(data)[k]
        {
          data := data[i := RemoveAt(data[i], p)];
          i := i + 1;
        }
        nCols := nCols - 1;
        return Pass;
    }
  }
}
