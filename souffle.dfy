/** The container layer of souffle/datatypes.py, a later and unfinished
    refactor of the containers. Its Vector operators are list comprehensions,
    so they are functions here returning the new Vector's contents; its loops
    (equality, batch subscript, the matrix product, the column mutators) are
    methods. The Matrix constructor checks its input and reports bad input as
    an error; as written it then stores membership tests instead of the
    values, and the model stores the values (see module AsWritten). */
module Souffle {
  import opened Numeric
  import Kernels

  /** `Vector`: a copied list `data` and its cached length `n_elems`. */
  class Vector {
    var data: seq<int>
    var nElems: int

    /** The cached length agrees with the list. */
    ghost predicate Valid()
      reads this
    {
      nElems == |data|
    }

    /** `Vector(data)`: copies the iterable into a fresh list. */
    constructor (s: seq<int>)
      ensures Valid() && data == s
    {
      data := s;
      nElems := |s|;
    }

    /** `v[key]`: an int key gives one element, a list of keys gives the list
        of their elements in request order, any other key is refused. */
    method GetItem(key: Key) returns (r: Result<Item>)
      requires Valid()
      ensures key.Index? && Subscript(data, key.k).Ok? ==> r == Ok(Element(Subscript(data, key.k).value))
      ensures key.Index? && Subscript(data, key.k).Err? ==> r == Err(IndexOutOfBounds)
      ensures key.Indices? ==> (r.Ok? <==> forall t :: 0 <= t < |key.ks| ==> Subscript(data, key.ks[t]).Ok?)
      ensures key.Indices? && r.Ok? ==>
        && r.value.Elements?
        && |r.value.xs| == |key.ks|
        && forall t :: 0 <= t < |key.ks| ==> Subscript(data, key.ks[t]) == Ok(r.value.xs[t])
      ensures key.Indices? && r.Err? ==> r.error == IndexOutOfBounds
      ensures key.OtherKey? ==> r == Err(InvalidKey)
    {
      match key
      case Index(k) =>
        var e := if k >= 0 then k else nElems + k;
        match At(data, e) {
          case Some(x) => r := Ok(Element(x));
          case None => r := Err(IndexOutOfBounds);
        }
      case Indices(ks) =>
        var sel := Kernels.Select(data, ks);
        match sel {
          case Ok(xs) => r := Ok(Elements(xs));
          case Err(e) => r := Err(e);
        }
      case OtherKey =>
        r := Err(InvalidKey);
    }

    /** `+v`: the contents of the new Vector. */
    function Pos(): (r: seq<int>)
      reads this
      ensures r == data
    {
      PlusAndAbs(data);
      MapUn(Plus, data)
    }

    /** `-v` */
    function Neg(): (r: seq<int>)
      reads this
      ensures |r| == |data|
      ensures forall i :: 0 <= i < |data| ==> r[i] == -data[i]
    {
      MapUn(Minus, data)
    }

    /** `abs(v)` */
    function Abs(): (r: seq<int>)
      reads this
      ensures |r| == |data|
      ensures forall i :: 0 <= i < |data| ==> r[i] >= 0 && (r[i] == data[i] || r[i] == -data[i])
    {
      MapUn(Magnitude, data)
    }

    /** `v == w`: one boolean, true iff every pair of elements is equal. */
    method Equals(other: Vector) returns (r: Result<bool>)
      requires Valid() && other.Valid()
      ensures r.Ok? <==> nElems == other.nElems
      ensures r.Err? ==> r.error == DimensionMismatch
      ensures r.Ok? ==> (r.value <==> data == other.data)
    {
      if nElems != other.nElems {
        return Err(DimensionMismatch);
      }
      var eq := Kernels.AllEqual(data, other.data);
      return Ok(eq);
    }

    /** The comprehension every element-wise comparison and arithmetic
        operator shares, after refusing operands of unequal length. */
    function Zip(op: BinOp, other: Vector): (r: Result<seq<int>>)
      reads this, other
      requires Valid() && other.Valid()
      ensures r.Ok? <==> |data| == |other.data|
      ensures r.Err? ==> r.error == DimensionMismatch
      ensures r.Ok? ==> |r.value| == |data|
      ensures r.Ok? ==> forall i :: 0 <= i < |data| ==> r.value[i] == ApplyBin(op, data[i], other.data[i])
    {
      if nElems != other.nElems then Err(DimensionMismatch)
      else Ok(ZipBin(op, data, other.data))
    }

    /** `v < w`: the new Vector holds 1 (True) and 0 (False). */
    function Lt(other: Vector): (r: Result<seq<int>>)
      reads this, other
      requires Valid() && other.Valid()
      ensures r.Ok? <==> |data| == |other.data|
      ensures r.Err? ==> r.error == DimensionMismatch
      ensures r.Ok? ==> |r.value| == |data|
      ensures r.Ok? ==> forall i :: 0 <= i < |data| ==> (r.value[i] == 1 <==> data[i] < other.data[i])
      ensures r.Ok? ==> forall i :: 0 <= i < |data| ==> (r.value[i] == 0 <==> data[i] >= other.data[i])
    {
      Zip(BinOp.Lt, other)
    }

    /** `v > w` */
    function Gt(other: Vector): (r: Result<seq<int>>)
      reads this, other
      requires Valid() && other.Valid()
      ensures r.Ok? <==> |data| == |other.data|
      ensures r.Err? ==> r.error == DimensionMismatch
      ensures r.Ok? ==> |r.value| == |data|
      ensures r.Ok? ==> forall i :: 0 <= i < |data| ==> (r.value[i] == 1 <==> data[i] > other.data[i])
      ensures r.Ok? ==> forall i :: 0 <= i < |data| ==> (r.value[i] == 0 <==> data[i] <= other.data[i])
    {
      Zip(BinOp.Gt, other)
    }

    /** `v <= w` */
    function Le(other: Vector): (r: Result<seq<int>>)
      reads this, other
      requires Valid() && other.Valid()
      ensures r.Ok? <==> |data| == |other.data|
      ensures r.Err? ==> r.error == DimensionMismatch
      ensures r.Ok? ==> |r.value| == |data|
      ensures r.Ok? ==> forall i :: 0 <= i < |data| ==> (r.value[i] == 1 <==> data[i] <= other.data[i])
      ensures r.Ok? ==> forall i :: 0 <= i < |data| ==> (r.value[i] == 0 <==> data[i] > other.data[i])
    {
      Zip(BinOp.Le, other)
    }

    /** `v >= w` */
    function Ge(other: Vector): (r: Result<seq<int>>)
      reads this, other
      requires Valid() && other.Valid()
      ensures r.Ok? <==> |data| == |other.data|
      ensures r.Err? ==> r.error == DimensionMismatch
      ensures r.Ok? ==> |r.value| == |data|
      ensures r.Ok? ==> forall i :: 0 <= i < |data| ==> (r.value[i] == 1 <==> data[i] >= other.data[i])
      ensures r.Ok? ==> forall i :: 0 <= i < |data| ==> (r.value[i] == 0 <==> data[i] < other.data[i])
    {
      Zip(BinOp.Ge, other)
    }

    /** `v + w` */
    function Add(other: Vector): (r: Result<seq<int>>)
      reads this, other
      requires Valid() && other.Valid()
      ensures r.Ok? <==> |data| == |other.data|
      ensures r.Err? ==> r.error == DimensionMismatch
      ensures r.Ok? ==> |r.value| == |data|
      ensures r.Ok? ==> forall i :: 0 <= i < |data| ==> r.value[i] == data[i] + other.data[i]
    {
      Zip(BinOp.Add, other)
    }

    /** `v - w` */
    function Sub(other: Vector): (r: Result<seq<int>>)
      reads this, other
      requires Valid() && other.Valid()
      ensures r.Ok? <==> |data| == |other.data|
      ensures r.Err? ==> r.error == DimensionMismatch
      ensures r.Ok? ==> |r.value| == |data|
      ensures r.Ok? ==> forall i :: 0 <= i < |data| ==> r.value[i] == data[i] - other.data[i]
    {
      Zip(BinOp.Sub, other)
    }

    /** `v * w` (element-wise) */
    function Mul(other: Vector): (r: Result<seq<int>>)
      reads this, other
      requires Valid() && other.Valid()
      ensures r.Ok? <==> |data| == |other.data|
      ensures r.Err? ==> r.error == DimensionMismatch
      ensures r.Ok? ==> |r.value| == |data|
      ensures r.Ok? ==> forall i :: 0 <= i < |data| ==> r.value[i] == data[i] * other.data[i]
    {
      Zip(BinOp.Mul, other)
    }

    /** `v.add_scalar(value)` */
    function AddScalar(value: int): (r: seq<int>)
      reads this
      ensures |r| == |data|
      ensures forall i :: 0 <= i < |data| ==> r[i] == data[i] + value
    {
      MapScalar(BinOp.Add, data, value)
    }

    /** `v.sub_scalar(value)` */
    function SubScalar(value: int): (r: seq<int>)
      reads this
      ensures |r| == |data|
      ensures forall i :: 0 <= i < |data| ==> r[i] == data[i] - value
    {
      MapScalar(BinOp.Sub, data, value)
    }

    /** `v.mul_scalar(value)` */
    function MulScalar(value: int): (r: seq<int>)
      reads this
      ensures |r| == |data|
      ensures forall i :: 0 <= i < |data| ==> r[i] == data[i] * value
    {
      MapScalar(BinOp.Mul, data, value)
    }

    /** `v.dot_product(w)`, delegated to the linear-algebra collaborator. */
    function DotProduct(other: Vector): (r: Result<int>)
      reads this, other
      requires Valid() && other.Valid()
      ensures r.Ok? <==> |data| == |other.data|
      ensures r.Err? ==> r.error == DimensionMismatch
      ensures r.Ok? ==> |data| == |other.data| && r.value == Dot(other.data, data)
    {
      if nElems != other.nElems then Err(DimensionMismatch)
      else
        DotSymmetric(data, other.data);
        Ok(Dot(data, other.data))
    }

    /** `v.append(value)` */
    method Append(value: int)
      requires Valid()
      modifies this
      ensures Valid() && data == old(data) + [value]
    {
      data := data + [value];
      nElems := |data|;
    }

    /** `v.prepend(value)` */
    method Prepend(value: int)
      requires Valid()
      modifies this
      ensures Valid() && data == [value] + old(data)
    {
      data := InsertAt(data, 0, value);
      nElems := |data|;
    }

    /** `v.insert(idx, value)`, with `list.insert`'s clamping of idx. */
    method Insert(idx: int, value: int)
      requires Valid()
      modifies this
      ensures Valid() && data == InsertAt(old(data), Clip(old(nElems), idx), value)
    {
      data := InsertAt(data, Clip(|data|, idx), value);
      nElems := |data|;
    }

    /** `v.remove(idx)`: `del data[idx]`, negative idx counting from the end. */
    method Remove(idx: int) returns (o: Outcome)
      requires Valid()
      modifies this
      ensures Valid()
      ensures o.Pass? <==> -old(nElems) <= idx < old(nElems)
      ensures o.Fail? ==> o.error == IndexOutOfBounds && data == old(data)
      ensures o.Pass? ==> data == RemoveAt(old(data), PyPos(|old(data)|, idx).value)
    {
      match PyPos(|data|, idx)
      case None =>
        return Fail(IndexOutOfBounds);
      case Some(p) =>
        data := RemoveAt(data, p);
        nElems := |data|;
        return Pass;
    }

    /** `v.get_slice(start, end)`: `data[start:end]`. */
    function GetSlice(start: int, end: int): (r: seq<int>)
      reads this
      ensures 0 <= start <= end <= |data| ==> r == data[start..end]
      ensures |r| <= |data|
    {
      Slice(data, start, end)
    }
  }

  /** The row lengths, in row order. */
  function Lengths(m: seq<seq<int>>): (lens: seq<int>)
    ensures |lens| == |m|
    ensures forall i :: 0 <= i < |m| ==> lens[i] == |m[i]|
  {
    seq(|m|, i requires 0 <= i < |m| => |m[i]|)
  }

  /** A list equal to itself shifted by one place holds one value throughout. */
  lemma {:induction false} ShiftedEqualIsConstant(l: seq<int>, i: nat)
    requires 0 < |l| && l[1..] == l[..|l| - 1]
    requires i < |l|
    ensures l[i] == l[0]
  {
    if i > 0 {
      ShiftedEqualIsConstant(l, i - 1);
      assert l[1..][i - 1] == l[..|l| - 1][i - 1];
    }
  }

  /** The constructor's check `row_lens[1:] == row_lens[:-1]` accepts exactly
      the lists of rows of one length. */
  lemma ShiftedLengthsIffUniform(m: seq<seq<int>>)
    requires |m| > 0
    ensures Lengths(m)[1..] == Lengths(m)[..|m| - 1] <==> Uniform(m)
  {
    var lens := Lengths(m);
    if lens[1..] == lens[..|m| - 1] {
      forall i | 0 <= i < |m|
        ensures |m[i]| == |m[0]|
      {
        ShiftedEqualIsConstant(lens, i);
      }
    }
  }

  /** `Matrix`: a list of rows and the cached counts `n_rows` and `n_cols`. */
  class Matrix {
    var data: seq<seq<int>>
    var nRows: int
    var nCols: int

    /** `n_rows` counts the rows and every row holds `n_cols` entries. */
    ghost predicate Valid()
      reads this
    {
      nRows == |data| && Rect(data, nCols)
    }

    /** Allocation over non-empty rows of one length. */
    constructor Init(rows: seq<seq<int>>)
      requires |rows| > 0 && Uniform(rows)
      ensures Valid() && data == rows && nRows == |rows| && nCols == |rows[0]|
    {
      data := rows;
      nRows := |rows|;
      nCols := |rows[0]|;
    }

    /** `Matrix(data)`: an empty list is invalid input (reading `data[0]`
        fails inside the guarded block) and rows of unequal length are
        refused. */
    static method FromRows(rows: seq<seq<int>>) returns (r: Result<Matrix>)
      ensures r.Ok? <==> |rows| > 0 && Uniform(rows)
      ensures |rows| == 0 ==> r == Err(InvalidInput)
      ensures |rows| > 0 && !Uniform(rows) ==> r == Err(InvalidShape)
      ensures r.Ok? ==> r.value.Valid() && r.value.data == rows && r.value.nCols == |rows[0]|
      ensures r.Ok? ==> fresh(r.value)
    {
      if |rows| == 0 {
        return Err(InvalidInput);
      }
      var lens := Lengths(rows);
      ShiftedLengthsIffUniform(rows);
      if lens[1..] != lens[..|lens| - 1] {
        return Err(InvalidShape);
      }
      var m := new Matrix.Init(rows);
      return Ok(m);
    }

    /** `+m`: the rows of the new Matrix; a row-less matrix cannot be rebuilt. */
    function Pos(): (r: Result<seq<seq<int>>>)
      reads this
      requires Valid()
      ensures r.Ok? <==> nRows > 0
      ensures r.Err? ==> r.error == InvalidInput
      ensures r.Ok? ==> r.value == data
    {
      if nRows == 0 then Err(InvalidInput)
      else
        assert forall i :: 0 <= i < |data| ==> MapUn(Plus, data[i]) == data[i] by {
          forall i | 0 <= i < |data| { PlusAndAbs(data[i]); }
        }
        Ok(MatMap(Plus, data))
    }

    /** `-m` */
    function Neg(): (r: Result<seq<seq<int>>>)
      reads this
      requires Valid()
      ensures r.Ok? <==> nRows > 0
      ensures r.Err? ==> r.error == InvalidInput
      ensures r.Ok? ==> |r.value| == nRows && Rect(r.value, nCols)
      ensures r.Ok? ==> forall i, j :: 0 <= i < nRows && 0 <= j < nCols ==> r.value[i][j] == -data[i][j]
    {
      if nRows == 0 then Err(InvalidInput) else Ok(MatMap(Minus, data))
    }

    /** `abs(m)` */
    function Abs(): (r: Result<seq<seq<int>>>)
      reads this
      requires Valid()
      ensures r.Ok? <==> nRows > 0
      ensures r.Err? ==> r.error == InvalidInput
      ensures r.Ok? ==> |r.value| == nRows && Rect(r.value, nCols)
      ensures r.Ok? ==> forall i, j :: 0 <= i < nRows && 0 <= j < nCols ==>
        r.value[i][j] >= 0 && (r.value[i][j] == data[i][j] || r.value[i][j] == -data[i][j])
    {
      if nRows == 0 then Err(InvalidInput) else Ok(MatMap(Magnitude, data))
    }

    /** `m == other`, refusing operands whose shapes differ in either dimension. */
    method Equals(other: Matrix) returns (r: Result<bool>)
      requires Valid() && other.Valid()
      ensures r.Ok? <==> nRows == other.nRows && nCols == other.nCols
      ensures r.Err? ==> r.error == DimensionMismatch
      ensures r.Ok? ==> (r.value <==> data == other.data)
    {
      if nRows != other.nRows || nCols != other.nCols {
        return Err(DimensionMismatch);
      }
      var eq := Kernels.GridEqual(data, other.data, nCols);
      return Ok(eq);
    }

    /** `m.mul_matrix(other)`: cell (i, j) is the dot product of row i and
        column j; the result has shape (n_rows, other.n_cols). */
    method MulMatrix(other: Matrix) returns (r: Result<Matrix>)
      requires Valid() && other.Valid()
      requires nCols == other.nRows
      ensures r.Ok? <==> nRows > 0 && (other.nRows > 0 || other.nCols <= 0)
      ensures r.Err? && nRows == 0 ==> r.error == InvalidInput
      ensures r.Err? && nRows > 0 ==> r.error == IndexOutOfBounds
      ensures r.Ok? ==> r.value.Valid() && r.value.nRows == nRows && r.value.nCols == Count(other.nCols)
      ensures r.Ok? ==> forall i, j :: 0 <= i < nRows && 0 <= j < other.nCols ==>
        r.value.data[i][j] == Dot(data[i], Column(other.data, j))
      ensures r.Ok? ==> fresh(r.value)
    {
      if other.nRows == 0 && other.nCols > 0 && nRows > 0 {
        // zip(*other.data) is empty, so zip(*other.data)[j] raises
        return Err(IndexOutOfBounds);
      }
      var g := Kernels.FillProduct(data, other.data, other.nCols);
      MatMulShape(data, other.data, Count(other.nCols));
      r := FromRows(g);
    }

    /** `m.get_row(idx)`: `data[idx]`, negative idx counting from the end. */
    function GetRow(idx: int): (r: Result<seq<int>>)
      reads this
      requires Valid()
      ensures r.Ok? <==> -nRows <= idx < nRows
      ensures r.Err? ==> r.error == IndexOutOfBounds
      ensures r.Ok? ==> |r.value| == nCols && r.value == data[if idx >= 0 then idx else nRows + idx]
    {
      match At(data, idx)
      case Some(row) => Ok(row)
      case None => Err(IndexOutOfBounds)
    }

    /** `m.get_col(idx)`: entry i is `data[i][idx]`. */
    method GetCol(idx: int) returns (r: Result<seq<int>>)
      requires Valid()
      ensures r.Ok? <==> nRows == 0 || -nCols <= idx < nCols
      ensures r.Err? ==> r.error == IndexOutOfBounds
      ensures r.Ok? ==> |r.value| == nRows
      ensures r.Ok? && 0 <= idx ==> r.value == Column(data, idx)
      ensures r.Ok? && idx < 0 && nRows > 0 ==> r.value == Column(data, nCols + idx)
    {
      r := Kernels.ColumnLoop(data, nCols, idx);
    }

    /** `m.append_row(row)`: the row must match `n_cols` unless the matrix has
        no rows, in which case it sets the width. */
    method AppendRow(row: seq<int>) returns (o: Outcome)
      requires Valid()
      modifies this
      ensures Valid()
      ensures o.Pass? <==> |row| == old(nCols) || old(nRows) == 0
      ensures o.Fail? ==> o.error == InvalidShape && data == old(data) && nRows == old(nRows) && nCols == old(nCols)
      ensures o.Pass? ==> data == old(data) + [row] && nRows == old(nRows) + 1 && nCols == |row|
    {
      if |row| != nCols && nRows != 0 {
        return Fail(InvalidShape);
      }
      data := data + [row];
      nRows := |data|;
      nCols := |row|;
      return Pass;
    }

    /** `m.append_col(col)`: row i gains `col[i]` at its end. */
    method AppendCol(col: seq<int>) returns (o: Outcome)
      requires Valid()
      modifies this
      ensures Valid()
      ensures o.Pass? <==> old(nRows) > 0 && (|col| == old(nRows) || (old(nCols) == 0 && |col| > old(nRows)))
      ensures o.Fail? ==> data == old(data) && nRows == old(nRows) && nCols == old(nCols)
      ensures o.Fail? && |col| != old(nRows) && old(nCols) != 0 ==> o.error == InvalidShape
      ensures o.Fail? && (|col| == old(nRows) || old(nCols) == 0) ==> o.error == IndexOutOfBounds
      ensures o.Pass? ==> data == AppendColumn(old(data), col) && nRows == old(nRows) && nCols == old(nCols) + 1
    {
      if |col| != nRows && nCols != 0 {
        return Fail(InvalidShape);
      }
      if |col| < nRows {
        // col[i] raises part-way through the loop
        return Fail(IndexOutOfBounds);
      }
      if nRows == 0 {
        // len(self.data[0]) raises
        return Fail(IndexOutOfBounds);
      }
      var i := 0;
      while i < nRows
        invariant 0 <= i <= nRows == |data| == |old(data)|
        invariant nCols == old(nCols)
        invariant forall k :: 0 <= k < i ==> data[k] == old(data)[k] + [col[k]]
        invariant forall k :: i <= k < nRows ==> data[k] == old(data)[k]
      {
        data := data[i := data[i] + [col[i]]];
        i := i + 1;
      }
      nCols := |data[0]|;
      return Pass;
    }

    /** `m.remove_row(idx)`: `del data[idx]`, then one row fewer. */
    method RemoveRow(idx: int) returns (o: Outcome)
      requires Valid()
      modifies this
      ensures Valid()
      ensures o.Pass? <==> -old(nRows) <= idx < old(nRows)
      ensures o.Fail? ==> o.error == IndexOutOfBounds && data == old(data) && nRows == old(nRows)
      ensures nCols == old(nCols)
      ensures o.Pass? ==> data == RemoveAt(old(data), PyPos(|old(data)|, idx).value) && nRows == old(nRows) - 1
    {
      match PyPos(|data|, idx)
      case None =>
        return Fail(IndexOutOfBounds);
      case Some(p) =>
        data := RemoveAt(data, p);
        nRows := nRows - 1;
        return Pass;
    }

    /** `m.remove_col(idx)`: `del row[idx]` in every row, then one column
        fewer; with no rows only the count drops. */
    method RemoveCol(idx: int) returns (o: Outcome)
      requires Valid()
      modifies this
      ensures Valid()
      ensures o.Pass? <==> old(nRows) == 0 || -old(nCols) <= idx < old(nCols)
      ensures o.Fail? ==> o.error == IndexOutOfBounds && data == old(data) && nCols == old(nCols)
      ensures nRows == old(nRows)
      ensures o.Pass? ==> nCols == old(nCols) - 1
      ensures o.Pass? && old(nRows) == 0 ==> data == old(data)
      ensures o.Pass? && old(nRows) > 0 ==> data == DropColumn(old(data), PyPos(|old(data)[0]|, idx).value)
    {
      if nRows == 0 {
        nCols := nCols - 1;
        return Pass;
      }
      match PyPos(|data[0]|, idx)
      case None =>
        return Fail(IndexOutOfBounds);
      case Some(p) =>
        var i := 0;
        while i < nRows
          invariant 0 <= i <= nRows == |data| == |old(data)|
          invariant nCols == old(nCols)
          invariant forall k :: 0 <= k < i ==> data[k] == RemoveAt(old(data)[k], p)
          invariant forall k :: i <= k < nRows ==> data[k] == old(data)[k]
        {
          data := data[i := RemoveAt(data[i], p)];
          i := i + 1;
        }
        nCols := nCols - 1;
        return Pass;
    }
  }
}
