/** The loops inside the containers' operations, written as methods over the
    containers' contents and proved against the specification functions of
    module Numeric. The class methods in Mathsci and Souffle allocate the
    result objects around them. */
module Kernels {
  import opened Numeric

  /** The loop of a unary Vector operator: `result.append(op(data[i]))` for
      each i in `range(n_elems)`. */
  method MapLoop(op: UnOp, s: seq<int>) returns (r: seq<int>)
    ensures r == MapUn(op, s)
  {
    r := [];
    var i := 0;
    while i < |s|
      invariant 0 <= i <= |s|
      invariant |r| == i
      invariant forall k :: 0 <= k < i ==> r[k] == ApplyUn(op, s[k])
    {
      r := r + [ApplyUn(op, s[i])];
      i := i + 1;
    }
  }

  /** The loop of an element-wise comparison or arithmetic operator:
      `result.append(a[i] op b[i])`. */
  method ZipLoop(op: BinOp, a: seq<int>, b: seq<int>) returns (r: seq<int>)
    requires |a| == |b|
    ensures r == ZipBin(op, a, b)
  {
    r := [];
    var i := 0;
    while i < |a|
      invariant 0 <= i <= |a|
      invariant |r| == i
      invariant forall k :: 0 <= k < i ==> r[k] == ApplyBin(op, a[k], b[k])
    {
      r := r + [ApplyBin(op, a[i], b[i])];
      i := i + 1;
    }
  }

  /** The loop of a scalar operator: copy the list (`data[:]`), then overwrite
      `result[i] op= value` in place. */
  method ScalarLoop(op: BinOp, s: seq<int>, value: int) returns (r: seq<int>)
    ensures r == MapScalar(op, s, value)
  {
    r := s;
    var i := 0;
    while i < |r|
      invariant 0 <= i <= |r| == |s|
      invariant forall k :: 0 <= k < i ==> r[k] == ApplyBin(op, s[k], value)
      invariant forall k :: i <= k < |r| ==> r[k] == s[k]
    {
      r := r[i := ApplyBin(op, r[i], value)];
      i := i + 1;
    }
  }

  /** The loop of `Vector.__eq__`: stop at the first pair that differs. */
  method AllEqual(a: seq<int>, b: seq<int>) returns (eq: bool)
    requires |a| == |b|
    ensures eq <==> forall i :: 0 <= i < |a| ==> a[i] == b[i]
    ensures eq <==> a == b
  {
    var i := 0;
    while i < |a|
      invariant 0 <= i <= |a|
      invariant forall k :: 0 <= k < i ==> a[k] == b[k]
    {
      if a[i] != b[i] {
        return false;
      }
      i := i + 1;
    }
    return true;
  }

  /** The loop of batch `Vector.__getitem__`: each key resolved like a single
      key, in request order; the first key out of range raises. */
  method Select(s: seq<int>, keys: seq<int>) returns (r: Result<seq<int>>)
    ensures r.Ok? <==> forall t :: 0 <= t < |keys| ==> Subscript(s, keys[t]).Ok?
    ensures r.Ok? ==> |r.value| == |keys|
    ensures r.Ok? ==> forall t :: 0 <= t < |keys| ==> Subscript(s, keys[t]) == Ok(r.value[t])
    ensures r.Err? ==> r.error == IndexOutOfBounds
  {
    var out := [];
    for t := 0 to |keys|
      invariant |out| == t
      invariant forall u :: 0 <= u < t ==> Subscript(s, keys[u]) == Ok(out[u])
    {
      var k := keys[t];
      var e := if k >= 0 then k else |s| + k;
      match At(s, e)
      case None =>
        return Err(IndexOutOfBounds);
      case Some(x) =>
        out := out + [x];
    }
    return Ok(out);
  }

  /** The nested loops of a Matrix unary operator, filling a preallocated
      buffer cell by cell: `result[i][j] = op(data[i][j])`. */
  method FillMap(op: UnOp, m: seq<seq<int>>, cols: int) returns (g: seq<seq<int>>)
    requires Rect(m, cols)
    ensures g == MatMap(op, m)
  {
    g := Buffer(|m|, cols);
    var i := 0;
    while i < |m|
      invariant 0 <= i <= |m| == |g|
      invariant forall k :: 0 <= k < i ==> g[k] == MapUn(op, m[k])
      invariant forall k :: i <= k < |m| ==> g[k] == Zeros(cols)
    {
      var j := 0;
      while j < cols
        invariant |g| == |m|
        invariant 0 <= j <= cols == |g[i]|
        invariant forall k :: 0 <= k < i ==> g[k] == MapUn(op, m[k])
        invariant forall k :: i < k < |m| ==> g[k] == Zeros(cols)
        invariant forall l :: 0 <= l < j ==> g[i][l] == ApplyUn(op, m[i][l])
      {
        g := g[i := g[i][j := ApplyUn(op, m[i][j])]];
        j := j + 1;
      }
      i := i + 1;
    }
  }

  /** The nested loops of a Matrix element-wise operator:
      `result[i][j] = a[i][j] op b[i][j]`. */
  method FillZip(op: BinOp, a: seq<seq<int>>, b: seq<seq<int>>, cols: int) returns (g: seq<seq<int>>)
    requires Rect(a, cols) && Rect(b, cols) && |a| == |b|
    ensures SameShape(a, b) && g == MatZip(op, a, b)
  {
    g := Buffer(|a|, cols);
    var i := 0;
    while i < |a|
      invariant 0 <= i <= |a| == |g|
      invariant forall k :: 0 <= k < i ==> g[k] == ZipBin(op, a[k], b[k])
      invariant forall k :: i <= k < |a| ==> g[k] == Zeros(cols)
    {
      var j := 0;
      while j < cols
        invariant |g| == |a|
        invariant 0 <= j <= cols == |g[i]|
        invariant forall k :: 0 <= k < i ==> g[k] == ZipBin(op, a[k], b[k])
        invariant forall k :: i < k < |a| ==> g[k] == Zeros(cols)
        invariant forall l :: 0 <= l < j ==> g[i][l] == ApplyBin(op, a[i][l], b[i][l])
      {
        g := g[i := g[i][j := ApplyBin(op, a[i][j], b[i][j])]];
        j := j + 1;
      }
      i := i + 1;
    }
  }

  /** The nested loops of `mul_matrix`: cell (i, j) is the dot product of row
      i of a and column j of b (`zip(*b)[j]`). */
  method FillProduct(a: seq<seq<int>>, b: seq<seq<int>>, cols: int) returns (g: seq<seq<int>>)
    requires Rect(a, |b|) && Rect(b, cols)
    ensures Rect(b, Count(cols)) && g == MatMul(a, b, Count(cols))
  {
    var n := Count(cols);
    assert Rect(b, n);
    g := Buffer(|a|, cols);
    var i := 0;
    while i < |a|
      invariant 0 <= i <= |a| == |g|
      invariant forall k :: 0 <= k < i ==> g[k] == MatMul(a, b, n)[k]
      invariant forall k :: i <= k < |a| ==> g[k] == Zeros(cols)
    {
      var j := 0;
      while j < n
        invariant |g| == |a|
        invariant 0 <= j <= n == |g[i]|
        invariant forall k :: 0 <= k < i ==> g[k] == MatMul(a, b, n)[k]
        invariant forall k :: i < k < |a| ==> g[k] == Zeros(cols)
        invariant forall l :: 0 <= l < j ==> g[i][l] == Dot(a[i], Column(b, l))
      {
        g := g[i := g[i][j := Dot(a[i], Column(b, j))]];
        j := j + 1;
      }
      i := i + 1;
    }
  }

  /** The nested loops of `Matrix.__eq__` on operands of one shape: stop at the
      first cell that differs. */
  method GridEqual(a: seq<seq<int>>, b: seq<seq<int>>, cols: int) returns (eq: bool)
    requires Rect(a, cols) && Rect(b, cols) && |a| == |b|
    ensures eq <==> forall i, j :: 0 <= i < |a| && 0 <= j < cols ==> a[i][j] == b[i][j]
    ensures eq <==> a == b
  {
    var i := 0;
    while i < |a|
      invariant 0 <= i <= |a|
      invariant forall k :: 0 <= k < i ==> a[k] == b[k]
    {
      assert |a[i]| == cols;
      var j := 0;
      while j < cols
        invariant 0 <= j <= cols
        invariant forall l :: 0 <= l < j ==> a[i][l] == b[i][l]
      {
        if a[i][j] != b[i][j] {
          return false;
        }
        j := j + 1;
      }
      assert a[i] == b[i];
      i := i + 1;
    }
    return true;
  }

  /** The loop of `get_col`: `data[row][idx]` for every row, in row order. With
      no rows the result is empty whatever the index. */
  method ColumnLoop(m: seq<seq<int>>, cols: int, idx: int) returns (r: Result<seq<int>>)
    requires Rect(m, cols)
    ensures r.Ok? <==> |m| == 0 || (-cols <= idx < cols)
    ensures r.Err? ==> r.error == IndexOutOfBounds
    ensures r.Ok? ==> |r.value| == |m|
    ensures r.Ok? ==> forall i :: 0 <= i < |m| ==> At(m[i], idx) == Some(r.value[i])
    ensures r.Ok? && 0 <= idx ==> r.value == Column(m, idx)
    ensures r.Ok? && idx < 0 && |m| > 0 ==> r.value == Column(m, cols + idx)
  {
    var col := [];
    for i := 0 to |m|
      invariant |col| == i
      invariant forall k :: 0 <= k < i ==> At(m[k], idx) == Some(col[k])
    {
      match At(m[i], idx)
      case None =>
        return Err(IndexOutOfBounds);
      case Some(x) =>
        col := col + [x];
    }
    if |m| > 0 {
      AtReaches(m[0], idx);
    }
    return Ok(col);
  }
}
