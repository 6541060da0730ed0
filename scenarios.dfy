/** The cases of the container tests, stated as client code of the classes
    whose results are proved.
    The tests' decimal values are scaled by ten to integers where they are not
    whole (1.2 becomes 12); division is not modelled. */
module Scenarios {
  import opened Numeric
  import Mathsci
  import Souffle

  /** Subscripts of y = [4, 5, 6]: `y[1]`, `y[-1]`, and `y[-4]`, which the
      double shift sends to the last element instead of raising. */
  method VectorSubscripts() returns (second: Result<Item>, last: Result<Item>, wrapped: Result<Item>, beyond: Result<Item>)
    ensures second == Ok(Element(5)) && last == Ok(Element(6))
    ensures wrapped == Ok(Element(6)) && beyond == Err(IndexOutOfBounds)
  {
    var y := new Mathsci.Vector([4, 5, 6]);
    second := y.GetItem(Index(1));
    last := y.GetItem(Index(-1));
    wrapped := y.GetItem(Index(-4));
    beyond := y.GetItem(Index(-7));
  }

  /** Element-wise operators on x = [1, 2, 3], y = [4, 5, 6], z = [3, 2, 1]. */
  method VectorOperators() returns (lt: seq<int>, gt: seq<int>, le: seq<int>, ge: seq<int>, sum: seq<int>, diff: seq<int>, prod: seq<int>, dot: int)
    ensures lt == [1, 0, 0] && gt == [0, 0, 1] && le == [1, 1, 0] && ge == [0, 1, 1]
    ensures sum == [5, 7, 9] && diff == [-3, -3, -3] && prod == [4, 10, 18]
    ensures dot == 32
  {
    var x := new Mathsci.Vector([1, 2, 3]);
    var y := new Mathsci.Vector([4, 5, 6]);
    var z := new Mathsci.Vector([3, 2, 1]);
    var r := x.Lt(z);
    lt := r.value.data;
    r := x.Gt(z);
    gt := r.value.data;
    r := x.Le(z);
    le := r.value.data;
    r := x.Ge(z);
    ge := r.value.data;
    r := x.Add(y);
    sum := r.value.data;
    r := x.Sub(y);
    diff := r.value.data;
    r := x.Mul(y);
    prod := r.value.data;
    var d := x.DotProduct(y);
    dot := d.value;
  }

  /** Unary and scalar operators on w = [-12, 34, -56] and x = [1, 2, 3]. */
  method VectorUnaryAndScalar() returns (pos: seq<int>, neg: seq<int>, abs: seq<int>, plus4: seq<int>, minus4: seq<int>, times4: seq<int>)
    ensures pos == [-12, 34, -56] && neg == [12, -34, 56] && abs == [12, 34, 56]
    ensures plus4 == [5, 6, 7] && minus4 == [-3, -2, -1] && times4 == [4, 8, 12]
  {
    var w := new Mathsci.Vector([-12, 34, -56]);
    var x := new Mathsci.Vector([1, 2, 3]);
    var v := w.Pos();
    pos := v.data;
    v := w.Neg();
    neg := v.data;
    v := w.Abs();
    abs := v.data;
    v := x.AddScalar(4);
    plus4 := v.data;
    v := x.SubScalar(4);
    minus4 := v.data;
    v := x.MulScalar(4);
    times4 := v.data;
  }

  /** The tests' mutation sequence: append, prepend, insert, remove. */
  method VectorMutators() returns (x: seq<int>, y: seq<int>)
    ensures x == [1, 2, 5, 3, 4] && y == [7, 5, 6]
  {
    var vx := new Mathsci.Vector([1, 2, 3]);
    var vy := new Mathsci.Vector([4, 5, 6]);
    vx.Append(4);
    vy.Prepend(7);
    vx.Insert(2, 5);
    var o := vy.Remove(1);
    x, y := vx.data, vy.data;
  }

  const X: seq<seq<int>> := [[1, 2, 3], [4, 5, 6], [7, 8, 9]]
  const Y: seq<seq<int>> := [[1, 3, 2], [4, 3, 5], [4, 6, 5]]

  /** The nine cells of the tests' product X Y, one dot product each. */
  lemma ProductCells()
    ensures Column(Y, 0) == [1, 4, 4] && Column(Y, 1) == [3, 3, 6] && Column(Y, 2) == [2, 5, 5]
    ensures Dot(X[0], [1, 4, 4]) == 21 && Dot(X[0], [3, 3, 6]) == 27 && Dot(X[0], [2, 5, 5]) == 27
    ensures Dot(X[1], [1, 4, 4]) == 48 && Dot(X[1], [3, 3, 6]) == 63 && Dot(X[1], [2, 5, 5]) == 63
    ensures Dot(X[2], [1, 4, 4]) == 75 && Dot(X[2], [3, 3, 6]) == 99 && Dot(X[2], [2, 5, 5]) == 99
  {
  }

  /** Element-wise sum of the tests' 3 x 3 matrices. */
  method MatrixSum() returns (sum: seq<seq<int>>)
    ensures sum == [[2, 5, 5], [8, 8, 11], [11, 14, 14]]
  {
    var x := new Mathsci.Matrix.Init(X);
    var y := new Mathsci.Matrix.Init(Y);
    var s := x.Add(y);
    sum := s.value.data;
    assert sum[0] == [2, 5, 5] && sum[1] == [8, 8, 11] && sum[2] == [11, 14, 14];
  }

  /** Element-wise difference of the tests' 3 x 3 matrices. */
  method MatrixDifference() returns (diff: seq<seq<int>>)
    ensures diff == [[0, -1, 1], [0, 2, 1], [3, 2, 4]]
  {
    var x := new Mathsci.Matrix.Init(X);
    var y := new Mathsci.Matrix.Init(Y);
    var s := x.Sub(y);
    diff := s.value.data;
    assert diff[0] == [0, -1, 1] && diff[1] == [0, 2, 1] && diff[2] == [3, 2, 4];
  }

  /** Element-wise product of the tests' 3 x 3 matrices. */
  method MatrixElementProduct() returns (prod: seq<seq<int>>)
    ensures prod == [[1, 6, 6], [16, 15, 30], [28, 48, 45]]
  {
    var x := new Mathsci.Matrix.Init(X);
    var y := new Mathsci.Matrix.Init(Y);
    var s := x.Mul(y);
    prod := s.value.data;
    assert prod[0] == [1, 6, 6] && prod[1] == [16, 15, 30] && prod[2] == [28, 48, 45];
  }

  /** The product of the tests' 3 x 3 matrices. */
  method MatrixProduct() returns (product: seq<seq<int>>)
    ensures product == [[21, 27, 27], [48, 63, 63], [75, 99, 99]]
  {
    var x := new Mathsci.Matrix.Init(X);
    var y := new Mathsci.Matrix.Init(Y);
    var p := x.MulMatrix(y);
    product := p.value.data;
    ProductCells();
    assert product[0] == [21, 27, 27] && product[1] == [48, 63, 63] && product[2] == [75, 99, 99];
  }

  /** The tests' matrix mutations: a fourth row, then a fourth column. */
  method MatrixMutators() returns (x: seq<seq<int>>, y: seq<seq<int>>)
    ensures x == [[1, 2, 3], [4, 5, 6], [7, 8, 9], [12, 34, 56]]
    ensures y == [[1, 3, 2, 98], [4, 3, 5, 76], [4, 6, 5, 54]]
  {
    var mx := new Mathsci.Matrix.Init(X);
    var my := new Mathsci.Matrix.Init(Y);
    var o := mx.AppendRow([12, 34, 56]);
    o := my.AppendCol([98, 76, 54]);
    x, y := mx.data, my.data;
    assert y[0] == [1, 3, 2, 98] && y[1] == [4, 3, 5, 76] && y[2] == [4, 6, 5, 54];
  }

  /** Operator results are new containers: growing `+v` or `m + m` leaves the
      operand as it was. */
  method ResultsAreNew() returns (v: seq<int>, grownV: seq<int>, m: seq<seq<int>>, grownM: seq<seq<int>>)
    ensures v == [1, 2, 3] && grownV == [1, 2, 3, 4]
    ensures m == [[1, 2]] && grownM == [[2, 4], [5, 6]]
  {
    var x := new Mathsci.Vector([1, 2, 3]);
    var p := x.Pos();
    p.Append(4);
    v, grownV := x.data, p.data;
    var a := new Mathsci.Matrix.Init([[1, 2]]);
    var r := a.Add(a);
    var s := r.value;
    var o := s.AppendRow([5, 6]);
    assert s.data[0] == [2, 4];
    m, grownM := a.data, s.data;
  }

  /** The shapes the corrected operations handle where the code as written
      does not: emptying a one-row matrix and appending a wider row, and
      comparing matrices that differ in one dimension only. */
  method CorrectedShapes() returns (width: int, eq: Result<bool>)
    ensures width == 3
    ensures eq == Err(DimensionMismatch)
  {
    var m := new Mathsci.Matrix.Init([[1, 2]]);
    var o := m.RemoveRow(0);
    o := m.AppendRow([1, 2, 3]);
    width := m.nCols;
    var r := Mathsci.Matrix.FromRows([[1, 2]]);
    var a := r.value;
    r := Mathsci.Matrix.FromRows([[1, 2], [3, 4]]);
    var b := r.value;
    eq := a.Equals(b);
  }

  /** The checking constructor of the Souffle Matrix. */
  method SouffleConstruction() returns (empty: bool, ragged: bool, square: bool)
    ensures empty && ragged && square
  {
    var r := Souffle.Matrix.FromRows([]);
    empty := r == Err(InvalidInput);
    assert !Uniform([[1, 2], [3]]) by {
      assert |[[1, 2], [3]][1]| != |[[1, 2], [3]][0]|;
    }
    r := Souffle.Matrix.FromRows([[1, 2], [3]]);
    ragged := r == Err(InvalidShape);
    r := Souffle.Matrix.FromRows([[1, 2], [3, 4]]);
    square := r.Ok? && r.value.nCols == 2;
  }
}
