/** Shared vocabulary of the Vector and Matrix containers: failure kinds, the
    element operators, Python's list subscript, slice and insert rules, and the
    specification functions that the containers' operations are proved against.
    Elements are mathematical integers; a comparison yields 1 or 0, as Python's
    True and False are the integers 1 and 0. */
module Numeric {

  /** The failures the containers report. */
  datatype Error =
    | DimensionMismatch  // ValueError(ERR_OP_BAD_DIMS): operands of unequal length or shape
    | InvalidShape       // ValueError(ERR_INPUT_BAD_DIMS) or unequal row lengths
    | InvalidKey         // ValueError(ERR_KEY_NOT_INT_LIST_TUPLE)
    | InvalidInput       // ValueError(ERR_INPUT_INVALID)
    | IndexOutOfBounds   // Python's IndexError

  datatype Result<T> = Ok(value: T) | Err(error: Error)

  /** The outcome of an operation that changes its receiver and returns nothing. */
  datatype Outcome = Pass | Fail(error: Error)

  datatype Option<T> = None | Some(value: T)

  /** A key given to `Vector.__getitem__`: an int, a list or tuple of ints, or anything else. */
  datatype Key = Index(k: int) | Indices(ks: seq<int>) | OtherKey

  /** What `Vector.__getitem__` returns: one element, or a list of elements. */
  datatype Item = Element(x: int) | Elements(xs: seq<int>)

  /** Unary element operators: `+x`, `-x`, `abs(x)`. */
  datatype UnOp = Plus | Minus | Magnitude

  /** Binary element operators: arithmetic and the four ordering comparisons. */
  datatype BinOp = Add | Sub | Mul | Lt | Gt | Le | Ge

  function ApplyUn(op: UnOp, x: int): int {
    match op
    case Plus => x
    case Minus => -x
    case Magnitude => if x < 0 then -x else x
  }

  function ApplyBin(op: BinOp, x: int, y: int): int {
    match op
    case Add => x + y
    case Sub => x - y
    case Mul => x * y
    case Lt => if x < y then 1 else 0
    case Gt => if x > y then 1 else 0
    case Le => if x <= y then 1 else 0
    case Ge => if x >= y then 1 else 0
  }

  // ---------------------------------------------------------------------------
  // Python list positions

  /** The number of values `range(n)` yields. */
  function Count(n: int): nat {
    if n < 0 then 0 else n
  }

  /** The position Python's subscript `s[i]` reaches in a list of length n
      (a negative i counts from the end), or None where it raises IndexError. */
  function PyPos(n: nat, i: int): Option<nat> {
    if 0 <= i < n then Some(i)
    else if i < 0 && 0 <= n + i then Some(n + i)
    else None
  }

  /** Python's subscript `s[i]` on a list. */
  function At<T>(s: seq<T>, i: int): Option<T> {
    match PyPos(|s|, i)
    case None => None
    case Some(p) => Some(s[p])
  }

  /** The position a bound i stands for in a list of length n, clamped into
      [0, n]: both `list.insert(i, x)` and the bounds of a slice `s[i:j]`
      read their index this way. */
  function Clip(n: nat, i: int): (c: nat)
    ensures c <= n
    ensures 0 <= i <= n ==> c == i
    ensures i < 0 && 0 <= n + i ==> c == n + i
    ensures n + i < 0 ==> c == 0
    ensures i > n ==> c == n
  {
    if i < 0 then (if n + i < 0 then 0 else n + i)
    else if i > n then n
    else i
  }

  /** Single-key `Vector.__getitem__`: a negative key is shifted by the cached
      length and the result is subscripted the Python way, which shifts a still
      negative position once more. */
  function Subscript(s: seq<int>, key: int): (r: Result<int>)
    ensures 0 <= key < |s| ==> r == Ok(s[key])
    ensures -|s| <= key < 0 ==> r == Ok(s[|s| + key])
    ensures -2 * |s| <= key < -|s| ==> r == Ok(s[2 * |s| + key])
    ensures key >= |s| || key < -2 * |s| ==> r == Err(IndexOutOfBounds)
  {
    var e := if key >= 0 then key else |s| + key;
    match At(s, e)
    case Some(x) => Ok(x)
    case None => Err(IndexOutOfBounds)
  }

  /** `s[start:end]`. */
  function Slice(s: seq<int>, start: int, end: int): (r: seq<int>)
    ensures 0 <= start <= end <= |s| ==> r == s[start..end]
    ensures |r| <= |s|
    ensures Clip(|s|, start) < Clip(|s|, end) ==> |r| == Clip(|s|, end) - Clip(|s|, start)
    ensures Clip(|s|, end) <= Clip(|s|, start) ==> r == []
  {
    var lo, hi := Clip(|s|, start), Clip(|s|, end);
    if lo < hi then s[lo..hi] else []
  }

  function InsertAt(s: seq<int>, p: nat, x: int): seq<int>
    requires p <= |s|
  {
    s[..p] + [x] + s[p..]
  }

  function RemoveAt<T>(s: seq<T>, p: nat): seq<T>
    requires p < |s|
  {
    s[..p] + s[p + 1..]
  }

  // ---------------------------------------------------------------------------
  // Element-wise specification of Vector contents

  function MapUn(op: UnOp, s: seq<int>): seq<int> {
    seq(|s|, i requires 0 <= i < |s| => ApplyUn(op, s[i]))
  }

  function ZipBin(op: BinOp, a: seq<int>, b: seq<int>): seq<int>
    requires |a| == |b|
  {
    seq(|a|, i requires 0 <= i < |a| => ApplyBin(op, a[i], b[i]))
  }

  function MapScalar(op: BinOp, s: seq<int>, c: int): seq<int> {
    seq(|s|, i requires 0 <= i < |s| => ApplyBin(op, s[i], c))
  }

  /** Sum of pairwise products: what the linear-algebra collaborator
      `dot_product` computes. */
  function Dot(a: seq<int>, b: seq<int>): int
    requires |a| == |b|
    decreases |a|
  {
    if |a| == 0 then 0 else a[0] * b[0] + Dot(a[1..], b[1..])
  }

  // ---------------------------------------------------------------------------
  // Matrix contents

  /** Every row has exactly `cols` entries. */
  ghost predicate Rect(m: seq<seq<int>>, cols: int) {
    forall i :: 0 <= i < |m| ==> |m[i]| == cols
  }

  /** Every row is as long as the first. */
  predicate Uniform(m: seq<seq<int>>) {
    forall i :: 0 <= i < |m| ==> |m[i]| == |m[0]|
  }

  ghost predicate SameShape(a: seq<seq<int>>, b: seq<seq<int>>) {
    |a| == |b| && forall i :: 0 <= i < |a| ==> |a[i]| == |b[i]|
  }

  /** `[0.0 for i in range(c)]`, with integer zeros. */
  function Zeros(c: int): seq<int> {
    seq(Count(c), _ => 0)
  }

  /** A result buffer of `rows` rows of `cols` zeros. */
  function Buffer(rows: int, cols: int): seq<seq<int>> {
    seq(Count(rows), _ => Zeros(cols))
  }

  /** The buffer holds every cell (i, j) with i < rows and j < cols. */
  ghost predicate CellsFit(buf: seq<seq<int>>, rows: int, cols: int) {
    rows <= 0 || cols <= 0 || (rows <= |buf| && forall i :: 0 <= i < rows ==> cols <= |buf[i]|)
  }

  function MatMap(op: UnOp, m: seq<seq<int>>): seq<seq<int>> {
    seq(|m|, i requires 0 <= i < |m| => MapUn(op, m[i]))
  }

  function MatZip(op: BinOp, a: seq<seq<int>>, b: seq<seq<int>>): seq<seq<int>>
    requires SameShape(a, b)
  {
    seq(|a|, i requires 0 <= i < |a| => ZipBin(op, a[i], b[i]))
  }

  /** Column j, read across all rows. */
  function Column(m: seq<seq<int>>, j: nat): seq<int>
    requires forall i :: 0 <= i < |m| ==> j < |m[i]|
  {
    seq(|m|, i requires 0 <= i < |m| => m[i][j])
  }

  /** The matrix product of a (rows of length |b|) and b (rows of length cols). */
  function MatMul(a: seq<seq<int>>, b: seq<seq<int>>, cols: nat): seq<seq<int>>
    requires Rect(a, |b|) && Rect(b, cols)
  {
    seq(|a|, i requires 0 <= i < |a| => seq(cols, j requires 0 <= j < cols => Dot(a[i], Column(b, j))))
  }

  /** Row i extended by c[i]. */
  function AppendColumn(m: seq<seq<int>>, c: seq<int>): seq<seq<int>>
    requires |m| <= |c|
  {
    seq(|m|, i requires 0 <= i < |m| => m[i] + [c[i]])
  }

  /** Position p deleted from every row. */
  function DropColumn(m: seq<seq<int>>, p: nat): seq<seq<int>>
    requires forall i :: 0 <= i < |m| ==> p < |m[i]|
  {
    seq(|m|, i requires 0 <= i < |m| => RemoveAt(m[i], p))
  }

  // ---------------------------------------------------------------------------
  // Properties of the element-wise operators

  lemma AddCommutes(a: seq<int>, b: seq<int>)
    requires |a| == |b|
    ensures ZipBin(Add, a, b) == ZipBin(Add, b, a)
  {
  }

  /** `(a + b) - b == a`. */
  lemma SubUndoesAdd(a: seq<int>, b: seq<int>)
    requires |a| == |b|
    ensures ZipBin(Sub, ZipBin(Add, a, b), b) == a
  {
  }

  /** `-(-a) == a`. */
  lemma NegInvolutive(a: seq<int>)
    ensures MapUn(Minus, MapUn(Minus, a)) == a
  {
  }

  /** `abs(-a) == abs(a)`. */
  lemma AbsIgnoresSign(a: seq<int>)
    ensures MapUn(Magnitude, MapUn(Minus, a)) == MapUn(Magnitude, a)
  {
  }

  /** `+a == a` and `abs(abs(a)) == abs(a)`, every entry of `abs(a)` non-negative. */
  lemma PlusAndAbs(a: seq<int>)
    ensures MapUn(Plus, a) == a
    ensures MapUn(Magnitude, MapUn(Magnitude, a)) == MapUn(Magnitude, a)
    ensures forall i :: 0 <= i < |a| ==> MapUn(Magnitude, a)[i] >= 0
  {
  }

  /** Comparisons yield 0/1 vectors; `a < b` is `b > a`, `a <= b` is `b >= a`,
      and `a <= b` is the complement of `a > b`. */
  lemma ComparisonDuality(a: seq<int>, b: seq<int>)
    requires |a| == |b|
    ensures ZipBin(Lt, a, b) == ZipBin(Gt, b, a)
    ensures ZipBin(Le, a, b) == ZipBin(Ge, b, a)
    ensures forall i :: 0 <= i < |a| ==> ZipBin(Le, a, b)[i] == 1 - ZipBin(Gt, a, b)[i]
    ensures forall i :: 0 <= i < |a| ==> ZipBin(Lt, a, b)[i] in {0, 1}
  {
  }

  /** `v.add_scalar(c).sub_scalar(c) == v`. */
  lemma SubScalarUndoesAddScalar(s: seq<int>, c: int)
    ensures MapScalar(Sub, MapScalar(Add, s, c), c) == s
  {
  }

  lemma {:induction false} DotSymmetric(a: seq<int>, b: seq<int>)
    requires |a| == |b|
    ensures Dot(a, b) == Dot(b, a)
  {
    if |a| > 0 {
      DotSymmetric(a[1..], b[1..]);
    }
  }

  /** The dot product distributes over element-wise addition. */
  lemma {:induction false} DotDistributes(a: seq<int>, b: seq<int>, c: seq<int>)
    requires |a| == |b| == |c|
    ensures Dot(a, ZipBin(Add, b, c)) == Dot(a, b) + Dot(a, c)
  {
    if |a| > 0 {
      var bc := ZipBin(Add, b, c);
      assert bc[1..] == ZipBin(Add, b[1..], c[1..]);
      DotDistributes(a[1..], b[1..], c[1..]);
      assert a[0] * bc[0] == a[0] * b[0] + a[0] * c[0];
    }
  }

  /** Scaling one operand scales the dot product. */
  lemma {:induction false} DotScales(a: seq<int>, b: seq<int>, c: int)
    requires |a| == |b|
    ensures Dot(MapScalar(Mul, a, c), b) == c * Dot(a, b)
  {
    if |a| > 0 {
      var ac := MapScalar(Mul, a, c);
      assert ac[1..] == MapScalar(Mul, a[1..], c);
      DotScales(a[1..], b[1..], c);
      calc {
        Dot(ac, b);
        ac[0] * b[0] + Dot(ac[1..], b[1..]);
        (a[0] * c) * b[0] + c * Dot(a[1..], b[1..]);
        { assert (a[0] * c) * b[0] == c * (a[0] * b[0]); }
        c * (a[0] * b[0]) + c * Dot(a[1..], b[1..]);
        c * (a[0] * b[0] + Dot(a[1..], b[1..]));
      }
    }
  }

  // ---------------------------------------------------------------------------
  // Properties of positions, insertion, removal and slicing

  /** The Python subscript reaches exactly the indices -n <= i < n. */
  lemma AtReaches<T>(s: seq<T>, i: int)
    ensures At(s, i).Some? <==> -|s| <= i < |s|
    ensures 0 <= i < |s| ==> At(s, i) == Some(s[i])
    ensures -|s| <= i < 0 ==> At(s, i) == Some(s[|s| + i])
  {
  }

  /** `v[-1] == v[n - 1]`. */
  lemma SubscriptLast(s: seq<int>)
    requires |s| > 0
    ensures Subscript(s, -1) == Subscript(s, |s| - 1) == Ok(s[|s| - 1])
  {
  }

  /** Inserting puts x at p and shifts the suffix one place right. */
  lemma InsertAtPlaces(s: seq<int>, p: nat, x: int)
    requires p <= |s|
    ensures |InsertAt(s, p, x)| == |s| + 1
    ensures InsertAt(s, p, x)[p] == x
    ensures forall k :: 0 <= k < p ==> InsertAt(s, p, x)[k] == s[k]
    ensures forall k :: p < k <= |s| ==> InsertAt(s, p, x)[k] == s[k - 1]
  {
  }

  /** Removing position p shifts the suffix one place left. */
  lemma RemoveAtShifts<T>(s: seq<T>, p: nat)
    requires p < |s|
    ensures |RemoveAt(s, p)| == |s| - 1
    ensures forall k :: 0 <= k < p ==> RemoveAt(s, p)[k] == s[k]
    ensures forall k :: p <= k < |s| - 1 ==> RemoveAt(s, p)[k] == s[k + 1]
  {
  }

  /** Removing what was just inserted restores the list. */
  lemma RemoveAtUndoesInsertAt(s: seq<int>, p: nat, x: int)
    requires p <= |s|
    ensures RemoveAt(InsertAt(s, p, x), p) == s
  {
  }

  /** `s[:k] + s[k:] == s` for every int k, negative and out-of-range included. */
  lemma SliceSplit(s: seq<int>, k: int)
    ensures Slice(s, 0, k) + Slice(s, k, |s|) == s
  {
  }

  /** `s[-m:]` is the last m elements. */
  lemma SliceSuffix(s: seq<int>, m: nat)
    requires 0 < m <= |s|
    ensures Slice(s, -(m as int), |s|) == s[|s| - m..]
  {
  }

  // ---------------------------------------------------------------------------
  // Properties of the matrix operations

  /** The product has shape (|a|, cols) and cell (i, j) is row i of a dotted
      with column j of b. */
  lemma MatMulShape(a: seq<seq<int>>, b: seq<seq<int>>, cols: nat)
    requires Rect(a, |b|) && Rect(b, cols)
    ensures |MatMul(a, b, cols)| == |a| && Rect(MatMul(a, b, cols), cols)
    ensures forall i, j :: 0 <= i < |a| && 0 <= j < cols ==>
      MatMul(a, b, cols)[i][j] == Dot(a[i], Column(b, j))
  {
  }

  /** `A.mul_matrix(B + C) == A.mul_matrix(B) + A.mul_matrix(C)`. */
  lemma MatMulDistributes(a: seq<seq<int>>, b: seq<seq<int>>, c: seq<seq<int>>, cols: nat)
    requires Rect(a, |b|) && Rect(b, cols) && Rect(c, cols) && |b| == |c|
    ensures SameShape(b, c) && Rect(MatZip(Add, b, c), cols)
    ensures SameShape(MatMul(a, b, cols), MatMul(a, c, cols))
    ensures MatMul(a, MatZip(Add, b, c), cols) == MatZip(Add, MatMul(a, b, cols), MatMul(a, c, cols))
  {
    var bc := MatZip(Add, b, c);
    var lhs, pb, pc := MatMul(a, bc, cols), MatMul(a, b, cols), MatMul(a, c, cols);
    forall i | 0 <= i < |a|
      ensures lhs[i] == ZipBin(Add, pb[i], pc[i])
    {
      forall j | 0 <= j < cols
        ensures lhs[i][j] == pb[i][j] + pc[i][j]
      {
        assert Column(bc, j) == ZipBin(Add, Column(b, j), Column(c, j));
        DotDistributes(a[i], Column(b, j), Column(c, j));
      }
    }
  }

  /** Matrix element-wise `(A + B) - B == A`. */
  lemma MatSubUndoesAdd(a: seq<seq<int>>, b: seq<seq<int>>)
    requires SameShape(a, b)
    ensures SameShape(MatZip(Add, a, b), b)
    ensures MatZip(Sub, MatZip(Add, a, b), b) == a
  {
    forall i | 0 <= i < |a|
      ensures MatZip(Sub, MatZip(Add, a, b), b)[i] == a[i]
    {
      SubUndoesAdd(a[i], b[i]);
    }
  }

  /** Appending a column widens every row by one, and the new last column is c. */
  lemma AppendColumnShape(m: seq<seq<int>>, c: seq<int>, cols: nat)
    requires Rect(m, cols) && |m| <= |c|
    ensures |AppendColumn(m, c)| == |m| && Rect(AppendColumn(m, c), cols + 1)
    ensures Column(AppendColumn(m, c), cols) == c[..|m|]
    ensures forall j :: 0 <= j < cols ==> Column(AppendColumn(m, c), j) == Column(m, j)
  {
  }

  /** Dropping position p of every row narrows the matrix by one, keeping the
      other columns in order. */
  lemma DropColumnShape(m: seq<seq<int>>, p: nat, cols: nat)
    requires Rect(m, cols) && p < cols
    ensures |DropColumn(m, p)| == |m| && Rect(DropColumn(m, p), cols - 1)
    ensures forall j :: 0 <= j < p ==> Column(DropColumn(m, p), j) == Column(m, j)
    ensures forall j :: p <= j < cols - 1 ==> Column(DropColumn(m, p), j) == Column(m, j + 1)
  {
  }

  /** Dropping the column just appended restores the matrix. */
  lemma DropUndoesAppendColumn(m: seq<seq<int>>, c: seq<int>, cols: nat)
    requires Rect(m, cols) && |m| <= |c|
    ensures DropColumn(AppendColumn(m, c), cols) == m
  {
    forall i | 0 <= i < |m|
      ensures DropColumn(AppendColumn(m, c), cols)[i] == m[i]
    {
      assert (m[i] + [c[i]])[..cols] == m[i];
    }
  }

  /** Only the transposed shape fails: the corrected buffer holds every cell. */
  lemma BufferFits(rows: nat, cols: nat)
    ensures CellsFit(Buffer(rows, cols), rows, cols)
    ensures |Buffer(rows, cols)| == rows && Rect(Buffer(rows, cols), cols)
  {
  }
}
