/** Dense matrices of reals and the element-wise and matrix operations the
    network takes from its array library. Reals stand for floats: nothing
    here rounds or overflows. */
module Matrices {

  /** A matrix that, like a numpy array, knows its shape even when it has no cells. */
  datatype Mat = Mat(rows: nat, cols: nat, cells: seq<seq<real>>)

  predicate WellShaped(m: Mat)
  {
    |m.cells| == m.rows && forall i :: 0 <= i < m.rows ==> |m.cells[i]| == m.cols
  }

  type Matrix = m: Mat | WellShaped(m) witness Mat(0, 0, [])

  /** The (rows, columns) shape of one matrix. */
  datatype Shape = Shape(rows: nat, cols: nat)

  predicate HasShape(m: Matrix, s: Shape)
  {
    m.rows == s.rows && m.cols == s.cols
  }

  predicate SameShape(a: Matrix, b: Matrix)
  {
    a.rows == b.rows && a.cols == b.cols
  }

  /** Two matrices with the same shape and the same cells are the same matrix. */
  lemma Extensionality(a: Matrix, b: Matrix)
    requires SameShape(a, b)
    requires forall i, j :: 0 <= i < a.rows && 0 <= j < a.cols ==> a.cells[i][j] == b.cells[i][j]
    ensures a == b
  {
    forall i | 0 <= i < a.rows
      ensures a.cells[i] == b.cells[i]
    {
    }
  }

  /** np.zeros(shape) */
  function Zeros(s: Shape): (r: Matrix)
    ensures HasShape(r, s)
    ensures forall i, j {:trigger r.cells[i][j]} :: 0 <= i < r.rows && 0 <= j < r.cols ==> r.cells[i][j] == 0.0
  {
    Mat(s.rows, s.cols, seq(s.rows, _ => seq(s.cols, _ => 0.0)))
  }

  /** x.reshape((-1, 1)): a vector as a one-column matrix. */
  function ColumnOf(x: seq<real>): (r: Matrix)
    ensures HasShape(r, Shape(|x|, 1))
    ensures forall i :: 0 <= i < |x| ==> r.cells[i][0] == x[i]
  {
    Mat(|x|, 1, seq(|x|, i requires 0 <= i < |x| => [x[i]]))
  }

  /** Column j of m, top to bottom. */
  function Column(m: Matrix, j: nat): (c: seq<real>)
    requires j < m.cols
    ensures |c| == m.rows
    ensures forall i :: 0 <= i < m.rows ==> c[i] == m.cells[i][j]
  {
    seq(m.rows, i requires 0 <= i < m.rows => m.cells[i][j])
  }

  /** An element-wise function applied to every cell. */
  function Apply(f: real -> real, a: Matrix): (r: Matrix)
    ensures SameShape(r, a)
    ensures forall i, j {:trigger r.cells[i][j]} :: 0 <= i < r.rows && 0 <= j < r.cols ==> r.cells[i][j] == f(a.cells[i][j])
  {
    Mat(a.rows, a.cols,
        seq(a.rows, i requires 0 <= i < a.rows =>
          seq(a.cols, j requires 0 <= j < a.cols => f(a.cells[i][j]))))
  }

  /** An element-wise binary operation on two matrices of one shape. */
  function ZipWith(op: (real, real) -> real, a: Matrix, b: Matrix): (r: Matrix)
    requires SameShape(a, b)
    ensures SameShape(r, a)
    ensures forall i, j {:trigger r.cells[i][j]} :: 0 <= i < r.rows && 0 <= j < r.cols ==>
              r.cells[i][j] == op(a.cells[i][j], b.cells[i][j])
  {
    Mat(a.rows, a.cols,
        seq(a.rows, i requires 0 <= i < a.rows =>
          seq(a.cols, j requires 0 <= j < a.cols => op(a.cells[i][j], b.cells[i][j]))))
  }

  function Add(a: Matrix, b: Matrix): (r: Matrix)
    requires SameShape(a, b)
    ensures SameShape(r, a)
    ensures forall i, j {:trigger r.cells[i][j]} :: 0 <= i < r.rows && 0 <= j < r.cols ==> r.cells[i][j] == a.cells[i][j] + b.cells[i][j]
  {
    ZipWith((x, y) => x + y, a, b)
  }

  function Sub(a: Matrix, b: Matrix): (r: Matrix)
    requires SameShape(a, b)
    ensures SameShape(r, a)
    ensures forall i, j {:trigger r.cells[i][j]} :: 0 <= i < r.rows && 0 <= j < r.cols ==> r.cells[i][j] == a.cells[i][j] - b.cells[i][j]
  {
    ZipWith((x, y) => x - y, a, b)
  }

  /** The element-wise (Hadamard) product, numpy's `*` on two arrays. */
  function Mul(a: Matrix, b: Matrix): (r: Matrix)
    requires SameShape(a, b)
    ensures SameShape(r, a)
    ensures forall i, j {:trigger r.cells[i][j]} :: 0 <= i < r.rows && 0 <= j < r.cols ==> r.cells[i][j] == a.cells[i][j] * b.cells[i][j]
  {
    ZipWith((x, y) => x * y, a, b)
  }

  /** np.square */
  function Square(a: Matrix): (r: Matrix)
    ensures SameShape(r, a)
    ensures forall i, j {:trigger r.cells[i][j]} :: 0 <= i < r.rows && 0 <= j < r.cols ==> 0.0 <= r.cells[i][j] == a.cells[i][j] * a.cells[i][j]
  {
    Apply(x => x * x, a)
  }

  function Transpose(a: Matrix): (r: Matrix)
    ensures r.rows == a.cols && r.cols == a.rows
    ensures forall i, j {:trigger r.cells[i][j]} :: 0 <= i < r.rows && 0 <= j < r.cols ==> r.cells[i][j] == a.cells[j][i]
  {
    Mat(a.cols, a.rows,
        seq(a.cols, i requires 0 <= i < a.cols =>
          seq(a.rows, j requires 0 <= j < a.rows => a.cells[j][i])))
  }

  /** The sum of a sequence, added left to right; positive when every term is. */
  function Sum(s: seq<real>): (t: real)
    ensures (forall i :: 0 <= i < |s| ==> 0.0 <= s[i]) ==> 0.0 <= t
    ensures 0 < |s| && (forall i :: 0 <= i < |s| ==> 0.0 < s[i]) ==> 0.0 < t
  {
    if |s| == 0 then 0.0 else Sum(s[..|s| - 1]) + s[|s| - 1]
  }

  function Dot(u: seq<real>, v: seq<real>): real
    requires |u| == |v|
  {
    if |u| == 0 then 0.0 else Dot(u[..|u| - 1], v[..|v| - 1]) + u[|u| - 1] * v[|v| - 1]
  }

  /** The matrix product a @ b. */
  function MatMul(a: Matrix, b: Matrix): (r: Matrix)
    requires a.cols == b.rows
    ensures r.rows == a.rows && r.cols == b.cols
    ensures forall i, j {:trigger r.cells[i][j]} :: 0 <= i < r.rows && 0 <= j < r.cols ==> r.cells[i][j] == Dot(a.cells[i], Column(b, j))
  {
    Mat(a.rows, b.cols,
        seq(a.rows, i requires 0 <= i < a.rows =>
          seq(b.cols, j requires 0 <= j < b.cols => Dot(a.cells[i], Column(b, j)))))
  }

  // Per-layer lists of matrices, as the network keeps its parameters.

  predicate Fits(xs: seq<Matrix>, shapes: seq<Shape>)
  {
    |xs| == |shapes| && forall l :: 0 <= l < |xs| ==> HasShape(xs[l], shapes[l])
  }

  predicate SameShapes(xs: seq<Matrix>, ys: seq<Matrix>)
  {
    |xs| == |ys| && forall l :: 0 <= l < |xs| ==> SameShape(xs[l], ys[l])
  }

  predicate NonNegative(xs: seq<Matrix>)
  {
    forall l, i, j :: 0 <= l < |xs| && 0 <= i < xs[l].rows && 0 <= j < xs[l].cols ==> 0.0 <= xs[l].cells[i][j]
  }

  /** xs and ys have the same shapes and every cell of xs is at least the
      matching cell of ys. */
  predicate AtLeast(xs: seq<Matrix>, ys: seq<Matrix>)
  {
    SameShapes(xs, ys) &&
    forall l, i, j :: 0 <= l < |xs| && 0 <= i < xs[l].rows && 0 <= j < xs[l].cols ==>
      ys[l].cells[i][j] <= xs[l].cells[i][j]
  }

  /** Lists that fit the same shapes have the same shapes pairwise. */
  lemma FitsAgree(xs: seq<Matrix>, ys: seq<Matrix>, shapes: seq<Shape>)
    requires Fits(xs, shapes) && Fits(ys, shapes)
    ensures SameShapes(xs, ys)
  {
  }

  /** A list shaped like one that fits the shapes fits them too. */
  lemma FitsLike(r: seq<Matrix>, xs: seq<Matrix>, shapes: seq<Shape>)
    requires SameShapes(r, xs) && Fits(xs, shapes)
    ensures Fits(r, shapes)
  {
  }

  /** `[np.zeros(s) for s in shapes]` */
  function ZerosAll(shapes: seq<Shape>): (r: seq<Matrix>)
    ensures Fits(r, shapes)
    ensures forall l :: 0 <= l < |r| ==> r[l] == Zeros(shapes[l])
    ensures NonNegative(r)
  {
    seq(|shapes|, l requires 0 <= l < |shapes| => Zeros(shapes[l]))
  }

  /** `[f(x) for x in xs]` for an element-wise f */
  function ApplyAll(f: real -> real, xs: seq<Matrix>): (r: seq<Matrix>)
    ensures SameShapes(r, xs)
    ensures forall l :: 0 <= l < |r| ==> r[l] == Apply(f, xs[l])
  {
    seq(|xs|, l requires 0 <= l < |xs| => Apply(f, xs[l]))
  }

  /** `[op(x, y) for x, y in zip(xs, ys)]` for an element-wise op */
  function ZipWithAll(op: (real, real) -> real, xs: seq<Matrix>, ys: seq<Matrix>): (r: seq<Matrix>)
    requires SameShapes(xs, ys)
    ensures SameShapes(r, xs)
    ensures forall l :: 0 <= l < |r| ==> r[l] == ZipWith(op, xs[l], ys[l])
  {
    seq(|xs|, l requires 0 <= l < |xs| => ZipWith(op, xs[l], ys[l]))
  }

  /** `[x + y for x, y in zip(xs, ys)]` */
  function AddAll(xs: seq<Matrix>, ys: seq<Matrix>): (r: seq<Matrix>)
    requires SameShapes(xs, ys)
    ensures SameShapes(r, xs)
    ensures forall l :: 0 <= l < |r| ==> r[l] == Add(xs[l], ys[l])
  {
    seq(|xs|, l requires 0 <= l < |xs| => Add(xs[l], ys[l]))
  }

  /** `[x - y for x, y in zip(xs, ys)]` */
  function SubAll(xs: seq<Matrix>, ys: seq<Matrix>): (r: seq<Matrix>)
    requires SameShapes(xs, ys)
    ensures SameShapes(r, xs)
    ensures forall l :: 0 <= l < |r| ==> r[l] == Sub(xs[l], ys[l])
  {
    seq(|xs|, l requires 0 <= l < |xs| => Sub(xs[l], ys[l]))
  }

  /** `[np.square(x) for x in xs]` */
  function SquareAll(xs: seq<Matrix>): (r: seq<Matrix>)
    ensures SameShapes(r, xs)
    ensures forall l :: 0 <= l < |r| ==> r[l] == Square(xs[l])
  {
    seq(|xs|, l requires 0 <= l < |xs| => Square(xs[l]))
  }

  /** Adding squares never lowers a cell. */
  lemma AddSquaresGrows(xs: seq<Matrix>, ys: seq<Matrix>)
    requires SameShapes(xs, ys)
    ensures SameShapes(AddAll(xs, SquareAll(ys)), xs)
    ensures AtLeast(AddAll(xs, SquareAll(ys)), xs)
  {
    var sq := SquareAll(ys);
    var r := AddAll(xs, sq);
    forall l, i, j | 0 <= l < |r| && 0 <= i < r[l].rows && 0 <= j < r[l].cols
      ensures xs[l].cells[i][j] <= r[l].cells[i][j]
    {
      assert r[l].cells[i][j] == xs[l].cells[i][j] + sq[l].cells[i][j];
      assert 0.0 <= sq[l].cells[i][j];
    }
  }

  lemma AtLeastTransitive(xs: seq<Matrix>, ys: seq<Matrix>, zs: seq<Matrix>)
    requires SameShapes(xs, ys) && SameShapes(ys, zs)
    requires AtLeast(xs, ys) && AtLeast(ys, zs)
    ensures SameShapes(xs, zs) && AtLeast(xs, zs)
  {
    forall l, i, j | 0 <= l < |xs| && 0 <= i < xs[l].rows && 0 <= j < xs[l].cols
      ensures zs[l].cells[i][j] <= xs[l].cells[i][j]
    {
      assert zs[l].cells[i][j] <= ys[l].cells[i][j];
    }
  }

  /** AtLeastTransitive for callers that hold the two premises only in some cases. */
  lemma AtLeastChain(xs: seq<Matrix>, ys: seq<Matrix>, zs: seq<Matrix>)
    ensures AtLeast(xs, ys) && AtLeast(ys, zs) ==> AtLeast(xs, zs)
  {
    if AtLeast(xs, ys) && AtLeast(ys, zs) {
      AtLeastTransitive(xs, ys, zs);
    }
  }

  lemma AtLeastNonNegative(xs: seq<Matrix>, ys: seq<Matrix>)
    requires AtLeast(xs, ys) && NonNegative(ys)
    ensures NonNegative(xs)
  {
    forall l, i, j | 0 <= l < |xs| && 0 <= i < xs[l].rows && 0 <= j < xs[l].cols
      ensures 0.0 <= xs[l].cells[i][j]
    {
      assert ys[l].cells[i][j] <= xs[l].cells[i][j];
    }
  }

  /** Two lists with the same shapes and the same cells are the same list. */
  lemma ExtensionalityAll(xs: seq<Matrix>, ys: seq<Matrix>)
    requires SameShapes(xs, ys)
    requires forall l, i, j :: 0 <= l < |xs| && 0 <= i < xs[l].rows && 0 <= j < xs[l].cols ==>
               xs[l].cells[i][j] == ys[l].cells[i][j]
    ensures xs == ys
  {
    forall l | 0 <= l < |xs|
      ensures xs[l] == ys[l]
    {
      Extensionality(xs[l], ys[l]);
    }
  }
}
