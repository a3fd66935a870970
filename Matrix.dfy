/** Two- and three-dimensional real vectors and matrices, written entry by
    entry: the numpy arrays of the estimators are at most 3x3. A vector is a
    column vector, or a row vector where the estimators use one (H). */
module Matrix {

  datatype Vec2 = Vec2(x0: real, x1: real)
  datatype Mat2 = Mat2(a00: real, a01: real, a10: real, a11: real)

  datatype Vec3 = Vec3(x0: real, x1: real, x2: real)
  datatype Mat3 = Mat3(a00: real, a01: real, a02: real,
                       a10: real, a11: real, a12: real,
                       a20: real, a21: real, a22: real)

  // ---------------------------------------------------------------- 2 x 2

  /** `np.eye(2) * d` */
  function Diag2(d: real): Mat2 { Mat2(d, 0.0, 0.0, d) }

  function Identity2(): Mat2 { Diag2(1.0) }

  /** `a @ b` */
  function Mul2(a: Mat2, b: Mat2): Mat2 {
    Mat2(a.a00 * b.a00 + a.a01 * b.a10, a.a00 * b.a01 + a.a01 * b.a11,
         a.a10 * b.a00 + a.a11 * b.a10, a.a10 * b.a01 + a.a11 * b.a11)
  }

  /** `a @ v` for a column vector v */
  function Apply2(a: Mat2, v: Vec2): Vec2 {
    Vec2(a.a00 * v.x0 + a.a01 * v.x1, a.a10 * v.x0 + a.a11 * v.x1)
  }

  /** `h @ a` for a row vector h */
  function RowMul2(h: Vec2, a: Mat2): Vec2 {
    Vec2(h.x0 * a.a00 + h.x1 * a.a10, h.x0 * a.a01 + h.x1 * a.a11)
  }

  function Dot2(u: Vec2, v: Vec2): real { u.x0 * v.x0 + u.x1 * v.x1 }

  /** `k @ h` for a column k and a row h */
  function Outer2(k: Vec2, h: Vec2): Mat2 {
    Mat2(k.x0 * h.x0, k.x0 * h.x1, k.x1 * h.x0, k.x1 * h.x1)
  }

  function Transpose2(a: Mat2): Mat2 { Mat2(a.a00, a.a10, a.a01, a.a11) }

  function Add2(a: Mat2, b: Mat2): Mat2 {
    Mat2(a.a00 + b.a00, a.a01 + b.a01, a.a10 + b.a10, a.a11 + b.a11)
  }

  function Sub2(a: Mat2, b: Mat2): Mat2 {
    Mat2(a.a00 - b.a00, a.a01 - b.a01, a.a10 - b.a10, a.a11 - b.a11)
  }

  function AddVec2(u: Vec2, v: Vec2): Vec2 { Vec2(u.x0 + v.x0, u.x1 + v.x1) }

  function ScaleVec2(v: Vec2, s: real): Vec2 { Vec2(v.x0 * s, v.x1 * s) }

  /** `v / s` */
  function DivVec2(v: Vec2, s: real): Vec2
    requires s != 0.0
  {
    Vec2(v.x0 / s, v.x1 / s)
  }

  predicate Symmetric2(a: Mat2) { a.a01 == a.a10 }

  /** The rows of a matrix, as a numpy array is indexed. */
  function Rows2(a: Mat2): (r: seq<seq<real>>)
    ensures |r| == 2 && |r[0]| == 2 && r[0][0] == a.a00
  {
    [[a.a00, a.a01], [a.a10, a.a11]]
  }

  // ---------------------------------------------------------------- 3 x 3

  /** `np.eye(3) * d` */
  function Diag3(d: real): Mat3 { Mat3(d, 0.0, 0.0, 0.0, d, 0.0, 0.0, 0.0, d) }

  function Identity3(): Mat3 { Diag3(1.0) }

  /** `a @ b` */
  function Mul3(a: Mat3, b: Mat3): Mat3 {
    Mat3(a.a00 * b.a00 + a.a01 * b.a10 + a.a02 * b.a20,
         a.a00 * b.a01 + a.a01 * b.a11 + a.a02 * b.a21,
         a.a00 * b.a02 + a.a01 * b.a12 + a.a02 * b.a22,
         a.a10 * b.a00 + a.a11 * b.a10 + a.a12 * b.a20,
         a.a10 * b.a01 + a.a11 * b.a11 + a.a12 * b.a21,
         a.a10 * b.a02 + a.a11 * b.a12 + a.a12 * b.a22,
         a.a20 * b.a00 + a.a21 * b.a10 + a.a22 * b.a20,
         a.a20 * b.a01 + a.a21 * b.a11 + a.a22 * b.a21,
         a.a20 * b.a02 + a.a21 * b.a12 + a.a22 * b.a22)
  }

  /** `a @ v` for a column vector v */
  function Apply3(a: Mat3, v: Vec3): Vec3 {
    Vec3(a.a00 * v.x0 + a.a01 * v.x1 + a.a02 * v.x2,
         a.a10 * v.x0 + a.a11 * v.x1 + a.a12 * v.x2,
         a.a20 * v.x0 + a.a21 * v.x1 + a.a22 * v.x2)
  }

  /** `h @ a` for a row vector h */
  function RowMul3(h: Vec3, a: Mat3): Vec3 {
    Vec3(h.x0 * a.a00 + h.x1 * a.a10 + h.x2 * a.a20,
         h.x0 * a.a01 + h.x1 * a.a11 + h.x2 * a.a21,
         h.x0 * a.a02 + h.x1 * a.a12 + h.x2 * a.a22)
  }

  function Dot3(u: Vec3, v: Vec3): real { u.x0 * v.x0 + u.x1 * v.x1 + u.x2 * v.x2 }

  /** `k @ h` for a column k and a row h */
  function Outer3(k: Vec3, h: Vec3): Mat3 {
    Mat3(k.x0 * h.x0, k.x0 * h.x1, k.x0 * h.x2,
         k.x1 * h.x0, k.x1 * h.x1, k.x1 * h.x2,
         k.x2 * h.x0, k.x2 * h.x1, k.x2 * h.x2)
  }

  function Transpose3(a: Mat3): Mat3 {
    Mat3(a.a00, a.a10, a.a20, a.a01, a.a11, a.a21, a.a02, a.a12, a.a22)
  }

  function Add3(a: Mat3, b: Mat3): Mat3 {
    Mat3(a.a00 + b.a00, a.a01 + b.a01, a.a02 + b.a02,
         a.a10 + b.a10, a.a11 + b.a11, a.a12 + b.a12,
         a.a20 + b.a20, a.a21 + b.a21, a.a22 + b.a22)
  }

  function Sub3(a: Mat3, b: Mat3): Mat3 {
    Mat3(a.a00 - b.a00, a.a01 - b.a01, a.a02 - b.a02,
         a.a10 - b.a10, a.a11 - b.a11, a.a12 - b.a12,
         a.a20 - b.a20, a.a21 - b.a21, a.a22 - b.a22)
  }

  function AddVec3(u: Vec3, v: Vec3): Vec3 { Vec3(u.x0 + v.x0, u.x1 + v.x1, u.x2 + v.x2) }

  function ScaleVec3(v: Vec3, s: real): Vec3 { Vec3(v.x0 * s, v.x1 * s, v.x2 * s) }

  /** `v / s` */
  function DivVec3(v: Vec3, s: real): Vec3
    requires s != 0.0
  {
    Vec3(v.x0 / s, v.x1 / s, v.x2 / s)
  }

  predicate Symmetric3(a: Mat3) {
    a.a01 == a.a10 && a.a02 == a.a20 && a.a12 == a.a21
  }

  /** The rows of a matrix, as a numpy array is indexed. */
  function Rows3(a: Mat3): (r: seq<seq<real>>)
    ensures |r| == 3 && |r[0]| == 3 && r[0][0] == a.a00
  {
    [[a.a00, a.a01, a.a02], [a.a10, a.a11, a.a12], [a.a20, a.a21, a.a22]]
  }

  // ------------------------------------------------------------- algebra

  /** The bilinear form u^T p v, all nine terms written out. */
  function Bilinear3(u: Vec3, p: Mat3, v: Vec3): real {
    u.x0 * p.a00 * v.x0 + u.x0 * p.a01 * v.x1 + u.x0 * p.a02 * v.x2 +
    u.x1 * p.a10 * v.x0 + u.x1 * p.a11 * v.x1 + u.x1 * p.a12 * v.x2 +
    u.x2 * p.a20 * v.x0 + u.x2 * p.a21 * v.x1 + u.x2 * p.a22 * v.x2
  }

  /** (u p) . v, the way `@` evaluates it, is the bilinear form. */
  lemma RowMulDot3(u: Vec3, p: Mat3, v: Vec3)
    ensures Dot3(RowMul3(u, p), v) == Bilinear3(u, p, v)
  {
    var w := RowMul3(u, p);
    assert w.x0 * v.x0 == u.x0 * p.a00 * v.x0 + u.x1 * p.a10 * v.x0 + u.x2 * p.a20 * v.x0;
    assert w.x1 * v.x1 == u.x0 * p.a01 * v.x1 + u.x1 * p.a11 * v.x1 + u.x2 * p.a21 * v.x1;
    assert w.x2 * v.x2 == u.x0 * p.a02 * v.x2 + u.x1 * p.a12 * v.x2 + u.x2 * p.a22 * v.x2;
  }

  /** A symmetric matrix gives a symmetric bilinear form. */
  lemma BilinearSymmetric3(u: Vec3, p: Mat3, v: Vec3)
    requires Symmetric3(p)
    ensures Bilinear3(u, p, v) == Bilinear3(v, p, u)
  {
  }

  /** Row i of a matrix. */
  function Row3(a: Mat3, i: nat): Vec3
    requires i < 3
  {
    if i == 0 then Vec3(a.a00, a.a01, a.a02)
    else if i == 1 then Vec3(a.a10, a.a11, a.a12)
    else Vec3(a.a20, a.a21, a.a22)
  }

  /** Entry (i, j) of a matrix. */
  function Entry3(a: Mat3, i: nat, j: nat): real
    requires i < 3 && j < 3
  {
    var r := Row3(a, i);
    if j == 0 then r.x0 else if j == 1 then r.x1 else r.x2
  }

  /** Row i of a product is row i of the left factor times the right one. */
  lemma MulRow3(a: Mat3, b: Mat3, i: nat)
    requires i < 3
    ensures Row3(Mul3(a, b), i) == RowMul3(Row3(a, i), b)
  {
    var m := Mul3(a, b);
    assert Row3(m, 0) == RowMul3(Row3(a, 0), b);
    assert Row3(m, 1) == RowMul3(Row3(a, 1), b);
    assert Row3(m, 2) == RowMul3(Row3(a, 2), b);
  }

  /** A row times b^T holds the row's dot products with the rows of b. */
  lemma RowMulTranspose3(u: Vec3, b: Mat3)
    ensures RowMul3(u, Transpose3(b)) == Vec3(Dot3(u, Row3(b, 0)), Dot3(u, Row3(b, 1)), Dot3(u, Row3(b, 2)))
  {
  }

  /** Entry (i, j) of a b^T is the dot product of row i of a and row j of b. */
  lemma MulTransposeEntry3(a: Mat3, b: Mat3, i: nat, j: nat)
    requires i < 3 && j < 3
    ensures Entry3(Mul3(a, Transpose3(b)), i, j) == Dot3(Row3(a, i), Row3(b, j))
  {
    MulRow3(a, Transpose3(b), i);
    RowMulTranspose3(Row3(a, i), b);
  }

  /** Entry (i, j) of (f p) f^T pairs row i and row j of f through p. */
  lemma CongruenceEntry3(f: Mat3, p: Mat3, i: nat, j: nat)
    requires i < 3 && j < 3
    ensures Entry3(Mul3(Mul3(f, p), Transpose3(f)), i, j) == Bilinear3(Row3(f, i), p, Row3(f, j))
  {
    MulTransposeEntry3(Mul3(f, p), f, i, j);
    MulRow3(f, p, i);
    RowMulDot3(Row3(f, i), p, Row3(f, j));
  }

  /** F P F^T + Q is symmetric whenever P and Q are: the covariance step of
      `predict` keeps the covariance symmetric. */
  lemma {:induction false} CongruenceSymmetric3(f: Mat3, p: Mat3, q: Mat3)
    requires Symmetric3(p) && Symmetric3(q)
    ensures Symmetric3(Add3(Mul3(Mul3(f, p), Transpose3(f)), q))
  {
    var m := Mul3(Mul3(f, p), Transpose3(f));
    forall i: nat, j: nat | i < 3 && j < 3
      ensures Entry3(m, i, j) == Entry3(m, j, i)
    {
      CongruenceEntry3(f, p, i, j);
      CongruenceEntry3(f, p, j, i);
      BilinearSymmetric3(Row3(f, i), p, Row3(f, j));
    }
    assert Entry3(m, 0, 1) == Entry3(m, 1, 0);
    assert Entry3(m, 0, 2) == Entry3(m, 2, 0);
    assert Entry3(m, 1, 2) == Entry3(m, 2, 1);
  }

  /** The same for 2 x 2 matrices. */
  lemma CongruenceSymmetric2(f: Mat2, p: Mat2, q: Mat2)
    requires Symmetric2(p) && Symmetric2(q)
    ensures Symmetric2(Add2(Mul2(Mul2(f, p), Transpose2(f)), q))
  {
  }
}
