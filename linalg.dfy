/**
 * Exact 3-vectors and 3x3 matrices over the reals, standing in for the numpy
 * arrays of the colour pipeline. Matrix inverse and linear solve are the 3x3
 * adjugate formula; their contracts are the facts the colour code relies on
 * (M @ Inverse(M) == I, M @ Solve(M, b) == b), and both report a singular
 * matrix (determinant 0) as a failure, as numpy's LinAlgError does.
 *
 * The proofs work entry by entry: each matrix identity is reduced to small
 * polynomial identities over plain reals (Triple, DotScaled, RowAssoc), which
 * the solver settles far more reliably than the identity on whole matrices.
 */
module LinAlg {

  datatype Option<+T> = None | Some(value: T)

  datatype Vec3 = Vec3(x: real, y: real, z: real)

  /** Row-major 3x3 matrix: mRC is row R, column C. */
  datatype Mat3 = Mat3(m00: real, m01: real, m02: real,
                       m10: real, m11: real, m12: real,
                       m20: real, m21: real, m22: real)

  function Identity(): Mat3 {
    Mat3(1.0, 0.0, 0.0,
         0.0, 1.0, 0.0,
         0.0, 0.0, 1.0)
  }

  /** np.diag(v): the diagonal matrix with v on its diagonal. */
  function Diag(v: Vec3): Mat3 {
    Mat3(v.x, 0.0, 0.0,
         0.0, v.y, 0.0,
         0.0, 0.0, v.z)
  }

  /** k * v */
  function VecScale(k: real, v: Vec3): Vec3 {
    Vec3(k * v.x, k * v.y, k * v.z)
  }

  /** v.sum() */
  function Sum(v: Vec3): real {
    v.x + v.y + v.z
  }

  /** v.max(): the largest component. */
  function Max(v: Vec3): (r: real)
    ensures v.x <= r && v.y <= r && v.z <= r
    ensures r == v.x || r == v.y || r == v.z
  {
    if v.x >= v.y && v.x >= v.z then v.x
    else if v.y >= v.z then v.y
    else v.z
  }

  /** k * a */
  function Scale(k: real, a: Mat3): Mat3 {
    Mat3(k * a.m00, k * a.m01, k * a.m02,
         k * a.m10, k * a.m11, k * a.m12,
         k * a.m20, k * a.m21, k * a.m22)
  }

  /** a + b */
  function Add(a: Mat3, b: Mat3): Mat3 {
    Mat3(a.m00 + b.m00, a.m01 + b.m01, a.m02 + b.m02,
         a.m10 + b.m10, a.m11 + b.m11, a.m12 + b.m12,
         a.m20 + b.m20, a.m21 + b.m21, a.m22 + b.m22)
  }

  /** a @ v */
  function MatVec(a: Mat3, v: Vec3): Vec3 {
    Vec3(a.m00 * v.x + a.m01 * v.y + a.m02 * v.z,
         a.m10 * v.x + a.m11 * v.y + a.m12 * v.z,
         a.m20 * v.x + a.m21 * v.y + a.m22 * v.z)
  }

  /** a @ b */
  function MatMul(a: Mat3, b: Mat3): Mat3 {
    Mat3(a.m00 * b.m00 + a.m01 * b.m10 + a.m02 * b.m20,
         a.m00 * b.m01 + a.m01 * b.m11 + a.m02 * b.m21,
         a.m00 * b.m02 + a.m01 * b.m12 + a.m02 * b.m22,
         a.m10 * b.m00 + a.m11 * b.m10 + a.m12 * b.m20,
         a.m10 * b.m01 + a.m11 * b.m11 + a.m12 * b.m21,
         a.m10 * b.m02 + a.m11 * b.m12 + a.m12 * b.m22,
         a.m20 * b.m00 + a.m21 * b.m10 + a.m22 * b.m20,
         a.m20 * b.m01 + a.m21 * b.m11 + a.m22 * b.m21,
         a.m20 * b.m02 + a.m21 * b.m12 + a.m22 * b.m22)
  }

  function Det(a: Mat3): real {
    a.m00 * (a.m11 * a.m22 - a.m12 * a.m21)
    - a.m01 * (a.m10 * a.m22 - a.m12 * a.m20)
    + a.m02 * (a.m10 * a.m21 - a.m11 * a.m20)
  }

  /** The transposed cofactor matrix: column t is the cross product of rows t+1 and t+2. */
  function Adjugate(a: Mat3): Mat3 {
    Mat3(a.m11 * a.m22 - a.m12 * a.m21,
         a.m21 * a.m02 - a.m22 * a.m01,
         a.m01 * a.m12 - a.m02 * a.m11,
         a.m12 * a.m20 - a.m10 * a.m22,
         a.m22 * a.m00 - a.m20 * a.m02,
         a.m02 * a.m10 - a.m00 * a.m12,
         a.m10 * a.m21 - a.m11 * a.m20,
         a.m20 * a.m01 - a.m21 * a.m00,
         a.m00 * a.m11 - a.m01 * a.m10)
  }

  /** u . (p x q), with j standing for p x q. */
  lemma Triple(u0: real, u1: real, u2: real,
               p0: real, p1: real, p2: real, q0: real, q1: real, q2: real,
               j0: real, j1: real, j2: real)
    requires j0 == p1 * q2 - p2 * q1
    requires j1 == p2 * q0 - p0 * q2
    requires j2 == p0 * q1 - p1 * q0
    ensures u0 * j0 + u1 * j1 + u2 * j2
         == u0 * (p1 * q2 - p2 * q1) + u1 * (p2 * q0 - p0 * q2) + u2 * (p0 * q1 - p1 * q0)
  {
  }

  /** A triple product with a repeated vector vanishes. */
  lemma TripleZero(p0: real, p1: real, p2: real, q0: real, q1: real, q2: real)
    ensures p0 * (p1 * q2 - p2 * q1) + p1 * (p2 * q0 - p0 * q2) + p2 * (p0 * q1 - p1 * q0) == 0.0
    ensures q0 * (p1 * q2 - p2 * q1) + q1 * (p2 * q0 - p0 * q2) + q2 * (p0 * q1 - p1 * q0) == 0.0
  {
  }

  /** The determinant as the triple product of the rows and of the columns, in every cyclic order. */
  lemma DetAsTriple(a: Mat3)
    ensures Det(a) == a.m00 * (a.m11 * a.m22 - a.m12 * a.m21) + a.m01 * (a.m12 * a.m20 - a.m10 * a.m22) + a.m02 * (a.m10 * a.m21 - a.m11 * a.m20)
    ensures Det(a) == a.m10 * (a.m21 * a.m02 - a.m22 * a.m01) + a.m11 * (a.m22 * a.m00 - a.m20 * a.m02) + a.m12 * (a.m20 * a.m01 - a.m21 * a.m00)
    ensures Det(a) == a.m20 * (a.m01 * a.m12 - a.m02 * a.m11) + a.m21 * (a.m02 * a.m10 - a.m00 * a.m12) + a.m22 * (a.m00 * a.m11 - a.m01 * a.m10)
    ensures Det(a) == a.m00 * (a.m11 * a.m22 - a.m21 * a.m12) + a.m10 * (a.m21 * a.m02 - a.m01 * a.m22) + a.m20 * (a.m01 * a.m12 - a.m11 * a.m02)
    ensures Det(a) == a.m01 * (a.m12 * a.m20 - a.m22 * a.m10) + a.m11 * (a.m22 * a.m00 - a.m02 * a.m20) + a.m21 * (a.m02 * a.m10 - a.m12 * a.m00)
    ensures Det(a) == a.m02 * (a.m10 * a.m21 - a.m20 * a.m11) + a.m12 * (a.m20 * a.m01 - a.m00 * a.m21) + a.m22 * (a.m00 * a.m11 - a.m10 * a.m01)
  {
  }


  /** u . w == k * s when w == k * v and s == u . v */
  lemma DotScaled(u0: real, u1: real, u2: real, v0: real, v1: real, v2: real,
                  w0: real, w1: real, w2: real, k: real, s: real)
    requires w0 == k * v0 && w1 == k * v1 && w2 == k * v2
    requires s == u0 * v0 + u1 * v1 + u2 * v2
    ensures u0 * w0 + u1 * w1 + u2 * w2 == k * s
  {
  }

  /** (row of a@b) . v == row of a . (b@v) */
  lemma RowAssoc(a0: real, a1: real, a2: real,
                 b00: real, b01: real, b02: real, b10: real, b11: real, b12: real,
                 b20: real, b21: real, b22: real,
                 v0: real, v1: real, v2: real,
                 m0: real, m1: real, m2: real, w0: real, w1: real, w2: real)
    requires m0 == a0 * b00 + a1 * b10 + a2 * b20
    requires m1 == a0 * b01 + a1 * b11 + a2 * b21
    requires m2 == a0 * b02 + a1 * b12 + a2 * b22
    requires w0 == b00 * v0 + b01 * v1 + b02 * v2
    requires w1 == b10 * v0 + b11 * v1 + b12 * v2
    requires w2 == b20 * v0 + b21 * v1 + b22 * v2
    ensures m0 * v0 + m1 * v1 + m2 * v2 == a0 * w0 + a1 * w1 + a2 * w2
  {
    calc {
      m0 * v0 + m1 * v1 + m2 * v2;
      (a0 * b00 + a1 * b10 + a2 * b20) * v0 + (a0 * b01 + a1 * b11 + a2 * b21) * v1
        + (a0 * b02 + a1 * b12 + a2 * b22) * v2;
      a0 * (b00 * v0 + b01 * v1 + b02 * v2) + a1 * (b10 * v0 + b11 * v1 + b12 * v2)
        + a2 * (b20 * v0 + b21 * v1 + b22 * v2);
    }
  }

  // One lemma per matrix entry: keeping each entry's polynomial identity in a
  // proof of its own keeps the solver's nonlinear reasoning small.

  lemma AdjugateRight00(a: Mat3)
    ensures MatMul(a, Adjugate(a)).m00 == Det(a)
  {
    var j := Adjugate(a);
    DetAsTriple(a);
    Triple(a.m00, a.m01, a.m02,
           a.m10, a.m11, a.m12, a.m20, a.m21, a.m22, j.m00, j.m10, j.m20);
    assert a.m00 * j.m00 + a.m01 * j.m10 + a.m02 * j.m20 == Det(a);
  }

  lemma AdjugateRight01(a: Mat3)
    ensures MatMul(a, Adjugate(a)).m01 == 0.0
  {
    var j := Adjugate(a);
    Triple(a.m00, a.m01, a.m02,
           a.m20, a.m21, a.m22, a.m00, a.m01, a.m02, j.m01, j.m11, j.m21);
    TripleZero(a.m20, a.m21, a.m22, a.m00, a.m01, a.m02);
    assert a.m00 * j.m01 + a.m01 * j.m11 + a.m02 * j.m21 == 0.0;
  }

  lemma AdjugateRight02(a: Mat3)
    ensures MatMul(a, Adjugate(a)).m02 == 0.0
  {
    var j := Adjugate(a);
    Triple(a.m00, a.m01, a.m02,
           a.m00, a.m01, a.m02, a.m10, a.m11, a.m12, j.m02, j.m12, j.m22);
    TripleZero(a.m00, a.m01, a.m02, a.m10, a.m11, a.m12);
    assert a.m00 * j.m02 + a.m01 * j.m12 + a.m02 * j.m22 == 0.0;
  }

  lemma AdjugateRight10(a: Mat3)
    ensures MatMul(a, Adjugate(a)).m10 == 0.0
  {
    var j := Adjugate(a);
    Triple(a.m10, a.m11, a.m12,
           a.m10, a.m11, a.m12, a.m20, a.m21, a.m22, j.m00, j.m10, j.m20);
    TripleZero(a.m10, a.m11, a.m12, a.m20, a.m21, a.m22);
    assert a.m10 * j.m00 + a.m11 * j.m10 + a.m12 * j.m20 == 0.0;
  }

  lemma AdjugateRight11(a: Mat3)
    ensures MatMul(a, Adjugate(a)).m11 == Det(a)
  {
    var j := Adjugate(a);
    DetAsTriple(a);
    Triple(a.m10, a.m11, a.m12,
           a.m20, a.m21, a.m22, a.m00, a.m01, a.m02, j.m01, j.m11, j.m21);
    assert a.m10 * j.m01 + a.m11 * j.m11 + a.m12 * j.m21 == Det(a);
  }

  lemma AdjugateRight12(a: Mat3)
    ensures MatMul(a, Adjugate(a)).m12 == 0.0
  {
    var j := Adjugate(a);
    Triple(a.m10, a.m11, a.m12,
           a.m00, a.m01, a.m02, a.m10, a.m11, a.m12, j.m02, j.m12, j.m22);
    TripleZero(a.m00, a.m01, a.m02, a.m10, a.m11, a.m12);
    assert a.m10 * j.m02 + a.m11 * j.m12 + a.m12 * j.m22 == 0.0;
  }

  lemma AdjugateRight20(a: Mat3)
    ensures MatMul(a, Adjugate(a)).m20 == 0.0
  {
    var j := Adjugate(a);
    Triple(a.m20, a.m21, a.m22,
           a.m10, a.m11, a.m12, a.m20, a.m21, a.m22, j.m00, j.m10, j.m20);
    TripleZero(a.m10, a.m11, a.m12, a.m20, a.m21, a.m22);
    assert a.m20 * j.m00 + a.m21 * j.m10 + a.m22 * j.m20 == 0.0;
  }

  lemma AdjugateRight21(a: Mat3)
    ensures MatMul(a, Adjugate(a)).m21 == 0.0
  {
    var j := Adjugate(a);
    Triple(a.m20, a.m21, a.m22,
           a.m20, a.m21, a.m22, a.m00, a.m01, a.m02, j.m01, j.m11, j.m21);
    TripleZero(a.m20, a.m21, a.m22, a.m00, a.m01, a.m02);
    assert a.m20 * j.m01 + a.m21 * j.m11 + a.m22 * j.m21 == 0.0;
  }

  lemma AdjugateRight22(a: Mat3)
    ensures MatMul(a, Adjugate(a)).m22 == Det(a)
  {
    var j := Adjugate(a);
    DetAsTriple(a);
    Triple(a.m20, a.m21, a.m22,
           a.m00, a.m01, a.m02, a.m10, a.m11, a.m12, j.m02, j.m12, j.m22);
    assert a.m20 * j.m02 + a.m21 * j.m12 + a.m22 * j.m22 == Det(a);
  }

  lemma AdjugateLeft00(a: Mat3)
    ensures MatMul(Adjugate(a), a).m00 == Det(a)
  {
    var j := Adjugate(a);
    DetAsTriple(a);
    Triple(a.m00, a.m10, a.m20,
           a.m01, a.m11, a.m21, a.m02, a.m12, a.m22, j.m00, j.m01, j.m02);
    assert j.m00 * a.m00 + j.m01 * a.m10 + j.m02 * a.m20 == Det(a);
  }

  lemma AdjugateLeft01(a: Mat3)
    ensures MatMul(Adjugate(a), a).m01 == 0.0
  {
    var j := Adjugate(a);
    Triple(a.m01, a.m11, a.m21,
           a.m01, a.m11, a.m21, a.m02, a.m12, a.m22, j.m00, j.m01, j.m02);
    TripleZero(a.m01, a.m11, a.m21, a.m02, a.m12, a.m22);
    assert j.m00 * a.m01 + j.m01 * a.m11 + j.m02 * a.m21 == 0.0;
  }

  lemma AdjugateLeft02(a: Mat3)
    ensures MatMul(Adjugate(a), a).m02 == 0.0
  {
    var j := Adjugate(a);
    Triple(a.m02, a.m12, a.m22,
           a.m01, a.m11, a.m21, a.m02, a.m12, a.m22, j.m00, j.m01, j.m02);
    TripleZero(a.m01, a.m11, a.m21, a.m02, a.m12, a.m22);
    assert j.m00 * a.m02 + j.m01 * a.m12 + j.m02 * a.m22 == 0.0;
  }

  lemma AdjugateLeft10(a: Mat3)
    ensures MatMul(Adjugate(a), a).m10 == 0.0
  {
    var j := Adjugate(a);
    Triple(a.m00, a.m10, a.m20,
           a.m02, a.m12, a.m22, a.m00, a.m10, a.m20, j.m10, j.m11, j.m12);
    TripleZero(a.m02, a.m12, a.m22, a.m00, a.m10, a.m20);
    assert j.m10 * a.m00 + j.m11 * a.m10 + j.m12 * a.m20 == 0.0;
  }

  lemma AdjugateLeft11(a: Mat3)
    ensures MatMul(Adjugate(a), a).m11 == Det(a)
  {
    var j := Adjugate(a);
    DetAsTriple(a);
    Triple(a.m01, a.m11, a.m21,
           a.m02, a.m12, a.m22, a.m00, a.m10, a.m20, j.m10, j.m11, j.m12);
    assert j.m10 * a.m01 + j.m11 * a.m11 + j.m12 * a.m21 == Det(a);
  }

  lemma AdjugateLeft12(a: Mat3)
    ensures MatMul(Adjugate(a), a).m12 == 0.0
  {
    var j := Adjugate(a);
    Triple(a.m02, a.m12, a.m22,
           a.m02, a.m12, a.m22, a.m00, a.m10, a.m20, j.m10, j.m11, j.m12);
    TripleZero(a.m02, a.m12, a.m22, a.m00, a.m10, a.m20);
    assert j.m10 * a.m02 + j.m11 * a.m12 + j.m12 * a.m22 == 0.0;
  }

  lemma AdjugateLeft20(a: Mat3)
    ensures MatMul(Adjugate(a), a).m20 == 0.0
  {
    var j := Adjugate(a);
    Triple(a.m00, a.m10, a.m20,
           a.m00, a.m10, a.m20, a.m01, a.m11, a.m21, j.m20, j.m21, j.m22);
    TripleZero(a.m00, a.m10, a.m20, a.m01, a.m11, a.m21);
    assert j.m20 * a.m00 + j.m21 * a.m10 + j.m22 * a.m20 == 0.0;
  }

  lemma AdjugateLeft21(a: Mat3)
    ensures MatMul(Adjugate(a), a).m21 == 0.0
  {
    var j := Adjugate(a);
    Triple(a.m01, a.m11, a.m21,
           a.m00, a.m10, a.m20, a.m01, a.m11, a.m21, j.m20, j.m21, j.m22);
    TripleZero(a.m00, a.m10, a.m20, a.m01, a.m11, a.m21);
    assert j.m20 * a.m01 + j.m21 * a.m11 + j.m22 * a.m21 == 0.0;
  }

  lemma AdjugateLeft22(a: Mat3)
    ensures MatMul(Adjugate(a), a).m22 == Det(a)
  {
    var j := Adjugate(a);
    DetAsTriple(a);
    Triple(a.m02, a.m12, a.m22,
           a.m00, a.m10, a.m20, a.m01, a.m11, a.m21, j.m20, j.m21, j.m22);
    assert j.m20 * a.m02 + j.m21 * a.m12 + j.m22 * a.m22 == Det(a);
  }

  lemma MatMulScaleRight00(a: Mat3, k: real, b: Mat3)
    ensures MatMul(a, Scale(k, b)).m00 == k * MatMul(a, b).m00
  {
    var s, p := Scale(k, b), MatMul(a, b);
    DotScaled(a.m00, a.m01, a.m02, b.m00, b.m10, b.m20, s.m00, s.m10, s.m20, k, p.m00);
  }

  lemma MatMulScaleRight01(a: Mat3, k: real, b: Mat3)
    ensures MatMul(a, Scale(k, b)).m01 == k * MatMul(a, b).m01
  {
    var s, p := Scale(k, b), MatMul(a, b);
    DotScaled(a.m00, a.m01, a.m02, b.m01, b.m11, b.m21, s.m01, s.m11, s.m21, k, p.m01);
  }

  lemma MatMulScaleRight02(a: Mat3, k: real, b: Mat3)
    ensures MatMul(a, Scale(k, b)).m02 == k * MatMul(a, b).m02
  {
    var s, p := Scale(k, b), MatMul(a, b);
    DotScaled(a.m00, a.m01, a.m02, b.m02, b.m12, b.m22, s.m02, s.m12, s.m22, k, p.m02);
  }

  lemma MatMulScaleRight10(a: Mat3, k: real, b: Mat3)
    ensures MatMul(a, Scale(k, b)).m10 == k * MatMul(a, b).m10
  {
    var s, p := Scale(k, b), MatMul(a, b);
    DotScaled(a.m10, a.m11, a.m12, b.m00, b.m10, b.m20, s.m00, s.m10, s.m20, k, p.m10);
  }

  lemma MatMulScaleRight11(a: Mat3, k: real, b: Mat3)
    ensures MatMul(a, Scale(k, b)).m11 == k * MatMul(a, b).m11
  {
    var s, p := Scale(k, b), MatMul(a, b);
    DotScaled(a.m10, a.m11, a.m12, b.m01, b.m11, b.m21, s.m01, s.m11, s.m21, k, p.m11);
  }

  lemma MatMulScaleRight12(a: Mat3, k: real, b: Mat3)
    ensures MatMul(a, Scale(k, b)).m12 == k * MatMul(a, b).m12
  {
    var s, p := Scale(k, b), MatMul(a, b);
    DotScaled(a.m10, a.m11, a.m12, b.m02, b.m12, b.m22, s.m02, s.m12, s.m22, k, p.m12);
  }

  lemma MatMulScaleRight20(a: Mat3, k: real, b: Mat3)
    ensures MatMul(a, Scale(k, b)).m20 == k * MatMul(a, b).m20
  {
    var s, p := Scale(k, b), MatMul(a, b);
    DotScaled(a.m20, a.m21, a.m22, b.m00, b.m10, b.m20, s.m00, s.m10, s.m20, k, p.m20);
  }

  lemma MatMulScaleRight21(a: Mat3, k: real, b: Mat3)
    ensures MatMul(a, Scale(k, b)).m21 == k * MatMul(a, b).m21
  {
    var s, p := Scale(k, b), MatMul(a, b);
    DotScaled(a.m20, a.m21, a.m22, b.m01, b.m11, b.m21, s.m01, s.m11, s.m21, k, p.m21);
  }

  lemma MatMulScaleRight22(a: Mat3, k: real, b: Mat3)
    ensures MatMul(a, Scale(k, b)).m22 == k * MatMul(a, b).m22
  {
    var s, p := Scale(k, b), MatMul(a, b);
    DotScaled(a.m20, a.m21, a.m22, b.m02, b.m12, b.m22, s.m02, s.m12, s.m22, k, p.m22);
  }

  lemma MatMulScaleLeft00(k: real, a: Mat3, b: Mat3)
    ensures MatMul(Scale(k, a), b).m00 == k * MatMul(a, b).m00
  {
    var s, p := Scale(k, a), MatMul(a, b);
    DotScaled(b.m00, b.m10, b.m20, a.m00, a.m01, a.m02, s.m00, s.m01, s.m02, k, p.m00);
  }

  lemma MatMulScaleLeft01(k: real, a: Mat3, b: Mat3)
    ensures MatMul(Scale(k, a), b).m01 == k * MatMul(a, b).m01
  {
    var s, p := Scale(k, a), MatMul(a, b);
    DotScaled(b.m01, b.m11, b.m21, a.m00, a.m01, a.m02, s.m00, s.m01, s.m02, k, p.m01);
  }

  lemma MatMulScaleLeft02(k: real, a: Mat3, b: Mat3)
    ensures MatMul(Scale(k, a), b).m02 == k * MatMul(a, b).m02
  {
    var s, p := Scale(k, a), MatMul(a, b);
    DotScaled(b.m02, b.m12, b.m22, a.m00, a.m01, a.m02, s.m00, s.m01, s.m02, k, p.m02);
  }

  lemma MatMulScaleLeft10(k: real, a: Mat3, b: Mat3)
    ensures MatMul(Scale(k, a), b).m10 == k * MatMul(a, b).m10
  {
    var s, p := Scale(k, a), MatMul(a, b);
    DotScaled(b.m00, b.m10, b.m20, a.m10, a.m11, a.m12, s.m10, s.m11, s.m12, k, p.m10);
  }

  lemma MatMulScaleLeft11(k: real, a: Mat3, b: Mat3)
    ensures MatMul(Scale(k, a), b).m11 == k * MatMul(a, b).m11
  {
    var s, p := Scale(k, a), MatMul(a, b);
    DotScaled(b.m01, b.m11, b.m21, a.m10, a.m11, a.m12, s.m10, s.m11, s.m12, k, p.m11);
  }

  lemma MatMulScaleLeft12(k: real, a: Mat3, b: Mat3)
    ensures MatMul(Scale(k, a), b).m12 == k * MatMul(a, b).m12
  {
    var s, p := Scale(k, a), MatMul(a, b);
    DotScaled(b.m02, b.m12, b.m22, a.m10, a.m11, a.m12, s.m10, s.m11, s.m12, k, p.m12);
  }

  lemma MatMulScaleLeft20(k: real, a: Mat3, b: Mat3)
    ensures MatMul(Scale(k, a), b).m20 == k * MatMul(a, b).m20
  {
    var s, p := Scale(k, a), MatMul(a, b);
    DotScaled(b.m00, b.m10, b.m20, a.m20, a.m21, a.m22, s.m20, s.m21, s.m22, k, p.m20);
  }

  lemma MatMulScaleLeft21(k: real, a: Mat3, b: Mat3)
    ensures MatMul(Scale(k, a), b).m21 == k * MatMul(a, b).m21
  {
    var s, p := Scale(k, a), MatMul(a, b);
    DotScaled(b.m01, b.m11, b.m21, a.m20, a.m21, a.m22, s.m20, s.m21, s.m22, k, p.m21);
  }

  lemma MatMulScaleLeft22(k: real, a: Mat3, b: Mat3)
    ensures MatMul(Scale(k, a), b).m22 == k * MatMul(a, b).m22
  {
    var s, p := Scale(k, a), MatMul(a, b);
    DotScaled(b.m02, b.m12, b.m22, a.m20, a.m21, a.m22, s.m20, s.m21, s.m22, k, p.m22);
  }

  lemma MatVecAssocX(a: Mat3, b: Mat3, v: Vec3)
    ensures MatVec(MatMul(a, b), v).x == MatVec(a, MatVec(b, v)).x
  {
    var ab, bv := MatMul(a, b), MatVec(b, v);
    RowAssoc(a.m00, a.m01, a.m02, b.m00, b.m01, b.m02, b.m10, b.m11, b.m12, b.m20, b.m21, b.m22,
             v.x, v.y, v.z, ab.m00, ab.m01, ab.m02, bv.x, bv.y, bv.z);
  }

  lemma MatVecAssocY(a: Mat3, b: Mat3, v: Vec3)
    ensures MatVec(MatMul(a, b), v).y == MatVec(a, MatVec(b, v)).y
  {
    var ab, bv := MatMul(a, b), MatVec(b, v);
    RowAssoc(a.m10, a.m11, a.m12, b.m00, b.m01, b.m02, b.m10, b.m11, b.m12, b.m20, b.m21, b.m22,
             v.x, v.y, v.z, ab.m10, ab.m11, ab.m12, bv.x, bv.y, bv.z);
  }

  lemma MatVecAssocZ(a: Mat3, b: Mat3, v: Vec3)
    ensures MatVec(MatMul(a, b), v).z == MatVec(a, MatVec(b, v)).z
  {
    var ab, bv := MatMul(a, b), MatVec(b, v);
    RowAssoc(a.m20, a.m21, a.m22, b.m00, b.m01, b.m02, b.m10, b.m11, b.m12, b.m20, b.m21, b.m22,
             v.x, v.y, v.z, ab.m20, ab.m21, ab.m22, bv.x, bv.y, bv.z);
  }
  lemma AdjugateRight(a: Mat3)
    ensures MatMul(a, Adjugate(a)) == Scale(Det(a), Identity())
  {
    AdjugateRight00(a);
    AdjugateRight01(a);
    AdjugateRight02(a);
    AdjugateRight10(a);
    AdjugateRight11(a);
    AdjugateRight12(a);
    AdjugateRight20(a);
    AdjugateRight21(a);
    AdjugateRight22(a);
  }

  lemma AdjugateLeft(a: Mat3)
    ensures MatMul(Adjugate(a), a) == Scale(Det(a), Identity())
  {
    AdjugateLeft00(a);
    AdjugateLeft01(a);
    AdjugateLeft02(a);
    AdjugateLeft10(a);
    AdjugateLeft11(a);
    AdjugateLeft12(a);
    AdjugateLeft20(a);
    AdjugateLeft21(a);
    AdjugateLeft22(a);
  }

  lemma MatMulScaleRight(a: Mat3, k: real, b: Mat3)
    ensures MatMul(a, Scale(k, b)) == Scale(k, MatMul(a, b))
  {
    MatMulScaleRight00(a, k, b);
    MatMulScaleRight01(a, k, b);
    MatMulScaleRight02(a, k, b);
    MatMulScaleRight10(a, k, b);
    MatMulScaleRight11(a, k, b);
    MatMulScaleRight12(a, k, b);
    MatMulScaleRight20(a, k, b);
    MatMulScaleRight21(a, k, b);
    MatMulScaleRight22(a, k, b);
  }

  lemma MatMulScaleLeft(k: real, a: Mat3, b: Mat3)
    ensures MatMul(Scale(k, a), b) == Scale(k, MatMul(a, b))
  {
    MatMulScaleLeft00(k, a, b);
    MatMulScaleLeft01(k, a, b);
    MatMulScaleLeft02(k, a, b);
    MatMulScaleLeft10(k, a, b);
    MatMulScaleLeft11(k, a, b);
    MatMulScaleLeft12(k, a, b);
    MatMulScaleLeft20(k, a, b);
    MatMulScaleLeft21(k, a, b);
    MatMulScaleLeft22(k, a, b);
  }

  lemma MatVecAssoc(a: Mat3, b: Mat3, v: Vec3)
    ensures MatVec(MatMul(a, b), v) == MatVec(a, MatVec(b, v))
  {
    MatVecAssocX(a, b, v);
    MatVecAssocY(a, b, v);
    MatVecAssocZ(a, b, v);
  }

  lemma MatVecIdentity(v: Vec3)
    ensures MatVec(Identity(), v) == v
  {
  }

  /** b @ (inv(b) @ d @ b) @ v == d @ (b @ v): conjugating d by b undoes itself in b's coordinates. */
  lemma ConjugateByInverse(b: Mat3, bi: Mat3, d: Mat3, v: Vec3)
    requires MatMul(b, bi) == Identity()
    ensures MatVec(b, MatVec(MatMul(MatMul(bi, d), b), v)) == MatVec(d, MatVec(b, v))
  {
    var u := MatVec(d, MatVec(b, v));
    calc {
      MatVec(MatMul(MatMul(bi, d), b), v);
      { MatVecAssoc(MatMul(bi, d), b, v); }
      MatVec(MatMul(bi, d), MatVec(b, v));
      { MatVecAssoc(bi, d, MatVec(b, v)); }
      MatVec(bi, u);
    }
    calc {
      MatVec(b, MatVec(bi, u));
      { MatVecAssoc(b, bi, u); }
      MatVec(MatMul(b, bi), u);
      { MatVecIdentity(u); }
      u;
    }
  }

  /** np.linalg.inv: fails (None) exactly when the matrix is singular. */
  function Inverse(a: Mat3): (r: Option<Mat3>)
    ensures r.None? <==> Det(a) == 0.0
    ensures r.Some? ==> MatMul(a, r.value) == Identity() && MatMul(r.value, a) == Identity()
  {
    var d := Det(a);
    if d == 0.0 then None
    else
      AdjugateRight(a);
      AdjugateLeft(a);
      MatMulScaleRight(a, 1.0 / d, Adjugate(a));
      MatMulScaleLeft(1.0 / d, Adjugate(a), a);
      Some(Scale(1.0 / d, Adjugate(a)))
  }

  /** np.linalg.solve: the x with a @ x == b; fails exactly when a is singular. */
  function Solve(a: Mat3, b: Vec3): (r: Option<Vec3>)
    ensures r.None? <==> Det(a) == 0.0
    ensures r.Some? ==> MatVec(a, r.value) == b
  {
    match Inverse(a)
    case None => None
    case Some(inv) =>
      MatVecAssoc(a, inv, b);
      Some(MatVec(inv, b))
  }

  lemma MatMulIdentity(a: Mat3)
    ensures MatMul(Identity(), a) == a && MatMul(a, Identity()) == a
  {
  }

  /** (k * row) . v == k * (row . v), with s standing for k * row and d for row . v */
  lemma ScaledRowDot(k: real, a0: real, a1: real, a2: real, v0: real, v1: real, v2: real,
                     s0: real, s1: real, s2: real, d: real)
    requires s0 == k * a0 && s1 == k * a1 && s2 == k * a2
    requires d == a0 * v0 + a1 * v1 + a2 * v2
    ensures s0 * v0 + s1 * v1 + s2 * v2 == k * d
  {
  }

  lemma MatVecScaleMatrixX(k: real, a: Mat3, v: Vec3)
    ensures MatVec(Scale(k, a), v).x == k * MatVec(a, v).x
  {
    var s, w := Scale(k, a), MatVec(a, v);
    ScaledRowDot(k, a.m00, a.m01, a.m02, v.x, v.y, v.z, s.m00, s.m01, s.m02, w.x);
  }

  lemma MatVecScaleMatrixY(k: real, a: Mat3, v: Vec3)
    ensures MatVec(Scale(k, a), v).y == k * MatVec(a, v).y
  {
    var s, w := Scale(k, a), MatVec(a, v);
    ScaledRowDot(k, a.m10, a.m11, a.m12, v.x, v.y, v.z, s.m10, s.m11, s.m12, w.y);
  }

  lemma MatVecScaleMatrixZ(k: real, a: Mat3, v: Vec3)
    ensures MatVec(Scale(k, a), v).z == k * MatVec(a, v).z
  {
    var s, w := Scale(k, a), MatVec(a, v);
    ScaledRowDot(k, a.m20, a.m21, a.m22, v.x, v.y, v.z, s.m20, s.m21, s.m22, w.z);
  }

  /** (k * a) @ v == k * (a @ v) */
  lemma MatVecScaleMatrix(k: real, a: Mat3, v: Vec3)
    ensures MatVec(Scale(k, a), v) == VecScale(k, MatVec(a, v))
  {
    MatVecScaleMatrixX(k, a, v);
    MatVecScaleMatrixY(k, a, v);
    MatVecScaleMatrixZ(k, a, v);
  }

  /** a @ (k * v) == k * (a @ v) */
  lemma MatVecScaleVector(a: Mat3, k: real, v: Vec3)
    ensures MatVec(a, VecScale(k, v)) == VecScale(k, MatVec(a, v))
  {
    var u, w := VecScale(k, v), MatVec(a, v);
    DotScaled(a.m00, a.m01, a.m02, v.x, v.y, v.z, u.x, u.y, u.z, k, w.x);
    DotScaled(a.m10, a.m11, a.m12, v.x, v.y, v.z, u.x, u.y, u.z, k, w.y);
    DotScaled(a.m20, a.m21, a.m22, v.x, v.y, v.z, u.x, u.y, u.z, k, w.z);
  }

  /** A positive factor commutes with taking the largest component. */
  lemma {:induction false} MaxScale(k: real, v: Vec3)
    requires k > 0.0
    ensures Max(VecScale(k, v)) == k * Max(v)
  {
    var m := Max(v);
    assert k * v.x <= k * m && k * v.y <= k * m && k * v.z <= k * m;
  }

  /** inv(a) @ (a @ x) == x */
  lemma InverseUndoes(a: Mat3, x: Vec3)
    requires Det(a) != 0.0
    ensures MatVec(Inverse(a).value, MatVec(a, x)) == x
  {
    MatVecAssoc(Inverse(a).value, a, x);
    MatVecIdentity(x);
  }

  /** A non-singular system has exactly one solution: solving a @ x recovers x. */
  lemma SolveUnique(a: Mat3, x: Vec3)
    requires Det(a) != 0.0
    ensures Solve(a, MatVec(a, x)) == Some(x)
  {
    InverseUndoes(a, x);
  }
}
