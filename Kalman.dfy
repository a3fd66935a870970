/** The linear-Gaussian predict/correct arithmetic shared by the estimators:
    the constant-velocity filter (state value, rate), the constant-acceleration
    filter and the imputation predictor (state value, rate, acceleration).
    Every function follows the numpy expression it models; the lemmas give the
    closed forms and the properties the filters rely on. */
module Kalman {
  import opened Matrix

  // ------------------------------------------------------------ the model

  /** F for the constant-velocity model: [[1, dt], [0, 1]]. */
  function Transition2(dt: real): Mat2 {
    Mat2(1.0, dt, 0.0, 1.0)
  }

  /** F for the constant-acceleration model: [[1, dt, dt^2/2], [0, 1, dt], [0, 0, 1]]. */
  function Transition3(dt: real): Mat3 {
    Mat3(1.0, dt, 0.5 * dt * dt,
         0.0, 1.0, dt,
         0.0, 0.0, 1.0)
  }

  /** H, which observes the value component only. */
  const Select2: Vec2 := Vec2(1.0, 0.0)
  const Select3: Vec3 := Vec3(1.0, 0.0, 0.0)

  // ----------------------------------------------------------- predict step

  /** `F @ P @ F.T + Q` */
  function PredictCov2(f: Mat2, p: Mat2, q: Mat2): Mat2 {
    Add2(Mul2(Mul2(f, p), Transpose2(f)), q)
  }

  function PredictCov3(f: Mat3, p: Mat3, q: Mat3): Mat3 {
    Add3(Mul3(Mul3(f, p), Transpose3(f)), q)
  }

  /** One constant-velocity step: the value advances by dt times the rate. */
  lemma {:induction false} PredictKinematics2(dt: real, x: Vec2)
    ensures Apply2(Transition2(dt), x) == Vec2(x.x0 + dt * x.x1, x.x1)
  {
  }

  /** One constant-acceleration step: value + dt rate + dt^2/2 acc, rate + dt acc. */
  lemma {:induction false} PredictKinematics3(dt: real, x: Vec3)
    ensures Apply3(Transition3(dt), x)
         == Vec3(x.x0 + dt * x.x1 + 0.5 * dt * dt * x.x2, x.x1 + dt * x.x2, x.x2)
  {
    var f := Transition3(dt);
    assert f.a00 == 1.0 && f.a01 == dt && f.a02 == 0.5 * dt * dt;
    assert f.a10 == 0.0 && f.a11 == 1.0 && f.a12 == dt;
    assert f.a20 == 0.0 && f.a21 == 0.0 && f.a22 == 1.0;
  }

  /** The covariance step keeps a symmetric covariance symmetric (Q is diagonal). */
  lemma PredictCovSymmetric2(f: Mat2, p: Mat2, d: real)
    requires Symmetric2(p)
    ensures Symmetric2(PredictCov2(f, p, Diag2(d)))
  {
    CongruenceSymmetric2(f, p, Diag2(d));
  }

  lemma PredictCovSymmetric3(f: Mat3, p: Mat3, d: real)
    requires Symmetric3(p)
    ensures Symmetric3(PredictCov3(f, p, Diag3(d)))
  {
    CongruenceSymmetric3(f, p, Diag3(d));
  }

  // ----------------------------------------------------------- correct step

  /** S = `H @ P @ H.T + R` */
  function InnovationVariance2(h: Vec2, p: Mat2, r: real): real {
    Dot2(RowMul2(h, p), h) + r
  }

  function InnovationVariance3(h: Vec3, p: Mat3, r: real): real {
    Dot3(RowMul3(h, p), h) + r
  }

  /** K = `P @ H.T / S` */
  function Gain2(p: Mat2, h: Vec2, r: real): Vec2
    requires InnovationVariance2(h, p, r) != 0.0
  {
    DivVec2(Apply2(p, h), InnovationVariance2(h, p, r))
  }

  function Gain3(p: Mat3, h: Vec3, r: real): Vec3
    requires InnovationVariance3(h, p, r) != 0.0
  {
    DivVec3(Apply3(p, h), InnovationVariance3(h, p, r))
  }

  /** `state += K @ (m - H @ state)` */
  function CorrectState2(x: Vec2, p: Mat2, h: Vec2, r: real, m: real): Vec2
    requires InnovationVariance2(h, p, r) != 0.0
  {
    AddVec2(x, ScaleVec2(Gain2(p, h, r), m - Dot2(h, x)))
  }

  function CorrectState3(x: Vec3, p: Mat3, h: Vec3, r: real, m: real): Vec3
    requires InnovationVariance3(h, p, r) != 0.0
  {
    AddVec3(x, ScaleVec3(Gain3(p, h, r), m - Dot3(h, x)))
  }

  /** `P = (I - K @ H) @ P` */
  function CorrectCov2(p: Mat2, h: Vec2, r: real): Mat2
    requires InnovationVariance2(h, p, r) != 0.0
  {
    Mul2(Sub2(Identity2(), Outer2(Gain2(p, h, r), h)), p)
  }

  function CorrectCov3(p: Mat3, h: Vec3, r: real): Mat3
    requires InnovationVariance3(h, p, r) != 0.0
  {
    Mul3(Sub3(Identity3(), Outer3(Gain3(p, h, r), h)), p)
  }

  // --------------------------------------- the correct step in closed form

  /** Observing the value component, S is the value's variance plus R. */
  lemma InnovationVarianceSelect(p2: Mat2, p3: Mat3, r: real)
    ensures InnovationVariance2(Select2, p2, r) == p2.a00 + r
    ensures InnovationVariance3(Select3, p3, r) == p3.a00 + r
  {
  }

  /** The constant-velocity correction in closed form: each component moves by
      its covariance with the value, over S, times the innovation; the
      covariance loses the outer product of its first column over S. */
  lemma CorrectClosedForm2(x: Vec2, p: Mat2, r: real, m: real)
    requires p.a00 + r != 0.0
    ensures InnovationVariance2(Select2, p, r) == p.a00 + r
    ensures CorrectState2(x, p, Select2, r, m)
         == Vec2(x.x0 + p.a00 / (p.a00 + r) * (m - x.x0),
                 x.x1 + p.a10 / (p.a00 + r) * (m - x.x0))
    ensures CorrectCov2(p, Select2, r) == CorrectedCov2(p, r)
  {
    var s := p.a00 + r;
    assert Dot2(Select2, x) == x.x0;
    assert Apply2(p, Select2) == Vec2(p.a00, p.a10);
    assert Gain2(p, Select2, r) == Vec2(p.a00 / s, p.a10 / s);
  }

  lemma CorrectClosedForm3(x: Vec3, p: Mat3, r: real, m: real)
    requires p.a00 + r != 0.0
    ensures InnovationVariance3(Select3, p, r) == p.a00 + r
    ensures CorrectState3(x, p, Select3, r, m)
         == Vec3(x.x0 + p.a00 / (p.a00 + r) * (m - x.x0),
                 x.x1 + p.a10 / (p.a00 + r) * (m - x.x0),
                 x.x2 + p.a20 / (p.a00 + r) * (m - x.x0))
    ensures CorrectCov3(p, Select3, r) == CorrectedCov3(p, r)
  {
    GainSelect3(p, r);
    assert Dot3(Select3, x) == x.x0;
    KeepMinusOuter3(Gain3(p, Select3, r), p);
  }

  /** Observing the value, the gain is the first column of P over S. */
  lemma GainSelect3(p: Mat3, r: real)
    requires p.a00 + r != 0.0
    ensures InnovationVariance3(Select3, p, r) == p.a00 + r
    ensures Gain3(p, Select3, r) == Vec3(p.a00 / (p.a00 + r), p.a10 / (p.a00 + r), p.a20 / (p.a00 + r))
  {
    assert Apply3(p, Select3) == Vec3(p.a00, p.a10, p.a20);
  }

  /** `(I - g @ H) @ P` with H observing the value: row i of P loses g[i]
      times the first row of P. */
  lemma KeepMinusOuter3(g: Vec3, p: Mat3)
    ensures Mul3(Sub3(Identity3(), Outer3(g, Select3)), p) == ShrinkByGain3(g, p)
  {
    var a := Sub3(Identity3(), Outer3(g, Select3));
    assert a == Mat3(1.0 - g.x0, 0.0, 0.0, -g.x1, 1.0, 0.0, -g.x2, 0.0, 1.0);
    ShrinkRows3(g, p);
  }

  /** The product of the previous lemma, entry by entry. */
  lemma ShrinkRows3(g: Vec3, p: Mat3)
    ensures Mul3(Mat3(1.0 - g.x0, 0.0, 0.0, -g.x1, 1.0, 0.0, -g.x2, 0.0, 1.0), p)
         == ShrinkByGain3(g, p)
  {
    var m := Mul3(Mat3(1.0 - g.x0, 0.0, 0.0, -g.x1, 1.0, 0.0, -g.x2, 0.0, 1.0), p);
    assert m.a00 == p.a00 - g.x0 * p.a00;
    assert m.a01 == p.a01 - g.x0 * p.a01;
    assert m.a02 == p.a02 - g.x0 * p.a02;
  }

  /** The scalar heart of every correction: the value moves from `v` towards
      `m` by the gain pv / (pv + r), and its variance becomes pv r / (pv + r). */
  function CorrectedValue(v: real, pv: real, r: real, m: real): real
    requires pv + r != 0.0
  {
    v + pv / (pv + r) * (m - v)
  }

  function CorrectedVariance(pv: real, r: real): real
    requires pv + r != 0.0
  {
    pv - pv / (pv + r) * pv
  }

  /** With a positive variance and a positive R the corrected value lies
      strictly between the prior value and the measurement. */
  lemma {:induction false} CorrectedValueBetween(v: real, pv: real, r: real, m: real)
    requires pv > 0.0 && r > 0.0 && v != m
    ensures v < m ==> v < CorrectedValue(v, pv, r, m) < m
    ensures m < v ==> m < CorrectedValue(v, pv, r, m) < v
  {
    var g := pv / (pv + r);
    assert 0.0 < g < 1.0 by {
      assert pv < pv + r;
    }
    if v < m {
      assert 0.0 < g * (m - v) < m - v by {
        MulBelow(g, m - v);
      }
    } else {
      assert 0.0 < g * (v - m) < v - m by {
        MulBelow(g, v - m);
      }
      assert g * (m - v) == -(g * (v - m));
    }
  }

  /** 0 < g < 1 and d > 0 give 0 < g d < d. */
  lemma MulBelow(g: real, d: real)
    requires 0.0 < g < 1.0 && d > 0.0
    ensures 0.0 < g * d < d
  {
    assert d - g * d == (1.0 - g) * d;
  }

  /** A measurement equal to the current value changes nothing. */
  lemma CorrectedValueFixed(v: real, pv: real, r: real)
    requires pv + r != 0.0
    ensures CorrectedValue(v, pv, r, v) == v
  {
  }

  /** The corrected variance is pv r / (pv + r); when pv + r > 0 it never
      exceeds pv. */
  lemma {:induction false} CorrectedVarianceShrinks(pv: real, r: real)
    requires pv + r != 0.0
    ensures CorrectedVariance(pv, r) == pv * r / (pv + r)
    ensures pv + r > 0.0 ==> CorrectedVariance(pv, r) <= pv
  {
    var s := pv + r;
    assert pv / s * pv == pv * pv / s;
    assert pv - pv * pv / s == (pv * s - pv * pv) / s;
    assert pv * s - pv * pv == pv * r;
    if s > 0.0 {
      assert pv * r / s <= pv by {
        assert pv * s == pv * pv + pv * r;
        assert pv * r <= pv * s;
        DivLe(pv * r, pv * s, s);
        assert pv * s / s == pv;
      }
    }
  }

  lemma DivLe(a: real, b: real, s: real)
    requires s > 0.0 && a <= b
    ensures a / s <= b / s
  {
  }

  /** P with row i reduced by g[i] times the first row of P. */
  function ShrinkByGain2(g: Vec2, p: Mat2): Mat2 {
    Mat2(p.a00 - g.x0 * p.a00, p.a01 - g.x0 * p.a01,
         p.a10 - g.x1 * p.a00, p.a11 - g.x1 * p.a01)
  }

  function ShrinkByGain3(g: Vec3, p: Mat3): Mat3 {
    Mat3(p.a00 - g.x0 * p.a00, p.a01 - g.x0 * p.a01, p.a02 - g.x0 * p.a02,
         p.a10 - g.x1 * p.a00, p.a11 - g.x1 * p.a01, p.a12 - g.x1 * p.a02,
         p.a20 - g.x2 * p.a00, p.a21 - g.x2 * p.a01, p.a22 - g.x2 * p.a02)
  }

  /** The corrected covariance in closed form: P minus the outer product of
      its first column with its first row, over S = P[0][0] + R. */
  function CorrectedCov2(p: Mat2, r: real): Mat2
    requires p.a00 + r != 0.0
  {
    ShrinkByGain2(Vec2(p.a00 / (p.a00 + r), p.a10 / (p.a00 + r)), p)
  }

  function CorrectedCov3(p: Mat3, r: real): Mat3
    requires p.a00 + r != 0.0
  {
    ShrinkByGain3(Vec3(p.a00 / (p.a00 + r), p.a10 / (p.a00 + r), p.a20 / (p.a00 + r)), p)
  }

  /** The closed form is symmetric whenever P is. */
  lemma {:induction false} CorrectedCovSymmetric2(p: Mat2, r: real)
    requires Symmetric2(p) && p.a00 + r != 0.0
    ensures Symmetric2(CorrectedCov2(p, r))
  {
    SwapOverS(p.a00, p.a01, p.a00 + r);
  }

  lemma {:induction false} CorrectedCovSymmetric3(p: Mat3, r: real)
    requires Symmetric3(p) && p.a00 + r != 0.0
    ensures Symmetric3(CorrectedCov3(p, r))
  {
    var s := p.a00 + r;
    var c := CorrectedCov3(p, r);
    SwapOverS(p.a00, p.a01, s);
    SubEq(p.a01, p.a10, p.a00 / s * p.a01, p.a10 / s * p.a00);
    assert c.a01 == c.a10;
    SwapOverS(p.a00, p.a02, s);
    SubEq(p.a02, p.a20, p.a00 / s * p.a02, p.a20 / s * p.a00);
    assert c.a02 == c.a20;
    assert c.a12 == p.a12 - p.a10 / s * p.a02 && c.a21 == p.a21 - p.a20 / s * p.a01;
    CrossTermsAgree(p.a10, p.a01, p.a02, p.a20, s);
    SubEq(p.a12, p.a21, p.a10 / s * p.a02, p.a20 / s * p.a01);
  }

  /** The (1,2) and (2,1) corrections agree on a symmetric P. */
  lemma CrossTermsAgree(a10: real, a01: real, a02: real, a20: real, s: real)
    requires a10 == a01 && a02 == a20 && s != 0.0
    ensures a10 / s * a02 == a20 / s * a01
  {
    SwapOverS(a10, a02, s);
  }

  lemma SubEq(a: real, b: real, u: real, v: real)
    requires a == b && u == v
    ensures a - u == b - v
  {
  }

  /** (a / s) b == (b / s) a: the two off-diagonal corrections agree. */
  lemma SwapOverS(a: real, b: real, s: real)
    requires s != 0.0
    ensures a / s * b == b / s * a
  {
    assert a / s * b == a * b / s;
    assert b / s * a == b * a / s;
  }

  /** What a correction observing the value does to the value and its
      variance, and that observing the predicted value changes nothing. */
  lemma CorrectSummary3(x: Vec3, p: Mat3, r: real, m: real)
    requires p.a00 + r != 0.0
    ensures InnovationVariance3(Select3, p, r) == p.a00 + r
    ensures CorrectState3(x, p, Select3, r, m).x0 == CorrectedValue(x.x0, p.a00, r, m)
    ensures CorrectCov3(p, Select3, r).a00 == CorrectedVariance(p.a00, r)
    ensures m == x.x0 ==> CorrectState3(x, p, Select3, r, m) == x
  {
    CorrectClosedForm3(x, p, r, m);
    if m == x.x0 {
      CorrectFixed3(x, p, r);
    }
  }

  /** Observing exactly the predicted value scales the gain by zero. */
  lemma CorrectFixed3(x: Vec3, p: Mat3, r: real)
    requires InnovationVariance3(Select3, p, r) != 0.0
    ensures CorrectState3(x, p, Select3, r, x.x0) == x
  {
    assert Dot3(Select3, x) == x.x0;
  }

  /** The correction keeps a symmetric covariance symmetric. */
  lemma CorrectCovSymmetric2(p: Mat2, r: real)
    requires Symmetric2(p) && p.a00 + r != 0.0
    ensures Symmetric2(CorrectCov2(p, Select2, r))
  {
    CorrectClosedForm2(Vec2(0.0, 0.0), p, r, 0.0);
    CorrectedCovSymmetric2(p, r);
  }

  lemma CorrectCovSymmetric3(p: Mat3, r: real)
    requires Symmetric3(p) && p.a00 + r != 0.0
    ensures Symmetric3(CorrectCov3(p, Select3, r))
  {
    CorrectClosedForm3(Vec3(0.0, 0.0, 0.0), p, r, 0.0);
    CorrectedCovSymmetric3(p, r);
  }
}
