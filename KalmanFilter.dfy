/** filter/kalman_filter.py: the constant-velocity and constant-acceleration
    estimators. Each keeps its state vector and covariance as fields that
    `predict` and `update` overwrite; the transition, noise and observation
    matrices are fixed when the object is built. */
module Filters {
  import opened Values
  import opened Matrix
  import opened Kalman
  import Confidence

  /** `KalmanFilter2D`: state [value, rate]. */
  class KalmanFilter2D {
    var state: Vec2
    var P: Mat2
    const dt: real
    const Q: Mat2
    const R: real
    const H: Vec2
    const I: Mat2
    const F: Mat2

    /** The fixed matrices have the shapes the constructor gives them, and the
        covariance is symmetric. */
    ghost predicate Valid()
      reads this
    {
      F == Transition2(dt) && H == Select2 && I == Identity2()
      && Q == Diag2(Q.a00) && Symmetric2(P)
    }

    constructor (initialValue: real, initialRate: real, initialVariance: real,
                 dt: real, processNoise: real, measurementNoise: real)
      ensures Valid()
      ensures state == Vec2(initialValue, initialRate) && P == Diag2(initialVariance)
      ensures this.dt == dt && Q == Diag2(processNoise) && R == measurementNoise
    {
      state := Vec2(initialValue, initialRate);
      P := Diag2(initialVariance);
      this.dt := dt;
      Q := Diag2(processNoise);
      R := measurementNoise;
      H := Select2;
      I := Identity2();
      F := Transition2(dt);
    }

    /** The value advances by dt times the rate; P becomes F P F^T + Q. */
    method Predict()
      requires Valid()
      modifies this
      ensures Valid()
      ensures state == Apply2(F, old(state))
      ensures state == Vec2(old(state).x0 + dt * old(state).x1, old(state).x1)
      ensures P == PredictCov2(F, old(P), Q)
    {
      PredictKinematics2(dt, state);
      PredictCovSymmetric2(F, P, Q.a00);
      state := Apply2(F, state);
      P := PredictCov2(F, P, Q);
    }

    /** Whether `update` is defined: S = P[0][0] + R is its divisor. */
    predicate CanUpdate()
      reads this
    {
      P.a00 + R != 0.0
    }

    /** Folds in one measurement of the value component. */
    method Update(measurement: real)
      requires Valid() && CanUpdate()
      modifies this
      ensures Valid()
      ensures state == CorrectState2(old(state), old(P), H, R, measurement)
      ensures P == CorrectCov2(old(P), H, R)
      ensures state.x0 == CorrectedValue(old(state).x0, old(P).a00, R, measurement)
      ensures P.a00 == CorrectedVariance(old(P).a00, R)
      ensures measurement == old(state).x0 ==> state == old(state)
    {
      CorrectClosedForm2(state, P, R, measurement);
      CorrectCovSymmetric2(P, R);
      var y := measurement - Dot2(H, state);
      var S := InnovationVariance2(H, P, R);
      var K := DivVec2(Apply2(P, H), S);
      state := AddVec2(state, ScaleVec2(K, y));
      P := Mul2(Sub2(I, Outer2(K, H)), P);
    }

    function GetType(): string { "2D" }

    function GetValue(): real
      reads this
    {
      state.x0
    }

    function GetRate(): real
      reads this
    {
      state.x1
    }

    /** The covariance as a 2 x 2 matrix; `compute_confidence` accepts it and
        reads its top-left entry. */
    function GetCovariance(): (m: seq<seq<real>>)
      reads this
      ensures Confidence.ComputeConfidence(m) == Ok(Confidence.ConfidenceOf(P.a00))
    {
      Rows2(P)
    }
  }

  /** `KalmanFilter3D`: state [value, rate, acceleration]. */
  class KalmanFilter3D {
    var state: Vec3
    var P: Mat3
    const dt: real
    const Q: Mat3
    const R: real
    const H: Vec3
    const I: Mat3
    const F: Mat3

    ghost predicate Valid()
      reads this
    {
      F == Transition3(dt) && H == Select3 && I == Identity3()
      && Q == Diag3(Q.a00) && Symmetric3(P)
    }

    constructor (initialValue: real, initialRate: real, initialAcceleration: real,
                 initialVariance: real, dt: real, processNoise: real, measurementNoise: real)
      ensures Valid()
      ensures state == Vec3(initialValue, initialRate, initialAcceleration)
      ensures P == Diag3(initialVariance)
      ensures this.dt == dt && Q == Diag3(processNoise) && R == measurementNoise
    {
      this.dt := dt;
      state := Vec3(initialValue, initialRate, initialAcceleration);
      P := Diag3(initialVariance);
      Q := Diag3(processNoise);
      H := Select3;
      R := measurementNoise;
      I := Identity3();
      F := Transition3(dt);
    }

    /** value + dt rate + dt^2/2 acceleration, rate + dt acceleration; P
        becomes F P F^T + Q. */
    method Predict()
      requires Valid()
      modifies this
      ensures Valid()
      ensures state == Vec3(old(state).x0 + dt * old(state).x1 + 0.5 * dt * dt * old(state).x2,
                            old(state).x1 + dt * old(state).x2,
                            old(state).x2)
      ensures P == PredictCov3(F, old(P), Q)
    {
      PredictKinematics3(dt, state);
      PredictCovSymmetric3(F, P, Q.a00);
      state := Apply3(F, state);
      P := PredictCov3(F, P, Q);
    }

    predicate CanUpdate()
      reads this
    {
      P.a00 + R != 0.0
    }

    method Update(measurement: real)
      requires Valid() && CanUpdate()
      modifies this
      ensures Valid()
      ensures state == CorrectState3(old(state), old(P), H, R, measurement)
      ensures P == CorrectCov3(old(P), H, R)
      ensures state.x0 == CorrectedValue(old(state).x0, old(P).a00, R, measurement)
      ensures P.a00 == CorrectedVariance(old(P).a00, R)
      ensures measurement == old(state).x0 ==> state == old(state)
    {
      CorrectSummary3(state, P, R, measurement);
      CorrectCovSymmetric3(P, R);
      var y := measurement - Dot3(H, state);
      var S := InnovationVariance3(H, P, R);
      var K := DivVec3(Apply3(P, H), S);
      state := AddVec3(state, ScaleVec3(K, y));
      P := Mul3(Sub3(I, Outer3(K, H)), P);
    }

    function GetType(): string { "3D" }

    function GetValue(): real
      reads this
    {
      state.x0
    }

    function GetRate(): real
      reads this
    {
      state.x1
    }

    function GetAcceleration(): real
      reads this
    {
      state.x2
    }

    function GetCovariance(): (m: seq<seq<real>>)
      reads this
      ensures Confidence.ComputeConfidence(m) == Ok(Confidence.ConfidenceOf(P.a00))
    {
      Rows3(P)
    }
  }

  /** A filter object of either kind, as the managers hold them. */
  datatype AnyFilter = Cv(cv: KalmanFilter2D) | Ca(ca: KalmanFilter3D)

  function Obj(f: AnyFilter): object {
    match f
    case Cv(k) => k
    case Ca(k) => k
  }

  /** Two filters on the same object are the same filter: objects of the
      two classes are never equal. */
  lemma ObjInjective(f: AnyFilter, g: AnyFilter)
    ensures Obj(f) == Obj(g) ==> f == g
  {
  }

  ghost predicate FilterValid(f: AnyFilter)
    reads Obj(f)
  {
    match f
    case Cv(k) => k.Valid()
    case Ca(k) => k.Valid()
  }

  /** `get_type()`: the tag names the kind of filter. */
  function TypeOf(f: AnyFilter): (t: string)
    ensures t == "2D" <==> f.Cv?
    ensures t == "3D" <==> f.Ca?
  {
    match f
    case Cv(k) => k.GetType()
    case Ca(k) => k.GetType()
  }

  function ValueOf(f: AnyFilter): real
    reads Obj(f)
  {
    match f
    case Cv(k) => k.GetValue()
    case Ca(k) => k.GetValue()
  }

  /** The top-left covariance entry, the variance of the value component. */
  function ValueVariance(f: AnyFilter): real
    reads Obj(f)
  {
    match f
    case Cv(k) => k.P.a00
    case Ca(k) => k.P.a00
  }

  function CovarianceOf(f: AnyFilter): (m: seq<seq<real>>)
    reads Obj(f)
    ensures Confidence.ComputeConfidence(m) == Ok(Confidence.ConfidenceOf(ValueVariance(f)))
  {
    match f
    case Cv(k) => k.GetCovariance()
    case Ca(k) => k.GetCovariance()
  }

  /** R, the measurement noise. */
  function NoiseOf(f: AnyFilter): real {
    match f
    case Cv(k) => k.R
    case Ca(k) => k.R
  }

  /** The value component `predict` will produce: F applied to the state. */
  function PredictedValue(f: AnyFilter): real
    reads Obj(f)
  {
    match f
    case Cv(k) => Apply2(k.F, k.state).x0
    case Ca(k) => Apply3(k.F, k.state).x0
  }

  /** The value variance `predict` will produce: the top-left entry of F P F^T + Q. */
  function PredictedVariance(f: AnyFilter): real
    reads Obj(f)
  {
    match f
    case Cv(k) => PredictCov2(k.F, k.P, k.Q).a00
    case Ca(k) => PredictCov3(k.F, k.P, k.Q).a00
  }

  predicate CanUpdate(f: AnyFilter)
    reads Obj(f)
  {
    match f
    case Cv(k) => k.CanUpdate()
    case Ca(k) => k.CanUpdate()
  }

  /** `kf.predict()` on a filter of either kind. */
  method PredictAny(f: AnyFilter)
    requires FilterValid(f)
    modifies Obj(f)
    ensures FilterValid(f)
    ensures f.Cv? ==> f.cv.state == Vec2(old(f.cv.state).x0 + f.cv.dt * old(f.cv.state).x1, old(f.cv.state).x1)
    ensures f.Ca? ==> f.ca.state == Apply3(Transition3(f.ca.dt), old(f.ca.state))
    ensures ValueOf(f) == old(PredictedValue(f)) && ValueVariance(f) == old(PredictedVariance(f))
  {
    match f
    case Cv(k) => k.Predict();
    case Ca(k) =>
      PredictKinematics3(k.dt, k.state);
      k.Predict();
  }

  /** `kf.update(m)` on a filter of either kind. */
  method UpdateAny(f: AnyFilter, measurement: real)
    requires FilterValid(f) && CanUpdate(f)
    modifies Obj(f)
    ensures FilterValid(f)
    ensures ValueOf(f) == CorrectedValue(old(ValueOf(f)), old(ValueVariance(f)), (if f.Cv? then f.cv.R else f.ca.R), measurement)
    ensures ValueVariance(f) == CorrectedVariance(old(ValueVariance(f)), if f.Cv? then f.cv.R else f.ca.R)
  {
    match f
    case Cv(k) => k.Update(measurement);
    case Ca(k) => k.Update(measurement);
  }

  /** Every filter of a table keeps its fixed matrices and a symmetric
      covariance. */
  ghost predicate AllValid(filters: map<string, AnyFilter>)
    reads set id | id in filters :: Obj(filters[id])
  {
    forall id :: id in filters ==> FilterValid(filters[id])
  }

  /** `kf = filters[id]; kf.predict(); kf.update(value)` with a decoded
      value: the prediction always happens; a value that is not a number
      (booleans count as 0 and 1) makes the update raise, and so does a zero
      divisor S, and then the filter keeps its predicted state. Otherwise
      the value component moves towards the measurement from the predicted
      value. Only that one filter changes. */
  method PredictThenUpdate(filters: map<string, AnyFilter>, id: string, value: Json) returns (r: Result<(), PyError>)
    requires id in filters && AllValid(filters)
    modifies Obj(filters[id])
    ensures AllValid(filters)
    ensures var f := filters[id];
            (r.Err? <==> AsNumber(value).None? || old(PredictedVariance(f)) + NoiseOf(f) == 0.0)
            && (AsNumber(value).None? ==> r == Err(NotANumber))
            && (AsNumber(value).Some? && old(PredictedVariance(f)) + NoiseOf(f) == 0.0 ==> r == Err(ZeroDivisionError))
            && (r.Err? ==> ValueOf(f) == old(PredictedValue(f)) && ValueVariance(f) == old(PredictedVariance(f)))
            && (r.Ok? ==>
                  ValueOf(f) == CorrectedValue(old(PredictedValue(f)), old(PredictedVariance(f)), NoiseOf(f),
                                               AsNumber(value).value)
                  && ValueVariance(f) == CorrectedVariance(old(PredictedVariance(f)), NoiseOf(f)))
  {
    var f := filters[id];
    PredictAny(f);
    var m := AsNumber(value);
    if m.None? {
      r := Err(NotANumber);
    } else if !CanUpdate(f) {
      r := Err(ZeroDivisionError);
    } else {
      UpdateAny(f, m.value);
      r := Ok(());
    }
    forall other | other in filters
      ensures FilterValid(filters[other])
    {
      ObjInjective(filters[other], f);
    }
  }

  /** What numpy raises when the measurement is not a number. */
  const NotANumber: PyError := TypeError("unsupported operand type(s) for -")
}
