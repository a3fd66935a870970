/** app/imputation/predictors/Predictor.py: the predictor the imputers use, a
    constant-acceleration estimator named "kalman" whose `predict` and
    `update` return the new value component. */
module Predictors {
  import opened Values
  import opened Matrix
  import opened Kalman
  import Confidence

  const PredictorName: string := "kalman"

  /** `KalmanFilter(BasePredictor)`: state [value, rate, acceleration]. */
  class KalmanFilter {
    const name: string
    var state: Vec3
    var P: Mat3
    const dt: real
    const Q: Mat3
    const H: Vec3
    const R: real
    const I: Mat3
    const F: Mat3

    ghost predicate Valid()
      reads this
    {
      name == PredictorName && F == Transition3(dt) && H == Select3 && I == Identity3()
      && Q == Diag3(Q.a00) && Symmetric3(P)
    }

    constructor (initialValue: real, initialRate: real, initialAcceleration: real,
                 initialVariance: real, dt: real, processNoise: real, measurementNoise: real)
      ensures Valid()
      ensures state == Vec3(initialValue, initialRate, initialAcceleration)
      ensures P == Diag3(initialVariance)
      ensures this.dt == dt && Q == Diag3(processNoise) && R == measurementNoise
    {
      name := PredictorName;
      this.dt := dt;
      state := Vec3(initialValue, initialRate, initialAcceleration);
      P := Diag3(initialVariance);
      Q := Diag3(processNoise);
      H := Select3;
      R := measurementNoise;
      I := Identity3();
      F := Transition3(dt);
    }

    /** Advances the constant-acceleration model one step and returns the new
        value component. */
    method Predict() returns (v: real)
      requires Valid()
      modifies this
      ensures Valid()
      ensures state == Vec3(old(state).x0 + dt * old(state).x1 + 0.5 * dt * dt * old(state).x2,
                            old(state).x1 + dt * old(state).x2,
                            old(state).x2)
      ensures state == Apply3(F, old(state))
      ensures P == PredictCov3(F, old(P), Q)
      ensures v == GetValue()
    {
      PredictKinematics3(dt, state);
      PredictCovSymmetric3(F, P, Q.a00);
      state := Apply3(F, state);
      P := PredictCov3(F, P, Q);
      v := state.x0;
    }

    /** Folds in an observation and returns the new value component. The
        observation is the decoded event value: anything but a number (or a
        boolean, which numpy treats as 0 or 1) makes the arithmetic raise
        before anything changes, and so does a zero divisor S. */
    method Update(observed: Json) returns (r: Result<real, PyError>)
      requires Valid()
      modifies this
      ensures Valid()
      ensures r.Err? <==> AsNumber(observed).None? || old(P.a00) + R == 0.0
      ensures r.Err? ==> state == old(state) && P == old(P)
      ensures r.Ok? ==> (state == CorrectState3(old(state), old(P), H, R, AsNumber(observed).value)
                         && P == CorrectCov3(old(P), H, R)
                         && state.x0 == CorrectedValue(old(state).x0, old(P).a00, R, AsNumber(observed).value)
                         && r.value == GetValue())
    {
      var m := AsNumber(observed);
      if m.None? {
        return Err(TypeError("unsupported operand type(s) for -"));
      }
      if P.a00 + R == 0.0 {
        return Err(ZeroDivisionError);
      }
      Correct(m.value);
      r := Ok(state.x0);
    }

    /** The arithmetic of `update` once the measurement is a number. */
    method Correct(measurement: real)
      requires Valid() && P.a00 + R != 0.0
      modifies this
      ensures Valid()
      ensures state == CorrectState3(old(state), old(P), H, R, measurement)
      ensures P == CorrectCov3(old(P), H, R)
      ensures state.x0 == CorrectedValue(old(state).x0, old(P).a00, R, measurement)
    {
      CorrectClosedForm3(state, P, R, measurement);
      CorrectCovSymmetric3(P, R);
      var y := measurement - Dot3(H, state);
      var S := InnovationVariance3(H, P, R);
      var K := DivVec3(Apply3(P, H), S);
      state := AddVec3(state, ScaleVec3(K, y));
      P := Mul3(Sub3(I, Outer3(K, H)), P);
    }

    /** `confidence()`: the same clamp as `compute_confidence`, computed on
        the predictor's own covariance. */
    function GetConfidence(): (c: real)
      reads this
      ensures 0.0 <= c <= 1.0
      ensures Confidence.ComputeConfidence(GetCovariance()) == Ok(c)
    {
      var variance := P.a00;
      if 1.0 + variance == 0.0 then 1.0
      else var confidence := 1.0 / (1.0 + variance);
           if confidence < 0.0 then 0.0 else if confidence > 1.0 then 1.0 else confidence
    }

    function GetValue(): real
      reads this
    {
      state.x0
    }

    function GetRate(): real
      reads this
    {
      state.x1
    }

    function GetAcceleration(): real
      reads this
    {
      state.x2
    }

    function GetCovariance(): seq<seq<real>>
      reads this
    {
      Rows3(P)
    }
  }
}
