/** filter/confidence.py: how sure an estimator is of its value component,
    read off the top-left entry of its covariance. */
module Confidence {
  import opened Values

  const MalformedMessage: string := "Covariance matrix is empty or malformed."

  /** `max(0.0, min(1.0, x))` */
  function Clamp01(x: real): (r: real)
    ensures 0.0 <= r <= 1.0
    ensures 0.0 <= x <= 1.0 ==> r == x
    ensures x < 0.0 ==> r == 0.0
    ensures x > 1.0 ==> r == 1.0
  {
    if x < 0.0 then 0.0 else if x > 1.0 then 1.0 else x
  }

  /** clamp(1 / (1 + variance)). With numpy scalars a zero denominator gives
      +inf rather than an exception, and the clamp turns that into 1.0. */
  function ConfidenceOf(variance: real): (r: real)
    ensures 0.0 <= r <= 1.0
  {
    if 1.0 + variance == 0.0 then 1.0 else Clamp01(1.0 / (1.0 + variance))
  }

  /** `compute_confidence(cov_matrix)`, the matrix given by its rows. */
  function ComputeConfidence(cov: seq<seq<real>>): (r: Result<real, PyError>)
    ensures r.Err? <==> |cov| == 0 || |cov[0]| == 0
    ensures r.Err? ==> r.error == ValueError(MalformedMessage)
    ensures r.Ok? ==> 0.0 <= r.value <= 1.0
  {
    if |cov| < 1 || |cov[0]| < 1 then Err(ValueError(MalformedMessage))
    else Ok(ConfidenceOf(cov[0][0]))
  }

  /** Only the top-left entry matters. */
  lemma OnlyTopLeftMatters(a: seq<seq<real>>, b: seq<seq<real>>)
    requires |a| > 0 && |a[0]| > 0 && |b| > 0 && |b[0]| > 0
    requires a[0][0] == b[0][0]
    ensures ComputeConfidence(a) == ComputeConfidence(b)
  {
  }

  /** For a non-negative variance the clamp never acts: the result is exactly
      1 / (1 + variance), and a variance of zero gives full confidence. */
  lemma {:induction false} ConfidenceUnclamped(variance: real)
    requires variance >= 0.0
    ensures ConfidenceOf(variance) == 1.0 / (1.0 + variance)
    ensures variance == 0.0 ==> ConfidenceOf(variance) == 1.0
  {
    Reciprocal(1.0, 1.0 + variance);
  }

  /** More variance never means more confidence (for variances above -1,
      where 1 + variance is positive). */
  lemma {:induction false} ConfidenceMonotone(v1: real, v2: real)
    requires -1.0 < v1 <= v2
    ensures ConfidenceOf(v2) <= ConfidenceOf(v1)
  {
    Reciprocal(1.0 + v1, 1.0 + v2);
  }

  /** 0 < d1 <= d2 gives 0 < 1/d2 <= 1/d1. */
  lemma Reciprocal(d1: real, d2: real)
    requires 0.0 < d1 <= d2
    ensures 0.0 < 1.0 / d2 <= 1.0 / d1
  {
    assert 1.0 / d1 - 1.0 / d2 == (d2 - d1) / (d1 * d2);
  }

  /** A large variance gives almost no confidence; a tiny one, almost full. */
  lemma {:induction false} ConfidenceExtremes()
    ensures ConfidenceOf(1000.0) < 0.01
    ensures ConfidenceOf(0.01) > 0.99
  {
    ConfidenceUnclamped(1000.0);
    ConfidenceUnclamped(0.01);
  }
}
