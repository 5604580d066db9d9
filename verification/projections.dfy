/** Decomposition of a vector against a basis vector into a component
    parallel to the basis and a component orthogonal to it.

    The library normalises the basis first (dividing by its magnitude, a
    square root) and scales the normalised basis by `v . (b / |b|)`. In
    exact arithmetic that is `b` scaled by `(v . b) / (b . b)`, which needs
    no square root; `ParallelComponent` uses that form and
    `NormalisedFormAgrees` proves the two equal.
 */
module Projections {
  import opened Outcomes
  import opened Vectors

  /** Every coordinate is exactly zero: the vectors whose magnitude is 0. */
  predicate AllZero(b: seq<real>) {
    forall i :: 0 <= i < |b| ==> b[i] == 0.0
  }

  /** `p` is `b` scaled by some factor. */
  ghost predicate IsMultipleOf(p: seq<real>, b: seq<real>) {
    exists t :: p == TimesScalar(b, t)
  }

  /** `find_normalization_vector`, given the magnitude `|b|` that `sqrt`
      computes. Dividing by a zero magnitude fails; otherwise the result is
      a unit vector pointing the same way as `b`. */
  function Normalization(b: seq<real>, magnitude: real): (r: Result<seq<real>>)
    requires magnitude >= 0.0 && Mul(magnitude, magnitude) == Dot(b, b)
    ensures r.Err? <==> AllZero(b)
    ensures r.Err? ==> r.error == ZeroMagnitude
    ensures r.Ok? ==> |r.value| == |b| && Dot(r.value, r.value) == 1.0
    ensures r.Ok? ==> exists t :: t > 0.0 && r.value == TimesScalar(b, t)
  {
    DotSelf(b);
    SquareSign(magnitude);
    if magnitude == 0.0 then
      Err(ZeroMagnitude)
    else
      var k := 1.0 / magnitude;
      var n := TimesScalar(b, k);
      DotScaleLeft(b, k, n);
      DotSymmetric(b, n);
      DotScaleLeft(b, k, b);
      InverseCancels(magnitude, magnitude);
      assert k * magnitude == 1.0;
      Ok(n)
  }

  lemma InverseCancels(m: real, x: real)
    requires m != 0.0
    ensures (1.0 / m) * Mul(m, x) == x
  {
  }

  /** `find_v_parallel_to` in exact, square-root-free form. A zero basis
      fails; otherwise the result is a multiple of the basis whose
      difference from `v` is orthogonal to the basis. */
  function ParallelComponent(v: seq<real>, b: seq<real>): (r: Result<seq<real>>)
    ensures r.Err? <==> AllZero(b)
    ensures r.Err? ==> r.error == ZeroMagnitude
    ensures r.Ok? ==> |r.value| == |b| && IsMultipleOf(r.value, b)
    ensures r.Ok? && |b| <= |v| ==> Dot(Minus(v, r.value), b) == 0.0
  {
    DotSelf(b);
    if Dot(b, b) == 0.0 then
      Err(ZeroMagnitude)
    else
      var t := Dot(v, b) / Dot(b, b);
      var p := TimesScalar(b, t);
      ProjectionResidual(v, b, t);
      Ok(p)
  }

  /** The residual `v - t b` has dot product `v . b - t (b . b)` with `b`. */
  lemma ProjectionResidual(v: seq<real>, b: seq<real>, t: real)
    ensures |b| <= |v| ==> Dot(Minus(v, TimesScalar(b, t)), b) == Dot(v, b) - t * Dot(b, b)
  {
    if |b| <= |v| {
      DotMinusLeft(v, TimesScalar(b, t), b);
      DotScaleLeft(b, t, b);
    }
  }

  /** `find_v_orthongonal_to`: `v` minus its parallel component, failing
      exactly when the parallel component does. */
  function OrthogonalComponent(v: seq<real>, b: seq<real>): (r: Result<seq<real>>)
    ensures r.Err? <==> AllZero(b)
    ensures r.Err? ==> r.error == ZeroMagnitude
    ensures r.Ok? ==> |r.value| == Min(|v|, |b|)
    ensures r.Ok? && |b| <= |v| ==> Dot(r.value, b) == 0.0
  {
    match ParallelComponent(v, b)
    case Err(e) => Err(e)
    case Ok(p) => Ok(Minus(v, p))
  }

  /** The library's own route: normalise the basis, take the weight
      `v . n`, and scale `n` by it. */
  function ParallelViaNormalization(v: seq<real>, b: seq<real>, magnitude: real): (r: Result<seq<real>>)
    requires magnitude >= 0.0 && Mul(magnitude, magnitude) == Dot(b, b)
    ensures r.Err? <==> AllZero(b)
    ensures r.Err? ==> r.error == ZeroMagnitude
    ensures r.Ok? ==> |r.value| == |b| && IsMultipleOf(r.value, b)
  {
    match Normalization(b, magnitude)
    case Err(e) => Err(e)
    case Ok(n) =>
      var d := Dot(v, n);
      assert IsMultipleOf(TimesScalar(n, d), b) by {
        var t :| t > 0.0 && n == TimesScalar(b, t);
        ScaleComposes(b, t, d);
      }
      Ok(TimesScalar(n, d))
  }

  /** Scaling by `t` and then by `d` is scaling by `t d`. */
  lemma ScaleComposes(b: seq<real>, t: real, d: real)
    ensures TimesScalar(TimesScalar(b, t), d) == TimesScalar(b, t * d)
  {
    var lhs := TimesScalar(TimesScalar(b, t), d);
    var rhs := TimesScalar(b, t * d);
    forall i | 0 <= i < |b|
      ensures lhs[i] == rhs[i]
    {
      assert lhs[i] == d * (t * b[i]);
    }
  }

  lemma ScaleTwice(x: real, d: real, m: real, n: real)
    requires m != 0.0 && n != 0.0
    ensures (x * (1.0 / m)) * ((1.0 / n) * d) == x * (d / Mul(m, n))
  {
  }

  /** Scaling `b` by `1/m` and then by `(1/m) d` is scaling it by `d / (m m)`. */
  lemma ScaleByInverseTwice(b: seq<real>, d: real, m: real)
    requires m != 0.0
    ensures TimesScalar(TimesScalar(b, 1.0 / m), (1.0 / m) * d) == TimesScalar(b, d / Mul(m, m))
  {
    var lhs := TimesScalar(TimesScalar(b, 1.0 / m), (1.0 / m) * d);
    var rhs := TimesScalar(b, d / Mul(m, m));
    forall i | 0 <= i < |b|
      ensures lhs[i] == rhs[i]
    {
      ScaleTwice(b[i], d, m, m);
    }
  }

  /** For a nonzero magnitude the unit vector is `b / |b|` and its weight
      `v . n` is `(v . b) / |b|`. */
  lemma NormalisedWeight(v: seq<real>, b: seq<real>, magnitude: real)
    requires magnitude > 0.0 && Mul(magnitude, magnitude) == Dot(b, b)
    ensures Normalization(b, magnitude) == Ok(TimesScalar(b, 1.0 / magnitude))
    ensures Dot(v, TimesScalar(b, 1.0 / magnitude)) == (1.0 / magnitude) * Dot(v, b)
  {
    DotSymmetric(v, TimesScalar(b, 1.0 / magnitude));
    DotScaleLeft(b, 1.0 / magnitude, v);
    DotSymmetric(b, v);
  }

  /** For a nonzero magnitude the library's route scales `b / |b|` by
      `(v . b) / |b|`. */
  lemma NormalisedProjection(v: seq<real>, b: seq<real>, magnitude: real)
    requires magnitude > 0.0 && Mul(magnitude, magnitude) == Dot(b, b)
    ensures ParallelViaNormalization(v, b, magnitude)
         == Ok(TimesScalar(TimesScalar(b, 1.0 / magnitude), (1.0 / magnitude) * Dot(v, b)))
  {
    NormalisedWeight(v, b, magnitude);
  }

  /** For a nonzero magnitude, normalising first and projecting onto the
      unit vector gives exactly the square-root-free parallel component. */
  lemma NonzeroMagnitudeAgrees(v: seq<real>, b: seq<real>, magnitude: real)
    requires magnitude > 0.0 && Mul(magnitude, magnitude) == Dot(b, b)
    ensures ParallelViaNormalization(v, b, magnitude) == ParallelComponent(v, b)
  {
    ScaleByInverseTwice(b, Dot(v, b), magnitude);
    NormalisedProjection(v, b, magnitude);
    var p := TimesScalar(b, Dot(v, b) / Mul(magnitude, magnitude));
    assert TimesScalar(TimesScalar(b, 1.0 / magnitude), (1.0 / magnitude) * Dot(v, b)) == p;
    SquareSign(magnitude);
    assert ParallelComponent(v, b) == Ok(p);
  }

  /** The two routes agree for every magnitude, failures included: a zero
      magnitude makes both fail with the same error. */
  lemma NormalisedFormAgrees(v: seq<real>, b: seq<real>, magnitude: real)
    requires magnitude >= 0.0 && Mul(magnitude, magnitude) == Dot(b, b)
    ensures ParallelViaNormalization(v, b, magnitude) == ParallelComponent(v, b)
  {
    if magnitude > 0.0 {
      NonzeroMagnitudeAgrees(v, b, magnitude);
    } else {
      DotSelf(b);
    }
  }

  /** Parallel plus orthogonal component gives back `v` (on the
      coordinates the zip keeps; all of `v` when the dimensions agree). */
  lemma Decomposition(v: seq<real>, b: seq<real>)
    requires !AllZero(b)
    ensures Plus(ParallelComponent(v, b).value, OrthogonalComponent(v, b).value) == v[..Min(|v|, |b|)]
  {
  }

  /** The parallel component is the only multiple of the basis that leaves
      a residual orthogonal to the basis. */
  lemma ParallelComponentUnique(v: seq<real>, b: seq<real>, t: real)
    requires !AllZero(b) && |b| <= |v|
    requires Dot(Minus(v, TimesScalar(b, t)), b) == 0.0
    ensures ParallelComponent(v, b) == Ok(TimesScalar(b, t))
  {
    DotSelf(b);
    ProjectionResidual(v, b, t);
    assert t * Dot(b, b) == Dot(v, b);
    assert t == Dot(v, b) / Dot(b, b);
  }

  // ---------------------------------------------------------------------
  // The projection quiz

  /** Projection of `[3.039, 1.879]` onto `[0.825, 2.036]` is about `[1.083, 2.672]`. */
  lemma ProjectionQuiz()
    ensures ParallelComponent([3.039, 1.879], [0.825, 2.036]).Ok?
    ensures Near(ParallelComponent([3.039, 1.879], [0.825, 2.036]).value, [1.083, 2.672], 0.001)
  {
    var v, b := [3.039, 1.879], [0.825, 2.036];
    Dot2(v, b);
    Dot2(b, b);
    assert Dot(v, b) == 6.332819;
    assert Dot(b, b) == 4.825921;
    var p := TimesScalar(b, 6.332819 / 4.825921);
    assert ParallelComponent(v, b) == Ok(p);
    assert Abs(p[0] - 1.083) < 0.001;
    assert Abs(p[1] - 2.672) < 0.001;
  }

  /** The component of `[-9.88, -3.264, -8.159]` orthogonal to
      `[-2.155, -9.353, -9.473]` is about `[-8.350, 3.376, -1.434]`. */
  lemma OrthogonalQuiz()
    ensures OrthogonalComponent([-9.88, -3.264, -8.159], [-2.155, -9.353, -9.473]).Ok?
    ensures Near(OrthogonalComponent([-9.88, -3.264, -8.159], [-2.155, -9.353, -9.473]).value,
                 [-8.350, 3.376, -1.434], 0.001)
  {
    var v, b := [-9.88, -3.264, -8.159], [-2.155, -9.353, -9.473];
    Dot3(v, b);
    Dot3(b, b);
    assert Dot(v, b) == 129.109799;
    assert Dot(b, b) == 181.860363;
    var p := TimesScalar(b, 129.109799 / 181.860363);
    assert ParallelComponent(v, b) == Ok(p);
    var o := Minus(v, p);
    assert OrthogonalComponent(v, b) == Ok(o);
    assert Abs(o[0] - -8.350) < 0.001;
    assert Abs(o[1] - 3.376) < 0.001;
    assert Abs(o[2] - -1.434) < 0.001;
  }

  /** Decomposing `[3.009, -6.172, 3.692, -2.51]` against
      `[6.404, -9.144, 2.759, 8.718]`. */
  lemma DecompositionQuiz()
    ensures ParallelComponent([3.009, -6.172, 3.692, -2.51], [6.404, -9.144, 2.759, 8.718]).Ok?
    ensures Near(ParallelComponent([3.009, -6.172, 3.692, -2.51], [6.404, -9.144, 2.759, 8.718]).value,
                 [1.969, -2.811, 0.848, 2.680], 0.001)
    ensures Near(OrthogonalComponent([3.009, -6.172, 3.692, -2.51], [6.404, -9.144, 2.759, 8.718]).value,
                 [1.040, -3.361, 2.844, -5.190], 0.001)
  {
    var v, b := [3.009, -6.172, 3.692, -2.51], [6.404, -9.144, 2.759, 8.718];
    Dot4(v, b);
    Dot4(b, b);
    assert Dot(v, b) == 64.010452;
    assert Dot(b, b) == 208.239557;
    var p := TimesScalar(b, 64.010452 / 208.239557);
    assert ParallelComponent(v, b) == Ok(p);
    assert Abs(p[0] - 1.969) < 0.001;
    assert Abs(p[1] - -2.811) < 0.001;
    assert Abs(p[2] - 0.848) < 0.001;
    assert Abs(p[3] - 2.680) < 0.001;
    var o := Minus(v, p);
    assert OrthogonalComponent(v, b) == Ok(o);
    assert Abs(o[0] - 1.040) < 0.001;
    assert Abs(o[1] - -3.361) < 0.001;
    assert Abs(o[2] - 2.844) < 0.001;
    assert Abs(o[3] - -5.190) < 0.001;
  }
}
