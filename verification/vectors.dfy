/** Exact vector arithmetic: the coordinate-wise operations, the dot
    product, and the tolerance predicates built on it.

    Coordinates are exact reals. The library stores them as Python
    `Decimal`s under a small precision context, so its rounded results may
    differ from the exact values computed here.
 */
module Vectors {
  import opened Outcomes

  /** A vector as the library stores it: a tuple of at least one coordinate. */
  type Vector = s: seq<real> | |s| > 0 witness [0.0]

  /** Default absolute tolerance of `is_zero`, `is_orthogonal_to` and `is_near_zero`. */
  const DefaultTolerance: real := 0.0000000001

  function Min(a: nat, b: nat): nat {
    if a <= b then a else b
  }

  function Abs(x: real): real {
    if x < 0.0 then -x else x
  }

  /** The product of two coordinates. A named function, so that a square
      `Mul(x, x)` stays one term for the solver and its sign comes from
      `SquareSign` rather than from nonlinear reasoning. */
  function Mul(x: real, y: real): real {
    x * y
  }

  /** The zero vector of dimension `n`. */
  function Zeros(n: nat): seq<real> {
    seq(n, _ => 0.0)
  }

  /** Construction: the coordinate list must be nonempty, and the
      dimension of the new vector is the number of coordinates. */
  function NewVector(coordinates: seq<real>): (r: Result<Vector>)
    ensures r.Err? <==> |coordinates| == 0
    ensures r.Err? ==> r.error == EmptyCoordinates
    ensures r.Ok? ==> r.value == coordinates
  {
    if |coordinates| == 0 then Err(EmptyCoordinates) else Ok(coordinates)
  }

  /** Python's `[f(x, y) for x, y in zip(v, w)]`: pairs coordinates up to
      the shorter operand and drops the rest. */
  function ZipWith(f: (real, real) -> real, v: seq<real>, w: seq<real>): (r: seq<real>)
    ensures |r| == Min(|v|, |w|)
    ensures forall i :: 0 <= i < |r| ==> r[i] == f(v[i], w[i])
    decreases |v|
  {
    if |v| == 0 || |w| == 0 then [] else [f(v[0], w[0])] + ZipWith(f, v[1..], w[1..])
  }

  /** Coordinate-wise sum, of the shorter operand's length. */
  function Plus(v: seq<real>, w: seq<real>): (r: seq<real>)
    ensures |r| == Min(|v|, |w|)
    ensures forall i :: 0 <= i < |r| ==> r[i] == v[i] + w[i]
  {
    ZipWith((x, y) => x + y, v, w)
  }

  /** Coordinate-wise difference, of the shorter operand's length. */
  function Minus(v: seq<real>, w: seq<real>): (r: seq<real>)
    ensures |r| == Min(|v|, |w|)
    ensures forall i :: 0 <= i < |r| ==> r[i] == v[i] - w[i]
  {
    ZipWith((x, y) => x - y, v, w)
  }

  /** Coordinate-wise product, of the shorter operand's length. */
  function Multiply(v: seq<real>, w: seq<real>): (r: seq<real>)
    ensures |r| == Min(|v|, |w|)
    ensures forall i :: 0 <= i < |r| ==> r[i] == Mul(v[i], w[i])
  {
    ZipWith(Mul, v, w)
  }

  /** `times_scalar`: every coordinate multiplied by the scalar `c`. */
  function TimesScalar(v: seq<real>, c: real): (r: seq<real>)
    ensures |r| == |v|
    ensures forall i :: 0 <= i < |r| ==> r[i] == c * v[i]
  {
    seq(|v|, i requires 0 <= i < |v| => v[i] * c)
  }

  function Sum(s: seq<real>): real {
    if |s| == 0 then 0.0 else s[0] + Sum(s[1..])
  }

  /** `find_dot_product`: the `sum` of the pairwise products. With an empty
      operand there are no products; otherwise it is the first product plus
      the sum over the remaining coordinates. */
  function Dot(v: seq<real>, w: seq<real>): (r: real)
    ensures |v| == 0 || |w| == 0 ==> r == 0.0
    ensures |v| > 0 && |w| > 0 ==> r == Mul(v[0], w[0]) + Sum(Multiply(v[1..], w[1..]))
  {
    var p := Multiply(v, w);
    assert |v| > 0 && |w| > 0 ==> p[1..] == Multiply(v[1..], w[1..]);
    Sum(p)
  }

  /** Coordinate-wise closeness: same dimension, every coordinate within `tolerance`. */
  predicate Near(v: seq<real>, w: seq<real>, tolerance: real) {
    |v| == |w| && forall i :: 0 <= i < |v| ==> Abs(v[i] - w[i]) < tolerance
  }

  /** `is_orthogonal_to`: `abs(v . w) < tolerance`. The test reads the same
      with the operands swapped, and nothing passes a tolerance that is
      not positive. */
  function IsOrthogonalTo(v: seq<real>, w: seq<real>, tolerance: real): (r: bool)
    ensures r <==> Abs(Dot(w, v)) < tolerance
    ensures r ==> tolerance > 0.0
  {
    DotSymmetric(v, w);
    Abs(Dot(v, w)) < tolerance
  }

  /** `magnitude < tolerance` without the square root: for a nonnegative
      magnitude `m`, `m < tol` holds exactly when `tol > 0` and `m * m < tol * tol`. */
  function IsZero(v: seq<real>, tolerance: real): (r: bool)
    ensures r ==> tolerance > 0.0
    ensures (forall i :: 0 <= i < |v| ==> v[i] == 0.0) ==> (r <==> tolerance > 0.0)
  {
    DotSelf(v);
    SquareSign(tolerance);
    tolerance > 0.0 && Dot(v, v) < Mul(tolerance, tolerance)
  }

  /** `is_parallel_to`. The angle test compares a floating-point `acos`
      result with 0 and with pi, so it is a parameter: `angle(v, w)` says
      whether that comparison succeeds. Only the zero-operand rule is fixed. */
  function IsParallelTo(v: seq<real>, w: seq<real>, angle: (seq<real>, seq<real>) -> bool): (r: bool)
    ensures IsZero(v, DefaultTolerance) || IsZero(w, DefaultTolerance) ==> r
    ensures !IsZero(v, DefaultTolerance) && !IsZero(w, DefaultTolerance) ==> (r <==> angle(v, w))
  {
    IsZero(v, DefaultTolerance) || IsZero(w, DefaultTolerance) || angle(v, w)
  }

  // ---------------------------------------------------------------------
  // Coordinate-wise arithmetic

  lemma PlusCommutes(v: seq<real>, w: seq<real>)
    ensures Plus(v, w) == Plus(w, v)
    ensures |Plus(v, w)| == Min(|v|, |w|)
  {
  }

  lemma MinusSelfIsZero(v: seq<real>)
    ensures Minus(v, v) == Zeros(|v|)
  {
  }

  /** Subtracting and adding back the same vector is the identity. */
  lemma MinusPlusCancel(v: seq<real>, w: seq<real>)
    requires |v| == |w|
    ensures Plus(Minus(v, w), w) == v
  {
  }

  /** Scaling by 1 leaves a vector unchanged. */
  lemma TimesScalarOne(v: seq<real>)
    ensures TimesScalar(v, 1.0) == v
  {
  }

  // ---------------------------------------------------------------------
  // Products and squares

  lemma MulPositive(x: real, y: real)
    requires (x > 0.0 && y > 0.0) || (x < 0.0 && y < 0.0)
    ensures Mul(x, y) > 0.0
  {
    if x < 0.0 {
      assert Mul(x, y) == (-x) * (-y);
    }
  }

  /** A square is nonnegative, and positive unless its root is zero. */
  lemma SquareSign(x: real)
    ensures Mul(x, x) >= 0.0
    ensures x != 0.0 ==> Mul(x, x) > 0.0
  {
    if x != 0.0 {
      MulPositive(x, x);
    }
  }

  lemma MulMonotone(x: real, y: real, z: real)
    requires x >= 0.0 && y <= z
    ensures Mul(x, y) <= Mul(x, z)
  {
  }

  lemma MulStrictMonotone(x: real, y: real, z: real)
    requires x > 0.0 && y < z
    ensures Mul(x, y) < Mul(x, z)
  {
  }

  /** Squaring is strictly increasing on the nonnegative reals. */
  lemma SquareStrictMonotone(a: real, b: real)
    requires 0.0 <= a < b
    ensures Mul(a, a) < Mul(b, b)
  {
    MulMonotone(a, a, b);
    MulStrictMonotone(b, a, b);
    assert Mul(a, b) == Mul(b, a);
  }

  // ---------------------------------------------------------------------
  // The dot product

  /** One step of the dot product: the first pair plus the rest. */
  lemma DotCons(v: seq<real>, w: seq<real>)
    requires |v| > 0 && |w| > 0
    ensures Dot(v, w) == Mul(v[0], w[0]) + Dot(v[1..], w[1..])
  {
    var m := Multiply(v, w);
    assert m == [Mul(v[0], w[0])] + Multiply(v[1..], w[1..]);
    assert m[1..] == Multiply(v[1..], w[1..]);
  }

  lemma {:induction false} DotEmpty(v: seq<real>, w: seq<real>)
    requires |v| == 0 || |w| == 0
    ensures Dot(v, w) == 0.0
  {
    assert Multiply(v, w) == [];
  }

  lemma {:induction false} DotSymmetric(v: seq<real>, w: seq<real>)
    ensures Dot(v, w) == Dot(w, v)
    decreases |v|
  {
    if |v| == 0 || |w| == 0 {
      DotEmpty(v, w);
      DotEmpty(w, v);
    } else {
      DotCons(v, w);
      DotCons(w, v);
      DotSymmetric(v[1..], w[1..]);
    }
  }

  /** `v . v` is a sum of squares: never negative, and zero exactly for the
      all-zero vector. */
  lemma {:induction false} DotSelf(v: seq<real>)
    ensures Dot(v, v) >= 0.0
    ensures Dot(v, v) == 0.0 <==> forall i :: 0 <= i < |v| ==> v[i] == 0.0
    decreases |v|
  {
    if |v| == 0 {
      DotEmpty(v, v);
    } else {
      DotCons(v, v);
      DotSelf(v[1..]);
      SquareSign(v[0]);
      if v[0] == 0.0 {
        assert forall i :: 0 < i < |v| ==> v[i] == v[1..][i - 1];
      }
    }
  }

  /** The dot product with a zero vector vanishes. */
  lemma {:induction false} DotZeros(v: seq<real>, n: nat)
    ensures Dot(v, Zeros(n)) == 0.0
    decreases |v|
  {
    if |v| == 0 || n == 0 {
      DotEmpty(v, Zeros(n));
    } else {
      DotCons(v, Zeros(n));
      assert Zeros(n)[1..] == Zeros(n - 1);
      DotZeros(v[1..], n - 1);
    }
  }

  /** The dot product distributes over a difference, as long as the zip
      with `b` sees the same number of coordinates of `u` and of `w`. */
  lemma {:induction false} DotMinusLeft(u: seq<real>, w: seq<real>, b: seq<real>)
    requires Min(|u|, |b|) == Min(|w|, |b|)
    ensures Dot(Minus(u, w), b) == Dot(u, b) - Dot(w, b)
    decreases |b|
  {
    if |u| == 0 || |w| == 0 || |b| == 0 {
      DotEmpty(Minus(u, w), b);
      DotEmpty(u, b);
      DotEmpty(w, b);
    } else {
      var d := Minus(u, w);
      assert d[1..] == Minus(u[1..], w[1..]);
      DotCons(d, b);
      DotCons(u, b);
      DotCons(w, b);
      DotMinusLeft(u[1..], w[1..], b[1..]);
    }
  }

  /** Scaling a vector scales its dot products. */
  lemma {:induction false} DotScaleLeft(b: seq<real>, t: real, v: seq<real>)
    ensures Dot(TimesScalar(b, t), v) == t * Dot(b, v)
    decreases |b|
  {
    if |b| == 0 || |v| == 0 {
      DotEmpty(TimesScalar(b, t), v);
      DotEmpty(b, v);
    } else {
      var s := TimesScalar(b, t);
      ScaledTail(b, t);
      DotScaleLeft(b[1..], t, v[1..]);
      DotCons(s, v);
      DotCons(b, v);
      ScaledStep(b[0], v[0], Dot(b[1..], v[1..]), t);
    }
  }

  /** Dropping the first coordinate commutes with scaling. */
  lemma ScaledTail(b: seq<real>, t: real)
    requires |b| > 0
    ensures TimesScalar(b, t)[1..] == TimesScalar(b[1..], t)
    ensures TimesScalar(b, t)[0] == t * b[0]
  {
    var s, s' := TimesScalar(b, t), TimesScalar(b[1..], t);
    forall i | 0 <= i < |s'|
      ensures s[1..][i] == s'[i]
    {
      assert s[1..][i] == s[i + 1] == t * b[i + 1];
    }
  }

  lemma ScaledStep(x: real, y: real, d: real, t: real)
    ensures Mul(t * x, y) + t * d == t * (Mul(x, y) + d)
  {
  }

  /** Against a vector that is zero except at index `k`, the dot product
      picks out the single product at `k`. */
  lemma {:induction false} DotSingleNonzero(v: seq<real>, w: seq<real>, k: nat)
    requires k < |v| && k < |w|
    requires forall i :: 0 <= i < |w| && i != k ==> w[i] == 0.0
    ensures Dot(v, w) == Mul(v[k], w[k])
    decreases k
  {
    DotCons(v, w);
    if k == 0 {
      var w' := w[1..];
      assert forall i :: 0 <= i < |w'| ==> w'[i] == 0.0 by {
        forall i | 0 <= i < |w'|
          ensures w'[i] == 0.0
        {
          assert w'[i] == w[i + 1];
        }
      }
      assert w' == Zeros(|w'|);
      DotZeros(v[1..], |w'|);
    } else {
      assert w[0] == 0.0;
      DotSingleNonzero(v[1..], w[1..], k - 1);
    }
  }

  /** The dot product of two 2-vectors, written out. */
  lemma Dot2(v: seq<real>, w: seq<real>)
    requires |v| == 2 && |w| == 2
    ensures Dot(v, w) == Mul(v[0], w[0]) + Mul(v[1], w[1])
  {
    DotCons(v, w);
    DotCons(v[1..], w[1..]);
    DotEmpty(v[2..], w[2..]);
    assert v[1..][1..] == v[2..];
    assert w[1..][1..] == w[2..];
  }

  /** The dot product of two 4-vectors, written out. */
  lemma Dot4(v: seq<real>, w: seq<real>)
    requires |v| == 4 && |w| == 4
    ensures Dot(v, w) == Mul(v[0], w[0]) + Mul(v[1], w[1]) + Mul(v[2], w[2]) + Mul(v[3], w[3])
  {
    DotCons(v, w);
    Dot3(v[1..], w[1..]);
  }

  /** The dot product of two 3-vectors, written out. */
  lemma Dot3(v: seq<real>, w: seq<real>)
    requires |v| == 3 && |w| == 3
    ensures Dot(v, w) == Mul(v[0], w[0]) + Mul(v[1], w[1]) + Mul(v[2], w[2])
  {
    DotCons(v, w);
    Dot2(v[1..], w[1..]);
  }

  // ---------------------------------------------------------------------
  // Tolerance predicates

  /** Orthogonality is symmetric in its operands. */
  lemma OrthogonalSymmetric(v: seq<real>, w: seq<real>, tolerance: real)
    ensures IsOrthogonalTo(v, w, tolerance) <==> IsOrthogonalTo(w, v, tolerance)
  {
    DotSymmetric(v, w);
  }

  /** Every vector is orthogonal to a zero vector, for any positive tolerance. */
  lemma OrthogonalToZeros(v: seq<real>, n: nat, tolerance: real)
    requires tolerance > 0.0
    ensures IsOrthogonalTo(v, Zeros(n), tolerance)
  {
    DotZeros(v, n);
  }

  /** `IsZero` agrees with the source's `magnitude < tolerance`, for the
      magnitude `m` with `m >= 0` and `m * m == v . v` that `sqrt` returns. */
  lemma IsZeroIffMagnitudeBelow(v: seq<real>, tolerance: real, m: real)
    requires m >= 0.0 && Mul(m, m) == Dot(v, v)
    ensures IsZero(v, tolerance) <==> m < tolerance
  {
    if tolerance > 0.0 {
      if m < tolerance {
        SquareStrictMonotone(m, tolerance);
      } else if tolerance < m {
        SquareStrictMonotone(tolerance, m);
      }
    }
  }

  /** The all-zero vector is zero under every positive tolerance, and a
      vector is zero under every positive tolerance only when it is all zero. */
  lemma IsZeroExactly(v: seq<real>)
    ensures (forall tolerance :: tolerance > 0.0 ==> IsZero(v, tolerance))
            <==> (forall i :: 0 <= i < |v| ==> v[i] == 0.0)
  {
    DotSelf(v);
    if Dot(v, v) > 0.0 {
      var t := if Dot(v, v) < 1.0 then Dot(v, v) else 1.0;
      MulMonotone(t, t, 1.0);
      assert !IsZero(v, t);
    } else {
      forall tolerance | tolerance > 0.0
        ensures IsZero(v, tolerance)
      {
        SquareSign(tolerance);
      }
    }
  }

  /** The all-zero vector is zero under the default tolerance. */
  lemma ZerosIsZero(n: nat)
    ensures IsZero(Zeros(n), DefaultTolerance)
  {
    DotZeros(Zeros(n), n);
  }

  // ---------------------------------------------------------------------
  // The quiz values of the orthogonality/parallelism module

  lemma OrthogonalityQuiz()
    ensures !IsOrthogonalTo([-7.579, -7.88], [22.737, 23.64], DefaultTolerance)
    ensures !IsOrthogonalTo([-1.029, 9.97, 4.172], [-9.231, -6.639, -7.245], DefaultTolerance)
    ensures Dot([-2.328, -7.284, -1.214], [-1.821, 1.072, -2.94]) == 0.0
    ensures IsOrthogonalTo([-2.328, -7.284, -1.214], [-1.821, 1.072, -2.94], DefaultTolerance)
    ensures IsOrthogonalTo([-2.118, 4.827], [0.0, 0.0], DefaultTolerance)
  {
    Dot2([-7.579, -7.88], [22.737, 23.64]);
    Dot3([-1.029, 9.97, 4.172], [-9.231, -6.639, -7.245]);
    Dot3([-2.328, -7.284, -1.214], [-1.821, 1.072, -2.94]);
    Dot2([-2.118, 4.827], [0.0, 0.0]);
  }

  /** `[-2.118, 4.827]` is parallel to `[0, 0]` under every angle test,
      because the second operand is zero. */
  lemma ZeroOperandParallelQuiz(angle: (seq<real>, seq<real>) -> bool)
    ensures IsParallelTo([-2.118, 4.827], [0.0, 0.0], angle)
  {
    Dot2([0.0, 0.0], [0.0, 0.0]);
  }
}
