/** The behaviour `Line` (dimension 2) and `Plane` (dimension 3) share: a
    hyperplane `n . x = k` given by a normal vector `n` and a constant term
    `k`, its basepoint, and the coincidence test `__eq__`.

    The two classes define the constructor, `set_basepoint`,
    `first_nonzero_index` and `__eq__` with the same code apart from the
    dimension constant, so those are modelled once here with the dimension
    as a field. `Lines` fixes it to 2 and adds `intersection_with`;
    `Planes` fixes it to 3 and adds `is_parallel_with`.
 */
module Hyperplanes {
  import opened Outcomes
  import opened Vectors

  /** `MyDecimal.is_near_zero` with its default `eps` of `1e-10`. */
  function IsNearZero(x: real): (r: bool)
    ensures r <==> -DefaultTolerance < x < DefaultTolerance
    ensures x == 0.0 ==> r
  {
    Abs(x) < DefaultTolerance
  }

  /** A constructed line or plane. `basepoint` is `None` when every
      coordinate of the normal is near zero. */
  datatype Hyperplane = Hyperplane(
    dimension: nat,
    normal: seq<real>,
    constant: real,
    basepoint: Option<seq<real>>)

  /** The point `x` satisfies the hyperplane's equation `n . x = k`. */
  predicate OnHyperplane(h: Hyperplane, x: seq<real>) {
    Dot(h.normal, x) == h.constant
  }

  /** The normal's magnitude is below `1e-10` (`normal_vector.is_zero()`). */
  predicate ZeroNormal(h: Hyperplane) {
    IsZero(h.normal, DefaultTolerance)
  }

  // ---------------------------------------------------------------------
  // First coordinate that is not near zero

  /** The first index at or after `k` whose coordinate is not near zero. */
  function FirstNonzeroFrom(n: seq<real>, k: nat): (r: Option<nat>)
    requires k <= |n|
    ensures r.Some? ==> k <= r.value < |n| && !IsNearZero(n[r.value])
    ensures r.Some? ==> forall j :: k <= j < r.value ==> IsNearZero(n[j])
    ensures r.None? <==> forall j :: k <= j < |n| ==> IsNearZero(n[j])
    decreases |n| - k
  {
    if k == |n| then None
    else if !IsNearZero(n[k]) then Some(k)
    else FirstNonzeroFrom(n, k + 1)
  }

  /** `first_nonzero_index`: the least index whose coordinate is at least
      `1e-10` in absolute value, or `None` (the source raises) when every
      coordinate is near zero. */
  function FirstNonzeroIndex(n: seq<real>): (r: Option<nat>)
    ensures r.Some? ==> r.value < |n| && !IsNearZero(n[r.value])
    ensures r.Some? ==> forall j :: 0 <= j < r.value ==> IsNearZero(n[j])
    ensures r.None? <==> forall j :: 0 <= j < |n| ==> IsNearZero(n[j])
  {
    FirstNonzeroFrom(n, 0)
  }

  /** Any index with the defining property is the one returned. */
  lemma FirstNonzeroIndexUnique(n: seq<real>, k: nat)
    requires k < |n| && !IsNearZero(n[k])
    requires forall j :: 0 <= j < k ==> IsNearZero(n[j])
    ensures FirstNonzeroIndex(n) == Some(k)
  {
  }

  // ---------------------------------------------------------------------
  // Basepoint

  /** `set_basepoint`: the point that is zero except at the first index `k`
      not near zero, where it is `c / n[k]`. No such index gives `None`; an
      index at or past the dimension fails, as assigning into the list of
      `dimension` zeros raises `IndexError`. The point lies on the
      hyperplane. */
  function Basepoint(dimension: nat, n: seq<real>, c: real): (r: Result<Option<seq<real>>>)
    ensures (r.Ok? && r.value.None?) <==> forall j :: 0 <= j < |n| ==> IsNearZero(n[j])
    ensures r.Err? <==> FirstNonzeroIndex(n).Some? && FirstNonzeroIndex(n).value >= dimension
    ensures r.Err? ==> r.error == BasepointIndexOutOfRange
    ensures r.Ok? && r.value.Some? ==>
      var k := FirstNonzeroIndex(n).value;
      var p := r.value.value;
      |p| == dimension && Mul(n[k], p[k]) == c &&
      forall i :: 0 <= i < dimension && i != k ==> p[i] == 0.0
  {
    match FirstNonzeroIndex(n)
    case None => Ok(None)
    case Some(k) =>
      if k < dimension then
        Ok(Some(Zeros(dimension)[k := c / n[k]]))
      else
        Err(BasepointIndexOutOfRange)
  }

  /** The basepoint lies on the hyperplane: `n . p = c`. */
  lemma BasepointOnHyperplane(dimension: nat, n: seq<real>, c: real)
    requires Basepoint(dimension, n, c).Ok? && Basepoint(dimension, n, c).value.Some?
    ensures Dot(n, Basepoint(dimension, n, c).value.value) == c
  {
    var k := FirstNonzeroIndex(n).value;
    DotSingleNonzero(n, Basepoint(dimension, n, c).value.value, k);
  }

  /** A hyperplane as the constructor leaves it: a nonempty normal and the
      basepoint `set_basepoint` computes from it. */
  predicate Valid(h: Hyperplane) {
    |h.normal| > 0 && Basepoint(h.dimension, h.normal, h.constant) == Ok(h.basepoint)
  }

  /** `__init__`: a missing normal becomes the zero vector of the
      dimension, a missing (or zero) constant becomes 0, and the basepoint
      is derived. Construction fails only when the basepoint index falls
      outside the dimension. */
  function Make(dimension: nat, normal: Option<Vector>, constant: Option<real>): (r: Result<Hyperplane>)
    requires dimension > 0
    ensures r.Err? <==>
      normal.Some? && FirstNonzeroIndex(normal.value).Some? && FirstNonzeroIndex(normal.value).value >= dimension
    ensures r.Err? ==> r.error == BasepointIndexOutOfRange
    ensures r.Ok? ==> Valid(r.value) && r.value.dimension == dimension
    ensures r.Ok? ==> r.value.normal == (if normal.Some? then normal.value else Zeros(dimension))
    ensures r.Ok? ==> r.value.constant == (if constant.Some? then constant.value else 0.0)
    ensures r.Ok? && r.value.basepoint.Some? ==> OnHyperplane(r.value, r.value.basepoint.value)
    ensures normal.None? ==> r.Ok? && r.value.basepoint.None?
  {
    var n := if normal.Some? then normal.value else Zeros(dimension);
    var c := if constant.Some? then constant.value else 0.0;
    match Basepoint(dimension, n, c)
    case Err(e) => Err(e)
    case Ok(None) => Ok(Hyperplane(dimension, n, c, None))
    case Ok(Some(p)) =>
      BasepointOnHyperplane(dimension, n, c);
      Ok(Hyperplane(dimension, n, c, Some(p)))
  }

  // ---------------------------------------------------------------------
  // Zero normals

  /** One coordinate squared never exceeds the sum of all squares. */
  lemma {:induction false} SquareBelowDot(n: seq<real>, k: nat)
    requires k < |n|
    ensures Mul(n[k], n[k]) <= Dot(n, n)
  {
    DotCons(n, n);
    SquareSign(n[0]);
    DotSelf(n[1..]);
    if k > 0 {
      SquareBelowDot(n[1..], k - 1);
    }
  }

  /** A normal of magnitude below `1e-10` has every coordinate near zero,
      so it has no first nonzero index. */
  lemma ZeroNormalNearZero(n: seq<real>)
    requires IsZero(n, DefaultTolerance)
    ensures forall j :: 0 <= j < |n| ==> IsNearZero(n[j])
    ensures FirstNonzeroIndex(n).None?
  {
    forall j | 0 <= j < |n|
      ensures IsNearZero(n[j])
    {
      SquareBelowDot(n, j);
      var a := Abs(n[j]);
      assert Mul(a, a) == Mul(n[j], n[j]);
      if a > DefaultTolerance {
        SquareStrictMonotone(DefaultTolerance, a);
      }
    }
  }

  /** A normal with a first nonzero index is not a zero normal. */
  lemma IndexedNormalIsNonzero(n: seq<real>)
    requires FirstNonzeroIndex(n).Some?
    ensures !IsZero(n, DefaultTolerance)
  {
    if IsZero(n, DefaultTolerance) {
      ZeroNormalNearZero(n);
    }
  }

  /** A valid hyperplane whose normal is zero has no basepoint. */
  lemma ZeroNormalHasNoBasepoint(h: Hyperplane)
    requires Valid(h) && ZeroNormal(h)
    ensures h.basepoint.None?
  {
    ZeroNormalNearZero(h.normal);
  }

  // ---------------------------------------------------------------------
  // Coincidence test

  /** The basepoint difference `d` passes `d.is_orthogonal_to(d)`. */
  predicate BasepointsClose(p: seq<real>, q: seq<real>) {
    IsOrthogonalTo(Minus(p, q), Minus(p, q), DefaultTolerance)
  }

  /** The squared distance between the basepoints is below `1e-10`. */
  lemma BasepointsCloseMeansNear(p: seq<real>, q: seq<real>)
    ensures BasepointsClose(p, q) <==> Dot(Minus(p, q), Minus(p, q)) < DefaultTolerance
  {
    DotSelf(Minus(p, q));
  }

  /** `__eq__` as written. Two zero normals compare the other hyperplane's
      constant with zero (the chained assignment on the source's line
      reads `diff = self.constant_term = other.constant_term`); exactly one
      zero normal is unequal; otherwise the normals must be parallel and the
      basepoints within `1e-10` of each other in squared distance. A
      missing basepoint fails (`None` has no `minus`). */
  function Equal(h1: Hyperplane, h2: Hyperplane, angle: (seq<real>, seq<real>) -> bool): (r: Result<bool>)
    ensures ZeroNormal(h1) && ZeroNormal(h2) ==> r == Ok(IsNearZero(h2.constant))
    ensures ZeroNormal(h1) != ZeroNormal(h2) ==> r == Ok(false)
    ensures !ZeroNormal(h1) && !ZeroNormal(h2) && !angle(h1.normal, h2.normal) ==> r == Ok(false)
    ensures !ZeroNormal(h1) && !ZeroNormal(h2) && h1.basepoint.Some? && h2.basepoint.Some? ==>
      r == Ok(angle(h1.normal, h2.normal) && BasepointsClose(h1.basepoint.value, h2.basepoint.value))
    ensures r.Err? <==>
      !ZeroNormal(h1) && !ZeroNormal(h2) && angle(h1.normal, h2.normal) && (h1.basepoint.None? || h2.basepoint.None?)
    ensures r.Err? ==> r.error == MissingBasepoint
  {
    if ZeroNormal(h1) then
      if !ZeroNormal(h2) then Ok(false) else Ok(IsNearZero(h2.constant))
    else if ZeroNormal(h2) then
      Ok(false)
    else if !IsParallelTo(h1.normal, h2.normal, angle) then
      Ok(false)
    else
      match (h1.basepoint, h2.basepoint)
      case (Some(p), Some(q)) => Ok(BasepointsClose(p, q))
      case _ => Err(MissingBasepoint)
  }

  /** The receiver after `__eq__`: with two zero normals the chained
      assignment overwrites its constant with the other's. */
  function AfterEqual(h1: Hyperplane, h2: Hyperplane): (r: Hyperplane)
    ensures ZeroNormal(h1) && ZeroNormal(h2) ==> r.constant == h2.constant
    ensures !(ZeroNormal(h1) && ZeroNormal(h2)) ==> r == h1
    ensures r.dimension == h1.dimension && r.normal == h1.normal && r.basepoint == h1.basepoint
  {
    if ZeroNormal(h1) && ZeroNormal(h2) then h1.(constant := h2.constant) else h1
  }

  /** The overwritten receiver is still a valid hyperplane: a zero normal
      has no basepoint whatever the constant. */
  lemma AfterEqualValid(h1: Hyperplane, h2: Hyperplane)
    requires Valid(h1)
    ensures Valid(AfterEqual(h1, h2))
  {
    if ZeroNormal(h1) && ZeroNormal(h2) {
      ZeroNormalNearZero(h1.normal);
      ZeroNormalHasNoBasepoint(h1);
    }
  }

  /** After `a == b` has run, `b == a` gives the same answer, because the
      side effect copied `b`'s constant into `a`. */
  lemma EqualAfterSideEffect(h1: Hyperplane, h2: Hyperplane, angle: (seq<real>, seq<real>) -> bool)
    requires ZeroNormal(h1) && ZeroNormal(h2)
    ensures Equal(h2, AfterEqual(h1, h2), angle) == Equal(h1, h2, angle)
  {
  }

  /** Reflexivity: a hyperplane with a zero normal equals itself exactly
      when its constant is near zero; one with a nonzero normal and a
      basepoint equals itself whenever its normal counts as parallel to
      itself. */
  lemma EqualReflexive(h: Hyperplane, angle: (seq<real>, seq<real>) -> bool)
    requires Valid(h)
    requires !ZeroNormal(h) ==> angle(h.normal, h.normal)
    ensures ZeroNormal(h) ==> Equal(h, h, angle) == Ok(IsNearZero(h.constant))
    ensures !ZeroNormal(h) && h.basepoint.Some? ==> Equal(h, h, angle) == Ok(true)
  {
    if !ZeroNormal(h) && h.basepoint.Some? {
      var p := h.basepoint.value;
      MinusSelfIsZero(p);
      DotZeros(Zeros(|p|), |p|);
    }
  }

  /** The basepoint difference has the same squared length both ways. */
  lemma {:induction false} DifferenceSquaredSymmetric(p: seq<real>, q: seq<real>)
    ensures Dot(Minus(p, q), Minus(p, q)) == Dot(Minus(q, p), Minus(q, p))
  {
    var d := Minus(p, q);
    var e := Minus(q, p);
    assert e == TimesScalar(d, -1.0);
    DotScaleLeft(d, -1.0, e);
    DotSymmetric(d, e);
    DotScaleLeft(d, -1.0, d);
  }

  /** Symmetry unless both normals are zero: when the parallelism test is
      symmetric on the two normals, swapping the operands gives the same
      result. */
  lemma EqualSymmetric(h1: Hyperplane, h2: Hyperplane, angle: (seq<real>, seq<real>) -> bool)
    requires !(ZeroNormal(h1) && ZeroNormal(h2))
    requires angle(h1.normal, h2.normal) == angle(h2.normal, h1.normal)
    ensures Equal(h1, h2, angle) == Equal(h2, h1, angle)
  {
    if h1.basepoint.Some? && h2.basepoint.Some? {
      DifferenceSquaredSymmetric(h1.basepoint.value, h2.basepoint.value);
    }
  }

  /** With two zero normals the test is not symmetric: `a == b` looks only
      at `b`'s constant. */
  lemma ZeroNormalAsymmetry(angle: (seq<real>, seq<real>) -> bool)
    ensures Make(2, None, None).Ok? && Make(2, None, Some(5.0)).Ok?
    ensures Equal(Make(2, None, None).value, Make(2, None, Some(5.0)).value, angle) == Ok(false)
    ensures Equal(Make(2, None, Some(5.0)).value, Make(2, None, None).value, angle) == Ok(true)
  {
    ZerosIsZero(2);
  }

  /** The basepoint depends only on the first nonzero coordinate and the
      constant: scaling both by the same nonzero factor keeps it. */
  lemma ProportionalBasepoint(dimension: nat, n: seq<real>, c: real, m: seq<real>, d: real, s: real, k: nat)
    requires s != 0.0 && k < dimension
    requires FirstNonzeroIndex(n) == Some(k) && FirstNonzeroIndex(m) == Some(k)
    requires m[k] == s * n[k] && d == s * c
    ensures Basepoint(dimension, m, d) == Basepoint(dimension, n, c)
  {
    RatioCancels(c, n[k], s, m[k]);
    BasepointAt(dimension, n, c, k);
    BasepointAt(dimension, m, d, k);
  }

  lemma RatioCancels(c: real, a: real, s: real, b: real)
    requires a != 0.0 && s != 0.0 && b == s * a
    ensures (s * c) / b == c / a
  {
  }

  /** The basepoint once the first nonzero index `k` is known. */
  lemma BasepointAt(dimension: nat, n: seq<real>, c: real, k: nat)
    requires FirstNonzeroIndex(n) == Some(k) && k < dimension
    ensures Basepoint(dimension, n, c) == Ok(Some(Zeros(dimension)[k := c / n[k]]))
  {
  }

  /** Two hyperplanes with nonzero normals that count as parallel and with
      the same basepoint compare equal. */
  lemma SameBasepointEqual(h1: Hyperplane, h2: Hyperplane, angle: (seq<real>, seq<real>) -> bool)
    requires !ZeroNormal(h1) && !ZeroNormal(h2) && angle(h1.normal, h2.normal)
    requires h1.basepoint.Some? && h1.basepoint == h2.basepoint
    ensures Equal(h1, h2, angle) == Ok(true)
  {
    var p := h1.basepoint.value;
    MinusSelfIsZero(p);
    DotZeros(Zeros(|p|), |p|);
  }

  /** Two equations that are multiples of each other compare equal once
      the normals count as parallel, provided they pick the same first
      nonzero index: only that coordinate and the constant enter the
      basepoint, so it is enough that those two are in the same ratio. */
  lemma ProportionalEqual(h1: Hyperplane, h2: Hyperplane, s: real, k: nat, angle: (seq<real>, seq<real>) -> bool)
    requires Valid(h1) && Valid(h2) && h1.dimension == h2.dimension && k < h1.dimension
    requires FirstNonzeroIndex(h1.normal) == Some(k) && FirstNonzeroIndex(h2.normal) == Some(k)
    requires s != 0.0 && h2.normal[k] == s * h1.normal[k] && h2.constant == s * h1.constant
    requires angle(h1.normal, h2.normal)
    ensures Equal(h1, h2, angle) == Ok(true)
  {
    ProportionalBasepoint(h1.dimension, h1.normal, h1.constant, h2.normal, h2.constant, s, k);
    IndexedNormalIsNonzero(h1.normal);
    IndexedNormalIsNonzero(h2.normal);
    SameBasepointEqual(h1, h2, angle);
  }

  /** The answer depends on which coordinate the basepoint uses: the
      equations `1e-10 x + y = 1` and `5e-11 x + 0.5 y = 0.5` describe the
      same line, but the first coordinate is near zero only in the second,
      so the basepoints are far apart and the lines compare unequal. */
  lemma CoincidentButUnequal(angle: (seq<real>, seq<real>) -> bool)
    ensures TimesScalar([0.0000000001, 1.0], 0.5) == [0.00000000005, 0.5]
    ensures Make(2, Some([0.0000000001, 1.0]), Some(1.0)).Ok?
    ensures Make(2, Some([0.00000000005, 0.5]), Some(0.5)).Ok?
    ensures Equal(Make(2, Some([0.0000000001, 1.0]), Some(1.0)).value,
                  Make(2, Some([0.00000000005, 0.5]), Some(0.5)).value, angle) == Ok(false)
  {
    var n1, n2 := [0.0000000001, 1.0], [0.00000000005, 0.5];
    FirstNonzeroIndexUnique(n1, 0);
    FirstNonzeroIndexUnique(n2, 1);
    var h1 := Make(2, Some(n1), Some(1.0)).value;
    var h2 := Make(2, Some(n2), Some(0.5)).value;
    assert Zeros(2) == [0.0, 0.0];
    BasepointAt(2, n1, 1.0, 0);
    BasepointAt(2, n2, 0.5, 1);
    assert [0.0, 0.0][0 := 1.0 / 0.0000000001] == [10000000000.0, 0.0];
    assert [0.0, 0.0][1 := 0.5 / 0.5] == [0.0, 1.0];
    assert h1 == Hyperplane(2, n1, 1.0, Some([10000000000.0, 0.0]));
    assert h2 == Hyperplane(2, n2, 0.5, Some([0.0, 1.0]));
    Dot2(n1, n1);
    Dot2(n2, n2);
    var d := Minus([10000000000.0, 0.0], [0.0, 1.0]);
    assert d == [10000000000.0, -1.0];
    Dot2(d, d);
  }

  /** A normal whose magnitude is not below `1e-10` although each
      coordinate is: it has no basepoint, so comparing it fails. */
  lemma MissingBasepointExample(angle: (seq<real>, seq<real>) -> bool)
    requires angle([0.00000000009, 0.00000000009], [0.00000000009, 0.00000000009])
    ensures Make(2, Some([0.00000000009, 0.00000000009]), None).Ok?
    ensures Make(2, Some([0.00000000009, 0.00000000009]), None).value.basepoint.None?
    ensures !ZeroNormal(Make(2, Some([0.00000000009, 0.00000000009]), None).value)
    ensures Equal(Make(2, Some([0.00000000009, 0.00000000009]), None).value,
                  Make(2, Some([0.00000000009, 0.00000000009]), None).value, angle) == Err(MissingBasepoint)
  {
    var n := [0.00000000009, 0.00000000009];
    Dot2(n, n);
  }
}
