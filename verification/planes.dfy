/** `Plane`: a hyperplane of dimension 3, with `is_parallel_with`. The
    constructor, basepoint and `__eq__` are the shared ones of
    `Hyperplanes`.
 */
module Planes {
  import opened Outcomes
  import opened Vectors
  import opened Hyperplanes

  /** `Plane(normal_vector, constant_term)`: the hyperplane constructor
      with dimension 3. The source copies the normal coordinate by
      coordinate, which leaves it unchanged. */
  function NewPlane(normal: Option<Vector>, constant: Option<real>): (r: Result<Hyperplane>)
    ensures r.Err? <==>
      normal.Some? && FirstNonzeroIndex(normal.value).Some? && FirstNonzeroIndex(normal.value).value >= 3
    ensures r.Ok? ==> Valid(r.value) && r.value.dimension == 3
    ensures r.Ok? ==> r.value.normal == (if normal.Some? then normal.value else [0.0, 0.0, 0.0])
    ensures r.Ok? ==> r.value.constant == (if constant.Some? then constant.value else 0.0)
    ensures normal.None? ==> r.Ok? && r.value.normal == [0.0, 0.0, 0.0] && r.value.basepoint.None?
  {
    assert Zeros(3) == [0.0, 0.0, 0.0];
    Make(3, normal, constant)
  }

  /** `is_parallel_with`: the normals are parallel, which holds whenever
      either normal is zero and otherwise is the angle test. */
  function IsParallelWith(p1: Hyperplane, p2: Hyperplane, angle: (seq<real>, seq<real>) -> bool): (r: bool)
    ensures ZeroNormal(p1) || ZeroNormal(p2) ==> r
    ensures !ZeroNormal(p1) && !ZeroNormal(p2) ==> (r <==> angle(p1.normal, p2.normal))
  {
    IsParallelTo(p1.normal, p2.normal, angle)
  }

  /** Planes that compare equal are parallel. */
  lemma EqualImpliesParallel(p1: Hyperplane, p2: Hyperplane, angle: (seq<real>, seq<real>) -> bool)
    requires Equal(p1, p2, angle) == Ok(true)
    ensures IsParallelWith(p1, p2, angle)
  {
    if !ZeroNormal(p1) && !ZeroNormal(p2) {
      assert angle(p1.normal, p2.normal);
    }
  }

  /** Parallelism is symmetric whenever the angle test is symmetric on the
      two normals. */
  lemma ParallelWithSymmetric(p1: Hyperplane, p2: Hyperplane, angle: (seq<real>, seq<real>) -> bool)
    requires angle(p1.normal, p2.normal) == angle(p2.normal, p1.normal)
    ensures IsParallelWith(p1, p2, angle) == IsParallelWith(p2, p1, angle)
  {
  }

  // ---------------------------------------------------------------------
  // The demo pairs whose answer does not rest on the angle alone

  /** `-0.412 x + 3.806 y + 0.728 z = -3.46` and
      `1.03 x - 9.515 y - 1.82 z = 8.65` are the same plane scaled by
      -2.5: both tests come down to whether the normals count as
      parallel. */
  lemma PlaneDemoOne(angle: (seq<real>, seq<real>) -> bool)
    ensures NewPlane(Some([-0.412, 3.806, 0.728]), Some(-3.46)).Ok?
    ensures NewPlane(Some([1.03, -9.515, -1.82]), Some(8.65)).Ok?
    ensures IsParallelWith(NewPlane(Some([-0.412, 3.806, 0.728]), Some(-3.46)).value,
                           NewPlane(Some([1.03, -9.515, -1.82]), Some(8.65)).value, angle)
         == angle([-0.412, 3.806, 0.728], [1.03, -9.515, -1.82])
    ensures Equal(NewPlane(Some([-0.412, 3.806, 0.728]), Some(-3.46)).value,
                  NewPlane(Some([1.03, -9.515, -1.82]), Some(8.65)).value, angle)
         == Ok(angle([-0.412, 3.806, 0.728], [1.03, -9.515, -1.82]))
  {
    var n1, n2 := [-0.412, 3.806, 0.728], [1.03, -9.515, -1.82];
    FirstNonzeroIndexUnique(n1, 0);
    FirstNonzeroIndexUnique(n2, 0);
    assert -3.46 / -0.412 == 8.65 / 1.03;
    ProportionalPlanes(n1, -3.46, n2, 8.65, angle);
  }

  /** Two planes whose constants divided by their leading coefficients
      agree share their basepoint, so both tests come down to the angle
      test on the normals. */
  lemma ProportionalPlanes(n1: seq<real>, c1: real, n2: seq<real>, c2: real,
                           angle: (seq<real>, seq<real>) -> bool)
    requires |n1| == 3 && FirstNonzeroIndex(n1) == Some(0)
    requires |n2| == 3 && FirstNonzeroIndex(n2) == Some(0)
    requires c1 / n1[0] == c2 / n2[0]
    ensures NewPlane(Some(n1), Some(c1)).Ok? && NewPlane(Some(n2), Some(c2)).Ok?
    ensures IsParallelWith(NewPlane(Some(n1), Some(c1)).value, NewPlane(Some(n2), Some(c2)).value, angle)
         == angle(n1, n2)
    ensures Equal(NewPlane(Some(n1), Some(c1)).value, NewPlane(Some(n2), Some(c2)).value, angle)
         == Ok(angle(n1, n2))
  {
    SharedBasepoint(n1, c1, n2, c2);
    var p1, p2 := NewPlane(Some(n1), Some(c1)).value, NewPlane(Some(n2), Some(c2)).value;
    if angle(n1, n2) {
      SameBasepointEqual(p1, p2, angle);
    }
  }

  /** Equal ratios of constant to leading coefficient give the same
      basepoint. */
  lemma SharedBasepoint(n1: seq<real>, c1: real, n2: seq<real>, c2: real)
    requires |n1| == 3 && FirstNonzeroIndex(n1) == Some(0)
    requires |n2| == 3 && FirstNonzeroIndex(n2) == Some(0)
    requires c1 / n1[0] == c2 / n2[0]
    ensures NewPlane(Some(n1), Some(c1)).Ok? && NewPlane(Some(n2), Some(c2)).Ok?
    ensures !ZeroNormal(NewPlane(Some(n1), Some(c1)).value) && !ZeroNormal(NewPlane(Some(n2), Some(c2)).value)
    ensures NewPlane(Some(n1), Some(c1)).value.basepoint.Some?
    ensures NewPlane(Some(n1), Some(c1)).value.basepoint == NewPlane(Some(n2), Some(c2)).value.basepoint
  {
    LeadingBasepoint(n1, c1);
    LeadingBasepoint(n2, c2);
  }

  /** `-7.926 x + 8.625 y - 7.212 z = 7.952` and
      `-2.642 x + 2.875 y - 2.404 z = -2.443` have normals in ratio 3 but
      constants that are not: whether they are parallel is the angle
      test's answer, but the basepoints differ and the planes compare
      unequal whatever it says. */
  lemma PlaneDemoThree(angle: (seq<real>, seq<real>) -> bool)
    ensures NewPlane(Some([-7.926, 8.625, -7.212]), Some(7.952)).Ok?
    ensures NewPlane(Some([-2.642, 2.875, -2.404]), Some(-2.443)).Ok?
    ensures IsParallelWith(NewPlane(Some([-7.926, 8.625, -7.212]), Some(7.952)).value,
                           NewPlane(Some([-2.642, 2.875, -2.404]), Some(-2.443)).value, angle)
         == angle([-7.926, 8.625, -7.212], [-2.642, 2.875, -2.404])
    ensures Equal(NewPlane(Some([-7.926, 8.625, -7.212]), Some(7.952)).value,
                  NewPlane(Some([-2.642, 2.875, -2.404]), Some(-2.443)).value, angle) == Ok(false)
  {
    var n1, n2 := [-7.926, 8.625, -7.212], [-2.642, 2.875, -2.404];
    FirstNonzeroIndexUnique(n1, 0);
    FirstNonzeroIndexUnique(n2, 0);
    SeparatePlanes(n1, 7.952, n2, -2.443, angle);
  }

  /** `2.611 x + 5.528 y + 0.283 z = 4.6` and
      `7.926 x + 8.306 y + 5.342 z = 3.76`: whether they are parallel is
      the angle test's answer, but their basepoints lie more than one
      apart, so they compare unequal whatever it says. */
  lemma PlaneDemoTwo(angle: (seq<real>, seq<real>) -> bool)
    ensures NewPlane(Some([2.611, 5.528, 0.283]), Some(4.6)).Ok?
    ensures NewPlane(Some([7.926, 8.306, 5.342]), Some(3.76)).Ok?
    ensures IsParallelWith(NewPlane(Some([2.611, 5.528, 0.283]), Some(4.6)).value,
                           NewPlane(Some([7.926, 8.306, 5.342]), Some(3.76)).value, angle)
         == angle([2.611, 5.528, 0.283], [7.926, 8.306, 5.342])
    ensures Equal(NewPlane(Some([2.611, 5.528, 0.283]), Some(4.6)).value,
                  NewPlane(Some([7.926, 8.306, 5.342]), Some(3.76)).value, angle) == Ok(false)
  {
    var n1, n2 := [2.611, 5.528, 0.283], [7.926, 8.306, 5.342];
    FirstNonzeroIndexUnique(n1, 0);
    FirstNonzeroIndexUnique(n2, 0);
    SeparatePlanes(n1, 4.6, n2, 3.76, angle);
  }


  /** Two planes whose basepoints on the first axis lie more than one
      apart compare unequal, whatever the angle test says; whether they
      are parallel is the angle test's answer. */
  lemma SeparatePlanes(n1: seq<real>, c1: real, n2: seq<real>, c2: real,
                       angle: (seq<real>, seq<real>) -> bool)
    requires |n1| == 3 && FirstNonzeroIndex(n1) == Some(0)
    requires |n2| == 3 && FirstNonzeroIndex(n2) == Some(0)
    requires Abs(c1 / n1[0] - c2 / n2[0]) > 1.0
    ensures NewPlane(Some(n1), Some(c1)).Ok? && NewPlane(Some(n2), Some(c2)).Ok?
    ensures IsParallelWith(NewPlane(Some(n1), Some(c1)).value, NewPlane(Some(n2), Some(c2)).value, angle)
         == angle(n1, n2)
    ensures Equal(NewPlane(Some(n1), Some(c1)).value, NewPlane(Some(n2), Some(c2)).value, angle)
         == Ok(false)
  {
    LeadingBasepoint(n1, c1);
    LeadingBasepoint(n2, c2);
    OffsetBasepointsApart(c1 / n1[0], c2 / n2[0]);
  }

  /** A plane whose first normal coordinate is not near zero has a nonzero
      normal and its basepoint on the first axis. */
  lemma LeadingBasepoint(n: seq<real>, c: real)
    requires |n| == 3 && FirstNonzeroIndex(n) == Some(0)
    ensures NewPlane(Some(n), Some(c)).Ok?
    ensures !ZeroNormal(NewPlane(Some(n), Some(c)).value)
    ensures NewPlane(Some(n), Some(c)).value.basepoint == Some([c / n[0], 0.0, 0.0])
  {
    IndexedNormalIsNonzero(n);
    BasepointAt(3, n, c, 0);
    assert Zeros(3)[0 := c / n[0]] == [c / n[0], 0.0, 0.0];
  }

  /** Two basepoints on the first axis more than one apart are not close. */
  lemma OffsetBasepointsApart(x1: real, x2: real)
    requires Abs(x1 - x2) > 1.0
    ensures !BasepointsClose([x1, 0.0, 0.0], [x2, 0.0, 0.0])
  {
    var d := Minus([x1, 0.0, 0.0], [x2, 0.0, 0.0]);
    assert d == [x1 - x2, 0.0, 0.0];
    Dot3(d, d);
    SquareStrictMonotone(1.0, Abs(x1 - x2));
    assert Mul(Abs(x1 - x2), Abs(x1 - x2)) == Mul(x1 - x2, x1 - x2);
    BasepointsCloseMeansNear([x1, 0.0, 0.0], [x2, 0.0, 0.0]);
  }
}
