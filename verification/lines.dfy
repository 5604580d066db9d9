/** `Line`: a hyperplane of dimension 2, and `intersection_with`, which
    solves the two equations by Cramer's rule and falls back on the
    coincidence test when the determinant is exactly zero.

    The source returns a vector or one of two strings; here the outcome is
    the datatype `Intersection`.
 */
module Lines {
  import opened Outcomes
  import opened Vectors
  import opened Hyperplanes

  /** What `intersection_with` reports. */
  datatype Intersection =
    | Point(x: real, y: real)  // the unique common point
    | SameLine                 // "these are on the same line"
    | Parallel                 // "intersection is: None. These are parallel"

  /** `Line(normal_vector, constant_term)`: the hyperplane constructor
      with dimension 2. */
  function NewLine(normal: Option<Vector>, constant: Option<real>): (r: Result<Hyperplane>)
    ensures r.Err? <==>
      normal.Some? && FirstNonzeroIndex(normal.value).Some? && FirstNonzeroIndex(normal.value).value >= 2
    ensures r.Ok? ==> Valid(r.value) && r.value.dimension == 2
    ensures r.Ok? ==> r.value.normal == (if normal.Some? then normal.value else [0.0, 0.0])
    ensures r.Ok? ==> r.value.constant == (if constant.Some? then constant.value else 0.0)
    ensures normal.None? ==> r.Ok? && r.value.normal == [0.0, 0.0] && r.value.basepoint.None?
  {
    assert Zeros(2) == [0.0, 0.0];
    Make(2, normal, constant)
  }

  /** `A D - B C` for normals `(A, B)` and `(C, D)`. */
  function Determinant(l1: Hyperplane, l2: Hyperplane): real
    requires |l1.normal| == 2 && |l2.normal| == 2
  {
    l1.normal[0] * l2.normal[1] - l1.normal[1] * l2.normal[0]
  }

  /** `intersection_with`. Unpacking a normal that is not a pair fails. A
      nonzero determinant gives the point Cramer's rule computes, which lies
      on both lines. Only an exactly zero determinant takes the degenerate
      branch, which reports `SameLine` when the lines compare equal,
      `Parallel` when they do not, and passes on a failure of the
      comparison. */
  function IntersectionWith(l1: Hyperplane, l2: Hyperplane, angle: (seq<real>, seq<real>) -> bool): (r: Result<Intersection>)
    ensures (r.Err? && r.error == NotTwoDimensional) <==> |l1.normal| != 2 || |l2.normal| != 2
    ensures |l1.normal| == 2 && |l2.normal| == 2 ==> ((r.Ok? && r.value.Point?) <==> Determinant(l1, l2) != 0.0)
    ensures r.Ok? && r.value.Point? ==>
      OnHyperplane(l1, [r.value.x, r.value.y]) && OnHyperplane(l2, [r.value.x, r.value.y])
    ensures r.Ok? && r.value.SameLine? <==>
      |l1.normal| == 2 && |l2.normal| == 2 && Determinant(l1, l2) == 0.0 && Equal(l1, l2, angle) == Ok(true)
    ensures r.Ok? && r.value.Parallel? <==>
      |l1.normal| == 2 && |l2.normal| == 2 && Determinant(l1, l2) == 0.0 && Equal(l1, l2, angle) == Ok(false)
    ensures r.Err? && r.error != NotTwoDimensional ==> Equal(l1, l2, angle) == Err(r.error)
  {
    if |l1.normal| != 2 || |l2.normal| != 2 then
      Err(NotTwoDimensional)
    else
      var det := Determinant(l1, l2);
      if det == 0.0 then
        match Equal(l1, l2, angle)
        case Ok(same) => if same then Ok(SameLine) else Ok(Parallel)
        case Err(e) => Err(e)
      else
        var a, b := l1.normal[0], l1.normal[1];
        var c, d := l2.normal[0], l2.normal[1];
        var k1, k2 := l1.constant, l2.constant;
        var inv := 1.0 / det;
        var x, y := (d * k1 - b * k2) * inv, (-c * k1 + a * k2) * inv;
        CramerSolves(a, b, c, d, k1, k2);
        Dot2(l1.normal, [x, y]);
        Dot2(l2.normal, [x, y]);
        Ok(Point(x, y))
  }

  /** The receiver after `intersection_with`. Only the degenerate branch
      runs `self == line2`, and with two zero normals its chained
      assignment overwrites the receiver's constant with the other line's.
      Every other path leaves the receiver as it was. */
  function ReceiverAfterIntersection(l1: Hyperplane, l2: Hyperplane): (r: Hyperplane)
    ensures r.dimension == l1.dimension && r.normal == l1.normal && r.basepoint == l1.basepoint
    ensures r.constant != l1.constant ==>
      |l1.normal| == 2 && |l2.normal| == 2 && Determinant(l1, l2) == 0.0 &&
      ZeroNormal(l1) && ZeroNormal(l2) && r.constant == l2.constant
    ensures (|l1.normal| == 2 && |l2.normal| == 2 && Determinant(l1, l2) == 0.0 &&
             ZeroNormal(l1) && ZeroNormal(l2)) ==> r.constant == l2.constant
  {
    if |l1.normal| == 2 && |l2.normal| == 2 && Determinant(l1, l2) == 0.0 then
      AfterEqual(l1, l2)
    else
      l1
  }

  /** The receiver is still a valid line afterwards. */
  lemma ReceiverAfterIntersectionValid(l1: Hyperplane, l2: Hyperplane)
    requires Valid(l1)
    ensures Valid(ReceiverAfterIntersection(l1, l2))
  {
    AfterEqualValid(l1, l2);
  }

  /** Intersecting `0 = 5` with `0 = 0` reports the same line and leaves
      the receiver as `0 = 0`. */
  lemma IntersectionOverwritesReceiver(angle: (seq<real>, seq<real>) -> bool)
    ensures NewLine(None, Some(5.0)).Ok? && NewLine(None, None).Ok?
    ensures IntersectionWith(NewLine(None, Some(5.0)).value, NewLine(None, None).value, angle) == Ok(SameLine)
    ensures ReceiverAfterIntersection(NewLine(None, Some(5.0)).value, NewLine(None, None).value).constant == 0.0
  {
    ZerosIsZero(2);
    assert Zeros(2) == [0.0, 0.0];
  }

  /** Cramer's rule: the point solves both equations. */
  lemma CramerSolves(a: real, b: real, c: real, d: real, k1: real, k2: real)
    requires a * d - b * c != 0.0
    ensures var inv := 1.0 / (a * d - b * c);
      var x, y := (d * k1 - b * k2) * inv, (-c * k1 + a * k2) * inv;
      Mul(a, x) + Mul(b, y) == k1 && Mul(c, x) + Mul(d, y) == k2
  {
    var det := a * d - b * c;
    var inv := 1.0 / det;
    var xn, yn := d * k1 - b * k2, -c * k1 + a * k2;
    assert a * xn + b * yn == k1 * det;
    assert c * xn + d * yn == k2 * det;
    assert Mul(a, xn * inv) + Mul(b, yn * inv) == (a * xn + b * yn) * inv;
    assert Mul(c, xn * inv) + Mul(d, yn * inv) == (c * xn + d * yn) * inv;
    ScaleCancels(k1, det);
    ScaleCancels(k2, det);
  }

  lemma ScaleCancels(k: real, m: real)
    requires m != 0.0
    ensures (k * m) * (1.0 / m) == k
  {
  }

  /** A nonzero determinant leaves exactly one common point: any point on
      both lines is the one returned. */
  lemma IntersectionUnique(l1: Hyperplane, l2: Hyperplane, angle: (seq<real>, seq<real>) -> bool, x: real, y: real)
    requires |l1.normal| == 2 && |l2.normal| == 2 && Determinant(l1, l2) != 0.0
    requires OnHyperplane(l1, [x, y]) && OnHyperplane(l2, [x, y])
    ensures IntersectionWith(l1, l2, angle) == Ok(Point(x, y))
  {
    var a, b := l1.normal[0], l1.normal[1];
    var c, d := l2.normal[0], l2.normal[1];
    var k1, k2 := l1.constant, l2.constant;
    var r := IntersectionWith(l1, l2, angle).value;
    Dot2(l1.normal, [x, y]);
    Dot2(l2.normal, [x, y]);
    Dot2(l1.normal, [r.x, r.y]);
    Dot2(l2.normal, [r.x, r.y]);
    CramerUnique(a, b, c, d, k1, k2, x, y);
    CramerUnique(a, b, c, d, k1, k2, r.x, r.y);
  }

  lemma CramerUnique(a: real, b: real, c: real, d: real, k1: real, k2: real, x: real, y: real)
    requires a * d - b * c != 0.0
    requires Mul(a, x) + Mul(b, y) == k1 && Mul(c, x) + Mul(d, y) == k2
    ensures x == (d * k1 - b * k2) * (1.0 / (a * d - b * c))
    ensures y == (-c * k1 + a * k2) * (1.0 / (a * d - b * c))
  {
    var det := a * d - b * c;
    assert d * k1 - b * k2 == det * x;
    assert -c * k1 + a * k2 == det * y;
  }

  // ---------------------------------------------------------------------
  // The three intersections the module's demo computes

  /** `4.046 x + 2.836 y = 1.21` and `10.115 x + 7.09 y = 3.025` are the
      same line scaled by 2.5: the determinant is exactly zero and the
      outcome is `SameLine` exactly when the normals count as parallel. */
  lemma IntersectionDemoOne(angle: (seq<real>, seq<real>) -> bool)
    ensures NewLine(Some([4.046, 2.836]), Some(1.21)).Ok?
    ensures NewLine(Some([10.115, 7.09]), Some(3.025)).Ok?
    ensures IntersectionWith(NewLine(Some([4.046, 2.836]), Some(1.21)).value,
                             NewLine(Some([10.115, 7.09]), Some(3.025)).value, angle)
         == Ok(if angle([4.046, 2.836], [10.115, 7.09]) then SameLine else Parallel)
  {
    var n1, n2 := [4.046, 2.836], [10.115, 7.09];
    FirstNonzeroIndexUnique(n1, 0);
    FirstNonzeroIndexUnique(n2, 0);
    var l1 := NewLine(Some(n1), Some(1.21)).value;
    var l2 := NewLine(Some(n2), Some(3.025)).value;
    assert Determinant(l1, l2) == 0.0;
    IndexedNormalIsNonzero(n1);
    IndexedNormalIsNonzero(n2);
    ProportionalBasepoint(2, n1, 1.21, n2, 3.025, 2.5, 0);
    if angle(n1, n2) {
      SameBasepointEqual(l1, l2, angle);
    }
  }

  /** `7.204 x + 3.182 y = 8.68` and `8.172 x + 4.114 y = 9.883` meet near
      `(1.173, 0.073)`. */
  lemma IntersectionDemoTwo(angle: (seq<real>, seq<real>) -> bool)
    ensures NewLine(Some([7.204, 3.182]), Some(8.68)).Ok?
    ensures NewLine(Some([8.172, 4.114]), Some(9.883)).Ok?
    ensures IntersectionWith(NewLine(Some([7.204, 3.182]), Some(8.68)).value,
                             NewLine(Some([8.172, 4.114]), Some(9.883)).value, angle).Ok?
    ensures var r := IntersectionWith(NewLine(Some([7.204, 3.182]), Some(8.68)).value,
                                      NewLine(Some([8.172, 4.114]), Some(9.883)).value, angle).value;
      r.Point? && Abs(r.x - 1.173) < 0.001 && Abs(r.y - 0.073) < 0.001
  {
    var n1, n2 := [7.204, 3.182], [8.172, 4.114];
    FirstNonzeroIndexUnique(n1, 0);
    FirstNonzeroIndexUnique(n2, 0);
    var l1 := NewLine(Some(n1), Some(8.68)).value;
    var l2 := NewLine(Some(n2), Some(9.883)).value;
    assert Determinant(l1, l2) == 3.633952;
    var inv := 1.0 / 3.633952;
    assert IntersectionWith(l1, l2, angle) == Ok(Point(4.261814 * inv, 0.264172 * inv));
  }

  /** The demo builds both of its third pair from the same normal
      `(8.172, 4.114)` with constants 6.744 and 9.525: the determinant is
      zero and the basepoints differ, so the lines are parallel whatever
      the angle test says. */
  lemma IntersectionDemoThree(angle: (seq<real>, seq<real>) -> bool)
    ensures NewLine(Some([8.172, 4.114]), Some(6.744)).Ok?
    ensures NewLine(Some([8.172, 4.114]), Some(9.525)).Ok?
    ensures IntersectionWith(NewLine(Some([8.172, 4.114]), Some(6.744)).value,
                             NewLine(Some([8.172, 4.114]), Some(9.525)).value, angle) == Ok(Parallel)
  {
    var n := [8.172, 4.114];
    FirstNonzeroIndexUnique(n, 0);
    var l1 := NewLine(Some(n), Some(6.744)).value;
    var l2 := NewLine(Some(n), Some(9.525)).value;
    assert Determinant(l1, l2) == 0.0;
    IndexedNormalIsNonzero(n);
    BasepointAt(2, n, 6.744, 0);
    BasepointAt(2, n, 9.525, 0);
    var diff := Minus(l1.basepoint.value, l2.basepoint.value);
    assert diff == [6.744 / 8.172 - 9.525 / 8.172, 0.0];
    Dot2(diff, diff);
    assert Mul(diff[0], diff[0]) > 0.1;
  }
}
