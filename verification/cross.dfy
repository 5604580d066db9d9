/** The cross product of two 3-vectors, and its planar variant that
    embeds two 2-vectors in space and reports a 3-vector. */
module CrossProducts {
  import opened Outcomes
  import opened Vectors

  /** `find_cross_product_of`: defined for two 2-vectors and for two
      3-vectors; every other pair of dimensions falls through the method
      and yields Python's `None`. The result is orthogonal to both operands. */
  function Cross(v: seq<real>, w: seq<real>): (r: Option<Vector>)
    ensures r.Some? <==> (|v| == 2 && |w| == 2) || (|v| == 3 && |w| == 3)
    ensures r.Some? ==> |r.value| == 3
    ensures r.Some? ==> Dot(r.value, v) == 0.0 && Dot(r.value, w) == 0.0
  {
    if |v| == 2 && |w| == 2 then
      var c := [0.0, 0.0, v[0] * w[1] - v[1] * w[0]];
      PlanarOrthogonal(c, v);
      PlanarOrthogonal(c, w);
      Some(c)
    else if |v| == 3 && |w| == 3 then
      var c := [v[1] * w[2] - v[2] * w[1], -(v[0] * w[2] - v[2] * w[0]), v[0] * w[1] - v[1] * w[0]];
      Dot3(c, v);
      Dot3(c, w);
      Some(c)
    else
      None
  }

  /** A 3-vector that is zero in its first two coordinates is orthogonal
      to every 2-vector: the zip stops before the third coordinate. */
  lemma PlanarOrthogonal(c: seq<real>, v: seq<real>)
    requires |c| == 3 && c[0] == 0.0 && c[1] == 0.0 && |v| == 2
    ensures Dot(c, v) == 0.0
  {
    DotCons(c, v);
    DotCons(c[1..], v[1..]);
    DotEmpty(c[1..][1..], v[1..][1..]);
  }

  /** Swapping the operands negates the cross product. */
  lemma CrossAnticommutative(v: seq<real>, w: seq<real>)
    requires Cross(v, w).Some?
    ensures Cross(w, v).Some?
    ensures Cross(w, v).value == TimesScalar(Cross(v, w).value, -1.0)
  {
  }

  /** A vector's cross product with itself is the zero 3-vector. */
  lemma CrossSelfIsZero(v: seq<real>)
    requires |v| == 2 || |v| == 3
    ensures Cross(v, v) == Some(Zeros(3))
  {
    var c := Cross(v, v).value;
    assert c[0] == 0.0 && c[1] == 0.0 && c[2] == 0.0;
    assert c == Zeros(3);
  }

  /** The planar cross product is the spatial cross product of the two
      operands padded with a zero third coordinate. */
  lemma PlanarCrossIsPaddedCross(v: seq<real>, w: seq<real>)
    requires |v| == 2 && |w| == 2
    ensures Cross(v, w) == Cross(v + [0.0], w + [0.0])
  {
    var v3, w3 := v + [0.0], w + [0.0];
    assert v3[0] == v[0] && v3[1] == v[1] && v3[2] == 0.0;
    assert w3[0] == w[0] && w3[1] == w[1] && w3[2] == 0.0;
    var c := Cross(v3, w3).value;
    var d := Cross(v, w).value;
    assert c[0] == 0.0 == d[0] && c[1] == 0.0 == d[1];
    assert c[2] == v[0] * w[1] - v[1] * w[0] == d[2];
    assert c == d;
  }

  /** The determinant of the 3 x 3 matrix with rows `u`, `v`, `w`. */
  function Determinant3(u: seq<real>, v: seq<real>, w: seq<real>): real
    requires |u| == 3 && |v| == 3 && |w| == 3
  {
    u[0] * (v[1] * w[2] - v[2] * w[1])
      - u[1] * (v[0] * w[2] - v[2] * w[0])
      + u[2] * (v[0] * w[1] - v[1] * w[0])
  }

  /** The triple product: dotting `v x w` with any `u` gives the
      determinant of `u`, `v`, `w`. Taking `u` to be each unit vector in
      turn fixes every coordinate of the cross product. */
  lemma CrossTripleProduct(v: seq<real>, w: seq<real>, u: seq<real>)
    requires |v| == 3 && |w| == 3 && |u| == 3
    ensures Cross(v, w).Some?
    ensures Dot(Cross(v, w).value, u) == Determinant3(u, v, w)
  {
    Dot3(Cross(v, w).value, u);
  }

  /** The triple product with a unit vector reads off one coordinate, so
      the cross product is the unique vector with those triple products. */
  lemma CrossDeterminedByTripleProducts(v: seq<real>, w: seq<real>, c: seq<real>)
    requires |v| == 3 && |w| == 3 && |c| == 3
    requires c[0] == Determinant3([1.0, 0.0, 0.0], v, w)
    requires c[1] == Determinant3([0.0, 1.0, 0.0], v, w)
    requires c[2] == Determinant3([0.0, 0.0, 1.0], v, w)
    ensures Cross(v, w) == Some(c)
  {
    CrossTripleProduct(v, w, [1.0, 0.0, 0.0]);
    CrossTripleProduct(v, w, [0.0, 1.0, 0.0]);
    CrossTripleProduct(v, w, [0.0, 0.0, 1.0]);
    var x := Cross(v, w).value;
    Dot3(x, [1.0, 0.0, 0.0]);
    Dot3(x, [0.0, 1.0, 0.0]);
    Dot3(x, [0.0, 0.0, 1.0]);
    assert x[0] == c[0] && x[1] == c[1] && x[2] == c[2];
    assert x == c;
  }

  /** The cross-product quiz: `[8.462, 7.893, -8.187] x [6.984, -5.975, 4.778]`
      is `[-11.205, -97.609, -105.685]` to three decimal places. */
  lemma CrossProductQuiz()
    ensures Cross([8.462, 7.893, -8.187], [6.984, -5.975, 4.778]).Some?
    ensures Near(Cross([8.462, 7.893, -8.187], [6.984, -5.975, 4.778]).value,
                 [-11.205, -97.609, -105.685], 0.001)
  {
  }
}
