# linear-algebra-refresher in Dafny

A model of the exact-arithmetic core of the `linear-algebra-refresher`
geometry exercises. It has three layers:

- **Vectors.** Construction, coordinate-wise `plus` / `minus` / `multiply`,
  `times_scalar`, the dot product, and the tolerance tests `is_zero`,
  `is_orthogonal_to` and `is_parallel_to`. Also the cross product in its 2-D
  and 3-D forms, and the decomposition of a vector against a basis into
  parallel and orthogonal components.
- **Lines** (`Line`, dimension 2). `first_nonzero_index` with its `1e-10`
  tolerance, the basepoint, the coincidence test `__eq__`, and
  `intersection_with`. That last one solves two line equations by Cramer's
  rule and reports a point, "same line" or "parallel".
- **Planes** (`Plane`, dimension 3). The same constructor, basepoint and
  `__eq__`, plus `is_parallel_with`.

Numbers are Dafny `real`s, so arithmetic is exact. The library's
`Decimal` contexts (precision 6, 7 or 30, depending on the file) and its float `sqrt` / `acos` are not
modelled. Two things are parameters instead:

- **The magnitude.** The square root is a parameter `magnitude` with
  `magnitude >= 0` and `magnitude * magnitude == v . v`. The zero test
  `magnitude < tol` is stated as `v . v < tol * tol`, and
  `IsZeroIffMagnitudeBelow` proves the two agree.
- **The angle test.** The part of `is_parallel_to` that compares an `acos`
  result with `0` and with `pi` is a parameter
  `angle: (seq<real>, seq<real>) -> bool`. Every property involving it
  holds whatever that function says. Only the zero-operand rule is fixed.

Failures the library signals by raising become `Result.Err` values:

| error | raised by the library when |
|---|---|
| `EmptyCoordinates` | a vector is built from no coordinates |
| `ZeroMagnitude` | a zero vector is normalised |
| `BasepointIndexOutOfRange` | the first nonzero index is past the dimension |
| `MissingBasepoint` | `__eq__` dereferences a `None` basepoint |
| `NotTwoDimensional` | unpacking a normal that is not a pair |

The cross product of any other pair of dimensions returns Python's `None`,
which is `Option.None` here.

`Line` and `Plane` define the constructor, `set_basepoint`,
`first_nonzero_index` and `__eq__` with the same code apart from the
dimension constant. Those are modelled once, in module `Hyperplanes`.
Module `Lines` fixes the dimension to 2 and adds `intersection_with`,
which only `Line` has. Module `Planes` fixes it to 3 and adds
`is_parallel_with`, which only `Plane` has; `Plane` also copies the normal
coordinate by coordinate, which leaves its value unchanged.

Line and plane import their `Vector` from `vectors_final`, and
`vectors_final` is not part of this model. Its behaviour is taken from
`vectors_cross_products.py`, the most complete vector class present:

- `is_zero` is magnitude below `1e-10`;
- `is_orthogonal_to` is `|v . w| < 1e-10`;
- `is_parallel_to` is "either operand zero, or the angle test".

The model keeps three behaviours of the source as written:

- **The chained assignment in `__eq__`.** When both normals are zero,
  `diff = self.constant_term = other.constant_term` overwrites the
  receiver's constant with the other's, and the result depends on the
  other's constant alone. `Equal` returns the answer and `AfterEqual` the
  modified receiver. `ZeroNormalAsymmetry` shows that this makes `__eq__`
  asymmetric. `intersection_with` runs `__eq__` in its degenerate branch,
  so it can overwrite its receiver too: `ReceiverAfterIntersection` is the
  receiver afterwards, and `IntersectionOverwritesReceiver` shows `0 = 5`
  becoming `0 = 0`.
- **The exact-zero determinant test.** `intersection_with` takes the
  degenerate branch only on an exact `ZeroDivisionError`, so only a
  determinant that is exactly zero counts as singular.
- **Tolerance corner cases in `__eq__`.** A normal can have magnitude
  `>= 1e-10` while every coordinate is below `1e-10`. Such a normal is
  nonzero but has no basepoint, so `__eq__` dereferences `None`
  (`MissingBasepointExample`). Separately, two equations of the same line
  can choose different basepoint coordinates and then compare unequal
  (`CoincidentButUnequal`).

The demos, in exact arithmetic:

- In the first demo pair of `line_intersections.py`,
  `4.046 x + 2.836 y = 1.21` and `10.115 x + 7.09 y = 3.025`, the second
  equation is exactly 2.5 times the first. The determinant is exactly 0,
  the basepoints coincide, and the outcome is `SameLine` exactly when the
  angle test accepts the normals (`IntersectionDemoOne`).
- The program's own comment at `vectors_is_parallel.py:127` expects
  `false` for `[-2.118, 4.827]` parallel to `[0, 0]`, but its code returns
  `true`, because the second operand is zero. The model follows the code
  (`ZeroOperandParallelQuiz`).

Files: `outcomes.dfy` (`Option`, `Result`, `Error`), `vectors.dfy`,
`cross.dfy`, `projections.dfy`, `hyperplanes.dfy`, `lines.dfy`,
`planes.dfy`.

## Model

| member | source | states |
|---|---|---|
| Vectors.NewVector | vectors_cross_products.py:12-23 | construction fails exactly on an empty coordinate list and otherwise keeps the coordinates unchanged |
| Vectors.ZipWith | vectors_cross_products.py:35-49 | a coordinate-wise operation has the length of the shorter operand (Python's `zip`) and applies the operation at every kept index |
| Vectors.Plus | vectors_cross_products.py:35-39 | `plus` has the shorter operand's length and adds the coordinates index by index |
| Vectors.Minus | vectors_cross_products.py:41-45 | `minus` has the shorter operand's length and subtracts the coordinates index by index |
| Vectors.Multiply | vectors_cross_products.py:47-49 | `multiply` has the shorter operand's length and multiplies the coordinates index by index |
| Vectors.PlusCommutes | vector_2.py:17-19 | `plus` is commutative |
| Vectors.MinusSelfIsZero | vectors_cross_products.py:41-45 | `v.minus(v)` is the zero vector of the same dimension |
| Vectors.MinusPlusCancel | vectors_cross_products.py:35-45 | adding back what was subtracted restores the vector, for equal dimensions |
| Vectors.TimesScalar | vectors_cross_products.py:51-55 | `times_scalar` keeps the dimension and multiplies every coordinate by the scalar; `DotScaleLeft` relates it to the dot product |
| Vectors.Dot | vectors_cross_products.py:76-80 | the sum of the pairwise products: 0 with an empty operand, otherwise the first product plus the sum over the remaining coordinates; partners `DotSymmetric`, `DotSelf` |
| Vectors.IsOrthogonalTo | vectors_cross_products.py:104-107 | `abs(v . w) < tolerance` reads the same with the operands swapped, and never holds for a tolerance that is not positive |
| Vectors.IsZero | vectors_cross_products.py:121-124 | never holds for a tolerance that is not positive, and holds for every positive one on the all-zero vector; `IsZeroIffMagnitudeBelow` ties it to `magnitude < tolerance` |
| Vectors.IsParallelTo | vectors_cross_products.py:109-119 | true when either operand passes `is_zero`, otherwise exactly the angle test |
| Vectors.TimesScalarOne | vectors_cross_products.py:51-55 | `times_scalar` by 1 gives back the vector unchanged |
| Vectors.DotSymmetric | vectors_cross_products.py:76-80 | the dot product is symmetric |
| Vectors.DotSelf | vectors_cross_products.py:57-62 | `v . v` (the squared magnitude) is nonnegative and is zero exactly for the all-zero vector |
| Vectors.DotZeros | vectors_cross_products.py:76-80 | the dot product with a zero vector is zero |
| Vectors.DotMinusLeft | vectors_cross_products.py:41-45 | the dot product distributes over `minus` when the zip sees the same coordinates of both operands |
| Vectors.DotScaleLeft | vectors_cross_products.py:51-55 | scaling an operand by `t` scales the dot product by `t` |
| Vectors.DotSingleNonzero | vectors_cross_products.py:76-80 | against a vector that is zero except at `k`, the dot product is the single product at `k` |
| Vectors.OrthogonalSymmetric | vectors_cross_products.py:104-107 | `is_orthogonal_to` is symmetric |
| Vectors.OrthogonalToZeros | vectors_cross_products.py:104-107 | every vector is orthogonal to a zero vector under every positive tolerance |
| Vectors.IsZeroIffMagnitudeBelow | vectors_cross_products.py:121-124 | the square-free zero test agrees with `magnitude < tolerance` for the magnitude `sqrt` returns |
| Vectors.IsZeroExactly | vectors_cross_products.py:121-124 | a vector is zero under every positive tolerance exactly when all its coordinates are zero |
| Vectors.ZerosIsZero | vectors_cross_products.py:121-124 | the all-zero vector passes `is_zero` |
| Vectors.OrthogonalityQuiz | vectors_is_parallel.py:100-128 | the quiz pairs: the first two are not orthogonal, the third has dot product exactly 0, and `[-2.118, 4.827]` is orthogonal to `[0, 0]` |
| Vectors.ZeroOperandParallelQuiz | vectors_is_parallel.py:123-128 | `[-2.118, 4.827]` is parallel to `[0, 0]` under every angle test, against the comment's expectation |
| CrossProducts.Cross | vectors_cross_products.py:155-168 | defined exactly for two 2-vectors or two 3-vectors, always yields a 3-vector, and the result is orthogonal to both operands |
| CrossProducts.PlanarOrthogonal | vectors_cross_products.py:157-160 | the planar result `[0, 0, z]` has zero dot product with any 2-vector |
| CrossProducts.CrossAnticommutative | vectors_cross_products.py:155-168 | swapping the operands negates the cross product |
| CrossProducts.CrossSelfIsZero | vectors_cross_products.py:155-168 | a vector crossed with itself gives the zero 3-vector |
| CrossProducts.PlanarCrossIsPaddedCross | vectors_cross_products.py:157-168 | the 2-D branch equals the 3-D branch applied to the operands padded with a zero |
| CrossProducts.CrossTripleProduct | vectors_cross_products.py:162-168 | `(v x w) . u` is the determinant of `u`, `v`, `w` for every `u` |
| CrossProducts.CrossDeterminedByTripleProducts | vectors_cross_products.py:162-168 | the 3-D cross product is the one vector whose coordinates are the triple products with the unit vectors |
| CrossProducts.CrossProductQuiz | vectors_cross_products.py:182-187 | the quiz cross product is `[-11.205, -97.609, -105.685]` to within 0.001 |
| Projections.Normalization | vector_2.py:34-41 | a zero magnitude fails; otherwise the result has the same dimension, unit length, and is a positive multiple of the basis |
| Projections.ParallelComponent | vectors_projections.py:100-110 | fails exactly for a zero basis; otherwise it is a multiple of the basis with the basis's length, and when the basis is no longer than `v` the residual `v - p` is orthogonal to the basis |
| Projections.ProjectionResidual | vectors_projections.py:112-115 | when the basis is no longer than `v`, the residual `v - t b` has dot product `v . b - t (b . b)` with the basis (a longer basis is cut short by `zip`) |
| Projections.OrthogonalComponent | vectors_projections.py:112-121 | fails exactly when the parallel component does; otherwise it has the zip's length, and when the basis is no longer than `v` it is orthogonal to the basis |
| Projections.ParallelViaNormalization | vectors_projections.py:100-104 | the library's normalise-then-scale route fails with a zero-magnitude error exactly for a zero basis, and otherwise gives a multiple of the basis of the basis's length; `NormalisedFormAgrees` proves it equal to `ParallelComponent` |
| Projections.NormalisedWeight | vectors_projections.py:100-104 | for a nonzero magnitude, normalising gives `b / |b|` and the weight `v . n` is `(v . b) / |b|` |
| Projections.NormalisedProjection | vectors_projections.py:100-104 | for a nonzero magnitude, the library's route scales `b / |b|` by `(v . b) / |b|` |
| Projections.NonzeroMagnitudeAgrees | vectors_projections.py:100-104 | for a nonzero magnitude, normalise-then-project equals the square-root-free parallel component |
| Projections.NormalisedFormAgrees | vectors_projections.py:100-104 | for every magnitude the library's normalise-then-project route equals the square-root-free parallel component, including the zero-basis failure |
| Projections.Decomposition | vectors_projections.py:100-121 | parallel plus orthogonal component gives back `v` on the coordinates the zip keeps |
| Projections.ParallelComponentUnique | vectors_projections.py:100-110 | the parallel component is the only multiple of the basis whose residual is orthogonal to it |
| Projections.ProjectionQuiz | vectors_projections.py:127-131 | the projection of `[3.039, 1.879]` onto `[0.825, 2.036]` is `[1.083, 2.672]` to within 0.001 |
| Projections.OrthogonalQuiz | vectors_projections.py:134-139 | the orthogonal component of the second quiz pair is `[-8.350, 3.376, -1.434]` to within 0.001 |
| Projections.DecompositionQuiz | vectors_projections.py:142-153 | the decomposition quiz gives `[1.969, -2.811, 0.848, 2.680]` and `[1.040, -3.361, 2.844, -5.190]` to within 0.001 |
| Hyperplanes.IsNearZero | line_intersections.py:147-149 | `is_near_zero` holds exactly on the open interval `(-1e-10, 1e-10)`, and always for 0 |
| Hyperplanes.FirstNonzeroFrom | line_intersections.py:96-101 | the first index from `k` on whose coordinate is not near zero, with every earlier one near zero; none exactly when all are near zero |
| Hyperplanes.FirstNonzeroIndex | line_intersections.py:96-101 | the least index whose coordinate is at least `1e-10` in absolute value; none (the source raises) exactly when every coordinate is near zero |
| Hyperplanes.FirstNonzeroIndexUnique | planes.py:92-97 | any index that is not near zero, with every earlier coordinate near zero, is the index returned |
| Hyperplanes.Basepoint | line_intersections.py:30-46 | no basepoint exactly when every coordinate is near zero; failure exactly when the index is past the dimension; otherwise zero except at index `k`, where `n[k] * p[k] = c` |
| Hyperplanes.BasepointOnHyperplane | planes.py:27-43 | the basepoint satisfies the hyperplane's equation `n . p = c` |
| Hyperplanes.Make | line_intersections.py:12-27 | missing normal and constant default to the zero vector and 0; fails exactly when the basepoint index is out of range; otherwise the hyperplane is valid and its basepoint lies on it |
| Hyperplanes.ZeroNormalNearZero | planes.py:103-108 | a normal that passes `is_zero` has every coordinate near zero and no first nonzero index |
| Hyperplanes.IndexedNormalIsNonzero | planes.py:92-112 | a normal with a first nonzero index does not pass `is_zero` |
| Hyperplanes.ZeroNormalHasNoBasepoint | planes.py:27-43 | a constructed hyperplane whose normal is zero has no basepoint |
| Hyperplanes.BasepointsCloseMeansNear | line_intersections.py:119-124 | `d.is_orthogonal_to(d)` holds exactly when the squared basepoint distance is below `1e-10` |
| Hyperplanes.Equal | line_intersections.py:103-124 | two zero normals give the near-zero test of the other's constant; one zero normal gives false; two nonzero normals that fail the angle test give false before any basepoint is read; otherwise the basepoints are compared, and a missing one fails |
| Hyperplanes.AfterEqual | line_intersections.py:111 | with two zero normals the receiver's constant becomes the other's; otherwise the receiver is unchanged |
| Hyperplanes.AfterEqualValid | line_intersections.py:107-112 | the receiver stays a valid hyperplane after the overwrite |
| Hyperplanes.EqualAfterSideEffect | planes.py:103-108 | after `a == b` with two zero normals, `b == a` gives the same answer |
| Hyperplanes.EqualReflexive | line_intersections.py:103-124 | a zero-normal hyperplane equals itself iff its constant is near zero; one with a basepoint equals itself when the angle test accepts its normal |
| Hyperplanes.DifferenceSquaredSymmetric | line_intersections.py:119-124 | the squared basepoint difference is the same in both directions |
| Hyperplanes.EqualSymmetric | line_intersections.py:103-124 | unless both normals are zero, a symmetric angle test makes swapping the operands give the same answer |
| Hyperplanes.ZeroNormalAsymmetry | line_intersections.py:107-112 | for zero normals the test is asymmetric: `0 = 0` vs `0 = 5` is false one way and true the other |
| Hyperplanes.ProportionalBasepoint | planes.py:27-43 | scaling the first nonzero coordinate and the constant by the same nonzero factor keeps the basepoint |
| Hyperplanes.SameBasepointEqual | planes.py:99-120 | nonzero normals accepted by the angle test, with the same basepoint, compare equal |
| Hyperplanes.ProportionalEqual | line_intersections.py:103-124 | proportional equations that pick the same first index compare equal when the angle test accepts the normals |
| Hyperplanes.CoincidentButUnequal | line_intersections.py:96-124 | `1e-10 x + y = 1` and half of it describe the same line but compare unequal, because the tolerance picks different basepoint coordinates |
| Hyperplanes.MissingBasepointExample | planes.py:112-120 | a normal whose coordinates are each below `1e-10` but whose magnitude is not has no basepoint, and comparing it fails |
| Lines.NewLine | line_intersections.py:12-27 | a `Line` is valid with dimension 2, keeps the given normal and constant, defaults them to `[0, 0]` (with no basepoint) and 0, and fails only for an index past 2 |
| Lines.IntersectionWith | line_intersections.py:127-144 | a non-pair normal fails; a nonzero determinant gives a point on both lines; a zero determinant gives same line or parallel as `__eq__` says, and passes on its failure |
| Lines.ReceiverAfterIntersection | line_intersections.py:127-144 | the receiver keeps its dimension, normal and basepoint; its constant changes only in the degenerate branch with two zero normals, where it becomes the other line's |
| Lines.ReceiverAfterIntersectionValid | line_intersections.py:141 | the receiver is still a valid line afterwards |
| Lines.IntersectionOverwritesReceiver | line_intersections.py:141 | `0 = 5` intersected with `0 = 0` reports the same line and leaves the receiver as `0 = 0` |
| Lines.CramerSolves | line_intersections.py:134-138 | the Cramer's-rule point satisfies both equations |
| Lines.CramerUnique | line_intersections.py:134-138 | any solution of both equations is the Cramer's-rule point |
| Lines.IntersectionUnique | line_intersections.py:127-138 | with a nonzero determinant, every common point of the two lines is the point returned |
| Lines.IntersectionDemoOne | line_intersections.py:157-164 | demo 1: the determinant is zero and the result is same line exactly when the angle test accepts the normals |
| Lines.IntersectionDemoTwo | line_intersections.py:168-173 | demo 2: the lines meet at about `(1.173, 0.073)` |
| Lines.IntersectionDemoThree | line_intersections.py:175-181 | demo 3, which builds both lines from the same normal: parallel, whatever the angle test says |
| Planes.NewPlane | planes.py:12-24 | a `Plane` is valid with dimension 3, keeps the given normal and constant, defaults them to `[0, 0, 0]` (with no basepoint) and 0, and fails only for an index past 3 |
| Planes.IsParallelWith | planes.py:122-128 | true when either normal is zero, otherwise exactly the angle test on the normals |
| Planes.EqualImpliesParallel | planes.py:99-128 | planes that compare equal are parallel |
| Planes.ParallelWithSymmetric | planes.py:122-128 | `is_parallel_with` is symmetric when the angle test is |
| Planes.LeadingBasepoint | planes.py:27-43 | a plane whose first coordinate is not near zero has a nonzero normal and its basepoint on the first axis |
| Planes.OffsetBasepointsApart | planes.py:115-120 | basepoints on the first axis more than 1 apart do not pass the coincidence test |
| Planes.PlaneDemoOne | planes.py:136-139 | demo 1, a plane scaled by -2.5: parallel and equal both come down to the angle test |
| Planes.PlaneDemoTwo | planes.py:142-145 | demo 2: parallel is the angle test's answer, and the planes compare unequal whatever it says |
| Planes.PlaneDemoThree | planes.py:147-150 | demo 3: normals in ratio 3 but constants not; parallel is the angle test's answer, and the planes compare unequal whatever it says |
| Planes.ProportionalPlanes | planes.py:99-128 | planes with the same ratio of constant to leading coefficient are parallel and equal exactly when the angle test accepts the normals |
| Planes.SharedBasepoint | planes.py:27-43 | the same ratio of constant to leading coefficient gives the same basepoint and nonzero normals |
| Planes.SeparatePlanes | planes.py:99-128 | planes whose basepoints lie more than 1 apart compare unequal whatever the angle test says, and are parallel exactly when it accepts the normals |

## Left out

- Floating point and `Decimal`: all arithmetic is exact over the reals. The library's `getcontext().prec` rounding to 6, 7 or 30 digits, and float `sqrt` / `acos`, are not modelled.
- `find_magnitude`: `sqrt` becomes a `magnitude` argument constrained by `magnitude >= 0` and `magnitude * magnitude == v . v`. The zero test is stated without it and proved equivalent (`Vectors.IsZeroIffMagnitudeBelow`).
- `find_vectors_angle` and the `acos`-based branch of `is_parallel_to`: the comparison of a float angle with `0` and `pi` becomes the `angle` parameter.
- Vectors.IsParallelTo: weaker than the source, because nothing is assumed about the angle test beyond its being a function of the two vectors. Properties that need parallelism to be symmetric or reflexive take that as a precondition.
- Projections.Normalization: takes the magnitude as an argument instead of computing `sqrt`, so its contract is stated relative to that argument.
- Hyperplanes.ProportionalEqual: covers only proportional equations that pick the same first nonzero index. `Hyperplanes.CoincidentButUnequal` shows that the source's answer really does differ when the indices differ.
- `find_parallogram_area_of` and `find_triangle_area_of`: both are the magnitude of the cross product, a square root. Only the cross product itself is modelled.
- `__str__` of vectors, lines and planes: formatting and rounding for output.
- Exception messages, and the broken re-raise paths in `find_v_parallel_to` and `find_v_orthongonal_to`. Those paths name class attributes that do not exist. The error is modelled as the `ZeroMagnitude` outcome.
- `vectors_final`, which lines and planes import, is not part of this model. The vector class of `vectors_cross_products.py` stands in for it.
- `vectors_caluclate_angles.py` duplicates the vector class and exists only to compute angles, which are floating point.
- The `main` demos print their results. Their inputs are stated as lemmas wherever the outcome does not depend on floating point. The area demos and the `is_parallel_to` answers for two nonzero operands rest on `sqrt` or `acos`, so they are omitted.
- The truthiness tests `if not normal_vector` and `if not constant_term` are modelled as "argument absent" plus the value 0 for the constant. A zero constant and a missing one give the same hyperplane, as in the source.
