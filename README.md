# ocol2d collision predicates in Dafny

A model of the oriented-collision helpers of `src/ocol2d.c`, a small C
library on top of raylib that tests points, segments, circles and rectangles
against rectangles rotated about their pivot (top-left) corner. Each
rotated-rectangle test works in one of two ways:

- it moves the query into the rectangle's local frame and calls raylib's
  axis-aligned primitive: `CheckCollisionPointOrientedRec`,
  `CheckCollisionLineOrientedRec` and `CheckCollisionCircleOrientedRec`;
- or it runs a separating-axis test, which projects both rectangles on four
  candidate axes (`GetInterval`, `GetOrientedInterval`,
  `OverlapOnOrientedAxis`, `CheckCollisionRecOrientedRec`).

`CheckCollisionOrientedRecs` removes one of two rotations and then runs the
separating-axis test. Two segment tests stand on their own:

- `CheckCollisionLineCircle`, which projects the circle's center on the segment;
- `CheckCollisionLineRec`, a slab raycast with an endpoint early accept and a
  +0.001 nudge.

The model is exact arithmetic over `real`:

- A rotation is the pair of its cosine and sine (`Geometry.Rotation`).
  - Rotating by the angle 0 is `Identity`.
  - Rotating by -θ is `Inverse`.
  - Rotating by θ2 - θ1 is `Difference`.
  - Lemmas that need a pair on the unit circle require `Unit()`.
- raylib's `CheckCollisionPointRec` and `CheckCollisionPointCircle` are function
  parameters (`pointInRec`, `pointInCircle`), and nothing is assumed about
  them.

Module by module:

- `geometry.dfy` (`Geometry`): vectors, rectangles, rotations and raymath's
  vector helpers.
- `frame.dfy` (`Frame`): the frame transform. It subtracts the pivot, rotates
  by -θ and adds the pivot back. Its forward counterpart places a rectangle's
  corners.
- `projection.dfy` (`Projection`): the `Interval2` record and the two
  projection loops over a 4-vertex array, proved against `Hull`, the fold of
  a sequence.
- `sat.dfy` (`Sat`): the overlap comparison, the separating-axis loop and the
  two-rotation reduction.
- `lines.dfy` (`Lines`): the segment–circle test and the segment–rectangle
  slab raycast.
- `oriented.dfy` (`Oriented`): the point and segment tests against an oriented
  rectangle.

Where the source reassigns variables or loops over an array, the model is a
method with the same steps, proved against a specification function:

- `GetInterval` and `GetOrientedInterval`, and the in-place rotation of the
  vertex array;
- the axis loop of `CheckCollisionRecOrientedRec`;
- the reassignments of `CheckCollisionOrientedRecs` and `CheckCollisionLineRec`.

The straight-line tests are functions.

## Model

| member | source | states |
|---|---|---|
| Geometry.InverseIsUnit | src/ocol2d.c:10 | rotating by the opposite angle is again a rotation: (c, -s) lies on the unit circle |
| Geometry.DifferenceIsUnit | src/ocol2d.c:190 | the rotation by rotation2 - rotation1 lies on the unit circle when both do |
| Geometry.RotateByIdentity | src/ocol2d.c:10 | rotating by 0 degrees, forwards or backwards, leaves every vector unchanged |
| Geometry.RotateThenInverse | src/ocol2d.c:7-12 | rotating by θ and then by -θ gives the vector back |
| Geometry.InverseThenRotate | src/ocol2d.c:7-12 | rotating by -θ and then by θ gives the vector back |
| Geometry.RotateThenUndo | src/ocol2d.c:190-194 | rotating by θ2 and then by -θ1 is the rotation by θ2 - θ1 |
| Geometry.RotatePreservesLength | src/ocol2d.c:133 | Vector2Rotate keeps squared lengths |
| Geometry.DifferenceWithIdentity | src/ocol2d.c:190 | subtracting rotation 0 leaves a rotation unchanged |
| Frame.RotateAbout | src/ocol2d.c:131-134 | rotating a vertex about the pivot fixes the pivot, and rotation 0 moves nothing |
| Frame.ToLocal | src/ocol2d.c:9-12 | the frame transform maps the pivot to itself and is the identity at rotation 0 |
| Frame.ToLocalUndoesRotateAbout | src/ocol2d.c:7-12 | inverse transform law: a point rotated forward about the pivot and then transformed into the local frame is itself |
| Frame.RotateAboutUndoesToLocal | src/ocol2d.c:7-12 | the other half of the inverse law: every point is the forward rotation of its local image |
| Frame.ToLocalKeepsDistance | src/ocol2d.c:71-79 | the frame transform is a rigid motion: distances between the transformed ends of a segment are unchanged |
| Projection.FoldBounds | src/ocol2d.c:106-117 | the min/max fold never shrinks its start, takes in every value, and each end is the start's end or one of the values |
| Projection.HullIsTight | src/ocol2d.c:104-117 | the fold of a non-empty sequence started at its first value has min <= max, contains every value, and attains both ends |
| Projection.FoldRevisitingFirst | src/ocol2d.c:138-151 | the second loop of GetOrientedInterval starts at index 0 and so projects verts[0] twice; this changes nothing |
| Projection.Corners | src/ocol2d.c:99-101 | the vertex array has four entries, the first being the pivot corner |
| Projection.OrientedCorners | src/ocol2d.c:125-135 | the vertex array after the in-place rotation: four vertices, the first of them the pivot corner, which never moves |
| Projection.OrientedCornersKeepShape | src/ocol2d.c:129-135 | the in-place rotation is rigid: every vertex keeps its distance to the pivot corner |
| Projection.OrientedCornersAreRotatedCorners | src/ocol2d.c:127-135 | verts[0] is never moved, every vertex is its axis-aligned corner rotated about the pivot, and rotation 0 moves none |
| Projection.OrientedIntervalAtZeroRotation | src/ocol2d.c:121-153 | with rotation 0 the oriented projection equals GetInterval's |
| Projection.GetInterval | src/ocol2d.c:97-119 | the loop returns the hull of the four corner projections: min <= max, every projection inside, both ends attained by a corner |
| Projection.GetOrientedInterval | src/ocol2d.c:121-153 | after rotating verts[1..3] in place about verts[0], the loop returns the hull of the rotated corners' projections, with the same three guarantees |
| Sat.OverlapsIffCommonValue | src/ocol2d.c:160 | for proper intervals the comparison b.min <= a.max && a.min <= b.max holds exactly when they share a value; touching ends count |
| Sat.OverlapIffNotSeparated | src/ocol2d.c:155-161 | the projections on an axis overlap exactly when the axis does not strictly separate the two vertex sets |
| Sat.OverlapOnOrientedAxis | src/ocol2d.c:155-161 | returns the overlap of GetInterval(rec1) and GetOrientedInterval(rec2), which is: the axis does not separate the corners |
| Sat.AxisDirectionIrrelevant | src/ocol2d.c:166-171 | reversing a candidate axis does not change the outcome on it |
| Sat.ZeroAxisOverlaps | src/ocol2d.c:167-173 | a zero candidate axis always reports overlap |
| Sat.NormalizeOnAxis | src/ocol2d.c:166-170 | Vector2Normalize of (rec2.x, 0) or (0, rec2.y) is the unit axis vector with the sign of the non-zero coordinate; the zero vector goes to the parameter zeroNorm |
| Sat.NormalizeOnAxisIsUnit | src/ocol2d.c:167-170 | normalising (rec2.x, 0) or (0, rec2.y) away from zero gives a unit vector pointing the same way |
| Sat.CollidesIffEveryAxis | src/ocol2d.c:173-183 | the verdict is true exactly when all four candidate axes overlap |
| Sat.SatAxes | src/ocol2d.c:166-173 | axisToTest has four entries, the world x axis first and the world y axis second |
| Sat.LocalAxesAreUnit | src/ocol2d.c:166-171 | for a unit rotation the third and fourth axes are unit vectors whenever rec2.x, respectively rec2.y, is not zero |
| Sat.LocalAxes | src/ocol2d.c:166-173 | the third and fourth axes are the rotated unit axes pointed by the signs of rec2.x and rec2.y, or the rotated image of the normalised zero vector |
| Sat.LocalAxisXDecides | src/ocol2d.c:166-168 | with rec2.x != 0 the third axis decides like the rotated unit x axis |
| Sat.LocalAxisYDecides | src/ocol2d.c:169-171 | with rec2.y != 0 the fourth axis decides like the rotated unit y axis |
| Sat.CollidesOnRotatedUnitAxes | src/ocol2d.c:163-184 | when neither pivot coordinate of rec2 is zero, the test is the four-axis test on the world axes and rec2's rotated unit axes |
| Sat.LocalAxisXAtZeroPivot | src/ocol2d.c:166-168 | when rec2.x == 0 and the zero vector normalises to zero, the third axis is zero |
| Sat.CollidesWithZeroPivotX | src/ocol2d.c:163-184 | in that case only three axes decide |
| Sat.FirstSeparatingAxis | src/ocol2d.c:175-183 | the loop stops at the first axis without overlap (or at 4), every earlier axis overlapped, and the log of the axes passed to OverlapOnOrientedAxis is exactly the axes up to and including that one, in order |
| Sat.FirstSeparatingAxisDecides | src/ocol2d.c:175-183 | stopping at 4 is the same as the four-axis verdict |
| Sat.CheckCollisionRecOrientedRec | src/ocol2d.c:163-184 | returns true iff all four axes overlap; on false it stopped at the first non-overlapping axis and every earlier axis overlapped; the log of evaluated axes ends at the stopping axis, so later ones were not evaluated |
| Sat.ReducedRec | src/ocol2d.c:190-197 | rec2 in rec1's frame keeps its size, is rec2 itself when rotation1 is 0, and rotating its pivot forward about rec1's pivot gives rec2's pivot back |
| Sat.CheckCollisionOrientedRecs | src/ocol2d.c:186-201 | calls the single-rotation test with rec1 unchanged, rotation rotation2 - rotation1, and rec2 with its size kept and its pivot moved into rec1's frame; with rotation1 = 0 this is the single-rotation test itself |
| Sat.CornersFollowPivot | src/ocol2d.c:196-197 | moving only rec2.x and rec2.y shifts every corner with the pivot |
| Sat.ToLocalOfRotated | src/ocol2d.c:190-197 | a point rotated by θ2 about rec2's pivot and taken into rec1's frame is the matching point rotated by θ2 - θ1 about rec2's moved pivot |
| Sat.ReductionIsRigidMotion | src/ocol2d.c:186-201 | the reduction maps rec1's rotated corners onto its axis-aligned corners and rec2's rotated corners onto the reduced rec2's corners rotated by the difference |
| Lines.LengthSqrPositive | src/ocol2d.c:21 | the divisor dot(ab, ab) is positive for a segment of non-zero length |
| Lines.ClosestParameter | src/ocol2d.c:20-21 | t solves t·\|ab\|² = (center - p1)·ab, the projection of the center onto the line |
| Lines.CheckCollisionLineCircle | src/ocol2d.c:17-30 | false whenever t < 0 or t > 1; otherwise the point-in-circle test of p1 + t·(p2 - p1) |
| Lines.OrthogonalAtParameter | src/ocol2d.c:19-21 | at the projection parameter, the offset from the line point to the center is orthogonal to the segment |
| Lines.ClosestPointIsOrthogonal | src/ocol2d.c:19-21 | the same, for the parameter the source computes |
| Lines.OrthogonalShiftMonotone | src/ocol2d.c:19-26 | Pythagoras: moving farther along the line from the orthogonal foot gives a longer offset |
| Lines.NearerParameterIsNearer | src/ocol2d.c:19-26 | a line parameter nearer to t gives a point nearer to the center |
| Lines.ClosestPointIsNearest | src/ocol2d.c:19-26 | the point the test examines is the point of the whole line nearest the center |
| Lines.PointAtOnSegment | src/ocol2d.c:22-26 | past the guard, the examined point lies on the segment: each coordinate is between the endpoints' |
| Lines.LineCircleTouchesAtRadius | src/ocol2d.c:17-30 | (0,0)-(10,0) against radius 5 about (5,5): t = 0.5, and with the closed-disc reading the test reports a collision |
| Lines.LineCircleMissesBeyondRadius | src/ocol2d.c:17-30 | against radius 5 about (5,6) the test reports none |
| Lines.LineCircleMissesInsideEndpoint | src/ocol2d.c:22-25 | a segment whose start lies inside the circle is reported as not colliding (see Findings) |
| Lines.Clamp | src/ocol2d.c:22-25 | the nearest value in [0, 1]; values in [0, 1] are kept |
| Lines.CheckCollisionSegmentCircle | src/ocol2d.c:17-30 | the corrected test clamps t to the segment; where the source's guard passes they agree |
| Lines.ClampIsNearest | src/ocol2d.c:22-25 | among parameters in [0, 1] the clamped one is nearest t |
| Lines.ClampedPointIsNearestOnSegment | src/ocol2d.c:19-29 | the clamped point is the point of the segment nearest the center |
| Lines.SegmentCircleFindsEveryContact | src/ocol2d.c:17-30 | with the disc reading, the corrected test reports every segment that has a point in the disc |
| Lines.Nudge | src/ocol2d.c:40-43 | the nudge changes only p1, each coordinate by 0 or 0.001; a coordinate already different from p2's is kept, and afterwards p1.x != p2.x && p1.y != p2.y |
| Lines.SlabHit | src/ocol2d.c:46-64 | the slab verdict from the nudged start: a hit chooses a positive distance that lies within the slab intersection [tmin, tmax] |
| Lines.LineRecHits | src/ocol2d.c:32-64 | what CheckCollisionLineRec computes: an endpoint inside rec is a hit; otherwise the slab verdict |
| Lines.CheckCollisionLineRec | src/ocol2d.c:32-65 | early accept when an endpoint is inside rec; otherwise the nudge, the reciprocal direction, the slab distances and the final comparison, equal to LineRecHits |
| Lines.LineRecMissReasons | src/ocol2d.c:55-64 | a false result means no endpoint is inside, and either tmax < 0 or tmin > tmax, or the chosen t fails t > 0 && t² < \|p2 - p1\|² |
| Lines.ChosenTimeInSlabs | src/ocol2d.c:55-63 | when tmin <= tmax the chosen t lies between both slabs' crossing distances |
| Lines.CrossingsReachBoundaries | src/ocol2d.c:47-53 | along a direction with no zero coordinate, walking a crossing distance reaches the crossed boundary line |
| Lines.RayPointInBox | src/ocol2d.c:50-56 | a distance within both slabs puts the ray's point inside rec's box |
| Lines.SlabPointInBox | src/ocol2d.c:47-63 | the chosen distance of a non-empty slab intersection puts the ray's point in the box |
| Lines.DirectionNonzero | src/ocol2d.c:42-46 | after the nudge neither coordinate of the normalised direction is zero, so both reciprocals are taken |
| Lines.InsideSegment | src/ocol2d.c:46-64 | a distance strictly between 0 and len along the unit direction gives a point strictly inside the segment |
| Lines.SlabMissesContainedSegment | src/ocol2d.c:55-64 | the segment (4,5)-(7,9), wholly inside the box (0,0,10,10), fails the slab verdict: the entry is behind p1, so the exit 6.25 is chosen, past the length 5; only the early accept reports it |
| Lines.SlabHitChoosesInside | src/ocol2d.c:55-64 | a hit past the early accept chooses 0 < t < len, and the ray's point at t is in the box |
| Lines.SlabHitMeetsBox | src/ocol2d.c:46-64 | a slab hit means the nudged segment meets rec's box strictly between its ends |
| Lines.LineRecHitIsContact | src/ocol2d.c:32-65 | a true result means an endpoint is inside rec or the nudged segment meets rec's box |
| Oriented.CheckCollisionPointOrientedRec | src/ocol2d.c:5-15 | at rotation 0 it is CheckCollisionPointRec; the pivot is tested as itself |
| Oriented.PointOrientedRecIsRotatedTest | src/ocol2d.c:5-15 | accepts exactly the points obtained by rotating, about the pivot, a point CheckCollisionPointRec accepts |
| Oriented.CheckCollisionLineOrientedRec | src/ocol2d.c:67-82 | at rotation 0 it is CheckCollisionLineRec; an end inside the oriented rectangle is a hit |
| Oriented.LineOrientedRecOfRotated | src/ocol2d.c:67-82 | a segment rotated about the pivot meets the oriented rectangle exactly when the unrotated one meets the axis-aligned rectangle |
| Oriented.LineOrientedRecHitIsContact | src/ocol2d.c:67-82 | a hit means an end is inside the oriented rectangle or the local nudged segment meets rec's box |

`Frame.ToLocal` is also the frame transform of `CheckCollisionCircleOrientedRec`
(src/ocol2d.c:89-92), of `CheckCollisionLineOrientedRec` (src/ocol2d.c:71-79)
and of the pivot move in `CheckCollisionOrientedRecs` (src/ocol2d.c:193-195).

## Left out

- IEEE-754 single precision is not modelled. That covers rounding, NaN and
  infinities, the NaN rules of `fminf`/`fmaxf`, and the inexactness of `0.001f`.
  Everything is exact `real` arithmetic.
- Trigonometry and `DEG2RAD` are not modelled. A rotation is its (cosine, sine)
  pair, and angle sums and differences are the composed pairs. Properties that
  need trigonometric identities are out of reach: 360° periodicity, and the
  symmetry of `CheckCollisionOrientedRecs` under swapping the rectangles.
- The square root in `Vector2Normalize` is not modelled. In the slab test it is
  the parameter `len`, required to be positive and to square to the nudged
  segment's squared length. In the separating-axis test normalisation acts
  only on (rec2.x, 0) and (0, rec2.y), whose unit vectors are exact. The
  result of normalising the zero vector is not visible, so it is the
  parameter `zeroNorm`.
- raylib's `CheckCollisionPointRec`, `CheckCollisionPointCircle` and
  `CheckCollisionCircleRec` are not visible. The first two are function
  parameters about which nothing is assumed, including whether boundaries
  count. `InDisc`, the closed disc, is used only to exhibit the circle test's
  behaviour.
- Oriented.CheckCollisionCircleOrientedRec is not modelled. The call's result
  is discarded and the function has no `return` (src/ocol2d.c:94), so its value
  is undefined in C. Only its frame transform is modelled (`Frame.ToLocal`).
- Lines.CheckCollisionLineCircle: a zero-length segment divides by zero
  (src/ocol2d.c:21). The model requires p1 != p2 there.
- Rectangles of negative size are not validated by the source. The model puts
  no condition on sizes, and its box predicate takes either orientation of the
  sides.
- Sat.CheckCollisionRecOrientedRec: the geometric soundness and completeness
  of the separating-axis test for real rectangles is not proved. The code
  does not promise it. The model proves that the verdict is the four-axis
  overlap test, and that each axis's overlap means the axis does not separate
  the corners.
- Lines.LineRecHitIsContact: the converse, that every segment meeting the box
  is reported, does not hold for an arbitrary `pointInRec`. A segment with
  both ends inside rec is reported only by the early accept: for (4,5)-(7,9)
  in (0,0,10,10) the chosen t = tmax = 6.25 exceeds len = 5
  (`Lines.SlabMissesContainedSegment`). Completeness would need
  CheckCollisionPointRec to accept the box's points, which the model leaves
  open.
- Lines.CheckCollisionLineRec: the accuracy cost of the 0.001 nudge is not
  bounded. The model states only that the nudge changes p1 alone, each
  coordinate by 0 or 0.001.
- Oriented.CheckCollisionLineOrientedRec: `len` is the length of the local
  segment after the nudge. Because the nudge happens in the local frame, it is
  not tied to the world segment's length (`Frame.ToLocalKeepsDistance` relates
  only the un-nudged lengths).
- Concurrency and I/O: none in the source.

## Findings

| source | as written | input that shows it | evidently intended | confidence | as-written member | corrected member |
|---|---|---|---|---|---|---|
| src/ocol2d.c:22-25 | when the projection parameter t falls outside [0, 1] the test returns false, even if an endpoint of the segment lies inside the circle | segment (0, 0)–(10, 0), circle of radius 5 about (-1, 0): t = -0.1, yet (0, 0) is at distance 1 from the center | geometrically, a segment with a point inside the disc meets the circle and should be reported; the no-collision rule for t outside [0, 1] may be deliberate: the guard at lines 22-25 is explicit and never tests the nearer endpoint | low, not executed | Lines.LineCircleMissesInsideEndpoint | Lines.CheckCollisionSegmentCircle |

The rule at src/ocol2d.c:22-25 discards the foot of the perpendicular when it
falls off the segment. It does not go on to test the nearer endpoint, so it may
be an intended simplification rather than a slip. The main model follows the
code as written.

The corrected member is proved by `Lines.SegmentCircleFindsEveryContact`:
with the closed-disc reading, every segment with a point in the disc is
reported. `Lines.ClampedPointIsNearestOnSegment` shows that the clamped point
is the segment's point nearest the center. Where the source's guard passes,
the corrected test equals the source's.
