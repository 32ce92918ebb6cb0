# Midpoint displacement and composite Bézier curves, modelled in Dafny

The model covers two parts of a small Java library that draws rough, fractal-looking lines.

**The midpoint displacement generator** (`MidpointDisplacement`) holds three settings:
- `steps`, the recursion depth;
- `maximumDisplacement`, the initial magnitude;
- `roughness`.

Given two endpoints and a seed, `generateMidpoints` builds a list of points:
- It rejects a null endpoint with an `IllegalArgumentException`.
- Otherwise it appends the start point, runs the recursive `displace`, and appends the finish point.

`displace` works on one chord:
- It stops when no steps are left or the magnitude is not positive.
- Otherwise it takes one random sample in `[-m, m)` and pushes the chord's midpoint that far along the chord's unit perpendicular.
- The magnitude is multiplied by `2^-roughness` for the next level.
- It then processes the left half, appends the new point, and processes the right half.

**The composite Bézier curve** (`CompositeBezierCurve`) turns an ordered list of points into one cubic segment per consecutive pair.
- Each segment's control points are its anchors, moved by a third of a chord-based tangent estimate.
- The last segment reuses its start tangent at its end.

The model has four modules:
- `Geometry` (`geometry.dfy`): plane vectors with real coordinates.
- `MidpointSpec` (`midpoint_spec.dfy`): the pure specification of the recursion.
  - `Emitted` gives the points one call appends, for any placement rule and stream cursor.
  - `DrawCount` gives how many random samples that call consumes.
  - `Output` gives the whole returned list.
  - `Span`, `Depth` and `DrawIndex` name, for every output index, the chord, depth and draw position of the call that emitted it.
  - The lemmas relate these functions to each other.
- `Midpoint` (`midpoint_displacement.dfy`): the imperative generator, with the `Option`/`Result` wrappers of its argument check.
  - `PointList` is the `ArrayList` the recursion appends to.
  - `Random` is the generator, seen as its stream of unit samples and a cursor.
  - `MidpointDisplacement` has the recursive `Displace` method, proved against `Emitted` and `DrawCount`.
- `CompositeCurve` (`composite_curve.dfy`): the curve fitter.
  - The reference function `Fit` describes the result.
  - A class with a `curves` sequence field is filled by a loop proved against `Fit`.

The random generator is not modelled bit for bit. A seed is replaced by the stream of samples `draws: nat -> real` that `java.util.Random` would produce from it. `draws(k)` is the k-th value of `nextDouble()`, a number in `[0, 1)`. `nextDouble(origin, bound)` stretches that sample to `origin + u * (bound - origin)`. The bound `[-m, m)` on every displacement is proved from this, not assumed.

The normalised perpendicular `getPerp().getNormalized()` of the geometry library is a parameter, `unitPerp: Vec -> Vec`. `Math.pow(2, -roughness)` is a real constant, `decay`.

The composite curve is tangent-continuous (C1) at every interior joint, not only visually smooth. The handles on either side of point `P[k+1]` are `±(P[k+2] - P[k]) / 3` (`FitSmoothJoints`).

## Model

All `MidpointDisplacement.java` paths are under `src/main/java/midpointdisplacement/`; all `CompositeBezierCurve.java` paths are under `src/main/java/compositecurve/`.

| member | source | states |
|---|---|---|
| Geometry.Mid | src/main/java/midpointdisplacement/MidpointDisplacement.java:68 | (a + b) / 2 is equally far from a and from b: the point halfway along the chord |
| Midpoint.PointList.Add | src/main/java/midpointdisplacement/MidpointDisplacement.java:84 | appending a point leaves the earlier points in place and puts the new one last |
| Midpoint.Random.NextDouble | src/main/java/midpointdisplacement/MidpointDisplacement.java:75 | consumes exactly one sample of the stream; the result is that sample stretched over [origin, bound) and, for unit samples, lies in [origin, bound) |
| Midpoint.MidpointDisplacement.constructor | src/main/java/midpointdisplacement/MidpointDisplacement.java:22-26 | the generator keeps the depth, the initial magnitude and the decay factor it was given |
| Midpoint.MidpointDisplacement.GenerateMidpoints | src/main/java/midpointdisplacement/MidpointDisplacement.java:38-57 | fails with IllegalArgument exactly when an endpoint is missing; otherwise returns Output: the start, the displaced points, then the finish. The first point is the start and the last is the finish. With a positive decay factor, there are 2 points when steps is 0 or the magnitude is not positive, and 2^steps + 1 otherwise |
| Midpoint.MidpointDisplacement.Displace | src/main/java/midpointdisplacement/MidpointDisplacement.java:62-86 | only appends to the list, and appends exactly the points Emitted names for the stream cursor it started at; advances the stream by exactly DrawCount samples |
| MidpointSpec.UniformWithin | src/main/java/midpointdisplacement/MidpointDisplacement.java:75 | a unit sample stretched over [origin, bound) lands in [origin, bound) |
| MidpointSpec.MagnitudeIsPower | src/main/java/midpointdisplacement/MidpointDisplacement.java:79-80 | the magnitude a call at depth k receives is maximumDisplacement * decay^k |
| MidpointSpec.DisplacementWithin | src/main/java/midpointdisplacement/MidpointDisplacement.java:75-79 | with positive magnitude and decay, a call at depth k displaces by a value in [-mk, mk), where mk = m * decay^k > 0 |
| MidpointSpec.EmittedCountsDraws | src/main/java/midpointdisplacement/MidpointDisplacement.java:62-86 | every call appends exactly as many points as it consumes random samples |
| MidpointSpec.DrawCountAtMost | src/main/java/midpointdisplacement/MidpointDisplacement.java:63-65 | a call consumes at most 2^steps - 1 samples, whatever the magnitude |
| MidpointSpec.DrawCountExact | src/main/java/midpointdisplacement/MidpointDisplacement.java:79-85 | with positive magnitude and decay, no call stops early: exactly 2^steps - 1 samples |
| MidpointSpec.OutputLength | src/main/java/midpointdisplacement/MidpointDisplacement.java:50-55 | the returned list has 2 points in the base case and 2^steps + 1 points otherwise |
| MidpointSpec.OutputBase | src/main/java/midpointdisplacement/MidpointDisplacement.java:63-65 | with no steps or a magnitude that is not positive, the list is exactly [start, finish] and no sample is consumed |
| MidpointSpec.EmittedReadsOnlyItsDraws | src/main/java/midpointdisplacement/MidpointDisplacement.java:75-85 | a call depends only on the samples at its own cursor range: two placement rules that agree there give the same points |
| MidpointSpec.OutputReadsOnlyItsDraws | src/main/java/midpointdisplacement/MidpointDisplacement.java:38-57 | determinism: two sample streams that agree on their first 2^steps - 1 values give the same list |
| MidpointSpec.Span | src/main/java/midpointdisplacement/MidpointDisplacement.java:83-85 | the chord an interior point was placed on lies within the list: 0 < Span <= j and j + Span <= 2^steps |
| MidpointSpec.Depth | src/main/java/midpointdisplacement/MidpointDisplacement.java:80-85 | every interior point is emitted at a depth below steps |
| MidpointSpec.DrawIndex | src/main/java/midpointdisplacement/MidpointDisplacement.java:75-85 | every interior point uses one of the first 2^steps - 1 samples |
| MidpointSpec.SpanHalvesPerLevel | src/main/java/midpointdisplacement/MidpointDisplacement.java:83-85 | the chord of a point emitted at depth d has half-width 2^(steps-1-d) in list indices: each level halves it |
| MidpointSpec.DrawBeforeSubtree | src/main/java/midpointdisplacement/MidpointDisplacement.java:75-85 | samples are taken in pre-order: a call's sample comes before that of every point emitted inside its chord |
| MidpointSpec.DrawIndexInjective | src/main/java/midpointdisplacement/MidpointDisplacement.java:75-85 | different points use different samples |
| MidpointSpec.FullLength | src/main/java/midpointdisplacement/MidpointDisplacement.java:83-85 | the full recursion tree of depth s has 2^s - 1 points |
| MidpointSpec.EmittedIsFull | src/main/java/midpointdisplacement/MidpointDisplacement.java:63-65 | with positive magnitude and decay the base case is only reached at steps = 0, so the call emits the full tree |
| MidpointSpec.PointFromChord | src/main/java/midpointdisplacement/MidpointDisplacement.java:68-85 | each interior point of a call is placed from the points Span to either side of it, with the sample at DrawIndex and the magnitude of its depth |
| MidpointSpec.OutputAt | src/main/java/midpointdisplacement/MidpointDisplacement.java:50-55 | index j of the returned list is the point of the recursion tree that PointAt names |
| MidpointSpec.OutputFromChord | src/main/java/midpointdisplacement/MidpointDisplacement.java:50-85 | each interior point of the returned list is placed from the two list points Span(steps, j) to either side of it |
| MidpointSpec.DisplacedFromChord | src/main/java/midpointdisplacement/MidpointDisplacement.java:68-76 | each interior point of the returned list is the midpoint of its chord pushed along the chord's unit perpendicular by nextDouble(-mk, mk). The chord is out[j - sp] to out[j + sp] with sp = 2^(steps-1-depth); the sample is the one at DrawIndex; mk is the magnitude of the point's depth |
| MidpointSpec.OutputDisplacementBounded | src/main/java/midpointdisplacement/MidpointDisplacement.java:68-79 | the magnitude decay bound on the returned list: with unit samples, each interior point is the midpoint of its chord pushed along the chord's unit perpendicular by a d with -mk <= d < mk, where mk is the magnitude of the point's depth |
| CompositeCurve.Fit | src/main/java/compositecurve/CompositeBezierCurve.java:28-53 | a chain through n >= 2 points has n - 1 segments |
| CompositeCurve.FitAnchors | src/main/java/compositecurve/CompositeBezierCurve.java:37-52 | segment k runs from P[k] to P[k+1], so consecutive segments share their joint (C0) |
| CompositeCurve.FitControlPoints | src/main/java/compositecurve/CompositeBezierCurve.java:35-67 | the first handle of segment 0 is P0 + (P1 - P0)/3; the first handle of segment k > 0 is P[k] + (P[k+1] - P[k-1])/3; the second handle of every segment but the last is P[k+1] - (P[k+2] - P[k])/3 |
| CompositeCurve.FitSmoothJoints | src/main/java/compositecurve/CompositeBezierCurve.java:41-47 | the two handles at every interior joint are opposite and equal: the chain is C1 there |
| CompositeCurve.FitLastSegment | src/main/java/compositecurve/CompositeBezierCurve.java:50-52 | the last segment reuses its start tangent: both of its handles are offset by the same vector |
| CompositeCurve.FitTwoPoints | src/main/java/compositecurve/CompositeBezierCurve.java:28-53 | for two points, the single segment is the straight line, with its handles at one and two thirds of the way |
| CompositeCurve.CompositeBezierCurve.constructor | src/main/java/compositecurve/CompositeBezierCurve.java:24-26 | a new chain holds exactly the segments Fit gives for its points |
| CompositeCurve.CompositeBezierCurve.CreateCurves | src/main/java/compositecurve/CompositeBezierCurve.java:28-53 | the loop and the last call append exactly Fit(mainPoints) to the existing segments |
| CompositeCurve.CompositeBezierCurve.CalculateControlPoints | src/main/java/compositecurve/CompositeBezierCurve.java:63-70 | appends one segment from previousPoint to currentPoint, with handles a third of each vector away from its anchor, and nothing else |
| CompositeCurve.CompositeBezierCurve.GetCurves | src/main/java/compositecurve/CompositeBezierCurve.java:77-79 | returns Fit of the chain's points: one segment per consecutive pair |

## Left out

- The unseeded `generateMidpoints(lineStart, lineFinish)` (lines 31-33) is left out. It draws its seed from `Math.random()`, which is external randomness.
- `java.util.Random` is left out: its seed, its 48-bit linear congruential generator and its exact double rounding. A seed is replaced by the sample stream it yields. `Midpoint.Random.NextDouble` is exact real arithmetic: Java's correction of a result that rounds up to `bound` does not apply to reals.
- Floating point is left out. Coordinates and magnitudes are exact reals, so rounding, underflow of the magnitude to zero, overflow of the magnitude to Infinity and NaN are not modelled. When `roughness < 0`, `Math.pow(2, -roughness)` is above 1 and the magnitude grows at every level. It can pass `Double.MAX_VALUE` even with a non-negative `steps`: with `steps = 12`, `maximumDisplacement = 100` and `roughness = -100`, the call at depth 11 gets 100·2^1100, which is Infinity in doubles. Then `rng.nextDouble(-Infinity, Infinity)` at line 75 throws `IllegalArgumentException`, because the range is not finite. Exact reals have no such bound, so the model cannot show this failure. `Math.pow(2, -roughness)` is the real constant `decay`, because Dafny has no real exponentiation. Nothing in the model forces it to be positive (in the code it is positive unless it underflows), so the lemmas that need a positive decay factor require it.
- Negative `steps` is left out (`steps` is a `nat`), and with it two behaviours of the Java code:
  - If `maximumDisplacement <= 0`, the base-case test at line 63 returns at once, and `generateMidpoints` gives `[start, finish]` whatever the sign of `steps`.
  - Otherwise a negative depth never reaches `steps == 0`, and how the recursion ends depends on `roughness`.
    - If `roughness > 0`, the magnitude shrinks, and the recursion could only stop at the depth D where it underflows to zero in doubles. `displace` is a binary recursion, so reaching depth D appends 2^D - 1 points at line 84. For `roughness = 1` and `maximumDisplacement = 100`, D is about 1080. So the call ends with an `OutOfMemoryError`, unless `roughness` is large enough for 2^D points to fit (roughly 36 or more for a starting magnitude of 100). If D is deeper than the stack, it ends with a `StackOverflowError` instead.
    - If `roughness == 0`, the magnitude never changes and the recursion ends with a `StackOverflowError`.
    - If `roughness < 0`, the magnitude grows and overflows to Infinity (after about 1024 levels when `roughness = -1` and the magnitude starts at 1). Then `nextDouble` at line 75 throws `IllegalArgumentException`, unless the stack runs out first.
- Midpoint.MidpointDisplacement.GenerateMidpoints: the clause "fails exactly when an endpoint is missing" holds only for exact reals. In doubles, when `roughness < 0` the magnitude can overflow to Infinity, and the Java method then also fails, with an `IllegalArgumentException` from `nextDouble` (see the floating-point line above).
- Midpoint.Random.NextDouble: requires only `origin < bound`. Java also throws `IllegalArgumentException` when `bound - origin` is not finite, which reals cannot express.
- Memory is left out, and so is the `int`-sized capacity of `ArrayList` (about 2^31 elements). The model's lists are unbounded sequences. With `steps >= 31` and a positive magnitude and decay, Java cannot build the 2^steps + 1 points that `MidpointSpec.OutputLength` and the length clause of `Midpoint.MidpointDisplacement.GenerateMidpoints` promise: it ends with an `OutOfMemoryError`, usually at a much smaller `steps`, depending on the heap.
- `Vector2D.getPerp().getNormalized()` is left out. The geometry library is not part of this model, so this is the parameter `unitPerp`. Zero-length chords, where normalising divides by zero, are therefore not modelled.
- The int-to-double widening of `maximumDisplacement` at line 53 is modelled as `as real`.
- The `MidpointDisplacedPath` wrapper and the `BezierCurve` class are not part of this model. Segments are modelled by the `BezierCurve` datatype of their four points.
- CompositeCurve.CompositeBezierCurve.constructor: requires at least two points. With fewer, the Java code throws `IndexOutOfBoundsException` at `mainPoints.get(0)` or `get(1)`. It does not reject the input with an argument error, so the model only covers inputs on which the code returns.
- CompositeCurve.CompositeBezierCurve.GetCurves: returns the value of the segment list. Java returns the mutable list itself, so later changes made through that reference are not modelled.
