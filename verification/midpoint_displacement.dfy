/** The midpoint displacement generator: an object holding the number of
    recursive steps, the initial displacement magnitude and the decay
    factor, whose generateMidpoints fills a point list by recursive
    displacement. Each method is proved against the functions of
    MidpointSpec. */
module Midpoint {
  import opened Geometry
  import opened MidpointSpec

  /** An endpoint argument that may be null. */
  datatype Option<+T> = None | Some(value: T)

  /** The only error the generator raises itself: a missing (null) endpoint. */
  datatype Error = IllegalArgument

  datatype Result<+T> = Success(value: T) | Failure(error: Error)

  /** The list the recursion appends its points to. */
  class PointList {
    var points: seq<Vec>

    constructor ()
      ensures points == []
    {
      points := [];
    }

    method Add(p: Vec)
      modifies this
      ensures points == old(points) + [p]
    {
      points := points + [p];
    }
  }

  /** A pseudo-random generator, seen as the stream of unit samples it
      produces: `draws(k)` is the result of the k-th nextDouble() call,
      `cursor` counts the calls made so far. */
  class Random {
    const draws: nat -> real
    var cursor: nat

    constructor (draws: nat -> real)
      ensures this.draws == draws && cursor == 0
    {
      this.draws := draws;
      cursor := 0;
    }

    /** nextDouble(origin, bound): the next sample stretched over
        [origin, bound). */
    method NextDouble(origin: real, bound: real) returns (r: real)
      requires origin < bound
      modifies this
      ensures cursor == old(cursor) + 1
      ensures r == Uniform(draws(old(cursor)), origin, bound)
      ensures UnitDraws(draws) ==> origin <= r < bound
    {
      r := Uniform(draws(cursor), origin, bound);
      if UnitDraws(draws) {
        UniformWithin(draws(cursor), origin, bound);
      }
      cursor := cursor + 1;
    }
  }

  /** Appending a left part, a point and a right part in turn appends
      their concatenation. */
  lemma Regroup(before: seq<Vec>, left: seq<Vec>, p: Vec, right: seq<Vec>)
    ensures before + left + [p] + right == before + (left + [p] + right)
  {
  }

  class MidpointDisplacement {
    const steps: nat
    const maximumDisplacement: int
    /** The factor the magnitude is multiplied by between levels,
        Math.pow(2, -roughness). */
    const decay: real

    constructor (steps: nat, maximumDisplacement: int, decay: real)
      ensures this.steps == steps
      ensures this.maximumDisplacement == maximumDisplacement
      ensures this.decay == decay
    {
      this.steps := steps;
      this.maximumDisplacement := maximumDisplacement;
      this.decay := decay;
    }

    /** The list of points from lineStart to lineFinish, or
        IllegalArgument when either is missing. `draws` is the stream of
        the generator the seed would create; `unitPerp` gives the
        normalised perpendicular of a direction. */
    method GenerateMidpoints(lineStart: Option<Vec>, lineFinish: Option<Vec>,
                             draws: nat -> real, unitPerp: Vec -> Vec)
      returns (r: Result<seq<Vec>>)
      ensures r.Failure? <==> lineStart.None? || lineFinish.None?
      ensures r.Failure? ==> r.error == IllegalArgument
      ensures r.Success? ==>
                r.value == Output(lineStart.value, lineFinish.value, steps,
                                  maximumDisplacement as real, decay, Placement(draws, unitPerp))
      ensures r.Success? ==>
                && r.value[0] == lineStart.value
                && r.value[|r.value| - 1] == lineFinish.value
      ensures r.Success? && decay > 0.0 ==>
                |r.value| == if steps == 0 || maximumDisplacement <= 0 then 2 else Pow2(steps) + 1
    {
      if lineStart.None? || lineFinish.None? {
        return Failure(IllegalArgument);
      }
      var displacedMidpoints := new PointList();
      var rng := new Random(draws);
      var start := lineStart.value;
      var finish := lineFinish.value;
      displacedMidpoints.Add(start);
      Displace(displacedMidpoints, start, finish, rng, steps, maximumDisplacement as real, unitPerp);
      displacedMidpoints.Add(finish);
      if decay > 0.0 {
        OutputLength(start, finish, steps, maximumDisplacement as real, decay, Placement(draws, unitPerp));
      }
      return Success(displacedMidpoints.points);
    }

    /** The recursion: stops when no steps are left or the magnitude is
        not positive; otherwise draws once, processes the left half,
        appends the displaced midpoint and processes the right half. It
        appends exactly the points Emitted names and consumes exactly
        DrawCount draws. */
    method Displace(points: PointList, lineStart: Vec, lineFinish: Vec, rng: Random,
                    steps: nat, maximumDisplacement: real, unitPerp: Vec -> Vec)
      modifies points, rng
      ensures rng.cursor == old(rng.cursor) + DrawCount(steps, maximumDisplacement, decay)
      ensures points.points
              == old(points.points)
                 + Emitted(lineStart, lineFinish, steps, maximumDisplacement, decay,
                           Placement(rng.draws, unitPerp), old(rng.cursor))
      decreases steps
    {
      if steps == 0 || maximumDisplacement <= 0.0 {
        return;
      }
      ghost var c := rng.cursor;
      ghost var place := Placement(rng.draws, unitPerp);
      var midPoint := Mid(lineStart, lineFinish);
      var directionVector := Sub(lineFinish, lineStart);
      var normalizedPerpendicular := unitPerp(directionVector);
      var displacement := rng.NextDouble(-maximumDisplacement, maximumDisplacement);
      var newPoint := Add(Scale(normalizedPerpendicular, displacement), midPoint);
      assert newPoint == place(lineStart, lineFinish, c, maximumDisplacement) by {
        PlacementDisplaces(rng.draws, unitPerp, lineStart, lineFinish, c, maximumDisplacement);
      }
      var nextDisplacement := maximumDisplacement * decay;
      ghost var before := points.points;
      Displace(points, lineStart, newPoint, rng, steps - 1, nextDisplacement, unitPerp);
      ghost var left := points.points[|before|..];
      assert points.points == before + left;
      points.Add(newPoint);
      Displace(points, newPoint, lineFinish, rng, steps - 1, nextDisplacement, unitPerp);
      ghost var right := points.points[|before| + |left| + 1..];
      assert points.points == before + left + [newPoint] + right;
      Regroup(before, left, newPoint, right);
    }
  }
}
