/** The composite Bézier curve: a chain of cubic segments through an
    ordered list of points, one segment per consecutive pair. The control
    points of each segment are its anchors pushed a third of the way along
    a chord-based tangent estimate. */
module CompositeCurve {
  import opened Geometry

  /** One cubic segment: from startPoint to endPoint, shaped by two
      control points. */
  datatype BezierCurve = BezierCurve(startPoint: Vec, endPoint: Vec,
                                     controlPoint1: Vec, controlPoint2: Vec)

  /** The segment calculateControlPoints builds: from p0 to p1, with the
      first control point a third of v1 after p0 and the second a third of
      v2 before p1. */
  function Segment(p0: Vec, p1: Vec, v1: Vec, v2: Vec): BezierCurve
  {
    BezierCurve(p0, p1, Add(p0, Div(v1, 3.0)), Sub(p1, Div(v2, 3.0)))
  }

  /** The tangent estimate at the start of segment k: the first chord for
      the first segment, otherwise the chord from the point before to the
      point after P[k]. */
  function TangentIn(P: seq<Vec>, k: nat): Vec
    requires k + 1 < |P|
  {
    if k == 0 then Sub(P[1], P[0]) else Sub(P[k + 1], P[k - 1])
  }

  /** The tangent estimate at the end of segment k: the chord from P[k] to
      P[k + 2], and for the last segment, which has no point beyond its
      end, its start tangent again. */
  function TangentOut(P: seq<Vec>, k: nat): Vec
    requires k + 1 < |P|
  {
    if k + 2 < |P| then Sub(P[k + 2], P[k]) else TangentIn(P, k)
  }

  /** The reference fit: segment k runs from P[k] to P[k + 1] with the
      tangent estimates above. */
  function Fit(P: seq<Vec>): (r: seq<BezierCurve>)
    requires |P| >= 2
    ensures |r| == |P| - 1
  {
    seq(|P| - 1, k requires 0 <= k < |P| - 1 => Segment(P[k], P[k + 1], TangentIn(P, k), TangentOut(P, k)))
  }

  /** The first k + 1 segments are the first k followed by segment k. */
  lemma FitPrefix(P: seq<Vec>, k: nat)
    requires |P| >= 2 && k < |P| - 1
    ensures Fit(P)[..k + 1]
            == Fit(P)[..k] + [Segment(P[k], P[k + 1], TangentIn(P, k), TangentOut(P, k))]
  {
    assert Fit(P)[..k + 1] == Fit(P)[..k] + [Fit(P)[k]];
  }

  /** One segment per consecutive pair of points, anchored at exactly those
      points, so that consecutive segments share their joint. */
  lemma FitAnchors(P: seq<Vec>, k: nat)
    requires |P| >= 2 && k < |P| - 1
    ensures |Fit(P)| == |P| - 1
    ensures Fit(P)[k].startPoint == P[k] && Fit(P)[k].endPoint == P[k + 1]
    ensures k + 1 < |P| - 1 ==> Fit(P)[k].endPoint == Fit(P)[k + 1].startPoint
  {
  }

  /** The control points are the anchors moved by a third of the chord
      tangents: the first segment leaves P[0] along P[1] - P[0]; every
      later segment leaves P[k] along P[k + 1] - P[k - 1]; every segment
      but the last arrives at P[k + 1] along P[k + 2] - P[k]. */
  lemma FitControlPoints(P: seq<Vec>, k: nat)
    requires |P| >= 2 && k < |P| - 1
    ensures k == 0 ==> Fit(P)[k].controlPoint1 == Add(P[0], Div(Sub(P[1], P[0]), 3.0))
    ensures k > 0 ==> Fit(P)[k].controlPoint1 == Add(P[k], Div(Sub(P[k + 1], P[k - 1]), 3.0))
    ensures k + 2 < |P| ==> Fit(P)[k].controlPoint2 == Sub(P[k + 1], Div(Sub(P[k + 2], P[k]), 3.0))
  {
  }

  /** The handles on either side of every interior joint are opposite and
      of equal length: the chain is tangent-continuous (C1) at each joint. */
  lemma FitSmoothJoints(P: seq<Vec>, k: nat)
    requires |P| >= 3 && k + 2 < |P|
    ensures Sub(Fit(P)[k + 1].controlPoint1, P[k + 1]) == Sub(P[k + 1], Fit(P)[k].controlPoint2)
  {
    var t := Div(Sub(P[k + 2], P[k]), 3.0);
    assert Fit(P)[k + 1].controlPoint1 == Add(P[k + 1], t);
    assert Fit(P)[k].controlPoint2 == Sub(P[k + 1], t);
  }

  /** The last segment has no point beyond its end, so both its handles
      follow its start tangent: they are equal and parallel. */
  lemma FitLastSegment(P: seq<Vec>)
    requires |P| >= 2
    ensures var last := Fit(P)[|P| - 2];
            Sub(last.controlPoint1, last.startPoint) == Sub(last.endPoint, last.controlPoint2)
  {
    var t := Div(TangentIn(P, |P| - 2), 3.0);
    assert Fit(P)[|P| - 2].controlPoint1 == Add(P[|P| - 2], t);
    assert Fit(P)[|P| - 2].controlPoint2 == Sub(P[|P| - 1], t);
  }

  /** For two points the single segment is the straight line: its control
      points sit at a third and at two thirds of the way from P[0] to P[1]. */
  lemma FitTwoPoints(P: seq<Vec>)
    requires |P| == 2
    ensures Fit(P) == [BezierCurve(P[0], P[1],
                                   Add(P[0], Scale(Sub(P[1], P[0]), 1.0 / 3.0)),
                                   Add(P[0], Scale(Sub(P[1], P[0]), 2.0 / 3.0)))]
  {
    var c := Fit(P)[0];
    assert c.controlPoint1 == Add(P[0], Div(Sub(P[1], P[0]), 3.0));
    assert c.controlPoint2 == Sub(P[1], Div(Sub(P[1], P[0]), 3.0));
  }

  /** Appending one segment to a chain extended by a prefix extends it by
      the longer prefix. */
  lemma AppendLast(chain: seq<BezierCurve>, prefix: seq<BezierCurve>, last: BezierCurve)
    ensures chain + prefix + [last] == chain + (prefix + [last])
  {
  }

  /** A curve chain being built from a list of points, one segment at a
      time. */
  class CompositeBezierCurve {
    var curves: seq<BezierCurve>
    ghost const mainPoints: seq<Vec>

    ghost predicate Valid()
      reads this
    {
      |mainPoints| >= 2 && curves == Fit(mainPoints)
    }

    /** Builds the chain through mainPoints, which must hold at least two
        points. */
    constructor (mainPoints: seq<Vec>)
      requires |mainPoints| >= 2
      ensures this.mainPoints == mainPoints
      ensures curves == Fit(mainPoints)
      ensures Valid()
    {
      this.mainPoints := mainPoints;
      curves := [];
      new;
      CreateCurves(mainPoints);
    }

    /** Walks the points with a window of three (previous, current, next),
        emitting the segment from previous to current with the chord to
        next as its end tangent, then emits the last segment with its start
        tangent at both ends. */
    method CreateCurves(mainPoints: seq<Vec>)
      requires |mainPoints| >= 2
      modifies this
      ensures curves == old(curves) + Fit(mainPoints)
    {
      var previousPoint := mainPoints[0];
      var currentPoint := mainPoints[1];
      var controlPointVector1 := Sub(currentPoint, previousPoint);
      var i := 2;
      while i < |mainPoints|
        invariant 2 <= i <= |mainPoints|
        invariant previousPoint == mainPoints[i - 2] && currentPoint == mainPoints[i - 1]
        invariant controlPointVector1 == TangentIn(mainPoints, i - 2)
        invariant curves == old(curves) + Fit(mainPoints)[..i - 2]
      {
        var nextPoint := mainPoints[i];
        var controlPointVector2 := Sub(nextPoint, previousPoint);
        CalculateControlPoints(previousPoint, currentPoint, controlPointVector1, controlPointVector2);
        FitPrefix(mainPoints, i - 2);
        controlPointVector1 := controlPointVector2;
        previousPoint := currentPoint;
        currentPoint := nextPoint;
        i := i + 1;
      }
      CalculateControlPoints(previousPoint, currentPoint, controlPointVector1, controlPointVector1);
      FitPrefix(mainPoints, i - 2);
      assert Fit(mainPoints)[..i - 1] == Fit(mainPoints);
      AppendLast(old(curves), Fit(mainPoints)[..i - 2],
                 Segment(previousPoint, currentPoint, controlPointVector1, controlPointVector1));
    }

    /** Appends the segment from previousPoint to currentPoint whose control
        points lie a third of controlPointVector1 after the start and a
        third of controlPointVector2 before the end. */
    method CalculateControlPoints(previousPoint: Vec, currentPoint: Vec,
                                  controlPointVector1: Vec, controlPointVector2: Vec)
      modifies this
      ensures curves == old(curves) + [Segment(previousPoint, currentPoint,
                                               controlPointVector1, controlPointVector2)]
    {
      var controlPoint1 := Add(previousPoint, Div(controlPointVector1, 3.0));
      var controlPoint2 := Sub(currentPoint, Div(controlPointVector2, 3.0));
      var curve := BezierCurve(previousPoint, currentPoint, controlPoint1, controlPoint2);
      curves := curves + [curve];
    }

    /** The segments, one per consecutive pair of points. */
    method GetCurves() returns (r: seq<BezierCurve>)
      requires Valid()
      ensures r == Fit(mainPoints) && |r| == |mainPoints| - 1
    {
      r := curves;
    }
  }
}
