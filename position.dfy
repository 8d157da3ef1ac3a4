/**
 * A point of the globe given by its longitude and latitude in degrees,
 * and the half-open rectangle test that a zone applies to it.
 */
module Positions {

  /**
   * A position stores degrees; the source reads it back in radians,
   * multiplying by pi / 180. Pi is irrational, so the conversion is a
   * parameter here: all the grid needs of it is that it keeps the order
   * of its arguments, as multiplying by a positive factor does.
   */
  datatype Position = Position(longitudeDegrees: real, latitudeDegrees: real)
  {
    /** The longitude in radians; under the source's conversion, degrees times pi / 180. */
    function Longitude(toRadians: real -> real): (r: real)
      ensures forall k :: toRadians == DegreesToRadians(k) ==> r == longitudeDegrees * k
    {
      toRadians(longitudeDegrees)
    }

    /** The latitude in radians; under the source's conversion, degrees times pi / 180. */
    function Latitude(toRadians: real -> real): (r: real)
      ensures forall k :: toRadians == DegreesToRadians(k) ==> r == latitudeDegrees * k
    {
      toRadians(latitudeDegrees)
    }
  }

  ghost predicate StrictlyIncreasing(f: real -> real)
  {
    forall u, v :: u < v ==> f(u) < f(v)
  }

  /**
   * The source's conversion: multiplying degrees by radiansPerDegree,
   * that is pi / 180. For a positive factor it keeps the order of its
   * arguments strictly.
   */
  function DegreesToRadians(radiansPerDegree: real): (toRadians: real -> real)
    ensures radiansPerDegree > 0.0 ==> StrictlyIncreasing(toRadians)
  {
    degrees => degrees * radiansPerDegree
  }

  function Min(a: real, b: real): real { if a <= b then a else b }
  function Max(a: real, b: real): real { if a <= b then b else a }

  /**
   * The containment test as the source writes it: the position's radian
   * coordinates lie between the smaller (inclusive) and the larger
   * (exclusive) of the two corners' coordinates, on both axes, so only
   * a box of positive extent on both axes contains anything.
   */
  function InBoxRadians(corner1: Position, corner2: Position, p: Position, toRadians: real -> real): (r: bool)
    ensures r ==> && Min(corner1.Longitude(toRadians), corner2.Longitude(toRadians))
                     < Max(corner1.Longitude(toRadians), corner2.Longitude(toRadians))
                  && Min(corner1.Latitude(toRadians), corner2.Latitude(toRadians))
                     < Max(corner1.Latitude(toRadians), corner2.Latitude(toRadians))
  {
    var f := toRadians;
    && p.Longitude(f) >= Min(corner1.Longitude(f), corner2.Longitude(f))
    && p.Longitude(f) < Max(corner1.Longitude(f), corner2.Longitude(f))
    && p.Latitude(f) >= Min(corner1.Latitude(f), corner2.Latitude(f))
    && p.Latitude(f) < Max(corner1.Latitude(f), corner2.Latitude(f))
  }

  /**
   * The same test on degrees: whatever order the corners come in, the
   * box is closed on its lower edges and open on its upper edges.
   */
  predicate InBox(corner1: Position, corner2: Position, p: Position)
  {
    && Min(corner1.longitudeDegrees, corner2.longitudeDegrees) <= p.longitudeDegrees
    && p.longitudeDegrees < Max(corner1.longitudeDegrees, corner2.longitudeDegrees)
    && Min(corner1.latitudeDegrees, corner2.latitudeDegrees) <= p.latitudeDegrees
    && p.latitudeDegrees < Max(corner1.latitudeDegrees, corner2.latitudeDegrees)
  }

  /**
   * A conversion that keeps the order of its arguments keeps every
   * comparison, so the test on radians and the test on degrees agree.
   */
  lemma RadiansAgreeWithDegrees(corner1: Position, corner2: Position, p: Position)
    ensures forall f :: StrictlyIncreasing(f) ==>
              (InBoxRadians(corner1, corner2, p, f) <==> InBox(corner1, corner2, p))
  {
    forall f | StrictlyIncreasing(f)
      ensures InBoxRadians(corner1, corner2, p, f) <==> InBox(corner1, corner2, p)
    {
      AxisAgrees(corner1.longitudeDegrees, corner2.longitudeDegrees, p.longitudeDegrees, f);
      AxisAgrees(corner1.latitudeDegrees, corner2.latitudeDegrees, p.latitudeDegrees, f);
    }
  }

  /** One axis of RadiansAgreeWithDegrees. */
  lemma AxisAgrees(a: real, b: real, x: real, f: real -> real)
    requires StrictlyIncreasing(f)
    ensures (f(x) >= Min(f(a), f(b)) && f(x) < Max(f(a), f(b))) <==> (x >= Min(a, b) && x < Max(a, b))
  {
  }

  /**
   * For a box whose first corner is its lower-left one, membership is
   * the plain half-open test lo <= x < hi on each axis.
   */
  lemma InBoxOrdered(lower: Position, upper: Position, p: Position)
    requires lower.longitudeDegrees <= upper.longitudeDegrees
    requires lower.latitudeDegrees <= upper.latitudeDegrees
    ensures InBox(lower, upper, p) <==>
              && lower.longitudeDegrees <= p.longitudeDegrees < upper.longitudeDegrees
              && lower.latitudeDegrees <= p.latitudeDegrees < upper.latitudeDegrees
  {
  }
}
