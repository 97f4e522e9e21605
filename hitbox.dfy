/**
 * The shape around an entity (model/game_physics/hitbox/Hitbox.java).
 *
 * The rectangular and circular shapes are not part of this model: their
 * single-point containment test and their boundary sampling are given to a
 * hitbox as functions of its current rotation.
 */
module Hitboxes {
  import opened Geometry

  class Hitbox {
    /** Accumulated rotation, in degrees. */
    var rotationDegree: real
    /** How many boundary points a shape samples. */
    const NumberOfPoints: int := 8
    /** The shape's test: is a point inside, given rotation and the owner's centre. */
    const contains: (real, Coords, Coords) -> bool
    /** The shape's boundary sample, given rotation and the owner's centre. */
    const boundary: (real, Coords) -> seq<Coords>
    const width: real
    const height: real

    constructor (contains: (real, Coords, Coords) -> bool, boundary: (real, Coords) -> seq<Coords>,
                 width: real, height: real)
      ensures rotationDegree == 0.0
      ensures this.contains == contains && this.boundary == boundary
      ensures this.width == width && this.height == height
    {
      rotationDegree := 0.0;
      this.contains := contains;
      this.boundary := boundary;
      this.width := width;
      this.height := height;
    }

    /** Rotation is cumulative: each call adds its angle, nothing else changes. */
    method Rotate(angle: real)
      modifies this`rotationDegree
      ensures rotationDegree == old(rotationDegree) + angle
    {
      rotationDegree := rotationDegree + angle;
    }

    function GetRotationDegree(): (degree: real)
      reads this
      ensures degree == rotationDegree
    {
      rotationDegree
    }

    /** The single-point test of the concrete shape. */
    predicate IsInside(entityCoords: Coords, checkCoords: Coords)
      reads this
    {
      contains(rotationDegree, entityCoords, checkCoords)
    }

    /** The boundary sample of the concrete shape. */
    function GetBoundaryPoints(entityCoords: Coords): seq<Coords>
      reads this
    {
      boundary(rotationDegree, entityCoords)
    }

    /** Some point of the list passes the single-point test. */
    ghost predicate SomeInside(entityCoords: Coords, points: seq<Coords>)
      reads this
    {
      exists i :: 0 <= i < |points| && IsInside(entityCoords, points[i])
    }

    /**
     * The list form of `isInside`: scans the points in order and stops at
     * the first one inside, so it is an OR over the points.
     */
    function IsInsideAny(entityCoords: Coords, checkList: seq<Coords>): (r: bool)
      reads this
      ensures r <==> SomeInside(entityCoords, checkList)
    {
      if checkList == [] then false
      else if IsInside(entityCoords, checkList[0]) then true
      else
        var r := IsInsideAny(entityCoords, checkList[1..]);
        assert forall i :: 1 <= i < |checkList| ==> checkList[i] == checkList[1..][i - 1];
        r
    }
  }

  /** Splitting the list splits the OR. */
  lemma {:induction false} IsInsideAnyConcat(h: Hitbox, c: Coords, a: seq<Coords>, b: seq<Coords>)
    ensures h.IsInsideAny(c, a + b) <==> h.IsInsideAny(c, a) || h.IsInsideAny(c, b)
  {
    if h.IsInsideAny(c, a + b) {
      var i :| 0 <= i < |a + b| && h.IsInside(c, (a + b)[i]);
      if i >= |a| {
        assert b[i - |a|] == (a + b)[i];
      } else {
        assert a[i] == (a + b)[i];
      }
    }
    if h.IsInsideAny(c, a) {
      var i :| 0 <= i < |a| && h.IsInside(c, a[i]);
      assert (a + b)[i] == a[i];
    }
    if h.IsInsideAny(c, b) {
      var i :| 0 <= i < |b| && h.IsInside(c, b[i]);
      assert (a + b)[|a| + i] == b[i];
    }
  }

  /** Two rotations in a row add up. */
  method RotateTwice(h: Hitbox, a: real, b: real)
    modifies h`rotationDegree
    ensures h.rotationDegree == old(h.rotationDegree) + (a + b)
  {
    h.Rotate(a);
    h.Rotate(b);
  }
}
