/**
 * A leaf path pattern: a stateful generator of successive positions.
 *
 * The concrete leaf patterns (and PathPattern.java itself) are not part of
 * this model. A leaf is abstract: it keeps its current position and a
 * direction, advances by a fixed motion rule, bounces by a fixed reflection
 * rule, and may or may not support cloning.
 */
module PathPatterns {
  import opened Geometry

  class PathPattern {
    var currentCoords: Coords
    var direction: Vector
    /** The next position, from the current one and the direction. */
    const advance: (Coords, Vector) -> Coords
    /** The direction after a bounce off a surface with the given normal. */
    const bounce: (Vector, Vector) -> Vector
    /** Whether `clone()` succeeds for this pattern. */
    const cloneable: bool

    constructor (start: Coords, direction: Vector, advance: (Coords, Vector) -> Coords,
                 bounce: (Vector, Vector) -> Vector, cloneable: bool)
      ensures currentCoords == start && this.direction == direction
      ensures this.advance == advance && this.bounce == bounce && this.cloneable == cloneable
    {
      currentCoords := start;
      this.direction := direction;
      this.advance := advance;
      this.bounce := bounce;
      this.cloneable := cloneable;
    }

    method SetCurrentCoords(c: Coords)
      modifies this`currentCoords
      ensures currentCoords == c
    {
      currentCoords := c;
    }

    /** Advances once; calling it twice advances twice. */
    method NextPosition() returns (c: Coords)
      modifies this`currentCoords
      ensures c == advance(old(currentCoords), direction)
      ensures currentCoords == c
    {
      currentCoords := advance(currentCoords, direction);
      c := currentCoords;
    }

    method Reflect(n: Vector)
      modifies this`direction
      ensures direction == bounce(old(direction), n)
    {
      direction := bounce(direction, n);
    }

    /** A fresh copy, or null when the pattern cannot be cloned. */
    method Clone() returns (p: PathPattern?)
      ensures cloneable <==> p != null
      ensures p != null ==> fresh(p) && p.currentCoords == currentCoords && p.direction == direction
      ensures p != null ==> p.advance == advance && p.bounce == bounce && p.cloneable
    {
      if cloneable {
        p := new PathPattern(currentCoords, direction, advance, bounce, cloneable);
      } else {
        p := null;
      }
    }
  }
}
