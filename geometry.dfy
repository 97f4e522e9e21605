/**
 * Positions in the game space (services/utils/Coordinates.java).
 *
 * The Java class is mutable (setX, setY); `Coordinates` below models it as
 * such. Everywhere else in the model a position is passed around as the
 * value `Coords`, which is what the entities and path patterns do with it.
 */
module Geometry {

  /** The bounds of a Java `int`. */
  const MinInt: int := -0x8000_0000
  const MaxInt: int := 0x7fff_ffff

  /** A position as a value: equality is equality of both components. */
  datatype Coords = Coords(x: real, y: real)

  /** A java.awt.Point: integer coordinates. */
  datatype Point = Point(x: int, y: int)

  /** A vector given by two positions, its origin and its tip. */
  datatype Vector = Vector(origin: Coords, tip: Coords)

  /**
   * Java's `(int)` cast of a double: rounds toward zero and saturates at
   * the bounds of `int` (not a floor, which differs for negative values).
   */
  function TruncateToInt(v: real): (r: int)
    ensures MinInt <= r <= MaxInt
    ensures 0.0 <= v < MaxInt as real + 1.0 ==> r as real <= v < r as real + 1.0
    ensures MinInt as real - 1.0 < v <= 0.0 ==> r as real - 1.0 < v <= r as real
    ensures v >= MaxInt as real ==> r == MaxInt
    ensures v <= MinInt as real ==> r == MinInt
  {
    var t := if v >= 0.0 then v.Floor else -((-v).Floor);
    if t > MaxInt then MaxInt else if t < MinInt then MinInt else t
  }

  /** A mutable pair of coordinates. */
  class Coordinates {
    var x: real
    var y: real

    constructor (x: real, y: real)
      ensures GetX() == x && GetY() == y
    {
      this.x := x;
      this.y := y;
    }

    /** The no-argument constructor: Java leaves both fields at 0.0. */
    constructor Origin()
      ensures GetX() == 0.0 && GetY() == 0.0
    {
      x, y := 0.0, 0.0;
    }

    function GetX(): (r: real)
      reads this
      ensures r == Value().x
    {
      x
    }

    function GetY(): (r: real)
      reads this
      ensures r == Value().y
    {
      y
    }

    /** The value this object currently holds. */
    function Value(): Coords
      reads this
    {
      Coords(x, y)
    }

    method SetX(v: real)
      modifies this
      ensures GetX() == v && GetY() == old(GetY())
    {
      x := v;
    }

    method SetY(v: real)
      modifies this
      ensures GetY() == v && GetX() == old(GetX())
    {
      y := v;
    }

    /** Equality by value, component by component. */
    predicate Equals(other: Coordinates): (r: bool)
      reads this, other
      ensures r <==> Value() == other.Value()
    {
      other.GetX() == GetX() && other.GetY() == GetY()
    }

    /** The integer pixel this position falls on. */
    function GetPoint(): (p: Point)
      reads this
      ensures p.x == TruncateToInt(GetX()) && p.y == TruncateToInt(GetY())
    {
      Point(TruncateToInt(x), TruncateToInt(y))
    }
  }

  /** `Equals` holds exactly when the two objects hold the same value. */
  lemma EqualsIsValueEquality(a: Coordinates, b: Coordinates)
    ensures a.Equals(b) <==> a.Value() == b.Value()
  {
  }

  /** Hence `Equals` is an equivalence relation. */
  lemma EqualsIsEquivalence(a: Coordinates, b: Coordinates, c: Coordinates)
    ensures a.Equals(a)
    ensures a.Equals(b) ==> b.Equals(a)
    ensures a.Equals(b) && b.Equals(c) ==> a.Equals(c)
  {
  }

  /** Truncation is not a floor: negative values round up toward zero. */
  lemma TruncateRoundsTowardZero()
    ensures TruncateToInt(2.75) == 2
    ensures TruncateToInt(-2.75) == -2
    ensures TruncateToInt(-0.5) == 0
  {
  }
}
