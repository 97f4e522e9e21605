/**
 * Entities that move by themselves along a path pattern
 * (model/game_entities/AutonomousEntity.java), and the boundary callback
 * they report to.
 */
module Entities {
  import opened Geometry
  import opened EntityTypes
  import opened Hitboxes
  import opened PathPatterns

  /** A call made on the collision runnable's boundary callbacks. */
  datatype BoundaryCall = DefaultBoundary(entity: object) | BlockerBoundary(blocker: object)

  /**
   * The runnable that owns the boundary behaviours. What those behaviours
   * do is not part of this model; it records the calls it receives.
   */
  class CollisionRunnable {
    var calls: seq<BoundaryCall>

    constructor ()
      ensures calls == []
    {
      calls := [];
    }

    method DefaultBoundaryBehaviour(entity: object)
      modifies this
      ensures calls == old(calls) + [DefaultBoundary(entity)]
    {
      calls := calls + [DefaultBoundary(entity)];
    }

    method BlockerBoundaryBehavior(blocker: object)
      modifies this
      ensures calls == old(calls) + [BlockerBoundary(blocker)]
    {
      calls := calls + [BlockerBoundary(blocker)];
    }
  }

  class AutonomousEntity {
    var coordinates: Coords
    var hitbox: Hitbox
    var entityType: EntityType
    var pathPattern: PathPattern

    /** The entity is the source of truth; its pattern mirrors its position. */
    ghost predicate Synced()
      reads this, pathPattern
    {
      pathPattern.currentCoords == coordinates
    }

    constructor (coordinates: Coords, hitbox: Hitbox, pathPattern: PathPattern, entityType: EntityType)
      modifies pathPattern
      ensures this.coordinates == coordinates && this.hitbox == hitbox
      ensures this.pathPattern == pathPattern && this.entityType == entityType
      ensures pathPattern.currentCoords == coordinates && Synced()
      ensures pathPattern.direction == old(pathPattern.direction)
    {
      this.coordinates := coordinates;
      this.hitbox := hitbox;
      this.pathPattern := pathPattern;
      this.entityType := entityType;
      new;
      pathPattern.SetCurrentCoords(coordinates);
    }

    method SetEntityType(t: EntityType)
      modifies this`entityType
      ensures GetEntityType() == t
    {
      entityType := t;
    }

    function GetEntityType(): (t: EntityType)
      reads this
      ensures t == entityType
    {
      entityType
    }

    /** Replaces the pattern only: the new pattern's position is not resynchronised. */
    method SetPathPattern(p: PathPattern)
      modifies this`pathPattern
      ensures pathPattern == p
    {
      pathPattern := p;
    }

    /** Moves the entity and pushes the new position into its pattern. */
    method SetCoordinates(c: Coords)
      modifies this`coordinates, pathPattern`currentCoords
      ensures coordinates == c && pathPattern.currentCoords == c && Synced()
    {
      coordinates := c;
      pathPattern.SetCurrentCoords(c);
    }

    /** One step along the pattern: the entity goes where the pattern says next. */
    method Move()
      modifies this`coordinates, pathPattern`currentCoords
      ensures coordinates == pathPattern.advance(old(pathPattern.currentCoords), pathPattern.direction)
      ensures Synced()
    {
      var next := pathPattern.NextPosition();
      SetCoordinates(next);
    }

    /** Hands the entity to the runnable's default boundary behaviour. */
    method ReachBoundary(runnable: CollisionRunnable)
      modifies runnable
      ensures runnable.calls == old(runnable.calls) + [DefaultBoundary(this)]
    {
      runnable.DefaultBoundaryBehaviour(this);
    }
  }

  /** Two moves in a row advance the pattern twice, and the entity ends where the pattern does. */
  method MoveTwice(e: AutonomousEntity)
    requires e.Synced()
    modifies e`coordinates, e.pathPattern`currentCoords
    ensures e.coordinates == e.pathPattern.advance(e.pathPattern.advance(old(e.coordinates), e.pathPattern.direction),
                                                   e.pathPattern.direction)
    ensures e.Synced()
  {
    e.Move();
    e.Move();
  }
}
