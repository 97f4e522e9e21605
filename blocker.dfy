/**
 * The blocker (model/game_entities/Blocker.java): an autonomous entity with
 * three hitboxes around one centre and an exploded flag.
 *
 * Java's subclassing is modelled by composition: `entity` is the
 * AutonomousEntity part of the blocker.
 */
module Blockers {
  import opened Wrappers
  import opened Geometry
  import opened EntityTypes
  import opened Hitboxes
  import opened PathPatterns
  import opened Entities

  /**
   * `gameWidth / distance`. At distance 0 the Java division yields an
   * infinite (or NaN) double, which is `None` here.
   */
  function ExplosionDamage(gameWidth: real, distance: real): (r: Option<real>)
    requires distance >= 0.0
    ensures r.Some? <==> distance > 0.0
    ensures r.Some? ==> r.value * distance == gameWidth
  {
    if distance == 0.0 then None else Some(gameWidth / distance)
  }

  /** The two worked values: W = 1000 gives 100 at distance 10 and 1 at distance 1000. */
  lemma ExplosionDamageExamples()
    ensures ExplosionDamage(1000.0, 10.0) == Some(100.0)
    ensures ExplosionDamage(1000.0, 1000.0) == Some(1.0)
  {
  }

  /** Damage falls as distance grows, and it grows without bound as distance approaches 0. */
  lemma ExplosionDamageAntitone(gameWidth: real, d1: real, d2: real)
    requires gameWidth >= 0.0 && 0.0 < d1 <= d2
    ensures ExplosionDamage(gameWidth, d1).value >= ExplosionDamage(gameWidth, d2).value
  {
    var a, b := ExplosionDamage(gameWidth, d1).value, ExplosionDamage(gameWidth, d2).value;
    assert a * d1 == gameWidth && b * d2 == gameWidth;
    assert b >= 0.0;
    assert b * d1 <= b * d2;
  }

  /** For every bound there is a distance whose damage exceeds it. */
  lemma ExplosionDamageUnbounded(gameWidth: real, bound: real)
    requires gameWidth > 0.0 && bound > 0.0
    ensures ExplosionDamage(gameWidth, gameWidth / (2.0 * bound)).value > bound
  {
    var d := gameWidth / (2.0 * bound);
    var r := ExplosionDamage(gameWidth, d).value;
    assert d * (2.0 * bound) == gameWidth;
    assert r * d == d * (2.0 * bound);
    assert r == 2.0 * bound;
  }

  class Blocker {
    const entity: AutonomousEntity
    const blockingRadius: real
    const explosionRadius: real
    const blockingHitbox: Hitbox
    const explodingHitbox: Hitbox
    var exploded: bool
    /** The flag's value at each boundary-behaviour call, in call order. */
    ghost var explodedAtCalls: seq<bool>

    /** The radii are the unit length times the configured factors. */
    constructor (coordinates: Coords, hitbox: Hitbox, blockingHitbox: Hitbox, explodingHitbox: Hitbox,
                 pathPattern: PathPattern, entityType: EntityType,
                 unitL: real, blockingFactor: real, explosionFactor: real)
      modifies pathPattern
      ensures fresh(entity) && entity.coordinates == coordinates && entity.hitbox == hitbox
      ensures entity.pathPattern == pathPattern && entity.entityType == entityType && entity.Synced()
      ensures this.blockingHitbox == blockingHitbox && this.explodingHitbox == explodingHitbox
      ensures blockingRadius == unitL * blockingFactor && explosionRadius == unitL * explosionFactor
      ensures !exploded && explodedAtCalls == []
    {
      entity := new AutonomousEntity(coordinates, hitbox, pathPattern, entityType);
      blockingRadius := unitL * blockingFactor;
      explosionRadius := unitL * explosionFactor;
      this.blockingHitbox := blockingHitbox;
      this.explodingHitbox := explodingHitbox;
      exploded := false;
      explodedAtCalls := [];
    }

    /** Is some boundary point of the other entity inside the base hitbox? */
    function IsCollidedWithOriginalHitbox(other: Hitbox, otherCoords: Coords): (r: bool)
      reads this, entity, entity.hitbox, other
      ensures r <==> entity.hitbox.SomeInside(entity.coordinates, other.GetBoundaryPoints(otherCoords))
    {
      entity.hitbox.IsInsideAny(entity.coordinates, other.GetBoundaryPoints(otherCoords))
    }

    /** Is some boundary point of the other entity inside the blocking hitbox? */
    function IsCollidedWithBlockingHitbox(other: Hitbox, otherCoords: Coords): (r: bool)
      reads this, entity, blockingHitbox, other
      ensures r <==> blockingHitbox.SomeInside(entity.coordinates, other.GetBoundaryPoints(otherCoords))
    {
      blockingHitbox.IsInsideAny(entity.coordinates, other.GetBoundaryPoints(otherCoords))
    }

    /** Is some boundary point of the other entity inside the exploding hitbox? */
    function IsCollidedWithExplodingHitbox(other: Hitbox, otherCoords: Coords): (r: bool)
      reads this, entity, explodingHitbox, other
      ensures r <==> explodingHitbox.SomeInside(entity.coordinates, other.GetBoundaryPoints(otherCoords))
    {
      explodingHitbox.IsInsideAny(entity.coordinates, other.GetBoundaryPoints(otherCoords))
    }

    /** A blocker collides by its exploding hitbox. */
    function IsCollidedWith(other: Hitbox, otherCoords: Coords): (r: bool)
      reads this, entity, explodingHitbox, other
      ensures r == IsCollidedWithExplodingHitbox(other, otherCoords)
    {
      IsCollidedWithExplodingHitbox(other, otherCoords)
    }

    /**
     * The default boundary behaviour, which still sees the old flag, then the
     * flag is set, then the blocker's own behaviour, which sees it set.
     */
    method ReachBoundary(runnable: CollisionRunnable)
      modifies this`exploded, this`explodedAtCalls, runnable
      ensures exploded
      ensures runnable.calls == old(runnable.calls) + [DefaultBoundary(this), BlockerBoundary(this)]
      ensures explodedAtCalls == old(explodedAtCalls) + [old(exploded), true]
    {
      runnable.DefaultBoundaryBehaviour(this);
      explodedAtCalls := explodedAtCalls + [exploded];
      exploded := true;
      runnable.BlockerBoundaryBehavior(this);
      explodedAtCalls := explodedAtCalls + [exploded];
    }

    function IsExploded(): (r: bool)
      reads this
      ensures r == exploded
    {
      exploded
    }

    method SetExploded(isExploded: bool)
      modifies this`exploded
      ensures IsExploded() == isExploded
    {
      exploded := isExploded;
    }
  }
}
