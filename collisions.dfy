/**
 * The double-dispatch forwarding of collisions. The handlers themselves
 * (CollisionVisitor) are not part of this model: a dispatch ends in the
 * handler call it selects.
 */
module Collisions {

  /** The concrete entity classes. */
  datatype SuperType = AtomType | BlockerType | MoleculeType | PowerupType | ShooterType

  /** An entity as dispatch sees it: its concrete class and its identity. */
  datatype EntityRef = EntityRef(superType: SuperType, id: nat)

  /** `visitor.handleCollision(first, second)`, the overload chosen by both concrete classes. */
  datatype HandlerCall = HandleCollision(first: EntityRef, second: EntityRef)

  /** `receiver.collideWith(visitor, argument)`: the receiver passes itself first, the argument second. */
  function CollideWith(receiver: EntityRef, argument: EntityRef): (call: HandlerCall)
    ensures call.first == receiver && call.second == argument
  {
    HandleCollision(receiver, argument)
  }

  /** `receiver.acceptCollision(visitor, other)`: forwards to `other.collideWith(visitor, receiver)`. */
  function AcceptCollision(receiver: EntityRef, other: EntityRef): (call: HandlerCall)
    ensures call.first == other && call.second == receiver
  {
    CollideWith(other, receiver)
  }

  /**
   * Dispatch reaches the handler for the pair of concrete classes with no
   * type test, and accepting from either side reaches the same pair, in
   * opposite order.
   */
  lemma DispatchSeesBothClasses(a: EntityRef, b: EntityRef)
    ensures AcceptCollision(a, b).first.superType == b.superType
    ensures AcceptCollision(a, b).second.superType == a.superType
    ensures AcceptCollision(b, a) == HandleCollision(AcceptCollision(a, b).second, AcceptCollision(a, b).first)
  {
  }
}
