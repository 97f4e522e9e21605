/**
 * The projectile on the shooter's tip and the container that supplies it.
 *
 * The container (its random draws, its atom and powerup stocks) is not part
 * of this model. It is an abstract supplier: the outcomes of its next random
 * draws are given in advance as sequences, and what the shooter hands back
 * to it is recorded.
 */
module ProjectileContainers {
  import opened Wrappers
  import opened EntityTypes
  import opened Shields

  datatype Projectile = AtomProjectile(atom: Atom) | PowerupProjectile(kind: EntityType)

  /** A possibly-null atom as a possibly-null projectile. */
  function AsProjectile(atom: Option<Atom>): (p: Option<Projectile>)
    ensures p.Some? <==> atom.Some?
    ensures p.Some? ==> p.value == AtomProjectile(atom.value)
  {
    match atom
    case None => None
    case Some(a) => Some(AtomProjectile(a))
  }

  /** An `increaseAtoms(typeValue, count, shields)` call. */
  datatype AtomReturn = AtomReturn(typeValue: int, count: int, shields: ShieldTuple)

  /** The outcome of the first of the given draws; an exhausted supplier gives null. */
  function FirstDraw(draws: seq<Option<Atom>>): Option<Atom>
  {
    if draws == [] then None else draws[0]
  }

  /** The given draws left after the first. */
  function AfterFirst(draws: seq<Option<Atom>>): seq<Option<Atom>>
  {
    if draws == [] then [] else draws[1..]
  }

  /** The given draws left once `k` have been made. */
  function Remaining(draws: seq<Option<Atom>>, k: nat): (rest: seq<Option<Atom>>)
    ensures |rest| <= |draws|
  {
    if k <= |draws| then draws[k..] else []
  }

  /** Drawing once more from what is left after `k` draws is the `k`-th draw. */
  lemma RemainingStep(draws: seq<Option<Atom>>, k: nat)
    ensures FirstDraw(Remaining(draws, k)) == (if k < |draws| then draws[k] else None)
    ensures AfterFirst(Remaining(draws, k)) == Remaining(draws, k + 1)
  {
  }

  class ProjectileContainer {
    /** What the next `getRandomAtom` calls return; once exhausted they return null. */
    var atomDraws: seq<Option<Atom>>
    /** Whether the next `getPowerUp` calls find a powerup of the asked type. */
    var powerupDraws: seq<bool>
    /** The atom count per elemental kind (`getAtomMap`). */
    var atomMap: seq<int>
    /** The shield tuple kept for each elemental kind (`getShields`). */
    var shieldsOf: EntityType -> ShieldTuple
    /** How the container shields an atom with a tuple (`shieldAtom`). */
    const shieldAtom: (Atom, ShieldTuple) -> Atom
    var returnedAtoms: seq<AtomReturn>
    var returnedPowerups: seq<EntityType>

    constructor (atomDraws: seq<Option<Atom>>, powerupDraws: seq<bool>, atomMap: seq<int>,
                 shieldsOf: EntityType -> ShieldTuple, shieldAtom: (Atom, ShieldTuple) -> Atom)
      ensures this.atomDraws == atomDraws && this.powerupDraws == powerupDraws && this.atomMap == atomMap
      ensures this.shieldsOf == shieldsOf && this.shieldAtom == shieldAtom
      ensures returnedAtoms == [] && returnedPowerups == []
    {
      this.atomDraws := atomDraws;
      this.powerupDraws := powerupDraws;
      this.atomMap := atomMap;
      this.shieldsOf := shieldsOf;
      this.shieldAtom := shieldAtom;
      returnedAtoms := [];
      returnedPowerups := [];
    }

    /** The outcome of the next random atom draw. */
    function NextDraw(): Option<Atom>
      reads this
    {
      FirstDraw(atomDraws)
    }

    /** The draws left after the next one. */
    function DrawsAfterNext(): seq<Option<Atom>>
      reads this
    {
      AfterFirst(atomDraws)
    }

    /** What `nextAtom` yields for a draw: the drawn atom shielded with its kind's tuple. */
    function Shielded(draw: Option<Atom>): (r: Option<Atom>)
      reads this
      ensures r.Some? <==> draw.Some?
    {
      match draw
      case None => None
      case Some(a) => Some(shieldAtom(a, shieldsOf(a.kind)))
    }

    /** What `nextAtom` yields for the next draw. */
    function ShieldedNextDraw(): (r: Option<Atom>)
      reads this
      ensures r.Some? <==> NextDraw().Some?
    {
      Shielded(NextDraw())
    }

    /** The temporary shields after `nextAtom`: the drawn kind's tuple, or `current` when nothing is drawn. */
    function TempShieldsAfterNextDraw(current: ShieldTuple): ShieldTuple
      reads this
    {
      match NextDraw()
      case None => current
      case Some(a) => shieldsOf(a.kind)
    }

    /** Whether the next `getPowerUp` finds a powerup. */
    predicate NextPowerupFound()
      reads this
    {
      powerupDraws != [] && powerupDraws[0]
    }

    function PowerupDrawsAfterNext(): seq<bool>
      reads this
    {
      if powerupDraws == [] then [] else powerupDraws[1..]
    }

    method GetRandomAtom() returns (atom: Option<Atom>)
      modifies this`atomDraws
      ensures atom == old(NextDraw()) && atomDraws == old(DrawsAfterNext())
    {
      atom := NextDraw();
      atomDraws := DrawsAfterNext();
    }

    method GetPowerUp(kind: EntityType) returns (p: Option<Projectile>)
      modifies this`powerupDraws
      ensures p == if old(NextPowerupFound()) then Some(PowerupProjectile(kind)) else None
      ensures powerupDraws == old(PowerupDrawsAfterNext())
    {
      p := if NextPowerupFound() then Some(PowerupProjectile(kind)) else None;
      powerupDraws := PowerupDrawsAfterNext();
    }

    function GetShields(kind: EntityType): ShieldTuple
      reads this
    {
      shieldsOf(kind)
    }

    function GetAtomMap(): seq<int>
      reads this
    {
      atomMap
    }

    method IncreaseAtoms(typeValue: int, count: int, shields: ShieldTuple)
      modifies this`returnedAtoms
      ensures returnedAtoms == old(returnedAtoms) + [AtomReturn(typeValue, count, shields)]
    {
      returnedAtoms := returnedAtoms + [AtomReturn(typeValue, count, shields)];
    }

    method AddPowerUp(kind: EntityType)
      modifies this`returnedPowerups
      ensures returnedPowerups == old(returnedPowerups) + [kind]
    {
      returnedPowerups := returnedPowerups + [kind];
    }
  }
}
