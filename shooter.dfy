/**
 * The shooter (model/game_entities/Shooter.java) and its shield handler
 * (model/game_running/ShieldHandler.java). The two objects refer to each
 * other, so they share a module.
 */
module Shooting {
  import opened Wrappers
  import opened Geometry
  import opened EntityTypes
  import opened Hitboxes
  import opened Shields
  import opened ProjectileContainers

  datatype MovementState = Still | MovingLeft | MovingRight

  datatype RotationDirection = RotateLeft | RotateRight

  /** The configuration values the shooter reads. */
  datatype ShooterConfig = ShooterConfig(
    gameWidth: real, gameHeight: real, baseHeight: real, panelWidth: real, unitL: real,
    shooterWidth: real, shooterHeight: real, shooterSpeed: real, rotationStep: real,
    shieldBudget: ShieldTuple,
    /** The rotated-corner part of `checkLegalAngle`: is the shooter's side still in view at this angle. */
    cornerInView: (Coords, real) -> bool)

  /** The largest tilt, in degrees, either way. */
  const MaxAngle: real := 80.0

  function GunWidth(config: ShooterConfig): real
  {
    config.unitL * config.shooterWidth
  }

  /** The angle is within 80 degrees either way, and the rotated corner stays in view. */
  function CheckLegalAngle(config: ShooterConfig, coordinates: Coords, angle: real): (r: bool)
    ensures r <==> -MaxAngle <= angle <= MaxAngle && config.cornerInView(coordinates, angle)
  {
    !(angle > MaxAngle) && !(angle < -MaxAngle) && config.cornerInView(coordinates, angle)
  }

  /** Both sides of the gun are inside the panel, and the angle is legal. */
  function CheckLegalMovement(config: ShooterConfig, coordinates: Coords, angle: real): (r: bool)
    ensures r <==> && 0.0 <= coordinates.x - GunWidth(config) / 2.0
                   && coordinates.x + GunWidth(config) / 2.0 <= config.panelWidth
                   && CheckLegalAngle(config, coordinates, angle)
  {
    if coordinates.x + GunWidth(config) / 2.0 > config.panelWidth then false
    else if coordinates.x - GunWidth(config) / 2.0 < 0.0 then false
    else CheckLegalAngle(config, coordinates, angle)
  }

  /** The number of zero entries, counted front to back. */
  function ZeroCount(s: seq<int>): (n: nat)
    ensures n <= |s|
  {
    if s == [] then 0 else ZeroCount(s[..|s| - 1]) + (if s[|s| - 1] == 0 then 1 else 0)
  }

  /** The kinds that still have atoms. */
  ghost function NonZeroIndices(s: seq<int>): set<int>
  {
    set i | 0 <= i < |s| && s[i] != 0
  }

  /** Every entry is either counted as zero or is an index with atoms left. */
  lemma {:induction false} ZeroCountComplement(s: seq<int>)
    ensures ZeroCount(s) + |NonZeroIndices(s)| == |s|
  {
    if s != [] {
      var init := s[..|s| - 1];
      ZeroCountComplement(init);
      if s[|s| - 1] == 0 {
        assert NonZeroIndices(s) == NonZeroIndices(init);
      } else {
        assert NonZeroIndices(s) == NonZeroIndices(init) + {|s| - 1};
      }
    }
  }

  /** `uniqueTypeAvailable`'s test: all entries but one are zero. */
  predicate UniqueTypeLeft(atomMap: seq<int>)
  {
    ZeroCount(atomMap) == |atomMap| - 1
  }

  /** That is: exactly one kind has atoms left. */
  lemma UniqueTypeLeftMeansOneKind(atomMap: seq<int>)
    ensures UniqueTypeLeft(atomMap) <==> |NonZeroIndices(atomMap)| == 1
  {
    ZeroCountComplement(atomMap);
  }

  class ShieldHandler {
    var shooter: Shooter?
    var tempShields: ShieldTuple
    var shields: ShieldTuple

    /** The budget comes from the configuration; no shield is applied to the load yet. */
    constructor (shooter: Shooter?, budget: ShieldTuple)
      ensures this.shooter == shooter && shields == budget && tempShields == Empty
    {
      this.shooter := shooter;
      shields := budget;
      tempShields := Empty;
    }

    /**
     * One shield of kind `k` onto the loaded atom, when the budget allows it
     * and the loaded projectile is an atom; otherwise nothing changes.
     */
    method ApplyShield(k: ShieldType)
      requires shields.Count(k) > 0 ==> shooter != null && shooter.currentProjectile.Some?
      modifies this`shields, this`tempShields, shooter
      ensures shooter == old(shooter)
      ensures var applied := old(shields.Count(k)) > 0 && old(shooter.ProjectileIsAtom());
        if applied then
          && shields == old(shields).Decrease(k)
          && tempShields == old(tempShields).Add(k)
          && shooter.currentProjectile == Some(AtomProjectile(Wrap(old(shooter.currentProjectile.value.atom), k)))
        else
          && shields == old(shields) && tempShields == old(tempShields)
          && (shooter != null ==> shooter.currentProjectile == old(shooter.currentProjectile))
      ensures shooter != null ==>
        && shooter.coordinates == old(shooter.coordinates)
        && shooter.movementState == old(shooter.movementState)
        && shooter.hitbox == old(shooter.hitbox)
        && shooter.shieldHandler == old(shooter.shieldHandler)
    {
      if shields.Count(k) > 0 && shooter.ProjectileIsAtom() {
        shields := shields.Decrease(k);
        tempShields := tempShields.Add(k);
        if shooter.ProjectileIsAtom() {
          var shieldedAtom := Wrap(shooter.GetAtomProjectile(), k);
          shooter.SetCurrentProjectile(Some(AtomProjectile(shieldedAtom)));
        }
      }
    }

    /** A shot or a swap ends the load: the temporary shields go, the budget is not refunded. */
    method EmptyTempShields()
      modifies this`tempShields
      ensures tempShields == Empty
    {
      tempShields := Empty;
    }

    /** The tuple is a value, so the caller gets a copy that later changes do not reach. */
    function GetTempShields(): (t: ShieldTuple)
      reads this
      ensures t == tempShields
    {
      tempShields
    }

    method SetTempShields(t: ShieldTuple)
      modifies this`tempShields
      ensures GetTempShields() == t
    {
      tempShields := t;
    }

    method SetShooter(shooter: Shooter)
      modifies this`shooter
      ensures this.shooter == shooter
    {
      this.shooter := shooter;
    }
  }

  class Shooter {
    var coordinates: Coords
    var hitbox: Hitbox
    var currentProjectile: Option<Projectile>
    var movementState: MovementState
    var shieldHandler: ShieldHandler
    /** The running mode's projectile container. */
    const container: ProjectileContainer
    const config: ShooterConfig

    /** Centred at the bottom of the game, still, with a new shield handler and an atom drawn. */
    constructor (container: ProjectileContainer, hitbox: Hitbox, config: ShooterConfig)
      modifies container`atomDraws
      ensures coordinates == Coords(config.gameWidth / 2.0,
                                    config.gameHeight - 0.5 * config.unitL * config.shooterHeight - config.baseHeight)
      ensures movementState == Still && this.hitbox == hitbox
      ensures this.container == container && this.config == config
      ensures fresh(shieldHandler) && shieldHandler.shooter == this && shieldHandler.shields == config.shieldBudget
      ensures shieldHandler.tempShields == old(container.TempShieldsAfterNextDraw(Empty))
      ensures currentProjectile == AsProjectile(old(container.ShieldedNextDraw()))
      ensures container.atomDraws == old(container.DrawsAfterNext())
    {
      coordinates := Coords(config.gameWidth / 2.0,
                            config.gameHeight - 0.5 * config.unitL * config.shooterHeight - config.baseHeight);
      movementState := Still;
      shieldHandler := new ShieldHandler(null, config.shieldBudget);
      this.hitbox := hitbox;
      this.container := container;
      this.config := config;
      currentProjectile := None;
      new;
      shieldHandler.SetShooter(this);
      var atom := NextAtom();
      currentProjectile := AsProjectile(atom);
    }

    function GetCurrentProjectile(): (p: Option<Projectile>)
      reads this
      ensures p == currentProjectile
    {
      currentProjectile
    }

    method SetCurrentProjectile(p: Option<Projectile>)
      modifies this`currentProjectile
      ensures currentProjectile == p
    {
      currentProjectile := p;
    }

    predicate ProjectileIsAtom(): (r: bool)
      requires currentProjectile.Some?
      reads this
      ensures r <==> exists a :: currentProjectile.value == AtomProjectile(a)
    {
      currentProjectile.value.AtomProjectile?
    }

    /** The cast to an atom, which the precondition makes safe. */
    function GetAtomProjectile(): (a: Atom)
      requires currentProjectile.Some? && ProjectileIsAtom()
      reads this
      ensures currentProjectile == Some(AtomProjectile(a))
    {
      currentProjectile.value.atom
    }

    /** The tilt is the hitbox's accumulated rotation. */
    function GetAngle(): (angle: real)
      reads this, hitbox
      ensures angle == hitbox.rotationDegree
    {
      hitbox.GetRotationDegree()
    }

    /**
     * Draws the next atom from the container; when there is one, the
     * handler's temporary shields become that kind's tuple and the atom is
     * shielded with them.
     */
    method NextAtom() returns (atom: Option<Atom>)
      modifies container`atomDraws, shieldHandler`tempShields
      ensures atom == old(container.ShieldedNextDraw())
      ensures container.atomDraws == old(container.DrawsAfterNext())
      ensures shieldHandler.tempShields == old(container.TempShieldsAfterNextDraw(shieldHandler.tempShields))
    {
      atom := container.GetRandomAtom();
      if atom.Some? {
        shieldHandler.SetTempShields(container.GetShields(atom.value.kind));
        atom := Some(container.shieldAtom(atom.value, shieldHandler.GetTempShields()));
      }
    }

    /** Hands back the loaded projectile and loads the next atom. */
    method Reload() returns (p: Projectile)
      requires currentProjectile.Some?
      modifies this`currentProjectile, container`atomDraws, shieldHandler`tempShields
      ensures p == old(currentProjectile.value)
      ensures currentProjectile == AsProjectile(old(container.ShieldedNextDraw()))
      ensures container.atomDraws == old(container.DrawsAfterNext())
      ensures shieldHandler.tempShields == old(container.TempShieldsAfterNextDraw(shieldHandler.tempShields))
    {
      p := currentProjectile.value;
      var atom := NextAtom();
      SetCurrentProjectile(AsProjectile(atom));
    }

    /**
     * Fires the loaded projectile. With nothing loaded it returns null and
     * changes nothing; otherwise the load's temporary shields are emptied and
     * the shooter reloads.
     */
    method Shoot() returns (p: Option<Projectile>)
      modifies this`currentProjectile, container`atomDraws, shieldHandler`tempShields
      ensures old(currentProjectile).None? ==>
        && p.None? && currentProjectile == old(currentProjectile)
        && container.atomDraws == old(container.atomDraws)
        && shieldHandler.tempShields == old(shieldHandler.tempShields)
      ensures old(currentProjectile).Some? ==>
        && p == old(currentProjectile)
        && currentProjectile == AsProjectile(old(container.ShieldedNextDraw()))
        && container.atomDraws == old(container.DrawsAfterNext())
        && shieldHandler.tempShields == old(container.TempShieldsAfterNextDraw(Empty))
    {
      if currentProjectile.None? {
        return None;
      }
      shieldHandler.EmptyTempShields();
      var shot := Reload();
      p := Some(shot);
    }

    /**
     * Puts a powerup of the given kind on the tip when the container has one.
     * The previous projectile goes back to the container: an atom with the
     * load's temporary shields (which are then emptied), a powerup as such.
     */
    method SetPowerup(kind: EntityType)
      requires container.NextPowerupFound() ==> currentProjectile.Some?
      modifies this`currentProjectile, container`powerupDraws, container`returnedAtoms,
               container`returnedPowerups, shieldHandler`tempShields
      ensures container.powerupDraws == old(container.PowerupDrawsAfterNext())
      ensures !old(container.NextPowerupFound()) ==>
        && currentProjectile == old(currentProjectile)
        && container.returnedAtoms == old(container.returnedAtoms)
        && container.returnedPowerups == old(container.returnedPowerups)
        && shieldHandler.tempShields == old(shieldHandler.tempShields)
      ensures old(container.NextPowerupFound()) ==>
        && currentProjectile == Some(PowerupProjectile(kind))
        && match old(currentProjectile.value)
           case AtomProjectile(a) =>
             && container.returnedAtoms == old(container.returnedAtoms) + [AtomReturn(GetValue(a.kind), 1, old(shieldHandler.tempShields))]
             && container.returnedPowerups == old(container.returnedPowerups)
             && shieldHandler.tempShields == Empty
           case PowerupProjectile(k) =>
             && container.returnedPowerups == old(container.returnedPowerups) + [k]
             && container.returnedAtoms == old(container.returnedAtoms)
             && shieldHandler.tempShields == old(shieldHandler.tempShields)
    {
      var previousProjectile := currentProjectile;
      var currentPowerup := container.GetPowerUp(kind);
      if currentPowerup.Some? {
        match previousProjectile.value {
          case AtomProjectile(a) =>
            container.IncreaseAtoms(GetValue(a.kind), 1, shieldHandler.GetTempShields());
            shieldHandler.EmptyTempShields();
          case PowerupProjectile(k) =>
            container.AddPowerUp(k);
        }
        SetCurrentProjectile(currentPowerup);
      }
    }

    /** Counts the kinds without atoms; true when exactly one kind still has some. */
    method UniqueTypeAvailable() returns (r: bool)
      ensures r <==> UniqueTypeLeft(container.atomMap)
    {
      var types := container.GetAtomMap();
      var counter := 0;
      for i := 0 to |types|
        invariant counter == ZeroCount(types[..i])
      {
        assert types[..i + 1][..i] == types[..i];
        if types[i] == 0 {
          counter := counter + 1;
        }
      }
      assert types[..|types|] == types;
      r := counter == |types| - 1;
    }

    /**
     * Swaps the loaded projectile for the next atom drawn. A powerup goes back
     * to the container; an atom goes back with the shields it had, and atoms
     * of its own kind are drawn and put back (each with its kind's tuple, which
     * `nextAtom` made the temporary shields) until one of another kind comes
     * up or only one kind is left. When a draw inside that loop comes up
     * empty, the source dereferences null: `crashed` reports it, and the
     * projectile is left as it was.
     *
     * In the atom case, `r` below is the number of atoms drawn and put back
     * by the loop; the draws consumed are the first `r + 1` given ones.
     */
    method SwitchAtom() returns (crashed: bool)
      requires container.NextDraw().Some? ==> currentProjectile.Some?
      modifies this`currentProjectile, container`atomDraws, container`returnedAtoms,
               container`returnedPowerups, shieldHandler`tempShields
      ensures old(container.NextDraw()).None? ==>
        && !crashed && currentProjectile == old(currentProjectile)
        && container.atomDraws == old(container.DrawsAfterNext())
        && container.returnedAtoms == old(container.returnedAtoms)
        && container.returnedPowerups == old(container.returnedPowerups)
        && shieldHandler.tempShields == old(shieldHandler.tempShields)
      ensures old(container.NextDraw()).Some? && old(currentProjectile.value).PowerupProjectile? ==>
        && !crashed
        && currentProjectile == AsProjectile(old(container.ShieldedNextDraw()))
        && container.atomDraws == old(container.DrawsAfterNext())
        && shieldHandler.tempShields == old(container.TempShieldsAfterNextDraw(shieldHandler.tempShields))
        && container.returnedPowerups == old(container.returnedPowerups) + [old(currentProjectile.value.kind)]
        && container.returnedAtoms == old(container.returnedAtoms)
      ensures old(container.NextDraw()).Some? && old(currentProjectile.value).AtomProjectile? ==>
        var previous := old(currentProjectile.value.atom);
        var draws := old(container.atomDraws);
        var n := |old(container.returnedAtoms)|;
        var r := |container.returnedAtoms| - n - 1;
        && 0 <= r <= |draws|
        && container.returnedAtoms[..n + 1]
           == old(container.returnedAtoms) + [AtomReturn(GetValue(previous.kind), 1, old(shieldHandler.tempShields))]
        && (forall j :: 0 <= j < r ==>
              && draws[j].Some? && container.Shielded(draws[j]).value.kind == previous.kind
              && container.returnedAtoms[n + 1 + j]
                 == AtomReturn(GetValue(previous.kind), 1, container.shieldsOf(draws[j].value.kind)))
        && container.returnedPowerups == old(container.returnedPowerups)
        && container.atomDraws == Remaining(draws, r + 1)
        && (r > 0 ==> !UniqueTypeLeft(container.atomMap))
        && (crashed <==> r == |draws| || draws[r].None?)
        && (crashed ==>
              && 0 < r && currentProjectile == old(currentProjectile)
              && shieldHandler.tempShields == container.shieldsOf(draws[r - 1].value.kind))
        && (!crashed ==>
              && currentProjectile == AsProjectile(container.Shielded(draws[r]))
              && shieldHandler.tempShields == container.shieldsOf(draws[r].value.kind)
              && (container.Shielded(draws[r]).value.kind != previous.kind || UniqueTypeLeft(container.atomMap)))
    {
      var previousProjectile := currentProjectile;
      var tmpShields := shieldHandler.GetTempShields();
      ghost var draws := container.atomDraws;
      RemainingStep(draws, 0);
      var next := NextAtom();
      crashed := false;
      if next.Some? {
        if previousProjectile.value.AtomProjectile? {
          var previousKind := previousProjectile.value.atom.kind;
          container.IncreaseAtoms(GetValue(previousKind), 1, tmpShields);
          ghost var n := |old(container.returnedAtoms)|;
          ghost var r := 0;
          var unique := UniqueTypeAvailable();
          while next.Some? && previousKind == next.value.kind && !unique
            invariant 0 <= r <= |draws|
            invariant |container.returnedAtoms| == n + 1 + r
            invariant container.returnedAtoms[..n + 1]
                      == old(container.returnedAtoms) + [AtomReturn(GetValue(previousKind), 1, tmpShields)]
            invariant forall j :: 0 <= j < r ==>
                        && draws[j].Some? && container.Shielded(draws[j]).value.kind == previousKind
                        && container.returnedAtoms[n + 1 + j]
                           == AtomReturn(GetValue(previousKind), 1, container.shieldsOf(draws[j].value.kind))
            invariant container.atomDraws == Remaining(draws, r + 1)
            invariant next.Some? ==>
                        && r < |draws| && next == container.Shielded(draws[r])
                        && shieldHandler.tempShields == container.shieldsOf(draws[r].value.kind)
            invariant next.None? ==>
                        && 0 < r && (r == |draws| || draws[r].None?)
                        && shieldHandler.tempShields == container.shieldsOf(draws[r - 1].value.kind)
            invariant container.returnedPowerups == old(container.returnedPowerups)
            invariant currentProjectile == old(currentProjectile)
            invariant unique <==> UniqueTypeLeft(container.atomMap)
            invariant r > 0 ==> !UniqueTypeLeft(container.atomMap)
            decreases |container.atomDraws| + (if next.Some? then 1 else 0)
          {
            container.IncreaseAtoms(GetValue(next.value.kind), 1, shieldHandler.GetTempShields());
            RemainingStep(draws, r + 1);
            next := NextAtom();
            r := r + 1;
            unique := UniqueTypeAvailable();
          }
          if next.None? {
            crashed := true;
            return;
          }
          SetCurrentProjectile(AsProjectile(next));
        } else {
          container.AddPowerUp(previousProjectile.value.kind);
        }
        SetCurrentProjectile(AsProjectile(next));
      }
    }

    /** Tilts one step (left is negative) unless the new angle would be illegal. */
    method Rotate(direction: RotationDirection) returns (ok: bool)
      modifies hitbox`rotationDegree
      ensures var delta := if direction == RotateLeft then -config.rotationStep else config.rotationStep;
        && ok == CheckLegalMovement(config, coordinates, old(hitbox.rotationDegree) + delta)
        && hitbox.rotationDegree == if ok then old(hitbox.rotationDegree) + delta else old(hitbox.rotationDegree)
      ensures ok ==> -MaxAngle <= hitbox.rotationDegree <= MaxAngle
    {
      var rotationDirection := if direction == RotateLeft then -1.0 else 1.0;
      if !CheckLegalMovement(config, coordinates, GetAngle() + config.rotationStep * rotationDirection) {
        return false;
      }
      hitbox.Rotate(config.rotationStep * rotationDirection);
      return true;
    }

    method SetMovementState(state: MovementState)
      modifies this`movementState
      ensures movementState == state
    {
      movementState := state;
    }

    /**
     * One step sideways in the movement state's direction, refused when the
     * gun would leave the panel (or the angle at the new place is illegal).
     */
    method Move()
      modifies this`coordinates
      ensures movementState == Still ==> coordinates == old(coordinates)
      ensures movementState != Still ==>
        var step := if movementState == MovingRight then config.shooterSpeed else -config.shooterSpeed;
        var moved := Coords(old(coordinates).x + step, old(coordinates).y);
        coordinates == if CheckLegalMovement(config, moved, hitbox.rotationDegree) then moved else old(coordinates)
      ensures coordinates != old(coordinates) ==>
        && 0.0 <= coordinates.x - GunWidth(config) / 2.0
        && coordinates.x + GunWidth(config) / 2.0 <= config.panelWidth
        && coordinates.y == old(coordinates).y
    {
      if movementState == Still {
        return;
      }
      var direction := if movementState == MovingRight then 1.0 else -1.0;
      var newCoords := Coords(coordinates.x + direction * config.shooterSpeed, coordinates.y);
      if !CheckLegalMovement(config, newCoords, GetAngle()) {
        return;
      }
      coordinates := newCoords;
    }

    /**
     * Whether the temporary shields of the load are non-empty while an atom is
     * loaded: the drawn kind's tuple set by `nextAtom` plus the shields applied
     * since. Never for a powerup.
     */
    function IsAtomShielded(): (r: bool)
      requires currentProjectile.Some?
      reads this, shieldHandler
      ensures r <==> currentProjectile.value.AtomProjectile? && exists k :: shieldHandler.tempShields.Count(k) > 0
    {
      IsNotEmptyMeansSomeCount(shieldHandler.tempShields);
      if ProjectileIsAtom() then shieldHandler.GetTempShields().IsNotEmpty() else false
    }
  }
}
