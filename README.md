# KUVid-19 game rules in Dafny

This project models the rule logic of the KUVid-19 arcade shooter, leaving out rendering, threads and persistence. Entities move along programmable path patterns. Hitboxes test containment by sampling boundary points. The shooter loads, shoots and swaps projectiles drawn from a container. Shields are stacked onto the loaded atom. Blockers explode when they reach the boundary.

Modules, one per source component:

- `Geometry` (`geometry.dfy`): positions. `Coordinates` is the mutable Java object. `Coords` is the position value that the rest of the model passes around. `TruncateToInt` is Java's `(int)` cast.
- `EntityTypes` (`entity_type.dfy`): the four elemental kinds, their values and the `forValue` search.
- `Hitboxes` (`hitbox.dfy`): accumulated rotation and the list form of `isInside`. The concrete shapes are functions given to the hitbox; they take the current rotation.
- `PathPatterns` (`path_pattern.dfy`): an abstract leaf pattern. It has a current position, a direction, a motion rule, a reflection rule and a flag saying whether it can be cloned.
- `RatioPatterns` (`ratio_pattern.dfy`): the composite pattern's switching state machine, and the lemma that the child index cycles.
- `Entities` (`autonomous_entity.dfy`): `AutonomousEntity`, which keeps its path pattern in sync with its position. `CollisionRunnable` records the boundary callbacks it receives.
- `Blockers` (`blocker.dfy`): the three containment queries around one centre, the explosion damage and the exploded flag.
- `Shields` and `ShieldedAtomFactory` (`shields.dfy`, `shielded_atom_factory.dfy`): an atom is its kind plus a stack of shield layers, innermost first. The factory stacks ETA, then LOTA, then THETA, then ZETA.
- `ProjectileContainers` (`projectile_container.dfy`): the projectile value and the container, modelled as an abstract supplier. The outcomes of its next draws are given as sequences, and everything handed back to it is logged.
- `Shooting` (`shooter.dfy`): `Shooter` and `ShieldHandler`. They refer to each other, so they share a module.
- `Collisions` (`collisions.dfy`): the `acceptCollision` / `collideWith` forwarding.

Two behaviours worth knowing:
- `reachBoundary` sets `exploded` on every call, and `setExploded` can clear it.
- `switchAtom` does not empty the temporary shields; `nextAtom` overwrites them with the drawn kind's tuple. Only shooting, and taking a powerup in place of an atom, empty them.

## Model

| member | source | states |
|---|---|---|
| `Geometry.TruncateToInt` | src/main/java/services/utils/Coordinates.java:53-55 | the `(int)` cast rounds toward zero (within one unit, on the side of zero) and saturates at the `int` bounds |
| `Geometry.TruncateRoundsTowardZero` | src/main/java/services/utils/Coordinates.java:54 | negative components round up toward zero (-2.75 gives -2), unlike a floor |
| `Geometry.Coordinates.GetPoint` | src/main/java/services/utils/Coordinates.java:53-55 | the point is the truncation of each component |
| `Geometry.Coordinates.constructor` | src/main/java/services/utils/Coordinates.java:11-14 | a new `Coordinates(x, y)` reports `getX() == x` and `getY() == y` |
| `Geometry.Coordinates.Origin` | src/main/java/services/utils/Coordinates.java:16-18 | the no-argument constructor leaves both components at 0 |
| `Geometry.Coordinates.GetX` | src/main/java/services/utils/Coordinates.java:31-33 | the X component of the position value |
| `Geometry.Coordinates.GetY` | src/main/java/services/utils/Coordinates.java:35-37 | the Y component of the position value |
| `Geometry.Coordinates.SetX` | src/main/java/services/utils/Coordinates.java:39-41 | X becomes the argument; Y is unchanged |
| `Geometry.Coordinates.SetY` | src/main/java/services/utils/Coordinates.java:43-45 | Y becomes the argument; X is unchanged |
| `Geometry.Coordinates.Equals` | src/main/java/services/utils/Coordinates.java:24-29 | two Coordinates are equal iff they denote the same position value |
| `Geometry.EqualsIsValueEquality` | src/main/java/services/utils/Coordinates.java:24-29 | two Coordinates are equal iff both X and Y are equal |
| `Geometry.EqualsIsEquivalence` | src/main/java/services/utils/Coordinates.java:24-29 | equality is reflexive, symmetric and transitive |
| `EntityTypes.GetValue` | src/main/java/model/game_entities/enums/EntityType.java:4-7 | each constant's value is its position in declaration order, so the values are 0..3 and distinct |
| `EntityTypes.ConstantValues` | src/main/java/model/game_entities/enums/EntityType.java:4-7 | ALPHA, BETA, GAMMA, SIGMA have values 0, 1, 2, 3 |
| `EntityTypes.FirstWithValue` | src/main/java/model/game_entities/enums/EntityType.java:29-30 | the loop finds a constant iff one has the value, and what it finds has that value |
| `EntityTypes.ForValue` | src/main/java/model/game_entities/enums/EntityType.java:28-32 | a value in 0..3 gives the constant with that value; any other value gives ALPHA |
| `EntityTypes.ForValueInvertsGetValue` | src/main/java/model/game_entities/enums/EntityType.java:28-32 | `forValue(t.getValue()) == t` for every t |
| `EntityTypes.ForValueOutOfRange` | src/main/java/model/game_entities/enums/EntityType.java:31 | values outside 0..3 give ALPHA |
| `EntityTypes.StringValues` | src/main/java/model/game_entities/enums/EntityType.java:24-26 | one name per constant (4 names), all distinct |
| `Hitboxes.Hitbox.constructor` | src/main/java/model/game_physics/hitbox/Hitbox.java:18 | a new hitbox has rotation 0 |
| `Hitboxes.Hitbox.Rotate` | src/main/java/model/game_physics/hitbox/Hitbox.java:25-27 | the rotation grows by the angle, and nothing else changes (the frame is the rotation field alone) |
| `Hitboxes.Hitbox.GetRotationDegree` | src/main/java/model/game_physics/hitbox/Hitbox.java:29-31 | the accumulated rotation: 0 at construction plus every angle rotated by since |
| `Hitboxes.RotateTwice` | src/main/java/model/game_physics/hitbox/Hitbox.java:25-27 | `rotate(a)` then `rotate(b)` adds `a + b`, so rotation is additive and cumulative |
| `Hitboxes.Hitbox.IsInsideAny` | src/main/java/model/game_physics/hitbox/Hitbox.java:57-64 | the early-return scan is true iff some point of the list passes the single-point test; an empty list gives false |
| `Hitboxes.IsInsideAnyConcat` | src/main/java/model/game_physics/hitbox/Hitbox.java:57-64 | the test over a concatenated list is the OR of the tests over its parts |
| `RatioPatterns.NextIndex` | src/main/java/model/game_physics/path_patterns/RatioPattern.java:73-74 | the next index stays in `[0, n)`: it is `idx + 1`, or 0 after the last child |
| `RatioPatterns.IndexAfterIsModular` | src/main/java/model/game_physics/path_patterns/RatioPattern.java:73-74 | after k switches from index i, the active index is `(i + k) mod n` |
| `RatioPatterns.CyclesWithPeriodN` | src/main/java/model/game_physics/path_patterns/RatioPattern.java:73-74 | after n switches the starting child is active again; there is no terminal state |
| `RatioPatterns.RatioPattern.constructor` | src/main/java/model/game_physics/path_patterns/RatioPattern.java:35-41 | the active child is `patterns[0]`, the index is 0 and `lastYCoords` is 0 |
| `RatioPatterns.RatioPattern.SetCurrentCoords` | src/main/java/model/game_physics/path_patterns/RatioPattern.java:59-62 | the composite and its active child both take the position |
| `RatioPatterns.RatioPattern.NextPosition` | src/main/java/model/game_physics/path_patterns/RatioPattern.java:65-80 | if `y - lastY >= ratios[idx] * panelHeight`: the index advances cyclically, `lastY` becomes the pre-step y, `patterns[idx]` becomes active and steps from the composite's pre-switch position. Otherwise index, `lastY` and child are unchanged and the child steps from its own position. Either way the result is the child's step, the composite and the child both hold it, and no other child's position or any direction changes |
| `RatioPatterns.RatioPattern.Reflect` | src/main/java/model/game_physics/path_patterns/RatioPattern.java:87-94 | a cloneable active child is replaced by a fresh clone at the same position with the reflected direction. The listed children are untouched. If the child cannot be cloned, nothing changes |
| `Entities.AutonomousEntity.constructor` | src/main/java/model/game_entities/AutonomousEntity.java:18-23 | the fields take the arguments and the pattern's position equals the entity's |
| `Entities.AutonomousEntity.SetEntityType` | src/main/java/model/game_entities/AutonomousEntity.java:27-29 | `getEntityType()` then returns the new type |
| `Entities.AutonomousEntity.GetEntityType` | src/main/java/model/game_entities/AutonomousEntity.java:31-33 | the kind last set by the constructor or `setEntityType` |
| `Entities.AutonomousEntity.SetPathPattern` | src/main/java/model/game_entities/AutonomousEntity.java:35-37 | only the pattern field is replaced; the new pattern's position is not resynchronised |
| `Entities.AutonomousEntity.SetCoordinates` | src/main/java/model/game_entities/AutonomousEntity.java:44-48 | the entity and its pattern both hold the new position |
| `Entities.AutonomousEntity.Move` | src/main/java/model/game_entities/AutonomousEntity.java:53-55 | the entity moves exactly to the pattern's next position, and the pattern stays in sync |
| `Entities.MoveTwice` | src/main/java/model/game_entities/AutonomousEntity.java:53-55 | two moves apply the pattern's step twice, and the entity stays in sync |
| `Entities.AutonomousEntity.ReachBoundary` | src/main/java/model/game_entities/AutonomousEntity.java:57-59 | exactly one call, to the default boundary behaviour, with the entity itself |
| `Blockers.Blocker.constructor` | src/main/java/model/game_entities/Blocker.java:29-45 | a new blocker is synced with its pattern, its radii are unit length times the configured factors, and it is not exploded |
| `Blockers.Blocker.IsCollidedWithOriginalHitbox` | src/main/java/model/game_entities/Blocker.java:72-74 | true iff some boundary point of the other entity is inside the base hitbox centred at the blocker |
| `Blockers.Blocker.IsCollidedWithBlockingHitbox` | src/main/java/model/game_entities/Blocker.java:76-78 | the same test against the blocking hitbox, around the same centre |
| `Blockers.Blocker.IsCollidedWithExplodingHitbox` | src/main/java/model/game_entities/Blocker.java:80-82 | the same test against the exploding hitbox, around the same centre |
| `Blockers.Blocker.IsCollidedWith` | src/main/java/model/game_entities/Blocker.java:68-70 | a blocker's collision test is its exploding-hitbox test |
| `Blockers.ExplosionDamage` | src/main/java/model/game_entities/Blocker.java:90-93 | damage times distance is the game width; at distance 0 there is no finite damage |
| `Blockers.ExplosionDamageExamples` | src/main/java/model/game_entities/Blocker.java:90-93 | W = 1000 gives damage 100 at distance 10 and 1 at distance 1000 |
| `Blockers.ExplosionDamageAntitone` | src/main/java/model/game_entities/Blocker.java:90-93 | damage never grows with distance |
| `Blockers.ExplosionDamageUnbounded` | src/main/java/model/game_entities/Blocker.java:90-93 | damage exceeds any bound close enough to the blocker (there is no clamp) |
| `Blockers.Blocker.ReachBoundary` | src/main/java/model/game_entities/Blocker.java:96-100 | the default behaviour is called, then the blocker behaviour, both with the blocker. The default behaviour sees the old flag and the blocker behaviour sees it set; the blocker ends exploded |
| `Blockers.Blocker.IsExploded` | src/main/java/model/game_entities/Blocker.java:107-109 | the exploded flag: false at construction, true after a boundary hit, then whatever `setExploded` last gave |
| `Blockers.Blocker.SetExploded` | src/main/java/model/game_entities/Blocker.java:111-113 | `isExploded()` then returns the argument |
| `Shields.ShieldTuple.Add` | src/main/java/model/game_running/ShieldHandler.java:34 | one more shield of the kind; the other counts are unchanged |
| `Shields.ShieldTuple.Decrease` | src/main/java/model/game_running/ShieldHandler.java:33 | one fewer shield of the kind, the other counts unchanged; `Add` undoes it |
| `Shields.IsNotEmptyMeansSomeCount` | src/main/java/model/game_entities/Shooter.java:317 | a tuple is non-empty iff some kind has a positive count, i.e. iff it is not the reset tuple |
| `Shields.Wrap` | src/main/java/model/game_running/ShieldHandler.java:43-55 | exactly one new outermost layer of the kind; the atom inside is unchanged |
| `ShieldedAtomFactory.ApplyShields` | src/main/java/model/game_entities/shields/ShieldedAtomFactory.java:8-19 | the result is the given atom (kept innermost) with the tuple's layers stacked on it, ETA first and ZETA last |
| `ShieldedAtomFactory.LayersForLength` | src/main/java/model/game_entities/shields/ShieldedAtomFactory.java:10-17 | the number of layers added is the sum of the four counts |
| `ShieldedAtomFactory.LayersForCounts` | src/main/java/model/game_entities/shields/ShieldedAtomFactory.java:10-17 | for each kind k, the added stack holds exactly `count(k)` k-layers |
| `ShieldedAtomFactory.LayersForOrdered` | src/main/java/model/game_entities/shields/ShieldedAtomFactory.java:10-17 | the layers are in stacking order, ETA innermost, then LOTA, then THETA, ZETA outermost |
| `ShieldedAtomFactory.EmptyTupleAddsNothing` | src/main/java/model/game_entities/shields/ShieldedAtomFactory.java:9-18 | an all-zero tuple returns the input atom unchanged |
| `Shooting.CheckLegalAngle` | src/main/java/model/game_entities/Shooter.java:278-281 | legal iff the angle lies in [-80, 80] and the rotated corner is in view |
| `Shooting.CheckLegalMovement` | src/main/java/model/game_entities/Shooter.java:242-249 | legal iff both gun edges `x ± gunWidth/2` lie in `[0, panelWidth]` and the angle is legal there |
| `Shooting.ZeroCountComplement` | src/main/java/model/game_entities/Shooter.java:191-199 | zero entries plus kinds with atoms left add up to the array length |
| `Shooting.UniqueTypeLeftMeansOneKind` | src/main/java/model/game_entities/Shooter.java:191-199 | "all but one entry are zero" means exactly one kind has atoms left |
| `Shooting.ShieldHandler.constructor` | src/main/java/model/game_running/ShieldHandler.java:20-29 | the budget comes from the configuration and the temporary shields are all zero |
| `Shooting.ShieldHandler.ApplyShield` | src/main/java/model/game_running/ShieldHandler.java:31-41 | with budget for the kind and an atom loaded: the budget drops by one, the temporary count rises by one, and the loaded projectile becomes the old atom inside one new outermost layer. Otherwise nothing changes. The shooter's other fields never change |
| `Shooting.ShieldHandler.EmptyTempShields` | src/main/java/model/game_running/ShieldHandler.java:57-59 | every temporary count becomes 0; the budget is not touched |
| `Shooting.ShieldHandler.GetTempShields` | src/main/java/model/game_running/ShieldHandler.java:61-63 | the handler's temporary tuple: the drawn kind's tuple plus the shields applied to this load |
| `Shooting.ShieldHandler.SetTempShields` | src/main/java/model/game_running/ShieldHandler.java:65-67 | `getTempShields()` then returns the given tuple |
| `Shooting.ShieldHandler.SetShooter` | src/main/java/model/game_running/ShieldHandler.java:79-81 | the handler then refers to the given shooter |
| `Shooting.Shooter.constructor` | src/main/java/model/game_entities/Shooter.java:36-56 | the shooter starts centred at the bottom and still, with a fresh handler that points back to it and holds the configured budget, and with the next atom loaded |
| `Shooting.Shooter.GetCurrentProjectile` | src/main/java/model/game_entities/Shooter.java:138-140 | the loaded projectile, or null |
| `Shooting.Shooter.SetCurrentProjectile` | src/main/java/model/game_entities/Shooter.java:142-144 | the given projectile (possibly null) becomes the loaded one; nothing else changes |
| `Shooting.Shooter.GetAtomProjectile` | src/main/java/model/game_entities/Shooter.java:295-297 | the cast to an atom: when an atom is loaded, the result is exactly that atom |
| `Shooting.Shooter.GetAngle` | src/main/java/model/game_entities/Shooter.java:202-204 | the shooter's tilt is its hitbox's accumulated rotation |
| `Shooting.Shooter.ProjectileIsAtom` | src/main/java/model/game_entities/Shooter.java:287-289 | true iff the loaded projectile is an atom (of some kind and shield stack) |
| `Shooting.Shooter.NextAtom` | src/main/java/model/game_entities/Shooter.java:129-136 | one draw: if it yields an atom, the temporary shields become that kind's tuple and the atom is shielded with them; otherwise null and no shield change |
| `Shooting.Shooter.Reload` | src/main/java/model/game_entities/Shooter.java:117-122 | returns the previously loaded projectile and loads what `nextAtom` yields |
| `Shooting.Shooter.Shoot` | src/main/java/model/game_entities/Shooter.java:71-78 | with nothing loaded: returns null and changes nothing. Otherwise it returns the loaded projectile, empties the temporary shields and reloads |
| `Shooting.Shooter.SetPowerup` | src/main/java/model/game_entities/Shooter.java:150-161 | with no powerup found nothing changes. Otherwise the powerup is loaded. A previous atom goes back to the container with the temporary shields, which are then emptied; a previous powerup goes back as a powerup |
| `Shooting.Shooter.UniqueTypeAvailable` | src/main/java/model/game_entities/Shooter.java:191-199 | the counting loop yields true iff exactly `length - 1` entries of the atom-count array are zero |
| `Shooting.Shooter.SwitchAtom` | src/main/java/model/game_entities/Shooter.java:166-189 | with no atom drawn, only the draw is consumed. For a powerup: it goes back, and the drawn atom is loaded with its kind's tuple as the temporary shields. For an atom: it goes back with the old temporary shields. With only one kind left there is no redraw (`r = 0`). Otherwise each of the `r` redrawn atoms of the same kind then goes back with its own kind's tuple, and exactly `r + 1` draws are consumed. The loop crashes iff the last draw is empty, and then the projectile is kept. Otherwise the last draw is loaded, its kind's tuple becomes the temporary shields, and it is of another kind unless only one kind is left |
| `Shooting.Shooter.Rotate` | src/main/java/model/game_entities/Shooter.java:206-212 | the rotation changes by exactly `-step` (left) or `+step` (otherwise) when that is legal, and does not change otherwise; a granted rotation stays within [-80, 80] |
| `Shooting.Shooter.SetMovementState` | src/main/java/model/game_entities/Shooter.java:214-216 | the movement state becomes the argument |
| `Shooting.Shooter.Move` | src/main/java/model/game_entities/Shooter.java:219-233 | when still, the position is unchanged. Otherwise x shifts by `±shooterSpeed` with y unchanged, or nothing changes when the gun would leave `[0, panelWidth]` |
| `Shooting.Shooter.IsAtomShielded` | src/main/java/model/game_entities/Shooter.java:315-319 | true iff an atom is loaded and some temporary shield count is positive; for a powerup always false |
| `Collisions.CollideWith` | src/main/java/model/game_entities/Blocker.java:132-134 | `collideWith` hands the visitor the receiver first and the argument second |
| `Collisions.AcceptCollision` | src/main/java/model/game_entities/Blocker.java:182-184 | `acceptCollision(v, e)` ends in `v.handleCollision(e, this)` |
| `Collisions.DispatchSeesBothClasses` | src/main/java/model/game_entities/Shooter.java:387-389 | the handler reached knows both concrete classes, and accepting from the other side reaches the same pair in swapped order |

## Left out

- Rendering, the drawing thread, pause/resume, key input, persistence (Jackson annotations, `saveState`) and logging.
- The listener callbacks (`onShot`, `onMoved`, `onStopped`) and the statistics update in `applyShield`.
- Floating point: positions, angles and ratios are Dafny reals. NaN and infinities do not occur. In particular, `Coordinates.equals` is an equivalence here, whereas on doubles NaN is not equal to itself.
- `Coordinates.rotate`, `Vector.rotateVector`, `MathUtils` and `getShootingCoords`. These are trig and int casts.
- `Shooting.CheckLegalAngle`: the rotated-corner test is an abstract predicate of the configuration. Only the ±80 degree bounds are modelled.
- `Blockers.ExplosionDamage`: the distance is a parameter, because `MathUtils.distanceBetween` is not part of this model. At distance 0 the source yields an infinite double, which is `None` here.
- `Geometry.Coordinates.Equals`: position objects are compared by value only. The aliasing of one `Coordinates` object between an entity and its path pattern is not modelled; the rest of the model passes positions as values.
- PathPattern.java and the concrete patterns are not part of this model. A leaf pattern is abstract, and its motion and reflection rules are given to it.
- A `RatioPattern` cannot stand where a `PathPattern` is expected, so composites do not nest and an entity's pattern is always a leaf. This is because Dafny classes have no subclassing here.
- `RatioPatterns.RatioPattern.constructor`: requires a non-empty pattern list. The source throws an index exception on an empty one, and that exception path is not modelled.
- `RatioPatterns.RatioPattern.NextPosition`: requires the active index to have a ratio. The source throws an index exception when the ratio list is shorter, and that path is not modelled. `Valid()` does not tie the two lengths together, so a caller must show the bound before each step.
- `RatioPatterns.RatioPattern.constructor`: the source leaves a new pattern's position unset (null until `setCurrentCoords`); here it starts at the origin.
- The Entity base class is not part of this model. A blocker contains its AutonomousEntity part instead of extending it. A collision query receives the other entity's hitbox and centre.
- The projectile container's randomness and contents (`getRandomAtom`, `getPowerUp`, `increaseAtoms`, `addPowerUp`, `shieldAtom`, `getShields`, `getAtomMap`). Draw outcomes are given in advance, and what goes back is logged, not added to a stock.
- `Shooting.Shooter.SwitchAtom`: the retry loop is bounded by the finite sequence of given draws. `crashed` stands for the null dereference the source would hit if a redraw came up empty. The real container presumably never returns null right after an atom was put back, which also means the model's bound is not a proof that the random loop terminates.
- Where the source dereferences a possibly-null projectile or shooter (it has no null checks), a `requires` clause states the condition under which it does so.
- `adjustProjectilePosition` (the fired projectile's rotation, path pattern and start position) and `setVelocity`. The projectile is modelled as a value: its kind plus its shield layers.
- `Shooting.ShieldHandler.SetTempShields`: the source stores the caller's tuple object by reference. `nextAtom` passes the container's per-kind tuple from `getShields`, so the later `addShield` in `applyShield` and `reset` in `emptyTempShields` mutate the container's own tuple. The model stores a value copy, so the container's per-kind tuples never change through the handler. The model also does not capture that sharing between the handler and the container.
- ShieldTuple.java and the shield decorator classes are not part of this model: the tuple is a value with the operations the core uses. Consuming a shield on a hit lives in the decorators and is not modelled.
- The collision handlers in `CollisionVisitor` and the collision outcomes are not part of this model; only the forwarding is. What `CollisionRunnable`'s boundary behaviours do is not modelled either; the calls are recorded.
- The rectangular and circular hitboxes are not part of this model. Their containment tests and boundary samples are functions given to a hitbox. The constant `NumberOfPoints` is 8, but it is not tied to the length of the sample.
- The `GameConstants` values (movement and rotation codes, the rotation step, the shooter's size) are not part of this model. The codes are datatypes, and the sizes and steps are configuration fields.
