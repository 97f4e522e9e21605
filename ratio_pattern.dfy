/**
 * The composite pattern that cycles through child patterns by vertical
 * travel (model/game_physics/path_patterns/RatioPattern.java).
 */
module RatioPatterns {
  import opened Geometry
  import opened PathPatterns

  /** The index after `idx` in a list of `n` children, wrapping to 0 after the last. */
  function NextIndex(idx: int, n: int): (r: int)
    requires 0 <= idx < n
    ensures 0 <= r < n
    ensures r == if idx == n - 1 then 0 else idx + 1
  {
    (idx + 1) % n
  }

  /** The index after `k` switches starting from `idx`. */
  function IndexAfter(idx: int, n: int, k: nat): (r: int)
    requires 0 <= idx < n
    ensures 0 <= r < n
  {
    if k == 0 then idx else NextIndex(IndexAfter(idx, n, k - 1), n)
  }

  /** A positive multiple of `n` is at least `n`. */
  lemma {:induction false} MultipleAtLeast(d: int, n: int)
    requires d >= 1 && n > 0
    ensures d * n >= n
  {
    if d > 1 {
      MultipleAtLeast(d - 1, n);
      assert d * n == (d - 1) * n + n;
    }
  }

  /** Euclidean division is unique. */
  lemma DivModUnique(a: int, n: int, q: int, r: int)
    requires n > 0 && 0 <= r < n && a == q * n + r
    ensures a / n == q && a % n == r
  {
    var q', r' := a / n, a % n;
    assert a == q' * n + r';
    assert (q - q') * n == q * n - q' * n;
    if q > q' {
      MultipleAtLeast(q - q', n);
    } else if q < q' {
      assert (q' - q) * n == q' * n - q * n;
      MultipleAtLeast(q' - q, n);
    }
  }

  /** One more step of the counter moves its remainder by one, wrapping at `n`. */
  lemma ModSucc(a: int, n: int)
    requires a >= 0 && n > 0
    ensures (a + 1) % n == if a % n == n - 1 then 0 else a % n + 1
  {
    var q, r := a / n, a % n;
    if r == n - 1 {
      DivModUnique(a + 1, n, q + 1, 0);
    } else {
      DivModUnique(a + 1, n, q, r + 1);
    }
  }

  /** Switching is a rotation of the indices: after `k` switches the index is `(idx + k) mod n`. */
  lemma {:induction false} IndexAfterIsModular(idx: int, n: int, k: nat)
    requires 0 <= idx < n
    ensures IndexAfter(idx, n, k) == (idx + k) % n
  {
    if k == 0 {
      DivModUnique(idx, n, 0, idx);
    } else {
      IndexAfterIsModular(idx, n, k - 1);
      ModSucc(idx + k - 1, n);
    }
  }

  /** There is no terminal state: after `n` switches the first child is active again. */
  lemma CyclesWithPeriodN(idx: int, n: int)
    requires 0 <= idx < n
    ensures IndexAfter(idx, n, n) == idx
  {
    IndexAfterIsModular(idx, n, n);
    DivModUnique(idx + n, n, 1, idx);
  }

  /** The switching test of `nextPosition`. */
  predicate RatioReached(currentY: real, lastY: real, ratio: real, panelHeight: int)
  {
    currentY - lastY >= ratio * panelHeight as real
  }

  class RatioPattern {
    var currentCoords: Coords
    const patterns: seq<PathPattern>
    const ratios: seq<real>
    var currentPattern: PathPattern
    var currentPatternIdx: int
    var lastYCoords: real
    /** The height of the game panel, read from the configuration. */
    const panelHeight: int
    /** The children this pattern may touch: the listed ones and the active one. */
    ghost var Repr: set<PathPattern>

    ghost predicate Valid()
      reads this
    {
      && |patterns| > 0
      && 0 <= currentPatternIdx < |patterns|
      && Repr == {currentPattern} + set p | p in patterns
    }

    /** The composite's position and the active child's agree. */
    ghost predicate Synced()
      reads this, currentPattern
    {
      currentPattern.currentCoords == currentCoords
    }

    /** The current position of a fresh pattern is unset in the source; it starts at the origin here. */
    constructor (patterns: seq<PathPattern>, ratios: seq<real>, panelHeight: int)
      requires |patterns| > 0
      ensures Valid()
      ensures this.patterns == patterns && this.ratios == ratios && this.panelHeight == panelHeight
      ensures currentPattern == patterns[0] && currentPatternIdx == 0 && lastYCoords == 0.0
    {
      this.patterns := patterns;
      this.ratios := ratios;
      this.panelHeight := panelHeight;
      currentCoords := Coords(0.0, 0.0);
      lastYCoords := 0.0;
      currentPatternIdx := 0;
      currentPattern := patterns[0];
      Repr := {patterns[0]} + set p | p in patterns;
    }

    /** Sets the position of the composite and of its active child. */
    method SetCurrentCoords(c: Coords)
      modifies this`currentCoords, currentPattern`currentCoords
      ensures currentCoords == c && currentPattern.currentCoords == c
    {
      currentCoords := c;
      currentPattern.SetCurrentCoords(c);
    }

    /**
     * One step. When the travel since the last switch reaches the active
     * child's share of the panel height, the next child (cyclically) becomes
     * active, the travel baseline moves to the current y, and the new child
     * starts from the composite's current position. Then the active child
     * advances, and the composite takes its position.
     */
    method NextPosition() returns (c: Coords)
      requires Valid()
      requires currentPatternIdx < |ratios|
      modifies this, Repr
      ensures Valid() && Repr <= old(Repr)
      ensures var switched := RatioReached(old(currentCoords.y), old(lastYCoords),
                                           ratios[old(currentPatternIdx)], panelHeight);
        if switched then
          && currentPatternIdx == NextIndex(old(currentPatternIdx), |patterns|)
          && lastYCoords == old(currentCoords.y)
          && currentPattern == patterns[currentPatternIdx]
          && c == currentPattern.advance(old(currentCoords), currentPattern.direction)
        else
          && currentPatternIdx == old(currentPatternIdx)
          && lastYCoords == old(lastYCoords)
          && currentPattern == old(currentPattern)
          && c == currentPattern.advance(old(currentPattern.currentCoords), currentPattern.direction)
      ensures currentCoords == c && Synced()
      ensures forall p :: p in old(Repr) ==> p.direction == old(p.direction)
      ensures forall p :: p in old(Repr) && p != currentPattern ==> p.currentCoords == old(p.currentCoords)
    {
      if RatioReached(currentCoords.y, lastYCoords, ratios[currentPatternIdx], panelHeight) {
        var tmpCoords := currentCoords;
        lastYCoords := tmpCoords.y;
        currentPatternIdx := currentPatternIdx + 1;
        currentPatternIdx := currentPatternIdx % |patterns|;
        currentPattern := patterns[currentPatternIdx];
        Repr := {currentPattern} + set p | p in patterns;
        SetCurrentCoords(tmpCoords);
      }
      var next := currentPattern.NextPosition();
      SetCurrentCoords(next);
      c := currentCoords;
    }

    /**
     * A bounce: the active child is replaced by a reflected clone; the listed
     * children are untouched. When cloning fails nothing changes.
     */
    method Reflect(n: Vector)
      requires Valid()
      modifies this`currentPattern, this`Repr
      ensures Valid()
      ensures !old(currentPattern).cloneable ==> currentPattern == old(currentPattern)
      ensures old(currentPattern).cloneable ==>
        && fresh(currentPattern)
        && currentPattern.direction == old(currentPattern).bounce(old(currentPattern.direction), n)
        && currentPattern.currentCoords == old(currentPattern.currentCoords)
        && currentPattern.advance == old(currentPattern).advance
        && currentPattern.bounce == old(currentPattern).bounce
    {
      var copy := currentPattern.Clone();
      if copy != null {
        currentPattern := copy;
        currentPattern.Reflect(n);
        Repr := {currentPattern} + set p | p in patterns;
      }
    }
  }
}
