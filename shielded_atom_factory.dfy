/** Builds a shielded atom from a shield tuple (model/game_entities/shields/ShieldedAtomFactory.java). */
module ShieldedAtomFactory {
  import opened Shields

  /** `n` copies of `k`. */
  function Repeat(k: ShieldType, n: nat): (s: seq<ShieldType>)
    ensures |s| == n && forall i :: 0 <= i < n ==> s[i] == k
  {
    seq(n, _ => k)
  }

  /** The layers the factory adds for a tuple: all ETA, then LOTA, then THETA, then ZETA. */
  function LayersFor(t: ShieldTuple): seq<ShieldType>
  {
    Repeat(Eta, t.eta) + Repeat(Lota, t.lota) + Repeat(Theta, t.theta) + Repeat(Zeta, t.zeta)
  }

  /**
   * `applyShields`: four loops, each wrapping the atom once per shield of
   * its kind. The given atom stays innermost.
   */
  method ApplyShields(shieldTuple: ShieldTuple, nonShielded: Atom) returns (atom: Atom)
    ensures atom.kind == nonShielded.kind
    ensures atom.layers == nonShielded.layers + LayersFor(shieldTuple)
  {
    atom := nonShielded;
    for i := 0 to shieldTuple.Count(Eta)
      invariant atom == Atom(nonShielded.kind, nonShielded.layers + Repeat(Eta, i))
    {
      atom := Wrap(atom, Eta);
    }
    ghost var after := atom.layers;
    for i := 0 to shieldTuple.Count(Lota)
      invariant atom == Atom(nonShielded.kind, after + Repeat(Lota, i))
    {
      atom := Wrap(atom, Lota);
    }
    after := atom.layers;
    for i := 0 to shieldTuple.Count(Theta)
      invariant atom == Atom(nonShielded.kind, after + Repeat(Theta, i))
    {
      atom := Wrap(atom, Theta);
    }
    after := atom.layers;
    for i := 0 to shieldTuple.Count(Zeta)
      invariant atom == Atom(nonShielded.kind, after + Repeat(Zeta, i))
    {
      atom := Wrap(atom, Zeta);
    }
    assert atom.layers == nonShielded.layers + LayersFor(shieldTuple);
  }

  /** As many layers are added as the tuple counts in all. */
  lemma LayersForLength(t: ShieldTuple)
    ensures |LayersFor(t)| == t.Total()
  {
  }

  /** Each kind appears exactly as often as the tuple counts it. */
  lemma LayersForCounts(t: ShieldTuple)
    ensures forall k :: multiset(LayersFor(t))[k] == t.Count(k)
  {
    forall k: ShieldType, n: nat
      ensures multiset(Repeat(k, n))[k] == n
      ensures forall j :: j != k ==> multiset(Repeat(k, n))[j] == 0
    {
      RepeatMultiset(k, n);
    }
  }

  lemma {:induction false} RepeatMultiset(k: ShieldType, n: nat)
    ensures multiset(Repeat(k, n)) == multiset{}[k := n]
  {
    if n > 0 {
      RepeatMultiset(k, n - 1);
      assert Repeat(k, n) == Repeat(k, n - 1) + [k];
    }
  }

  /** Layers are in stacking order: an inner layer never ranks above an outer one. */
  lemma LayersForOrdered(t: ShieldTuple)
    ensures forall i, j :: 0 <= i < j < |LayersFor(t)| ==> Rank(LayersFor(t)[i]) <= Rank(LayersFor(t)[j])
  {
    var s := LayersFor(t);
    var a, b, c := t.eta, t.eta + t.lota, t.eta + t.lota + t.theta;
    forall i | 0 <= i < |s|
      ensures Rank(s[i]) == if i < a then 0 else if i < b then 1 else if i < c then 2 else 3
    {
    }
  }

  /** An all-zero tuple leaves the atom as it was. */
  lemma EmptyTupleAddsNothing(atom: Atom)
    ensures atom.layers + LayersFor(Empty) == atom.layers
  {
  }
}
