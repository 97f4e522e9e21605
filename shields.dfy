/**
 * Shield kinds, the per-kind shield tuple and the shielded atom.
 *
 * ShieldTuple.java and the shield decorator classes are not part of this
 * model; the tuple's operations are the ones the core calls. A shielded atom
 * is its elemental kind plus its stack of shield layers, innermost first,
 * rather than a chain of decorator objects.
 */
module Shields {
  import opened EntityTypes

  datatype ShieldType = Eta | Lota | Theta | Zeta

  /** The stacking order: ETA innermost, ZETA outermost. */
  function Rank(k: ShieldType): (r: nat)
    ensures r < 4
  {
    match k
    case Eta => 0
    case Lota => 1
    case Theta => 2
    case Zeta => 3
  }

  /** One count per shield kind. */
  datatype ShieldTuple = ShieldTuple(eta: nat, lota: nat, theta: nat, zeta: nat) {

    function Count(k: ShieldType): nat
    {
      match k
      case Eta => eta
      case Lota => lota
      case Theta => theta
      case Zeta => zeta
    }

    /** `addShield`: one more of kind `k`, every other count unchanged. */
    function Add(k: ShieldType): (t: ShieldTuple)
      ensures forall j :: t.Count(j) == Count(j) + (if j == k then 1 else 0)
    {
      match k
      case Eta => this.(eta := eta + 1)
      case Lota => this.(lota := lota + 1)
      case Theta => this.(theta := theta + 1)
      case Zeta => this.(zeta := zeta + 1)
    }

    /** `decreaseShieldCount`: one fewer of kind `k`, every other count unchanged. */
    function Decrease(k: ShieldType): (t: ShieldTuple)
      requires Count(k) > 0
      ensures forall j :: t.Count(j) == Count(j) - (if j == k then 1 else 0)
      ensures t.Add(k) == this
    {
      match k
      case Eta => this.(eta := eta - 1)
      case Lota => this.(lota := lota - 1)
      case Theta => this.(theta := theta - 1)
      case Zeta => this.(zeta := zeta - 1)
    }

    /** `isNotEmpty`: some kind has a positive count. */
    predicate IsNotEmpty()
    {
      eta > 0 || lota > 0 || theta > 0 || zeta > 0
    }

    function Total(): nat
    {
      eta + lota + theta + zeta
    }
  }

  /** The tuple `reset` leaves. */
  const Empty: ShieldTuple := ShieldTuple(0, 0, 0, 0)

  lemma IsNotEmptyMeansSomeCount(t: ShieldTuple)
    ensures t.IsNotEmpty() <==> exists k :: t.Count(k) > 0
    ensures !t.IsNotEmpty() <==> t == Empty
  {
    if t.eta > 0 { assert t.Count(Eta) > 0; }
    if t.lota > 0 { assert t.Count(Lota) > 0; }
    if t.theta > 0 { assert t.Count(Theta) > 0; }
    if t.zeta > 0 { assert t.Count(Zeta) > 0; }
  }

  /** An atom of kind `kind` inside `layers`, innermost first. */
  datatype Atom = Atom(kind: EntityType, layers: seq<ShieldType>)

  /** One new outermost layer of kind `k`; what was inside stays as it was. */
  function Wrap(atom: Atom, k: ShieldType): (r: Atom)
    ensures r.kind == atom.kind
    ensures |r.layers| == |atom.layers| + 1
    ensures r.layers[..|atom.layers|] == atom.layers && r.layers[|atom.layers|] == k
  {
    Atom(atom.kind, atom.layers + [k])
  }
}
