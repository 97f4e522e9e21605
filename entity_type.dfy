/** The four elemental kinds of atoms, molecules, blockers and powerups (model/game_entities/enums/EntityType.java). */
module EntityTypes {
  import opened Wrappers

  datatype EntityType = Alpha | Beta | Gamma | Sigma

  /** `values()`: the constants in declaration order. */
  function Values(): (ts: seq<EntityType>)
    ensures |ts| == 4
  {
    [Alpha, Beta, Gamma, Sigma]
  }

  /** Each constant's value is its position in declaration order. */
  function GetValue(t: EntityType): (v: int)
    ensures 0 <= v < |Values()| && Values()[v] == t
  {
    match t
    case Alpha => 0
    case Beta => 1
    case Gamma => 2
    case Sigma => 3
  }

  /** The loop of `forValue`: the first constant of `ts` whose value is `val`, if any. */
  function FirstWithValue(ts: seq<EntityType>, val: int): (r: Option<EntityType>)
    ensures r.Some? <==> exists i :: 0 <= i < |ts| && GetValue(ts[i]) == val
    ensures r.Some? ==> r.value in ts && GetValue(r.value) == val
  {
    if ts == [] then None
    else if GetValue(ts[0]) == val then Some(ts[0])
    else
      var r := FirstWithValue(ts[1..], val);
      assert forall i :: 1 <= i < |ts| ==> ts[i] == ts[1..][i - 1];
      r
  }

  /** The constant with value `val`, or ALPHA when there is none. */
  function ForValue(val: int): (t: EntityType)
    ensures 0 <= val < 4 ==> GetValue(t) == val
    ensures !(0 <= val < 4) ==> t == Alpha
  {
    assert 0 <= val < 4 ==> GetValue(Values()[val]) == val;
    match FirstWithValue(Values(), val)
    case Some(t) => t
    case None => Alpha
  }

  /** The display names, in value order. */
  function StringValues(): (names: seq<string>)
    ensures |names| == |Values()|
    ensures forall i, j :: 0 <= i < j < |names| ==> names[i] != names[j]
  {
    ["Alpha", "Beta", "Gamma", "Sigma"]
  }

  /** `forValue` inverts `getValue`, so distinct constants have distinct values. */
  lemma ForValueInvertsGetValue(t: EntityType)
    ensures ForValue(GetValue(t)) == t
  {
  }

  /** The values of the four constants. */
  lemma ConstantValues()
    ensures GetValue(Alpha) == 0 && GetValue(Beta) == 1
    ensures GetValue(Gamma) == 2 && GetValue(Sigma) == 3
  {
  }

  /** Out-of-range values fall back to ALPHA. */
  lemma ForValueOutOfRange(val: int)
    requires val < 0 || val > 3
    ensures ForValue(val) == Alpha
  {
  }
}
