/**
 * The static aggregators of the tech-ability attachment: each combines the
 * attachments of all the technologies a player currently owns into one value.
 * The player's current technologies (found by the tech tracker) are passed in,
 * already mapped through `get`: `None` stands for a technology without an attachment.
 */
module TechAggregates {
  import opened Wrappers
  import opened TechAbility

  /** The attachments of a list of technology advances, as `get` finds them. */
  function Attachments(techs: seq<TechAdvance>): (r: seq<Option<TechAbility>>)
    ensures |r| == |techs|
    ensures forall i :: 0 <= i < |techs| ==> r[i] == Get(techs[i])
  {
    seq(|techs|, i requires 0 <= i < |techs| => Get(techs[i]))
  }

  // ---------------------------------------------------------------- per-type sums

  /** What one attachment adds to a per-type sum: its map's entry, 0 when absent or when there is no attachment. */
  function BonusOf(a: Option<TechAbility>, kind: BonusKind, ut: UnitType): int
  {
    match a
    case None => 0
    case Some(t) => GetInt(t.Bonus(kind), ut)
  }

  /**
   * `getAttackBonus(ut, player)` and its siblings (defence, movement, radar, air
   * attack, air defence, production, rocket dice, attack rolls, defence rolls,
   * bombing): the sum of the unit type's entries over the current attachments.
   */
  function BonusSum(atts: seq<Option<TechAbility>>, kind: BonusKind, ut: UnitType): int
  {
    if atts == [] then 0
    else BonusSum(atts[..|atts| - 1], kind, ut) + BonusOf(atts[|atts| - 1], kind, ut)
  }

  /** The per-type sum of two lists of attachments together is the sum of the two sums. */
  lemma {:induction false} BonusSumAppend(a: seq<Option<TechAbility>>, b: seq<Option<TechAbility>>, kind: BonusKind, ut: UnitType)
    ensures BonusSum(a + b, kind, ut) == BonusSum(a, kind, ut) + BonusSum(b, kind, ut)
    decreases |b|
  {
    if b == [] {
      assert a + b == a;
    } else {
      assert (a + b)[..|a + b| - 1] == a + b[..|b| - 1];
      BonusSumAppend(a, b[..|b| - 1], kind, ut);
    }
  }

  /** Technologies without an attachment, and unit types no attachment mentions, add nothing. */
  lemma {:induction false} BonusSumOfUnmentioned(atts: seq<Option<TechAbility>>, kind: BonusKind, ut: UnitType)
    requires forall i :: 0 <= i < |atts| && atts[i].Some? ==> ut !in atts[i].value.Bonus(kind)
    ensures BonusSum(atts, kind, ut) == 0
  {
    if atts != [] {
      BonusSumOfUnmentioned(atts[..|atts| - 1], kind, ut);
    }
  }

  /** The accumulation loop of the per-type getters. */
  method GetBonus(atts: seq<Option<TechAbility>>, kind: BonusKind, ut: UnitType) returns (total: int)
    ensures total == BonusSum(atts, kind, ut)
  {
    total := 0;
    var i := 0;
    while i < |atts|
      invariant 0 <= i <= |atts|
      invariant total == BonusSum(atts[..i], kind, ut)
    {
      match atts[i] {
        case Some(taa) => total := total + GetInt(taa.Bonus(kind), ut);
        case None =>
      }
      assert atts[..i + 1][..i] == atts[..i];
      i := i + 1;
    }
    assert atts[..i] == atts;
  }

  /** A unit of some type, owned by some player (the rocket aggregator needs both). */
  datatype OwnedUnit = OwnedUnit(unitType: UnitType, owner: string, launched: nat)

  /**
   * `getRocketDiceNumber(rockets)`: for every rocket, the rocket-dice bonus of its
   * type over its own owner's current attachments (`techsOf`; a player missing from
   * it owns no technology).
   */
  function RocketDiceTotal(rockets: seq<OwnedUnit>, techsOf: map<string, seq<Option<TechAbility>>>): int
  {
    if rockets == [] then 0
    else
      var u := rockets[|rockets| - 1];
      var techs := if u.owner in techsOf then techsOf[u.owner] else [];
      RocketDiceTotal(rockets[..|rockets| - 1], techsOf) + BonusSum(techs, RocketDiceNumber, u.unitType)
  }

  /** Rockets of a player with no technology roll no dice; so a list of such rockets sums to 0. */
  lemma {:induction false} RocketDiceOfPlayersWithoutTechs(rockets: seq<OwnedUnit>, techsOf: map<string, seq<Option<TechAbility>>>)
    requires forall i :: 0 <= i < |rockets| ==> rockets[i].owner !in techsOf
    ensures RocketDiceTotal(rockets, techsOf) == 0
  {
    if rockets != [] {
      RocketDiceOfPlayersWithoutTechs(rockets[..|rockets| - 1], techsOf);
    }
  }

  /** One rocket rolls the rocket-dice bonus of its type over its own owner's attachments, as `getRocketDiceNumber(ut, player)` sums it. */
  lemma RocketDiceOfOne(u: OwnedUnit, techsOf: map<string, seq<Option<TechAbility>>>)
    ensures RocketDiceTotal([u], techsOf)
            == BonusSum(if u.owner in techsOf then techsOf[u.owner] else [], RocketDiceNumber, u.unitType)
  {
    assert [u][..0] == [];
  }

  /** The dice of two groups of rockets together are the dice of each group added up. */
  lemma {:induction false} RocketDiceTotalAppend(a: seq<OwnedUnit>, b: seq<OwnedUnit>, techsOf: map<string, seq<Option<TechAbility>>>)
    ensures RocketDiceTotal(a + b, techsOf) == RocketDiceTotal(a, techsOf) + RocketDiceTotal(b, techsOf)
    decreases |b|
  {
    if b == [] {
      assert a + b == a;
    } else {
      assert (a + b)[..|a + b| - 1] == a + b[..|b| - 1];
      RocketDiceTotalAppend(a, b[..|b| - 1], techsOf);
    }
  }

  // ---------------------------------------------------------------- minimum territory value

  /** The smallest `minimumTerritoryValueForProductionBonus` that is set (not -1), if any. */
  function SmallestSet(atts: seq<Option<TechAbility>>): (r: Option<int>)
    ensures r.Some? ==> r.value != -1
    ensures r.Some? ==>
      exists i :: 0 <= i < |atts| && atts[i].Some? && atts[i].value.Scalar(MinimumTerritoryValueForProductionBonus) == r.value
    ensures forall i :: 0 <= i < |atts| && atts[i].Some? && atts[i].value.Scalar(MinimumTerritoryValueForProductionBonus) != -1 ==>
      r.Some? && r.value <= atts[i].value.Scalar(MinimumTerritoryValueForProductionBonus)
  {
    if atts == [] then None
    else
      var rest := SmallestSet(atts[..|atts| - 1]);
      var last := atts[|atts| - 1];
      var v := if last.Some? then last.value.Scalar(MinimumTerritoryValueForProductionBonus) else -1;
      if v == -1 then rest
      else if rest.None? || v < rest.value then Some(v)
      else rest
  }

  /** `getMinimumTerritoryValueForProductionBonus(player)`: the smallest value set, at least 0; 0 when none is set. */
  function MinimumTerritoryValue(atts: seq<Option<TechAbility>>): (r: int)
    ensures r >= 0
    ensures SmallestSet(atts).None? ==> r == 0
    ensures SmallestSet(atts).Some? ==> r == if SmallestSet(atts).value < 0 then 0 else SmallestSet(atts).value
  {
    match SmallestSet(atts)
    case None => 0
    case Some(m) => if m < 0 then 0 else m
  }

  /** The source's loop: -1 stands for "nothing set yet", set values of -1 are skipped. */
  method GetMinimumTerritoryValue(atts: seq<Option<TechAbility>>) returns (r: int)
    ensures r == MinimumTerritoryValue(atts)
    ensures forall i :: 0 <= i < |atts| && atts[i].Some? ==>
      (atts[i].value.Scalar(MinimumTerritoryValueForProductionBonus) >= 0 ==>
        r <= atts[i].value.Scalar(MinimumTerritoryValueForProductionBonus))
  {
    var least := -1;
    var i := 0;
    while i < |atts|
      invariant 0 <= i <= |atts|
      invariant least == match SmallestSet(atts[..i]) case None => -1 case Some(m) => m
    {
      assert atts[..i + 1][..i] == atts[..i];
      match atts[i] {
        case Some(taa) =>
          var min := taa.Scalar(MinimumTerritoryValueForProductionBonus);
          if min == -1 {
          } else if least == -1 || min < least {
            least := min;
          }
        case None =>
      }
      i := i + 1;
    }
    assert atts[..i] == atts;
    r := if least < 0 then 0 else least;
  }

  // ---------------------------------------------------------------- positive-only and plain totals

  /** What one attachment adds to a positive-only total: its value when positive, else 0. */
  function PositivePart(a: Option<TechAbility>, f: ScalarField): (r: int)
    ensures r >= 0
  {
    if a.Some? && a.value.Scalar(f) > 0 then a.value.Scalar(f) else 0
  }

  function PositiveSum(atts: seq<Option<TechAbility>>, f: ScalarField): int
  {
    if atts == [] then 0 else PositiveSum(atts[..|atts| - 1], f) + PositivePart(atts[|atts| - 1], f)
  }

  /**
   * `getWarBondDiceSides`, `getWarBondDiceNumber`, `getRocketDistance` and
   * `getRocketNumberPerTerritory` (player): only positive values are added, and the
   * total is floored at 0.
   */
  function PositiveTotal(atts: seq<Option<TechAbility>>, f: ScalarField): (r: int)
  {
    var s := PositiveSum(atts, f);
    if s < 0 then 0 else s
  }

  /** Every positive value counts in full, and nothing makes the total negative. */
  lemma {:induction false} PositiveTotalBounds(atts: seq<Option<TechAbility>>, f: ScalarField)
    ensures PositiveTotal(atts, f) == PositiveSum(atts, f) >= 0
    ensures forall i :: 0 <= i < |atts| ==> PositiveTotal(atts, f) >= PositivePart(atts[i], f)
  {
    if atts != [] {
      PositiveTotalBounds(atts[..|atts| - 1], f);
    }
  }

  /** Owning more technologies never lowers a positive-only total. */
  lemma {:induction false} PositiveTotalAppend(a: seq<Option<TechAbility>>, b: seq<Option<TechAbility>>, f: ScalarField)
    ensures PositiveTotal(a + b, f) == PositiveTotal(a, f) + PositiveTotal(b, f)
    decreases |b|
  {
    PositiveTotalBounds(a, f);
    PositiveTotalBounds(b, f);
    PositiveTotalBounds(a + b, f);
    if b == [] {
      assert a + b == a;
    } else {
      assert (a + b)[..|a + b| - 1] == a + b[..|b| - 1];
      PositiveTotalAppend(a, b[..|b| - 1], f);
      PositiveTotalBounds(b[..|b| - 1], f);
      PositiveTotalBounds(a + b[..|b| - 1], f);
    }
  }

  function ScalarSum(atts: seq<Option<TechAbility>>, f: ScalarField): int
  {
    if atts == [] then 0
    else ScalarSum(atts[..|atts| - 1], f) + (if atts[|atts| - 1].Some? then atts[|atts| - 1].value.Scalar(f) else 0)
  }

  /** `getAirborneDistance(player)`: unlike the totals above, every value is added, then the total is floored at 0. */
  function AirborneDistanceTotal(atts: seq<Option<TechAbility>>): (r: int)
    ensures r >= 0 && r >= ScalarSum(atts, AirborneDistance)
  {
    var s := ScalarSum(atts, AirborneDistance);
    if s < 0 then 0 else s
  }

  /** When every airborne distance is in the setter's range, the floor never bites and the two kinds of total agree. */
  lemma {:induction false} AirborneDistanceInRange(atts: seq<Option<TechAbility>>)
    requires forall i :: 0 <= i < |atts| && atts[i].Some? ==> InRange(AirborneDistance, atts[i].value.Scalar(AirborneDistance))
    ensures AirborneDistanceTotal(atts) == ScalarSum(atts, AirborneDistance) == PositiveSum(atts, AirborneDistance)
  {
    if atts != [] {
      AirborneDistanceInRange(atts[..|atts| - 1]);
    }
  }

  // ---------------------------------------------------------------- unions

  /** What one attachment grants a unit type. */
  function AbilitiesOf(a: Option<TechAbility>, ut: UnitType): set<string>
  {
    if a.Some? && ut in a.value.unitAbilitiesGained then a.value.unitAbilitiesGained[ut] else {}
  }

  /** `getUnitAbilitiesGained(ut, player)`: the union of what the current attachments grant the unit type. */
  function UnitAbilities(atts: seq<Option<TechAbility>>, ut: UnitType): set<string>
  {
    if atts == [] then {} else UnitAbilities(atts[..|atts| - 1], ut) + AbilitiesOf(atts[|atts| - 1], ut)
  }

  /** An ability is gained exactly when some current attachment grants it to that unit type. */
  lemma {:induction false} UnitAbilitiesMembership(atts: seq<Option<TechAbility>>, ut: UnitType, ability: string)
    ensures ability in UnitAbilities(atts, ut) <==> exists i :: 0 <= i < |atts| && ability in AbilitiesOf(atts[i], ut)
  {
    if atts != [] {
      var init := atts[..|atts| - 1];
      UnitAbilitiesMembership(init, ut, ability);
      if ability in UnitAbilities(init, ut) {
        var i :| 0 <= i < |init| && ability in AbilitiesOf(init[i], ut);
        assert atts[i] == init[i];
      }
      if exists i :: 0 <= i < |atts| && ability in AbilitiesOf(atts[i], ut) {
        var i :| 0 <= i < |atts| && ability in AbilitiesOf(atts[i], ut);
        if i < |init| {
          assert init[i] == atts[i];
        }
      }
    }
  }

  /** `getUnitAbilitiesGained(filterForAbility, ut, player)`: whether the union contains the ability. */
  function HasUnitAbility(filterForAbility: string, atts: seq<Option<TechAbility>>, ut: UnitType): (r: bool)
    ensures r <==> exists i :: 0 <= i < |atts| && filterForAbility in AbilitiesOf(atts[i], ut)
  {
    UnitAbilitiesMembership(atts, ut, filterForAbility);
    filterForAbility in UnitAbilities(atts, ut)
  }

  /** `getAirborneTypes(player)` and `getAirborneBases(player)`: the union of one unit-type set over the current attachments. */
  function TypeUnion(atts: seq<Option<TechAbility>>, t: TypeSetField): (r: set<UnitType>)
    ensures forall ut :: ut in r <==> exists i :: 0 <= i < |atts| && atts[i].Some? && ut in atts[i].value.TypeSet(t)
  {
    if atts == [] then {}
    else
      var init := atts[..|atts| - 1];
      var r := TypeUnion(init, t) + (if atts[|atts| - 1].Some? then atts[|atts| - 1].value.TypeSet(t) else {});
      assert forall i :: 0 <= i < |init| ==> init[i] == atts[i];
      r
  }

  /** Pointwise sum of two integer maps (`IntegerMap.add`): every key of either, with the two entries added. */
  function AddMaps(m1: IntegerMap, m2: IntegerMap): (r: IntegerMap)
    ensures forall ut :: GetInt(r, ut) == GetInt(m1, ut) + GetInt(m2, ut)
    ensures r.Keys == m1.Keys + m2.Keys
  {
    map ut | ut in m1.Keys + m2.Keys :: GetInt(m1, ut) + GetInt(m2, ut)
  }

  /** `getAirborneCapacity(player)`: the current attachments' airborne-capacity maps added together. */
  function AirborneCapacityMap(atts: seq<Option<TechAbility>>): (r: IntegerMap)
    ensures forall ut :: GetInt(r, ut) == BonusSum(atts, AirborneCapacity, ut)
  {
    if atts == [] then map[]
    else
      var last := atts[|atts| - 1];
      AddMaps(AirborneCapacityMap(atts[..|atts| - 1]), if last.Some? then last.value.Bonus(AirborneCapacity) else map[])
  }

  /** What one unit can still launch: its type's capacity less what it has launched, never below 0. */
  function Remaining(u: OwnedUnit, capacity: IntegerMap): (r: int)
    ensures r >= 0 && r >= GetInt(capacity, u.unitType) - u.launched
  {
    var left := GetInt(capacity, u.unitType) - u.launched;
    if left < 0 then 0 else left
  }

  function RemainingSum(units: seq<OwnedUnit>, capacity: IntegerMap): int
  {
    if units == [] then 0 else RemainingSum(units[..|units| - 1], capacity) + Remaining(units[|units| - 1], capacity)
  }

  /** `getAirborneCapacity(units, player)`: the units' remaining capacities added up. */
  method AirborneCapacityOfUnits(units: seq<OwnedUnit>, atts: seq<Option<TechAbility>>) returns (total: int)
    ensures total == RemainingSum(units, AirborneCapacityMap(atts))
    ensures total >= 0
    ensures forall i :: 0 <= i < |units| ==> total >= Remaining(units[i], AirborneCapacityMap(atts))
  {
    var capacity := AirborneCapacityMap(atts);
    total := 0;
    var i := 0;
    while i < |units|
      invariant 0 <= i <= |units|
      invariant total == RemainingSum(units[..i], capacity)
      invariant total >= 0
      invariant forall j :: 0 <= j < i ==> total >= Remaining(units[j], capacity)
    {
      assert units[..i + 1][..i] == units[..i];
      total := total + Remaining(units[i], capacity);
      i := i + 1;
    }
    assert units[..i] == units;
  }

  /** Per-key union of two maps of unit-type sets. */
  function MergeSets(m1: map<string, set<UnitType>>, m2: map<string, set<UnitType>>): (r: map<string, set<UnitType>>)
    ensures r.Keys == m1.Keys + m2.Keys
    ensures forall k :: k in r ==> r[k] == (if k in m1 then m1[k] else {}) + (if k in m2 then m2[k] else {})
  {
    map k | k in m1.Keys + m2.Keys :: (if k in m1 then m1[k] else {}) + (if k in m2 then m2[k] else {})
  }

  /** `getAirborneTargettedByAA(player)`: for every AA type, the union of the unit types the current attachments list for it. */
  function TargettedByAA(atts: seq<Option<TechAbility>>): map<string, set<UnitType>>
  {
    if atts == [] then map[]
    else
      var last := atts[|atts| - 1];
      MergeSets(TargettedByAA(atts[..|atts| - 1]), if last.Some? then last.value.airborneTargettedByAA else map[])
  }

  /**
   * An AA type has an entry exactly when some current attachment lists it, and a
   * unit type is targetted by it exactly when some current attachment says so.
   */
  lemma {:induction false} TargettedByAAMembership(atts: seq<Option<TechAbility>>, aa: string, ut: UnitType)
    ensures aa in TargettedByAA(atts) <==>
      exists i :: 0 <= i < |atts| && atts[i].Some? && aa in atts[i].value.airborneTargettedByAA
    ensures aa in TargettedByAA(atts) ==> (ut in TargettedByAA(atts)[aa] <==>
      exists i :: 0 <= i < |atts| && atts[i].Some? && aa in atts[i].value.airborneTargettedByAA &&
        ut in atts[i].value.airborneTargettedByAA[aa])
  {
    if atts != [] {
      var init := atts[..|atts| - 1];
      TargettedByAAMembership(init, aa, ut);
      assert forall i :: 0 <= i < |init| ==> init[i] == atts[i];
    }
  }

  /** `getAllowAirborneForces(player)`: the search stops at the first attachment that allows airborne forces. */
  method AllowAirborneForces(atts: seq<Option<TechAbility>>) returns (allowed: bool)
    ensures allowed <==> exists i :: 0 <= i < |atts| && atts[i].Some? && atts[i].value.airborneForces
  {
    var i := 0;
    while i < |atts|
      invariant 0 <= i <= |atts|
      invariant forall j :: 0 <= j < i ==> !(atts[j].Some? && atts[j].value.airborneForces)
    {
      if atts[i].Some? && atts[i].value.airborneForces {
        return true;
      }
      i := i + 1;
    }
    return false;
  }
}
