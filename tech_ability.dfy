/**
 * A technology's ability attachment: the bonuses and rule switches a technology
 * grants once a player owns it. The attachment is filled in by the game parser
 * through its `set*` methods, which parse option strings such as `"2:infantry"`.
 */
module TechAbility {
  import opened Wrappers
  import opened JavaText

  /** A unit type, identified by its name in the game's unit-type list. */
  type UnitType = string

  /** An `IntegerMap<UnitType>`: a key that is absent reads as 0. */
  type IntegerMap = map<UnitType, int>

  function GetInt(m: IntegerMap, ut: UnitType): int
  {
    if ut in m then m[ut] else 0
  }

  /** The two unit abilities a technology may grant. */
  const AbilityCanBlitz: string := "canBlitz"
  const AbilityCanBombard: string := "canBombard"
  const SupportedAbilities: set<string> := {AbilityCanBlitz, AbilityCanBombard}

  /** The twelve per-unit-type integer maps of an attachment, each set from `"n:UnitType"`. */
  datatype BonusKind =
    | Attack | Defense | Movement | Radar | AirAttack | AirDefense | Production
    | RocketDiceNumber | AirborneCapacity | AttackRolls | DefenseRolls | Bombing

  /** The seven range-checked integer fields of an attachment. */
  datatype ScalarField =
    | MinimumTerritoryValueForProductionBonus | RepairDiscount | WarBondDiceSides
    | WarBondDiceNumber | RocketDistance | RocketNumberPerTerritory | AirborneDistance

  /** The two unit-type sets of an attachment, each added to from `"T1:T2:..."`. */
  datatype TypeSetField = AirborneTypes | AirborneBases

  /** Whether the field accepts -1, its "not set" marker. */
  predicate AcceptsUnset(f: ScalarField)
  {
    f == MinimumTerritoryValueForProductionBonus || f == RepairDiscount || f == WarBondDiceSides
  }

  /** The largest value the field's string setter accepts. */
  function Ceiling(f: ScalarField): int
  {
    match f
    case MinimumTerritoryValueForProductionBonus => 10000
    case RepairDiscount => 100
    case WarBondDiceSides => 200
    case WarBondDiceNumber => 100
    case RocketDistance => 100
    case RocketNumberPerTerritory => 200
    case AirborneDistance => 100
  }

  /** The values the field's string setter accepts: -1 where allowed, else 0 up to the ceiling. */
  predicate InRange(f: ScalarField, v: int)
  {
    (AcceptsUnset(f) && v == -1) || (0 <= v <= Ceiling(f))
  }

  /** The value a new attachment holds, and what `reset*` puts back. */
  function Initial(f: ScalarField): (v: int)
    ensures InRange(f, v)
    ensures v == -1 <==> AcceptsUnset(f)
  {
    if AcceptsUnset(f) then -1 else 0
  }

  /**
   * Every field of one attachment, as a value. The twelve per-type integer maps are
   * kept in one map keyed by `BonusKind`, and the seven range-checked integers in
   * one map keyed by `ScalarField`; a missing key reads as an empty map or as the
   * field's initial value.
   */
  datatype TechAbility = TechAbility(
    bonuses: map<BonusKind, IntegerMap>,
    scalars: map<ScalarField, int>,
    unitAbilitiesGained: map<UnitType, set<string>>,
    airborneForces: bool,
    airborneTypes: set<UnitType>,
    airborneBases: set<UnitType>,
    airborneTargettedByAA: map<string, set<UnitType>>)
  {
    function Bonus(kind: BonusKind): IntegerMap
    {
      if kind in bonuses then bonuses[kind] else map[]
    }

    function Scalar(f: ScalarField): int
    {
      if f in scalars then scalars[f] else Initial(f)
    }

    function TypeSet(t: TypeSetField): set<UnitType>
    {
      match t
      case AirborneTypes => airborneTypes
      case AirborneBases => airborneBases
    }

    function WithTypeSet(t: TypeSetField, s: set<UnitType>): TechAbility
    {
      match t
      case AirborneTypes => this.(airborneTypes := s)
      case AirborneBases => this.(airborneBases := s)
    }

    lemma WithTypeSetTwice(t: TypeSetField, a: set<UnitType>, b: set<UnitType>)
      ensures WithTypeSet(t, a).TypeSet(t) == a
      ensures WithTypeSet(t, a).WithTypeSet(t, b) == WithTypeSet(t, b)
    {
    }
  }

  /** The field values of a freshly constructed attachment. */
  const Fresh: TechAbility := TechAbility(map[], map[], map[], false, {}, {}, map[])

  /** A new attachment holds -1 in the "not set" fields, 0 in the others, and empty maps. */
  lemma FreshHoldsInitialValues()
    ensures Fresh.Scalar(MinimumTerritoryValueForProductionBonus) == -1
    ensures Fresh.Scalar(RepairDiscount) == -1 && Fresh.Scalar(WarBondDiceSides) == -1
    ensures Fresh.Scalar(WarBondDiceNumber) == 0 && Fresh.Scalar(RocketDistance) == 0
    ensures Fresh.Scalar(RocketNumberPerTerritory) == 0 && Fresh.Scalar(AirborneDistance) == 0
    ensures forall k :: Fresh.Bonus(k) == map[]
    ensures forall t :: Fresh.TypeSet(t) == {}
    ensures Fresh.unitAbilitiesGained == map[] && Fresh.airborneTargettedByAA == map[] && !Fresh.airborneForces
  {
  }

  /** Why a setter refused its option string (a `GameParseException`, or the index error below). */
  datatype ParseError =
    | BadFieldCount(value: string)
      /** Reading `s[1]` of a one-field value: an `ArrayIndexOutOfBoundsException`. */
    | IndexOutOfBounds(value: string)
    | NoSuchUnit(name: string)
    | NotAnInteger(text: string)
    | OutOfRange(v: int)
    | UnsupportedAbility(ability: string)

  /**
   * Parses `"n:UnitType"` for the bonus map `kind`: the fields are cut with Java's
   * `split(":")`; the unit type is looked up before the number is read.
   * Every map but the rocket dice accepts one or two fields and then reads the
   * second field, so a one-field value fails with an index error; the rocket dice
   * map demands exactly two fields.
   */
  function ParseUnitBonus(kind: BonusKind, value: string, unitTypes: set<UnitType>): (r: Result<(UnitType, int), ParseError>)
    ensures r.Ok? <==>
      |Split(value, ':')| == 2 && Split(value, ':')[1] in unitTypes && ParseInt(Split(value, ':')[0]).Some?
    ensures r.Ok? ==> r.value.0 == Split(value, ':')[1] && Some(r.value.1) == ParseInt(Split(value, ':')[0])
    ensures r == Err(IndexOutOfBounds(value)) <==> kind != RocketDiceNumber && |Split(value, ':')| == 1
    ensures r == Err(BadFieldCount(value)) <==>
      |Split(value, ':')| != 2 && (kind == RocketDiceNumber || |Split(value, ':')| != 1)
  {
    var s := Split(value, ':');
    if kind == RocketDiceNumber && |s| != 2 then Err(BadFieldCount(value))
    else if |s| <= 0 || |s| > 2 then Err(BadFieldCount(value))
    else if |s| == 1 then Err(IndexOutOfBounds(value))
    else if s[1] !in unitTypes then Err(NoSuchUnit(s[1]))
    else
      match ParseInt(s[0])
      case None => Err(NotAnInteger(s[0]))
      case Some(n) => Ok((s[1], n))
  }

  /** Any `int` and any known unit type written as `"n:UnitType"` parse back to that pair. */
  lemma UnitBonusRoundTrip(kind: BonusKind, n: int, ut: UnitType, unitTypes: set<UnitType>)
    requires MinInt <= n <= MaxInt
    requires ut in unitTypes && ut != "" && ':' !in ut
    ensures ParseUnitBonus(kind, IntToString(n) + ":" + ut, unitTypes) == Ok((ut, n))
  {
    SplitTwoFields(IntToString(n), ut, ':');
    ParseIntToString(n);
  }

  /** Any value without a separator, such as a bare number `"2"`, passes the field-count guard and then fails on `s[1]`. */
  lemma OneFieldBonusIsIndexError(kind: BonusKind, a: string, unitTypes: set<UnitType>)
    requires kind != RocketDiceNumber && ':' !in a
    ensures ParseUnitBonus(kind, a, unitTypes) == Err(IndexOutOfBounds(a))
  {
  }

  /** A value with three fields is rejected, as is a value made of separators only. */
  lemma BadFieldCounts(kind: BonusKind, a: string, b: string, c: string, unitTypes: set<UnitType>)
    requires ':' !in a && ':' !in b && ':' !in c && c != ""
    ensures ParseUnitBonus(kind, a + ":" + b + ":" + c, unitTypes) == Err(BadFieldCount(a + ":" + b + ":" + c))
    ensures ParseUnitBonus(kind, ":", unitTypes) == Err(BadFieldCount(":"))
  {
    SplitThreeFields(a, b, c, ':');
    SplitOnlySeparators(1, ':');
    assert seq(1, _ => ':') == ":";
  }

  /** A trailing separator is dropped, so `"2:"` also fails on `s[1]`. */
  lemma TrailingSeparatorIsIndexError(kind: BonusKind, a: string, unitTypes: set<UnitType>)
    requires kind != RocketDiceNumber && ':' !in a && a != ""
    ensures ParseUnitBonus(kind, a + ":", unitTypes) == Err(IndexOutOfBounds(a + ":"))
  {
    PiecesAfterPrefix(a, "", ':');
    assert a + ":" == a + [':'] + "";
    assert (a + ":")[|a|] == ':';
    var ps := Pieces(a + ":", ':');
    assert ps == [a, ""];
    assert ps[..|ps| - 1] == [a];
    assert DropTrailingEmpty([a]) == [a];
    assert DropTrailingEmpty(ps) == DropTrailingEmpty([a]);
  }

  /** A range-checked integer field: a Java `int`, then the field's range. */
  function ParseScalar(f: ScalarField, value: string): (r: Result<int, ParseError>)
    ensures r.Ok? ==> InRange(f, r.value) && ParseInt(value) == Some(r.value)
    ensures r.Err? ==>
      (ParseInt(value).None? && r.error == NotAnInteger(value)) ||
      (ParseInt(value).Some? && !InRange(f, ParseInt(value).value) && r.error == OutOfRange(ParseInt(value).value))
  {
    match ParseInt(value)
    case None => Err(NotAnInteger(value))
    case Some(v) => if InRange(f, v) then Ok(v) else Err(OutOfRange(v))
  }

  /** Every Java `int` written in decimal is accepted exactly when it is in the field's range. */
  lemma ScalarRoundTrip(f: ScalarField, v: int)
    requires MinInt <= v <= MaxInt
    ensures ParseScalar(f, IntToString(v)) == if InRange(f, v) then Ok(v) else Err(OutOfRange(v))
  {
    ParseIntToString(v);
  }

  /** The strings in `xs`, as a set. */
  function Elems(xs: seq<string>): set<string>
  {
    if xs == [] then {} else Elems(xs[..|xs| - 1]) + {xs[|xs| - 1]}
  }

  lemma {:induction false} ElemsContains(xs: seq<string>)
    ensures forall x :: x in Elems(xs) <==> x in xs
  {
    if xs != [] {
      ElemsContains(xs[..|xs| - 1]);
      assert xs == xs[..|xs| - 1] + [xs[|xs| - 1]];
    }
  }

  /** One more element of a prefix adds one more member. */
  lemma ElemsSnoc(xs: seq<string>, i: nat)
    requires i < |xs|
    ensures Elems(xs[..i + 1]) == Elems(xs[..i]) + {xs[i]}
  {
    assert xs[..i + 1][..i] == xs[..i];
  }

  /** The entries of `xs` before the first one outside `allowed`, as a set. */
  function KnownPrefix(xs: seq<string>, allowed: set<string>): (r: set<string>)
    ensures r <= allowed
    ensures forall x :: x in r <==> x in xs[..FirstNotIn(xs, allowed)]
    ensures r == set x | x in xs[..FirstNotIn(xs, allowed)]
  {
    ElemsContains(xs[..FirstNotIn(xs, allowed)]);
    Elems(xs[..FirstNotIn(xs, allowed)])
  }

  /** The index of the first entry of `xs` outside `allowed`, or `|xs|` when there is none. */
  function FirstNotIn(xs: seq<string>, allowed: set<string>): (k: nat)
    ensures k <= |xs|
    ensures forall i :: 0 <= i < k ==> xs[i] in allowed
    ensures k < |xs| ==> xs[k] !in allowed
  {
    if xs == [] then 0
    else if xs[0] !in allowed then 0
    else 1 + FirstNotIn(xs[1..], allowed)
  }

  /**
   * `airborneTargettedByAA` from `"aaType:T1:T2:..."`: at least two fields; every
   * type after the first field must exist. The result replaces the AA type's entry.
   */
  function ParseTargettedByAA(value: string, unitTypes: set<UnitType>): (r: Result<(string, set<UnitType>), ParseError>)
    ensures r.Ok? <==> |Split(value, ':')| >= 2 && forall i :: 1 <= i < |Split(value, ':')| ==> Split(value, ':')[i] in unitTypes
    ensures r.Ok? ==> r.value.0 == Split(value, ':')[0]
    ensures r.Ok? ==> forall ut :: ut in r.value.1 <==> ut in Split(value, ':')[1..]
  {
    var s := Split(value, ':');
    if |s| < 2 then Err(BadFieldCount(value))
    else
      var k := FirstNotIn(s[1..], unitTypes);
      if k < |s| - 1 then Err(NoSuchUnit(s[1..][k]))
      else Ok((s[0], set ut | ut in s[1..]))
  }

  /**
   * `setUnitAbilitiesGained("UnitType:ability:...")`, as the outcome and the new
   * `unitAbilitiesGained` map: at least two fields, a known unit type, then the
   * abilities are added one at a time to the type's set, and each must be
   * `canBlitz` or `canBombard`. The set being added to is the one already in the
   * map when there is one, so an unsupported ability leaves the abilities before
   * it in that set even though the call fails.
   */
  function UnitAbilitiesGainedAfter(gained: map<UnitType, set<string>>, value: string, unitTypes: set<UnitType>)
    : (out: (Result<(), ParseError>, map<UnitType, set<string>>))
    ensures out.0.Ok? <==>
      |Split(value, ':')| >= 2 && Split(value, ':')[0] in unitTypes &&
      FirstNotIn(Split(value, ':')[1..], SupportedAbilities) == |Split(value, ':')| - 1
    ensures forall ut :: ut in gained ==> ut in out.1 && gained[ut] <= out.1[ut]
    ensures forall ut :: ut in out.1 && ut !in gained ==> out.0.Ok? && out.1[ut] <= SupportedAbilities
    ensures forall ut :: ut in gained && ut in out.1 ==> out.1[ut] - gained[ut] <= SupportedAbilities
    ensures forall ut :: ut in out.1 && (ut !in gained || out.1[ut] != gained[ut]) ==>
      |Split(value, ':')| >= 2 && ut == Split(value, ':')[0]
    // on success every named ability joins the type's set
    ensures out.0.Ok? ==>
      var s := Split(value, ':');
      out.1 == gained[s[0] := (if s[0] in gained then gained[s[0]] else {}) + set a | a in s[1..]]
    // a failure changes the map only when the type already had a set, which keeps the abilities before the bad one
    ensures out.0.Err? && !(|Split(value, ':')| >= 2 && Split(value, ':')[0] in unitTypes && Split(value, ':')[0] in gained) ==>
      out.1 == gained
    ensures out.0.Err? && |Split(value, ':')| >= 2 && Split(value, ':')[0] in unitTypes && Split(value, ':')[0] in gained ==>
      var s := Split(value, ':');
      out.1 == gained[s[0] := gained[s[0]] + set a | a in s[1..][..FirstNotIn(s[1..], SupportedAbilities)]]
  {
    var s := Split(value, ':');
    if |s| < 2 then (Err(BadFieldCount(value)), gained)
    else if s[0] !in unitTypes then (Err(NoSuchUnit(s[0])), gained)
    else
      var before := if s[0] in gained then gained[s[0]] else {};
      var k := FirstNotIn(s[1..], SupportedAbilities);
      var grown := gained[s[0] := before + KnownPrefix(s[1..], SupportedAbilities)];
      if k == |s| - 1 then
        assert s[1..][..k] == s[1..];
        (Ok(()), grown)
      else if s[0] in gained then (Err(UnsupportedAbility(s[1..][k])), grown)
      else (Err(UnsupportedAbility(s[1..][k])), gained)
  }

  /**
   * With `canBlitz` then an unsupported ability for a unit type that already has an
   * entry, the call fails and `canBlitz` is nevertheless in that type's set; for a
   * unit type without an entry, the map is left alone.
   */
  lemma UnsupportedAbilityKeepsEarlierOnes(gained: map<UnitType, set<string>>, ut: UnitType, bad: string, unitTypes: set<UnitType>)
    requires ut in unitTypes && ':' !in ut
    requires bad !in SupportedAbilities && ':' !in bad && bad != ""
    ensures var v := ut + ":" + AbilityCanBlitz + ":" + bad;
      UnitAbilitiesGainedAfter(gained, v, unitTypes) ==
        if ut in gained then (Err(UnsupportedAbility(bad)), gained[ut := gained[ut] + {AbilityCanBlitz}])
        else (Err(UnsupportedAbility(bad)), gained)
  {
    var v := ut + ":" + AbilityCanBlitz + ":" + bad;
    SplitThreeFields(ut, AbilityCanBlitz, bad, ':');
    var s := Split(v, ':');
    assert s[1..] == [AbilityCanBlitz, bad];
    assert FirstNotIn(s[1..], SupportedAbilities) == 1;
    assert s[1..][..1] == [AbilityCanBlitz];
    assert Elems([AbilityCanBlitz]) == {AbilityCanBlitz} by {
      assert [AbilityCanBlitz][..0] == [];
    }
  }

  /**
   * The loop of `setUnitAbilitiesGained`: the abilities are added to `before` one by
   * one until the first unsupported one, whose index comes back as `k`.
   */
  method CollectAbilities(fields: seq<string>, before: set<string>) returns (abilities: set<string>, k: nat)
    ensures k == FirstNotIn(fields, SupportedAbilities)
    ensures abilities == before + KnownPrefix(fields, SupportedAbilities)
  {
    ghost var stop := FirstNotIn(fields, SupportedAbilities);
    abilities := before;
    k := 0;
    while k < |fields|
      invariant k <= |fields| && k <= stop
      invariant abilities == before + Elems(fields[..k])
    {
      var ability := fields[k];
      if !(ability == AbilityCanBlitz || ability == AbilityCanBombard) {
        return;
      }
      abilities := abilities + {ability};
      assert fields[..k + 1][..k] == fields[..k];
      k := k + 1;
    }
  }

  /** A technology advance: its name, the attachments hung on it, and, for a generic advance, the hard-coded advance it names. */
  datatype TechAdvance = TechAdvance(
    name: string,
    isGeneric: bool,
    hardCoded: Option<TechAdvance>,
    attachments: map<string, TechAbility>)

  /** The name the tech-ability attachment is registered under (a game constant). */
  const TechAbilityAttachmentName: string := "techAbilityAttachment"

  /**
   * `get(type)`: a generic advance that names a hard-coded advance yields the
   * hard-coded advance's attachment; any other advance yields its own, if any.
   */
  function Get(ta: TechAdvance): (r: Option<TechAbility>)
    ensures ta.isGeneric && ta.hardCoded.Some? ==>
      (r.Some? <==> TechAbilityAttachmentName in ta.hardCoded.value.attachments)
    ensures !(ta.isGeneric && ta.hardCoded.Some?) ==>
      (r.Some? <==> TechAbilityAttachmentName in ta.attachments)
    ensures r.Some? ==>
      r.value == (if ta.isGeneric && ta.hardCoded.Some? then ta.hardCoded.value else ta).attachments[TechAbilityAttachmentName]
  {
    var owner := if ta.isGeneric && ta.hardCoded.Some? then ta.hardCoded.value else ta;
    if TechAbilityAttachmentName in owner.attachments then Some(owner.attachments[TechAbilityAttachmentName]) else None
  }

  /** A generic advance naming a hard-coded one never contributes its own attachment. */
  lemma HardCodedShadowsGeneric(ta: TechAdvance, own: TechAbility)
    requires ta.isGeneric && ta.hardCoded.Some?
    requires TechAbilityAttachmentName !in ta.hardCoded.value.attachments
    ensures Get(ta.(attachments := ta.attachments[TechAbilityAttachmentName := own])) == None
  {
  }

  /** `get(type, name)`: the named attachment, or an `IllegalStateException` when there is none. */
  function GetNamed(ta: TechAdvance, name: string): (r: Result<TechAbility, string>)
    ensures r.Ok? <==> name in ta.attachments
    ensures r.Ok? ==> r.value == ta.attachments[name]
  {
    if name in ta.attachments then Ok(ta.attachments[name]) else Err(ta.name)
  }

  /**
   * `validate`: an attachment may not hang on a generic advance that names a
   * hard-coded advance, since `get` would never return it.
   */
  function Validate(attachedTo: TechAdvance): (r: Result<(), string>)
    ensures r.Err? <==> attachedTo.isGeneric && attachedTo.hardCoded.Some?
  {
    if attachedTo.isGeneric && attachedTo.hardCoded.Some? then Err(attachedTo.name) else Ok(())
  }

  /** Every attachment that passes `validate` is reachable through `get` from the advance it hangs on. */
  lemma ValidAttachmentIsReachable(ta: TechAdvance)
    requires Validate(ta).Ok?
    requires TechAbilityAttachmentName in ta.attachments
    ensures Get(ta) == Some(ta.attachments[TechAbilityAttachmentName])
  {
  }

  /** The attachment object the parser fills in. */
  class TechAbilityAttachment {
    /** attackBonus, defenseBonus, ..., bombingBonus, keyed by which one. */
    var bonuses: map<BonusKind, IntegerMap>
    /** minimumTerritoryValueForProductionBonus, repairDiscount, ..., airborneDistance. */
    var scalars: map<ScalarField, int>
    var unitAbilitiesGained: map<UnitType, set<string>>
    var airborneForces: bool
    var airborneTypes: set<UnitType>
    var airborneBases: set<UnitType>
    var airborneTargettedByAA: map<string, set<UnitType>>

    /** All fields, as a value. */
    function Value(): TechAbility
      reads this
    {
      TechAbility(bonuses, scalars, unitAbilitiesGained, airborneForces, airborneTypes, airborneBases, airborneTargettedByAA)
    }

    /** A new attachment: empty maps and sets, -1 for the "not set" fields, 0 and false elsewhere. */
    constructor ()
      ensures Value() == Fresh
    {
      bonuses, scalars, unitAbilitiesGained := map[], map[], map[];
      airborneForces, airborneTypes, airborneBases, airborneTargettedByAA := false, {}, {}, map[];
    }

    /**
     * The `"n:UnitType"` setters (`setAttackBonus`, `setDefenseBonus`, ...): on success
     * the unit type's entry of that one map becomes `n`; on failure nothing changes.
     */
    method SetUnitBonus(kind: BonusKind, value: string, unitTypes: set<UnitType>) returns (r: Result<(), ParseError>)
      modifies this
      ensures r.Ok? <==> ParseUnitBonus(kind, value, unitTypes).Ok?
      ensures r.Err? ==> r.error == ParseUnitBonus(kind, value, unitTypes).error && Value() == old(Value())
      ensures r.Ok? ==>
        var (ut, n) := ParseUnitBonus(kind, value, unitTypes).value;
        Value() == old(Value()).(bonuses := old(bonuses)[kind := old(Value()).Bonus(kind)[ut := n]])
    {
      var p := ParseUnitBonus(kind, value, unitTypes);
      if p.Err? {
        return Err(p.error);
      }
      var (ut, n) := p.value;
      bonuses := bonuses[kind := Value().Bonus(kind)[ut := n]];
      r := Ok(());
    }

    /** The `IntegerMap` overloads of the bonus setters: the whole map is replaced. */
    method SetBonusMap(kind: BonusKind, m: IntegerMap)
      modifies this
      ensures Value() == old(Value()).(bonuses := old(bonuses)[kind := m])
    {
      bonuses := bonuses[kind := m];
    }

    /** `clear*` and `reset*` of a bonus map: it becomes empty, nothing else changes. */
    method ResetBonus(kind: BonusKind)
      modifies this
      ensures Value() == old(Value()).(bonuses := old(bonuses)[kind := map[]])
    {
      SetBonusMap(kind, map[]);
    }

    /** The string setters of the range-checked fields: on success the field takes the value. */
    method SetScalar(f: ScalarField, value: string) returns (r: Result<(), ParseError>)
      modifies this
      ensures r.Ok? <==> ParseScalar(f, value).Ok?
      ensures r.Err? ==> r.error == ParseScalar(f, value).error && Value() == old(Value())
      ensures r.Ok? ==> Value() == old(Value()).(scalars := old(scalars)[f := ParseScalar(f, value).value])
    {
      var p := ParseScalar(f, value);
      if p.Err? {
        return Err(p.error);
      }
      scalars := scalars[f := p.value];
      r := Ok(());
    }

    /** The `Integer` overloads of those setters: the value is stored without a range check. */
    method SetScalarValue(f: ScalarField, n: int)
      modifies this
      ensures Value() == old(Value()).(scalars := old(scalars)[f := n])
    {
      scalars := scalars[f := n];
    }

    /** `reset*` of a range-checked field: back to its initial value. */
    method ResetScalar(f: ScalarField)
      modifies this
      ensures Value() == old(Value()).(scalars := old(scalars)[f := Initial(f)])
    {
      SetScalarValue(f, Initial(f));
    }

    /** `setUnitAbilitiesGained`: see `UnitAbilitiesGainedAfter`; no other field changes. */
    method SetUnitAbilitiesGained(value: string, unitTypes: set<UnitType>) returns (r: Result<(), ParseError>)
      modifies this
      ensures (r, unitAbilitiesGained) == UnitAbilitiesGainedAfter(old(unitAbilitiesGained), value, unitTypes)
      ensures Value() == old(Value()).(unitAbilitiesGained := unitAbilitiesGained)
    {
      var s := Split(value, ':');
      if |s| < 2 {
        return Err(BadFieldCount(value));
      }
      var ut := s[0];
      if ut !in unitTypes {
        return Err(NoSuchUnit(ut));
      }
      var existed := ut in unitAbilitiesGained;
      var abilities, k := CollectAbilities(s[1..], if existed then unitAbilitiesGained[ut] else {});
      if k < |s| - 1 {
        if existed {
          // the set being grown is the one the map already holds
          unitAbilitiesGained := unitAbilitiesGained[ut := abilities];
        }
        return Err(UnsupportedAbility(s[1..][k]));
      }
      unitAbilitiesGained := unitAbilitiesGained[ut := abilities];
      r := Ok(());
    }

    /** The map overload of `setUnitAbilitiesGained`, and its `clear`/`reset` (with the empty map). */
    method SetUnitAbilitiesGainedMap(m: map<UnitType, set<string>>)
      modifies this
      ensures Value() == old(Value()).(unitAbilitiesGained := m)
    {
      unitAbilitiesGained := m;
    }

    /** `setAirborneForces`, with the option string already read as a boolean; `reset` passes false. */
    method SetAirborneForces(b: bool)
      modifies this
      ensures Value() == old(Value()).(airborneForces := b)
    {
      airborneForces := b;
    }

    /**
     * `setAirborneTypes` / `setAirborneBases("T1:T2:...")`: each named type is added in
     * turn and must exist; an unknown type fails the call but the types before it
     * stay added.
     */
    method AddTypes(t: TypeSetField, value: string, unitTypes: set<UnitType>) returns (r: Result<(), ParseError>)
      modifies this
      ensures r.Ok? <==> FirstNotIn(Split(value, ':'), unitTypes) == |Split(value, ':')|
      ensures Value() == old(Value()).WithTypeSet(t, old(Value()).TypeSet(t) + KnownPrefix(Split(value, ':'), unitTypes))
    {
      r := AddEachType(t, Split(value, ':'), unitTypes);
    }

    /** The loop of `AddTypes`, over the fields already cut apart. */
    method AddEachType(t: TypeSetField, s: seq<string>, unitTypes: set<UnitType>) returns (r: Result<(), ParseError>)
      modifies this
      ensures r.Ok? <==> FirstNotIn(s, unitTypes) == |s|
      ensures Value() == old(Value()).WithTypeSet(t, old(Value()).TypeSet(t) + KnownPrefix(s, unitTypes))
    {
      ghost var k := FirstNotIn(s, unitTypes);
      ghost var start := Value();
      var i := 0;
      while i < |s|
        invariant 0 <= i <= |s| && i <= k
        invariant Value() == start.WithTypeSet(t, start.TypeSet(t) + Elems(s[..i]))
      {
        if s[i] !in unitTypes {
          assert i == k;
          return Err(NoSuchUnit(s[i]));
        }
        AddNextType(t, s, i, start);
        i := i + 1;
      }
      assert i == k;
      r := Ok(());
    }

    /** One step of `AddEachType`: the `i`-th field joins the types added before it. */
    method AddNextType(t: TypeSetField, s: seq<string>, i: nat, ghost start: TechAbility)
      requires i < |s|
      requires Value() == start.WithTypeSet(t, start.TypeSet(t) + Elems(s[..i]))
      modifies this
      ensures Value() == start.WithTypeSet(t, start.TypeSet(t) + Elems(s[..i + 1]))
    {
      ghost var before := start.TypeSet(t) + Elems(s[..i]);
      AddType(t, s[i]);
      start.WithTypeSetTwice(t, before, before + {s[i]});
      ElemsSnoc(s, i);
    }

    /** Adds one unit type to one of the two unit-type sets. */
    method AddType(t: TypeSetField, ut: UnitType)
      modifies this
      ensures Value() == old(Value()).WithTypeSet(t, old(Value()).TypeSet(t) + {ut})
    {
      match t {
        case AirborneTypes => airborneTypes := airborneTypes + {ut};
        case AirborneBases => airborneBases := airborneBases + {ut};
      }
    }

    /** The set overloads of `setAirborneTypes`/`setAirborneBases`, and their `clear`/`reset`. */
    method SetTypeSet(t: TypeSetField, types: set<UnitType>)
      modifies this
      ensures Value() == old(Value()).WithTypeSet(t, types)
    {
      match t
      case AirborneTypes => airborneTypes := types;
      case AirborneBases => airborneBases := types;
    }

    /** `setAirborneTargettedByAA("aaType:T1:...")`: on success the AA type's entry is replaced. */
    method SetAirborneTargettedByAA(value: string, unitTypes: set<UnitType>) returns (r: Result<(), ParseError>)
      modifies this
      ensures r.Ok? <==> ParseTargettedByAA(value, unitTypes).Ok?
      ensures r.Err? ==> Value() == old(Value())
      ensures r.Ok? ==>
        var (aa, types) := ParseTargettedByAA(value, unitTypes).value;
        Value() == old(Value()).(airborneTargettedByAA := old(airborneTargettedByAA)[aa := types])
    {
      var p := ParseTargettedByAA(value, unitTypes);
      if p.Err? {
        return Err(p.error);
      }
      airborneTargettedByAA := airborneTargettedByAA[p.value.0 := p.value.1];
      r := Ok(());
    }

    /** The map overload of `setAirborneTargettedByAA`, and its `clear`/`reset`. */
    method SetAirborneTargettedByAAMap(m: map<string, set<UnitType>>)
      modifies this
      ensures Value() == old(Value()).(airborneTargettedByAA := m)
    {
      airborneTargettedByAA := m;
    }
  }
}
