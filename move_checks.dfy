/**
 * The individual checks `MoveValidator` applies to a proposed move: route
 * restrictions, enemy units on the path, canals, stacking limits, movement
 * extremes, neutral territories and transports that must travel with their
 * cargo.
 *
 * Game properties are gathered in `MoveRules`; relationship-tracker answers
 * that depend on tables outside this model are sets of player names.
 */
module MoveChecks {
  import opened Wrappers
  import opened Units
  import JavaText

  /** Why a move is refused (the error text of `MoveValidationResult`). */
  datatype MoveError =
    | NotOwnerOfAllUnits(player: PlayerName)
    | UnitsNotUnique
    | InvalidRoute
    | OutsideRestrictedTerritories
    | IntoRestrictedTerritories
    | LandUnitsOverOwnedLand(owner: PlayerName)
    | AirUnitsOverOwnedLand(owner: PlayerName)
    | NoUnits
    | NotEnoughUnitsInStart
    | SubmarinesUnderDestroyers
    | EnemyUnitsOnPath
    | OverStackingLimit
    | ThroughImpassable
    | TooPoorToViolateNeutrality
    | CannotViolateNeutrality
    | UnloadMustStop
    | OnlyStartOrEndLand
    | MustStopAtTransport
    | MoveBeforeLoading
    | LoadWithEnemySeaUnits
    | CanalNotControlled(canal: string)
    | CanalNotHeldForTurn(canal: string)
    | OutOfBattleZone
    | Reported(message: string)   // raised by a check that is not part of this model

  /** A unit that may not make the move, with the reason. */
  datatype Disallowance = Disallowance(message: string, unit: Unit)

  const CannotMoveSubmerged := "Cannot move submerged units"
  const CannotEndAtWater := "Not all units can end at water"
  const SeaUnitsOnLand := "Sea units cannot go on land"
  const CannotBeTransported := "Not all units can be transported"
  const TransportsLeaveUnits := "Transports cannot leave their units"
  const StayWithTransport := "Unit must stay with its transport while moving"

  function StackingLimitReached(unitType: string): string
  {
    "UnitType " + unitType + " has reached stacking limit"
  }

  /** The game properties the validator consults. */
  datatype MoveRules = MoveRules(
    editMode: bool,
    movementByTerritoryRestricted: bool,
    submersibleSubs: bool,
    ignoreTransportInMovement: bool,
    ignoreSubInMovement: bool,
    neutralsImpassable: bool,
    neutralsBlitzableProperty: bool,
    neutralCharge: int,
    controlAllCanalsToPass: bool)

  // ---------------------------------------------------------------- neutrals

  /** `isNeutralsBlitzable`: the property, unless neutrals are impassable. */
  predicate NeutralsBlitzable(rules: MoveRules)
  {
    rules.neutralsBlitzableProperty && !rules.neutralsImpassable
  }

  /** The condition under which any neutral land on the route refuses the move. */
  function NeutralsClosed(rules: MoveRules): (r: bool)
    ensures r <==> rules.neutralsImpassable
  {
    rules.neutralsImpassable && !NeutralsBlitzable(rules)
  }

  /** `getNeutralCharge`: the charge per neutral territory times their number. */
  function NeutralCharge(rules: MoveRules, territories: nat): (r: int)
    ensures territories == 0 ==> r == 0
    ensures rules.neutralCharge >= 0 ==> r >= 0
  {
    territories * rules.neutralCharge
  }

  /**
   * `canCrossNeutralTerritory`: the player's PUs (none for the null player)
   * must cover the charge for the empty neutral territories crossed.
   */
  function NeutralCrossingError(rules: MoveRules, pus: Option<int>, emptyNeutrals: nat): (r: Option<MoveError>)
    ensures r.Some? ==> r == Some(TooPoorToViolateNeutrality)
    ensures emptyNeutrals == 0 ==> (r.None? <==> pus.None? || pus.value >= 0)
    ensures pus.None? ==> (r.None? <==> NeutralCharge(rules, emptyNeutrals) <= 0)
  {
    var available := if pus.None? then 0 else pus.value;
    if available < NeutralCharge(rules, emptyNeutrals) then Some(TooPoorToViolateNeutrality) else None
  }

  // ---------------------------------------------------------------- movement restriction

  /** A player's rules attachment restriction: "allowed" or "disallowed" territories. */
  datatype Restriction = Restriction(kind: string, listed: set<string>)

  function RouteNames(route: Route): (r: seq<string>)
    ensures |r| == |route.steps| + 1
    ensures forall i :: 0 <= i < |r| ==> r[i] == route.AllTerritories()[i].name
  {
    seq(|route.steps| + 1, i requires 0 <= i < |route.steps| + 1 => route.AllTerritories()[i].name)
  }

  /** `validateMovementRestrictedByTerritory`, as a specification. */
  function RestrictionError(rules: MoveRules, restriction: Option<Restriction>, route: Route): (r: Option<MoveError>)
  {
    if rules.editMode || !rules.movementByTerritoryRestricted || restriction.None? then None
    else if restriction.value.kind == "allowed" then
      (if exists n :: n in RouteNames(route) && n !in restriction.value.listed then Some(OutsideRestrictedTerritories) else None)
    else if restriction.value.kind == "disallowed" then
      (if exists n :: n in RouteNames(route) && n in restriction.value.listed then Some(IntoRestrictedTerritories) else None)
    else None
  }

  /** Under an "allowed" list, a route is refused exactly when it leaves the list. */
  lemma AllowedListConfinesRoute(rules: MoveRules, listed: set<string>, route: Route)
    requires !rules.editMode && rules.movementByTerritoryRestricted
    ensures RestrictionError(rules, Some(Restriction("allowed", listed)), route).None?
            <==> forall i :: 0 <= i <= |route.steps| ==> route.AllTerritories()[i].name in listed
  {
    var names := RouteNames(route);
    if exists n :: n in names && n !in listed {
      var n :| n in names && n !in listed;
      var i :| 0 <= i < |names| && names[i] == n;
      assert route.AllTerritories()[i].name !in listed;
    }
  }

  /** Under a "disallowed" list, a route is refused exactly when it touches the list. */
  lemma DisallowedListExcludesRoute(rules: MoveRules, listed: set<string>, route: Route)
    requires !rules.editMode && rules.movementByTerritoryRestricted
    ensures RestrictionError(rules, Some(Restriction("disallowed", listed)), route).None?
            <==> forall i :: 0 <= i <= |route.steps| ==> route.AllTerritories()[i].name !in listed
  {
    var names := RouteNames(route);
    if exists n :: n in names && n in listed {
      var n :| n in names && n in listed;
      var i :| 0 <= i < |names| && names[i] == n;
      assert route.AllTerritories()[i].name in listed;
    }
  }

  // ---------------------------------------------------------------- enemy units on the path

  /** Infrastructure, non-enemy and submerged units do not block movement. */
  predicate AlliedOrNonCombat(u: Unit, s: Stance)
  {
    u.isInfrastructure || !EnemyUnit(u, s) || u.submerged
  }

  /** `noEnemyUnitsOnPathMiddleSteps`. */
  predicate NoEnemyUnitsOnPathMiddleSteps(route: Route, s: Stance)
  {
    forall t, u :: t in route.MiddleSteps() && u in t.units ==> AlliedOrNonCombat(u, s)
  }

  /** The ignore rule that `onlyIgnoredUnitsOnPath` applies to one unit, given the two properties. */
  predicate Ignorable(u: Unit, s: Stance, ignoreTransport: bool, ignoreSub: bool)
  {
    u.isInfrastructure || !EnemyUnit(u, s)
    || (ignoreTransport && (IsTransportButNotCombatTransport(u) || IsLand(u)))
    || (ignoreSub && u.isSub)
  }

  predicate TransportOrSubOnly(u: Unit, s: Stance)
  {
    u.isInfrastructure || IsTransportButNotCombatTransport(u) || IsLand(u) || u.isSub || !EnemyUnit(u, s)
  }

  predicate TransportOnly(u: Unit, s: Stance)
  {
    u.isInfrastructure || IsTransportButNotCombatTransport(u) || IsLand(u) || !EnemyUnit(u, s)
  }

  predicate SubOnly(u: Unit, s: Stance)
  {
    u.isInfrastructure || u.isSub || !EnemyUnit(u, s)
  }

  /** A sea zone that `onlyIgnoredUnitsOnPath` lets the move pass. */
  predicate IgnorableSeaZone(t: Territory, s: Stance, ignoreTransport: bool, ignoreSub: bool)
  {
    (ignoreTransport || ignoreSub) && forall u :: u in t.units ==> Ignorable(u, s, ignoreTransport, ignoreSub)
  }

  /** The territories `onlyIgnoredUnitsOnPath` inspects. */
  function IgnoredPath(route: Route, ignoreRouteEnd: bool): (r: seq<Territory>)
    ensures ignoreRouteEnd ==> r == route.MiddleSteps()
    ensures !ignoreRouteEnd && route.steps != [] ==> r == route.steps
    ensures !ignoreRouteEnd && route.steps == [] ==> r == [route.start]
  {
    if ignoreRouteEnd then route.MiddleSteps()
    else if route.steps == [] then [route.start]
    else route.steps
  }

  /** The loop of `onlyIgnoredUnitsOnPath`, from the territory `steps[0]` on, with `validMove` so far. */
  function IgnoredScan(steps: seq<Territory>, s: Stance, ignoreTransport: bool, ignoreSub: bool, validMove: bool): (r: bool)
    ensures r <==> (validMove || exists t :: t in steps && t.isWater)
                   && forall t :: t in steps && t.isWater ==> IgnorableSeaZone(t, s, ignoreTransport, ignoreSub)
  {
    if steps == [] then validMove
    else
      var t := steps[0];
      assert forall x :: x in steps <==> x == t || x in steps[1..];
      if !t.isWater then IgnoredScan(steps[1..], s, ignoreTransport, ignoreSub, validMove)
      else if ignoreTransport && ignoreSub && forall u :: u in t.units ==> TransportOrSubOnly(u, s) then
        IgnoredScan(steps[1..], s, ignoreTransport, ignoreSub, true)
      else if ignoreTransport && !ignoreSub && forall u :: u in t.units ==> TransportOnly(u, s) then
        IgnoredScan(steps[1..], s, ignoreTransport, ignoreSub, true)
      else if !ignoreTransport && ignoreSub && forall u :: u in t.units ==> SubOnly(u, s) then
        IgnoredScan(steps[1..], s, ignoreTransport, ignoreSub, true)
      else false
  }

  /**
   * `onlyIgnoredUnitsOnPath`: the path crosses at least one sea zone, and
   * every sea zone on it holds only units the game's properties ignore.
   */
  function OnlyIgnoredUnitsOnPath(rules: MoveRules, route: Route, s: Stance, ignoreRouteEnd: bool): (r: bool)
    ensures r <==> (exists t :: t in IgnoredPath(route, ignoreRouteEnd) && t.isWater)
                   && (forall t :: t in IgnoredPath(route, ignoreRouteEnd) && t.isWater
                         ==> IgnorableSeaZone(t, s, rules.ignoreTransportInMovement, rules.ignoreSubInMovement))
  {
    IgnoredScan(IgnoredPath(route, ignoreRouteEnd), s, rules.ignoreTransportInMovement, rules.ignoreSubInMovement, false)
  }

  /** With neither property set, no path counts as holding only ignored units. */
  lemma NothingIgnoredWithoutProperties(rules: MoveRules, route: Route, s: Stance, ignoreRouteEnd: bool)
    requires !rules.ignoreTransportInMovement && !rules.ignoreSubInMovement
    ensures !OnlyIgnoredUnitsOnPath(rules, route, s, ignoreRouteEnd)
  {
  }

  // ---------------------------------------------------------------- units and water

  predicate CantGoOnWater(u: Unit) { !u.isSea && !u.isAir && u.transportCost == -1 }

  /** `getUnitsThatCantGoOnWater`: land units that no transport can carry. */
  function UnitsThatCantGoOnWater(units: seq<Unit>): (r: seq<Unit>)
    ensures forall u :: u in r <==> u in units && IsLand(u) && !CanBeTransported(u)
  {
    var r := Filter(CantGoOnWater, units);
    forall u ensures u in r <==> u in units && CantGoOnWater(u) {
      FilterMembership(CantGoOnWater, units, u);
    }
    r
  }

  // ---------------------------------------------------------------- movement extremes

  /** The largest `movementLeft` among `units`, and 0 when that is larger. */
  function MaxMovement(units: seq<Unit>): (r: int)
    ensures r >= 0
    ensures forall u :: u in units ==> u.movementLeft <= r
    ensures r == 0 || exists u :: u in units && u.movementLeft == r
  {
    if units == [] then 0
    else
      var rest := MaxMovement(units[..|units| - 1]);
      var last := units[|units| - 1];
      assert units == units[..|units| - 1] + [last];
      if last.movementLeft > rest then last.movementLeft else rest
  }

  /** The smallest `movementLeft` among `units`, and `Integer.MAX_VALUE` when that is smaller. */
  function LeastMovement(units: seq<Unit>): (r: int)
    ensures r <= JavaText.MaxInt
    ensures forall u :: u in units ==> r <= u.movementLeft
    ensures r == JavaText.MaxInt || exists u :: u in units && u.movementLeft == r
  {
    if units == [] then JavaText.MaxInt
    else
      var rest := LeastMovement(units[..|units| - 1]);
      var last := units[|units| - 1];
      assert units == units[..|units| - 1] + [last];
      if last.movementLeft < rest then last.movementLeft else rest
  }

  /** `getMaxMovement`: refuses an empty collection ("no units"). */
  method GetMaxMovement(units: seq<Unit>) returns (r: Result<int, string>)
    ensures r.Err? <==> units == []
    ensures r.Ok? ==> r.value == MaxMovement(units)
  {
    if |units| == 0 {
      return Err("no units");
    }
    var max := 0;
    var i := 0;
    while i < |units|
      invariant 0 <= i <= |units|
      invariant max == MaxMovement(units[..i])
    {
      assert units[..i + 1][..i] == units[..i];
      var left := units[i].movementLeft;
      max := if left > max then left else max;
      i := i + 1;
    }
    assert units[..i] == units;
    return Ok(max);
  }

  /** `getLeastMovement`: refuses an empty collection ("no units"). */
  method GetLeastMovement(units: seq<Unit>) returns (r: Result<int, string>)
    ensures r.Err? <==> units == []
    ensures r.Ok? ==> r.value == LeastMovement(units)
  {
    if |units| == 0 {
      return Err("no units");
    }
    var least := JavaText.MaxInt;
    var i := 0;
    while i < |units|
      invariant 0 <= i <= |units|
      invariant least == LeastMovement(units[..i])
    {
      assert units[..i + 1][..i] == units[..i];
      var left := units[i].movementLeft;
      least := if left < least then left else least;
      i := i + 1;
    }
    assert units[..i] == units;
    return Ok(least);
  }

  // ---------------------------------------------------------------- stacking limits

  /** Which of a unit type's two stacking limits applies in a territory. */
  datatype StackKind = MovementLimit | AttackingLimit

  /** Attacking into enemy (not unowned sea) territory or a territory holding enemy units. */
  function StackKindAt(t: Territory, s: Stance): (r: StackKind)
    ensures r == AttackingLimit <==> IsEnemyTerritory(t, s) || exists u :: u in t.units && EnemyUnit(u, s)
  {
    if IsEnemyTerritory(t, s) || exists u :: u in t.units && EnemyUnit(u, s) then AttackingLimit else MovementLimit
  }

  /** `Match.countMatches(units, unitIsOfType(ut))`. */
  function CountOfType(units: seq<Unit>, ut: string): (r: nat)
    ensures r <= |units|
  {
    if units == [] then 0
    else CountOfType(units[..|units| - 1], ut) + (if units[|units| - 1].unitType == ut then 1 else 0)
  }

  lemma CountOfTypeAppend(units: seq<Unit>, u: Unit, ut: string)
    ensures CountOfType(units + [u], ut) == CountOfType(units, ut) + (if u.unitType == ut then 1 else 0)
  {
    assert (units + [u])[..|units|] == units;
  }

  /**
   * Whether one more unit fits: `limits` maps a unit type to the number of
   * units of it that may still enter (a type without an entry has no limit).
   */
  predicate Fits(u: Unit, admitted: seq<Unit>, limits: map<string, int>)
  {
    u.unitType !in limits || limits[u.unitType] - CountOfType(admitted, u.unitType) > 0
  }

  /** The units admitted at one step and those refused there, each in order. */
  function StackSplit(units: seq<Unit>, limits: map<string, int>): (r: (seq<Unit>, seq<Unit>))
    ensures |r.0| + |r.1| == |units|
  {
    if units == [] then ([], [])
    else
      var split := StackSplit(units[..|units| - 1], limits);
      var u := units[|units| - 1];
      if Fits(u, split.0, limits) then (split.0 + [u], split.1) else (split.0, split.1 + [u])
  }

  /** No unit type is admitted beyond its limit (nor at all when the limit is not positive). */
  lemma {:induction false} StackWithinLimits(units: seq<Unit>, limits: map<string, int>, ut: string)
    requires ut in limits
    ensures CountOfType(StackSplit(units, limits).0, ut) <= if limits[ut] < 0 then 0 else limits[ut]
  {
    if units != [] {
      var split := StackSplit(units[..|units| - 1], limits);
      var u := units[|units| - 1];
      StackWithinLimits(units[..|units| - 1], limits, ut);
      if Fits(u, split.0, limits) {
        CountOfTypeAppend(split.0, u, ut);
      }
    }
  }

  lemma {:induction false} CountOfTypeGrows(admitted: seq<Unit>, more: seq<Unit>, ut: string)
    ensures CountOfType(admitted + more, ut) >= CountOfType(admitted, ut)
  {
    if more != [] {
      var init := more[..|more| - 1];
      CountOfTypeGrows(admitted, init, ut);
      assert admitted + more == (admitted + init) + [more[|more| - 1]];
      CountOfTypeAppend(admitted + init, more[|more| - 1], ut);
      CountOfTypeAppend(admitted + init, more[|more| - 1], ut);
    } else {
      assert admitted + more == admitted;
    }
  }

  lemma {:induction false} AdmittedOnlyGrows(units: seq<Unit>, limits: map<string, int>)
    requires units != []
    ensures var before := StackSplit(units[..|units| - 1], limits).0;
            |before| <= |StackSplit(units, limits).0| && StackSplit(units, limits).0[..|before|] == before
  {
    if units != [] {
      var split := StackSplit(units[..|units| - 1], limits);
      var u := units[|units| - 1];
      if Fits(u, split.0, limits) {
        assert StackSplit(units, limits).0 == split.0 + [u];
      } else {
        assert StackSplit(units, limits).0 == split.0 + [];
      }
    }
  }

  /** A unit is refused only when its type has a limit and the admitted units already reach it. */
  lemma {:induction false} RefusedAtLimit(units: seq<Unit>, limits: map<string, int>, v: Unit)
    requires v in StackSplit(units, limits).1
    ensures v.unitType in limits && CountOfType(StackSplit(units, limits).0, v.unitType) >= limits[v.unitType]
  {
    var split := StackSplit(units[..|units| - 1], limits);
    var u := units[|units| - 1];
    AdmittedOnlyGrows(units, limits);
    var after := StackSplit(units, limits).0;
    assert after == split.0 + after[|split.0|..];
    CountOfTypeGrows(split.0, after[|split.0|..], v.unitType);
    if v in split.1 {
      RefusedAtLimit(units[..|units| - 1], limits, v);
    } else {
      assert v == u && !Fits(u, split.0, limits);
    }
  }

  /** Every unit lands on exactly one side of the split. */
  lemma {:induction false} StackSplitPartitions(units: seq<Unit>, limits: map<string, int>)
    ensures multiset(StackSplit(units, limits).0) + multiset(StackSplit(units, limits).1) == multiset(units)
  {
    if units != [] {
      var init, u := units[..|units| - 1], units[|units| - 1];
      var split := StackSplit(init, limits);
      StackSplitPartitions(init, limits);
      assert units == init + [u];
      assert multiset(units) == multiset(init) + multiset{u};
      if Fits(u, split.0, limits) {
        assert multiset(split.0 + [u]) == multiset(split.0) + multiset{u};
      } else {
        assert multiset(split.1 + [u]) == multiset(split.1) + multiset{u};
      }
    }
  }

  /** A unit whose type has no limit at this step is never refused. */
  lemma {:induction false} UnlimitedAdmitted(units: seq<Unit>, limits: map<string, int>, v: Unit)
    requires v in units && v.unitType !in limits
    ensures v in StackSplit(units, limits).0
  {
    var u := units[|units| - 1];
    assert units == units[..|units| - 1] + [u];
    if v != u {
      UnlimitedAdmitted(units[..|units| - 1], limits, v);
    }
  }

  /** The per-step loop of `validateBasic`'s stacking test. */
  method SplitAtStackingLimit(units: seq<Unit>, limits: map<string, int>) returns (admitted: seq<Unit>, refused: seq<Unit>)
    ensures (admitted, refused) == StackSplit(units, limits)
  {
    admitted, refused := [], [];
    var i := 0;
    while i < |units|
      invariant 0 <= i <= |units|
      invariant (admitted, refused) == StackSplit(units[..i], limits)
    {
      assert units[..i + 1][..i] == units[..i];
      var u := units[i];
      if u.unitType !in limits || limits[u.unitType] - CountOfType(admitted, u.unitType) > 0 {
        admitted := admitted + [u];
      } else {
        refused := refused + [u];
      }
      i := i + 1;
    }
    assert units[..i] == units;
  }

  // ---------------------------------------------------------------- canals

  /**
   * A canal attachment: the sea zones of every canal of its name, the land
   * territories whose owners control it, and the unit types it does not stop.
   */
  datatype Canal = Canal(name: string, seaZones: set<string>, landTerritories: seq<Territory>, excludedUnitTypes: set<string>)

  /** Some consecutive pair of `ts` holds all of `zones`. */
  function PairScan(ts: seq<Territory>, zones: set<string>): (r: bool)
    ensures r <==> exists i :: 1 <= i < |ts| && zones <= {ts[i - 1].name, ts[i].name}
  {
    if |ts| < 2 then false
    else if zones <= {ts[0].name, ts[1].name} then true
    else
      var r := PairScan(ts[1..], zones);
      assert forall i :: 1 <= i < |ts| - 1 ==> ts[1..][i - 1] == ts[i] && ts[1..][i] == ts[i + 1];
      assert r ==> exists i :: 1 <= i < |ts| && zones <= {ts[i - 1].name, ts[i].name} by {
        if r {
          var i :| 1 <= i < |ts| - 1 && zones <= {ts[1..][i - 1].name, ts[1..][i].name};
          assert zones <= {ts[i].name, ts[i + 1].name};
        }
      }
      r
  }

  /** `isCanalOnRoute`: with no route every canal counts; otherwise the route steps across it. */
  function IsCanalOnRoute(canal: Canal, route: Option<Route>): (r: bool)
    ensures route.None? ==> r
    ensures route.Some? ==> (r <==> exists i :: (1 <= i <= |route.value.steps|
              && canal.seaZones <= {route.value.AllTerritories()[i - 1].name, route.value.AllTerritories()[i].name}))
  {
    if route.None? then true else PairScan(route.value.AllTerritories(), canal.seaZones)
  }

  /** Whether the mover may pass each border territory's owner's canals, and which territories changed hands this turn. */
  datatype CanalAccess = CanalAccess(passableOwners: set<PlayerName>, conquered: set<string>)

  predicate BorderHeld(b: Territory, access: CanalAccess)
  {
    b.owner in access.passableOwners && b.name !in access.conquered
  }

  function BorderFailure(name: string, borders: seq<Territory>, access: CanalAccess): (r: Option<MoveError>)
    ensures r.None? <==> forall b :: b in borders ==> BorderHeld(b, access)
    ensures r.Some? ==> r.value == CanalNotControlled(name) || r.value == CanalNotHeldForTurn(name)
  {
    if borders == [] then None
    else
      assert forall x :: x in borders <==> x == borders[0] || x in borders[1..];
      assert borders[0] in borders;
      if borders[0].owner !in access.passableOwners then Some(CanalNotControlled(name))
      else if borders[0].name in access.conquered then Some(CanalNotHeldForTurn(name))
      else BorderFailure(name, borders[1..], access)
  }

  predicate AllExcluded(units: Option<seq<Unit>>, canal: Canal)
  {
    units.Some? && units.value != [] && forall u :: u in units.value ==> u.unitType in canal.excludedUnitTypes
  }

  /**
   * `canPassThroughCanal`: units all of excluded types pass; otherwise every
   * border territory must be held, and held since the turn began.
   */
  function CanPassThroughCanal(canal: Canal, units: Option<seq<Unit>>, access: CanalAccess): (r: Option<MoveError>)
    ensures AllExcluded(units, canal) ==> r.None?
    ensures r.None? <==> AllExcluded(units, canal) || forall b :: b in canal.landTerritories ==> BorderHeld(b, access)
    ensures r.Some? ==> r.value == CanalNotControlled(canal.name) || r.value == CanalNotHeldForTurn(canal.name)
  {
    if AllExcluded(units, canal) then None else BorderFailure(canal.name, canal.landTerritories, access)
  }

  /**
   * The loop of `validateCanal` at one territory, continuing from `failure`:
   * it stops at the first passable canal when one canal suffices, at the first
   * impassable one when all must be controlled.
   */
  function CanalScan(canals: seq<Canal>, route: Option<Route>, units: Option<seq<Unit>>, access: CanalAccess,
                     controlAll: bool, failure: Option<MoveError>): Option<MoveError>
  {
    if canals == [] then failure
    else if !IsCanalOnRoute(canals[0], route) then CanalScan(canals[1..], route, units, access, controlAll, failure)
    else
      var f := CanPassThroughCanal(canals[0], units, access);
      if (!controlAll && f.None?) || (controlAll && f.Some?) then f
      else CanalScan(canals[1..], route, units, access, controlAll, f)
  }

  predicate Passable(c: Canal, route: Option<Route>, units: Option<seq<Unit>>, access: CanalAccess)
  {
    CanPassThroughCanal(c, units, access).None?
  }

  /** When every canal must be controlled: passable exactly when every canal on the route is. */
  lemma {:induction false} ControlAllCanals(canals: seq<Canal>, route: Option<Route>, units: Option<seq<Unit>>,
                                            access: CanalAccess, failure: Option<MoveError>)
    ensures CanalScan(canals, route, units, access, true, failure).None?
            <==> (forall c :: c in canals && IsCanalOnRoute(c, route) ==> Passable(c, route, units, access))
                 && (failure.None? || exists c :: c in canals && IsCanalOnRoute(c, route))
  {
    if canals != [] {
      assert forall x :: x in canals <==> x == canals[0] || x in canals[1..];
      var f := CanPassThroughCanal(canals[0], units, access);
      if !IsCanalOnRoute(canals[0], route) {
        ControlAllCanals(canals[1..], route, units, access, failure);
      } else if f.None? {
        ControlAllCanals(canals[1..], route, units, access, f);
      }
    }
  }

  /** When one canal suffices: passable exactly when some canal on the route is, or none is on it. */
  lemma {:induction false} ControlAnyCanal(canals: seq<Canal>, route: Option<Route>, units: Option<seq<Unit>>,
                                           access: CanalAccess, failure: Option<MoveError>)
    ensures CanalScan(canals, route, units, access, false, failure).None?
            <==> (exists c :: c in canals && IsCanalOnRoute(c, route) && Passable(c, route, units, access))
                 || (failure.None? && forall c :: c in canals ==> !IsCanalOnRoute(c, route))
  {
    if canals != [] {
      assert forall x :: x in canals <==> x == canals[0] || x in canals[1..];
      var f := CanPassThroughCanal(canals[0], units, access);
      if !IsCanalOnRoute(canals[0], route) {
        ControlAnyCanal(canals[1..], route, units, access, failure);
      } else if f.Some? {
        ControlAnyCanal(canals[1..], route, units, access, f);
      }
    }
  }

  /** `validateCanal(territory, route, units, player)`. */
  method ValidateCanalAt(canals: seq<Canal>, route: Option<Route>, units: Option<seq<Unit>>, access: CanalAccess,
                         controlAll: bool) returns (failure: Option<MoveError>)
    ensures failure == CanalScan(canals, route, units, access, controlAll, None)
  {
    failure := None;
    var i := 0;
    while i < |canals|
      invariant 0 <= i <= |canals|
      invariant CanalScan(canals[i..], route, units, access, controlAll, failure)
                == CanalScan(canals, route, units, access, controlAll, None)
    {
      assert canals[i..][1..] == canals[i + 1..];
      if !IsCanalOnRoute(canals[i], route) {
        i := i + 1;
        continue;
      }
      failure := CanPassThroughCanal(canals[i], units, access);
      var canPass := failure.None?;
      if (!controlAll && canPass) || (controlAll && !canPass) {
        return;
      }
      i := i + 1;
    }
  }

  /** The canal attachments of a territory (none when it has no entry). */
  function CanalsAt(canalsAt: map<string, seq<Canal>>, t: Territory): seq<Canal>
  {
    if t.name in canalsAt then canalsAt[t.name] else []
  }

  /** The first territory of `ts` whose canals refuse the move, in route order. */
  function RouteCanalFailure(ts: seq<Territory>, route: Route, units: seq<Unit>, canalsAt: map<string, seq<Canal>>,
                             access: CanalAccess, controlAll: bool): (r: Option<MoveError>)
    ensures r.None? <==> forall t :: t in ts ==>
              CanalScan(CanalsAt(canalsAt, t), Some(route), Some(units), access, controlAll, None).None?
    ensures r.Some? ==> exists t :: (t in ts &&
              r == CanalScan(CanalsAt(canalsAt, t), Some(route), Some(units), access, controlAll, None))
  {
    if ts == [] then None
    else
      assert forall x :: x in ts <==> x == ts[0] || x in ts[1..];
      var here := CanalScan(CanalsAt(canalsAt, ts[0]), Some(route), Some(units), access, controlAll, None);
      if here.Some? then here else RouteCanalFailure(ts[1..], route, units, canalsAt, access, controlAll)
  }

  /** `validateCanal(route, units, player)`: the first failure over the route's territories. */
  method ValidateCanalRoute(route: Route, units: seq<Unit>, canalsAt: map<string, seq<Canal>>, access: CanalAccess,
                            controlAll: bool) returns (failure: Option<MoveError>)
    ensures failure == RouteCanalFailure(route.AllTerritories(), route, units, canalsAt, access, controlAll)
  {
    var ts := route.AllTerritories();
    var i := 0;
    while i < |ts|
      invariant 0 <= i <= |ts|
      invariant RouteCanalFailure(ts[i..], route, units, canalsAt, access, controlAll)
                == RouteCanalFailure(ts, route, units, canalsAt, access, controlAll)
    {
      assert ts[i..][1..] == ts[i + 1..];
      failure := ValidateCanalAt(CanalsAt(canalsAt, ts[i]), Some(route), Some(units), access, controlAll);
      if failure.Some? {
        return;
      }
      i := i + 1;
    }
    return None;
  }

  // ---------------------------------------------------------------- transports and their cargo

  /** `TransportTracker.transporting`: the units in `pool` carried by `transport`. */
  function Transporting(transport: Unit, pool: seq<Unit>): seq<Unit>
  {
    Filter((u: Unit) => u.transportedBy == Some(transport.id), pool)
  }

  predicate LeavesCargo(u: Unit, units: seq<Unit>, pool: seq<Unit>)
  {
    CanTransport(u) && !ContainsAll(units, Transporting(u, pool))
  }

  predicate LeavesTransport(u: Unit, units: seq<Unit>)
  {
    CanBeTransported(u) && u.transportedBy.Some? && !HasId(units, u.transportedBy.value)
  }

  /**
   * The disallowances of `validateTransport` for a sea-to-sea move, for the
   * units `moving[..]` examined so far: a transport leaving cargo behind,
   * then cargo leaving its transport.
   */
  function StickTogether(moving: seq<Unit>, units: seq<Unit>, pool: seq<Unit>): seq<Disallowance>
  {
    if moving == [] then []
    else
      var u := moving[|moving| - 1];
      StickTogether(moving[..|moving| - 1], units, pool)
      + (if LeavesCargo(u, units, pool) then [Disallowance(TransportsLeaveUnits, u)] else [])
      + (if LeavesTransport(u, units) then [Disallowance(StayWithTransport, u)] else [])
  }

  /** Exactly the transports that would leave cargo behind, and the cargo that would leave its transport, are refused. */
  lemma {:induction false} StickTogetherRefuses(moving: seq<Unit>, units: seq<Unit>, pool: seq<Unit>, u: Unit)
    ensures Disallowance(TransportsLeaveUnits, u) in StickTogether(moving, units, pool)
            <==> u in moving && LeavesCargo(u, units, pool)
    ensures Disallowance(StayWithTransport, u) in StickTogether(moving, units, pool)
            <==> u in moving && LeavesTransport(u, units)
    ensures forall d :: d in StickTogether(moving, units, pool) ==>
              d.message == TransportsLeaveUnits || d.message == StayWithTransport
  {
    if moving != [] {
      StickTogetherRefuses(moving[..|moving| - 1], units, pool, u);
      assert moving == moving[..|moving| - 1] + [moving[|moving| - 1]];
    }
  }
}
