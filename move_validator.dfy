/**
 * `MoveValidator.validateMove`: a proposed move is run through a fixed
 * sequence of checks, each of which may add disallowed units to the
 * `MoveValidationResult` and may set its error; the first check that sets an
 * error ends validation.
 *
 * Each check is specified by a function from the result so far to the new
 * result (a `Verdict`), and implemented by a method that updates a
 * `MoveValidationResult` object in place. The checks whose work lies in code
 * outside this model (combat and non-combat movement, air landing, paratroops,
 * fuel, parts of `validateBasic` and of the transport checks) enter as
 * `PassOutcome`s in `MoveFacts`.
 */
module MoveValidator {
  import opened Wrappers
  import opened Units
  import opened MoveChecks

  /** The contents of a `MoveValidationResult`. */
  datatype Verdict = Verdict(error: Option<MoveError>, disallowed: seq<Disallowance>)

  const Fresh := Verdict(None, [])

  /** `r` keeps everything `v` had disallowed, in order, at its front. */
  predicate Extends(r: Verdict, v: Verdict)
  {
    |v.disallowed| <= |r.disallowed| && r.disallowed[..|v.disallowed|] == v.disallowed
  }

  function Fail(v: Verdict, e: MoveError): Verdict
  {
    Verdict(Some(e), v.disallowed)
  }

  /** One disallowance with the same message for each unit of `us`, in order. */
  function Disallow(message: string, us: seq<Unit>): (r: seq<Disallowance>)
    ensures |r| == |us|
    ensures forall i :: 0 <= i < |us| ==> r[i] == Disallowance(message, us[i])
  {
    seq(|us|, i requires 0 <= i < |us| => Disallowance(message, us[i]))
  }

  function AddAll(v: Verdict, message: string, us: seq<Unit>): Verdict
  {
    Verdict(v.error, v.disallowed + Disallow(message, us))
  }

  /** What a check outside this model adds: disallowed units, then perhaps an error. */
  datatype PassOutcome = PassOutcome(disallowed: seq<Disallowance>, error: Option<MoveError>)

  function Apply(v: Verdict, o: PassOutcome): Verdict
  {
    Verdict(if o.error.Some? then o.error else v.error, v.disallowed + o.disallowed)
  }

  /** What the game data answers about this move, beyond the units and the route. */
  datatype MoveFacts = MoveFacts(
    carried: set<UnitId>,                    // transported by or dependent on another unit of the move
    validRoute: bool,                        // `GameMap.isValidRoute`
    landBlockedOwners: set<PlayerName>,      // owners whose land the mover's land units may not cross
    airBlockedOwners: set<PlayerName>,       // owners whose land the mover's air units may not cross
    restriction: Option<Restriction>,        // the mover's movement restriction, if any
    combatPass: PassOutcome,                 // `validateCombat` or `validateNonCombat`
    basicPrefix: PassOutcome,                // `validateBasic` up to its end-at-water test
    nonParatroopers: bool,                   // `nonParatroopersPresent(player, units)`
    nonParatroopersLandAndAir: bool,         // the same for the land and air units
    stackLimits: map<(StackKind, string), map<string, int>>,  // per kind and territory: type -> units that may still enter
    playerStackingViolations: set<(StackKind, string)>,      // where the player attachment's limit is exceeded
    pus: Option<int>,                        // the mover's PUs; None for the null player
    emptyNeutrals: nat,                      // `MoveDelegate.getEmptyNeutral(route).size()`
    airCanLand: PassOutcome,                 // `AirMovementValidator.validateAirCanLand`
    unloadDisallowed: seq<Disallowance>,     // the per-transport unload checks
    justWentToWar: bool,                     // with the owners of the units at the route's end
    loadRemainder: PassOutcome,              // the load checks after the enemy-at-sea test
    paratroops: PassOutcome,                 // `validateParatroops`
    canalsAt: map<string, seq<Canal>>,       // `CanalAttachment.get` per territory name
    canalOwners: set<PlayerName>,            // owners whose canals the mover may pass
    conquered: set<string>,                  // territories conquered this turn
    fuel: PassOutcome,                       // `validateFuel`
    pendingBattleAtStart: bool,
    movedIntoEnd: bool)                      // some unit of the move entered the route's end earlier this turn

  datatype MoveRequest = MoveRequest(
    units: seq<Unit>, route: Route, mover: Stance, transportsToLoad: seq<Unit>, rules: MoveRules, facts: MoveFacts)

  predicate Submerged(u: Unit) { u.submerged }
  predicate IsSeaUnit(u: Unit) { u.isSea }
  predicate LimitedByStacking(u: Unit) { u.hasStackingLimit }
  predicate NotTransportable(u: Unit) { !CanBeTransported(u) }
  predicate NotBeingTransported(u: Unit) { u.transportedBy.None? }

  predicate AnyLand(units: seq<Unit>) { exists u :: u in units && IsLand(u) }
  predicate AnyAir(units: seq<Unit>) { exists u :: u in units && u.isAir }

  // ---------------------------------------------------------------- validateFirst

  function FreeUnits(req: MoveRequest): seq<Unit>
  {
    Filter((u: Unit) => u.id !in req.facts.carried, req.units)
  }

  /** Outside edit mode, the units not carried by others must be the mover's, and there must be some. */
  function OwnershipError(req: MoveRequest): (r: Option<MoveError>)
  {
    if req.units != [] && !req.rules.editMode
       && (FreeUnits(req) == [] || exists u :: u in FreeUnits(req) && !OwnedBy(u, req.mover))
    then Some(NotOwnerOfAllUnits(req.mover.player))
    else None
  }

  /** The first land territory of `ts` whose owner the moving land or air units may not cross. */
  function LandGate(ts: seq<Territory>, hasLand: bool, hasAir: bool, facts: MoveFacts): (r: Option<MoveError>)
    ensures r.None? <==> forall t :: t in ts && !t.isWater ==>
              (!hasLand || t.owner !in facts.landBlockedOwners) && (!hasAir || t.owner !in facts.airBlockedOwners)
  {
    if ts == [] then None
    else
      assert forall x :: x in ts <==> x == ts[0] || x in ts[1..];
      assert ts[0] in ts;
      if !ts[0].isWater && hasLand && ts[0].owner in facts.landBlockedOwners then Some(LandUnitsOverOwnedLand(ts[0].owner))
      else if !ts[0].isWater && hasAir && ts[0].owner in facts.airBlockedOwners then Some(AirUnitsOverOwnedLand(ts[0].owner))
      else LandGate(ts[1..], hasLand, hasAir, facts)
  }

  /** `validateFirst`. */
  function FirstPass(v: Verdict, req: MoveRequest): (r: Verdict)
    ensures Extends(r, v)
    ensures !Distinct(req.units) ==> r.error.Some?
    ensures req.units == [] ==> r.error.Some?
    ensures !req.facts.validRoute ==> r.error.Some?
    ensures !ContainsAll(req.route.start.units, req.units) ==> r.error.Some?
    ensures v.error.None? && r.error.None? ==> r.disallowed == v.disallowed + Disallow(CannotMoveSubmerged, Filter(Submerged, req.units))
  {
    var units := req.units;
    var route := req.route;
    var gate := LandGate(route.AllTerritories(), AnyLand(units), AnyAir(units), req.facts);
    if OwnershipError(req).Some? then Verdict(OwnershipError(req), v.disallowed)
    else if !Distinct(units) then Fail(v, UnitsNotUnique)
    else if !req.facts.validRoute then Fail(v, InvalidRoute)
    else if RestrictionError(req.rules, req.facts.restriction, route).Some? then
      Verdict(RestrictionError(req.rules, req.facts.restriction, route), v.disallowed)
    else if gate.Some? then Verdict(gate, v.disallowed)
    else if units == [] then Fail(v, NoUnits)
    else
      var w := AddAll(v, CannotMoveSubmerged, Filter(Submerged, units));
      if !ContainsAll(route.start.units, units) then Fail(w, NotEnoughUnitsInStart) else w
  }

  /** A move that passes `validateFirst` outside edit mode moves only the mover's own units (or units they carry). */
  lemma FirstPassOwnership(v: Verdict, req: MoveRequest, u: Unit)
    requires v.error.None? && !req.rules.editMode && FirstPass(v, req).error.None?
    requires u in req.units && u.id !in req.facts.carried
    ensures OwnedBy(u, req.mover)
  {
    FilterMembership((x: Unit) => x.id !in req.facts.carried, req.units, u);
  }

  /** Every submerged unit of an accepted move is disallowed. */
  lemma FirstPassRefusesSubmerged(v: Verdict, req: MoveRequest, u: Unit)
    requires v.error.None? && FirstPass(v, req).error.None?
    requires u in req.units && u.submerged
    ensures Disallowance(CannotMoveSubmerged, u) in FirstPass(v, req).disallowed
  {
    FilterMembership(Submerged, req.units, u);
    var sub := Filter(Submerged, req.units);
    var i :| 0 <= i < |sub| && sub[i] == u;
    var r := FirstPass(v, req).disallowed;
    assert r[|v.disallowed| + i] == Disallowance(CannotMoveSubmerged, u);
  }

  // ---------------------------------------------------------------- validateNonEnemyUnitsOnPath

  /** `enemyDestroyerOnPath`: some middle step of the route holds an enemy destroyer. */
  predicate EnemyDestroyerOnPath(route: Route, s: Stance)
  {
    exists t, u :: t in route.MiddleSteps() && u in t.units && u.isDestroyer && EnemyUnit(u, s)
  }

  /** Every unit not being carried is a submarine. */
  predicate OnlySubmarinesMoving(units: seq<Unit>)
  {
    var m := Filter(NotBeingTransported, units);
    m != [] && forall u :: u in m ==> u.isSub
  }

  /** `validateNonEnemyUnitsOnPath`. */
  function NonEnemyPass(v: Verdict, req: MoveRequest): (r: Verdict)
    ensures r.disallowed == v.disallowed
    ensures r.error != v.error ==> r.error == Some(EnemyUnitsOnPath) || r.error == Some(SubmarinesUnderDestroyers)
    ensures r.error != v.error ==> !req.rules.editMode && !NoEnemyUnitsOnPathMiddleSteps(req.route, req.mover)
                                   && !AllAir(req.units)
    // only submarines (and what they carry) moving under an enemy destroyer
    ensures r.error != v.error && r.error == Some(SubmarinesUnderDestroyers) ==>
              req.rules.submersibleSubs && OnlySubmarinesMoving(req.units) && EnemyDestroyerOnPath(req.route, req.mover)
    ensures !req.rules.editMode && !NoEnemyUnitsOnPathMiddleSteps(req.route, req.mover) && !AllAir(req.units)
            && req.rules.submersibleSubs && OnlySubmarinesMoving(req.units) && EnemyDestroyerOnPath(req.route, req.mover)
            ==> r == Fail(v, SubmarinesUnderDestroyers)
    // any other move past enemy units, unless only ignorable units stand on the path
    ensures r.error != v.error && r.error == Some(EnemyUnitsOnPath) ==>
              !(req.rules.submersibleSubs && OnlySubmarinesMoving(req.units)) && req.facts.nonParatroopers
              && !OnlyIgnoredUnitsOnPath(req.rules, req.route, req.mover, true)
    ensures !req.rules.editMode && !NoEnemyUnitsOnPathMiddleSteps(req.route, req.mover) && !AllAir(req.units)
            && !(req.rules.submersibleSubs && OnlySubmarinesMoving(req.units))
            && !OnlyIgnoredUnitsOnPath(req.rules, req.route, req.mover, true) && req.facts.nonParatroopers
            ==> r == Fail(v, EnemyUnitsOnPath)
  {
    if req.rules.editMode || NoEnemyUnitsOnPathMiddleSteps(req.route, req.mover) || AllAir(req.units) then v
    else if req.rules.submersibleSubs && OnlySubmarinesMoving(req.units) then
      (if EnemyDestroyerOnPath(req.route, req.mover) then Fail(v, SubmarinesUnderDestroyers) else v)
    else if OnlyIgnoredUnitsOnPath(req.rules, req.route, req.mover, true) then v
    else if req.facts.nonParatroopers then Fail(v, EnemyUnitsOnPath)
    else v
  }

  /** Submarines may not move under an enemy destroyer that stands on a middle step, whatever they carry. */
  lemma SubmarinesUnderDestroyersRefused(v: Verdict, req: MoveRequest, t: Territory, d: Unit)
    requires !req.rules.editMode && req.rules.submersibleSubs && OnlySubmarinesMoving(req.units) && !AllAir(req.units)
    requires t in req.route.MiddleSteps() && d in t.units && d.isDestroyer && EnemyUnit(d, req.mover)
    requires !d.isInfrastructure && !d.submerged
    ensures NonEnemyPass(v, req) == Fail(v, SubmarinesUnderDestroyers)
  {
    assert !AlliedOrNonCombat(d, req.mover);
  }

  // ---------------------------------------------------------------- validateBasic

  function StepLimits(facts: MoveFacts, kind: StackKind, territory: string): map<string, int>
  {
    if (kind, territory) in facts.stackLimits then facts.stackLimits[(kind, territory)] else map[]
  }

  function StackRefusals(refused: seq<Unit>): (r: seq<Disallowance>)
    ensures |r| == |refused|
    ensures forall i :: 0 <= i < |refused| ==> r[i] == Disallowance(StackingLimitReached(refused[i].unitType), refused[i])
  {
    seq(|refused|, i requires 0 <= i < |refused| => Disallowance(StackingLimitReached(refused[i].unitType), refused[i]))
  }

  /** The stacking test of `validateBasic`, over the route's steps from `steps[0]` on. */
  function StackingPass(steps: seq<Territory>, limited: seq<Unit>, v: Verdict, req: MoveRequest): (r: Verdict)
    ensures Extends(r, v)
    ensures r.error.Some? ==> r.error == v.error || r.error == Some(OverStackingLimit)
    ensures v.error.None? ==>
              (r.error.None? <==> forall t :: t in steps ==> (StackKindAt(t, req.mover), t.name) !in req.facts.playerStackingViolations)
  {
    if steps == [] then v
    else
      assert forall x :: x in steps <==> x == steps[0] || x in steps[1..];
      var t := steps[0];
      var kind := StackKindAt(t, req.mover);
      var refused := StackSplit(limited, StepLimits(req.facts, kind, t.name)).1;
      var w := Verdict(v.error, v.disallowed + StackRefusals(refused));
      if (kind, t.name) in req.facts.playerStackingViolations then Fail(w, OverStackingLimit)
      else
        var r := StackingPass(steps[1..], limited, w, req);
        assert r.disallowed[..|v.disallowed|] == r.disallowed[..|w.disallowed|][..|v.disallowed|];
        r
  }

  /** The checks of `validateBasic` that follow the stacking test. */
  function BasicTail(v: Verdict, req: MoveRequest): (r: Verdict)
    ensures r.disallowed == v.disallowed
    ensures v.error.None? && !req.rules.editMode && (exists t :: t in req.route.AllTerritories() && t.isImpassable)
            ==> r.error == Some(ThroughImpassable)
    ensures v.error.None? && NeutralsClosed(req.rules) && (exists t :: t in req.route.AllTerritories() && IsNeutralLand(t))
            ==> r.error.Some?
    ensures v.error.None? && r.error.None? ==> NeutralCrossingError(req.rules, req.facts.pus, req.facts.emptyNeutrals).None?
  {
    var route := req.route;
    var crossing := NeutralCrossingError(req.rules, req.facts.pus, req.facts.emptyNeutrals);
    if v.error.Some? then v
    else if !req.rules.editMode && exists t :: t in route.AllTerritories() && t.isImpassable then Fail(v, ThroughImpassable)
    else if crossing.Some? then Verdict(crossing, v.disallowed)
    else if NeutralsClosed(req.rules) && exists t :: t in route.AllTerritories() && IsNeutralLand(t) then
      Fail(v, CannotViolateNeutrality)
    else v
  }

  /** `validateBasic`. */
  function BasicPass(v: Verdict, req: MoveRequest): (r: Verdict)
    ensures Extends(r, v)
  {
    var v1 := Apply(v, req.facts.basicPrefix);
    if v1.error.Some? then v1
    else
      var v2 := EndAtWaterPass(v1, req);
      var v3 := SeaOnLandPass(v2, req);
      var v4 := StackingPass(req.route.steps, Filter(LimitedByStacking, req.units), v3, req);
      ExtendsTransitive(v4, v3, v2);
      ExtendsTransitive(v4, v2, v1);
      ExtendsTransitive(v4, v1, v);
      BasicTail(v4, req)
  }

  /** A route ending at sea disallows the land units that cannot go to sea. */
  function EndAtWaterPass(v: Verdict, req: MoveRequest): (r: Verdict)
    ensures r.error == v.error && Extends(r, v)
  {
    if req.route.End().isWater then AddAll(v, CannotEndAtWater, UnitsThatCantGoOnWater(req.units)) else v
  }

  /** A route touching land disallows the sea units. */
  function SeaOnLandPass(v: Verdict, req: MoveRequest): (r: Verdict)
    ensures r.error == v.error && Extends(r, v)
  {
    var sea := Filter(IsSeaUnit, req.units);
    if sea != [] && req.route.HasLand() then AddAll(v, SeaUnitsOnLand, sea) else v
  }

  /** On a route touching land, every sea unit of the move is disallowed. */
  lemma SeaOnLandDisallowsSeaUnits(v: Verdict, req: MoveRequest, u: Unit)
    requires req.route.HasLand() && u in req.units && IsSeaUnit(u)
    ensures Disallowance(SeaUnitsOnLand, u) in SeaOnLandPass(v, req).disallowed
  {
    var sea := Filter(IsSeaUnit, req.units);
    FilterMembership(IsSeaUnit, req.units, u);
    var i :| 0 <= i < |sea| && sea[i] == u;
    assert SeaOnLandPass(v, req).disallowed[|v.disallowed| + i] == Disallowance(SeaUnitsOnLand, u);
  }

  lemma ExtendsTransitive(r: Verdict, w: Verdict, v: Verdict)
    requires Extends(r, w) && Extends(w, v)
    ensures Extends(r, v)
  {
    assert r.disallowed[..|v.disallowed|] == r.disallowed[..|w.disallowed|][..|v.disallowed|];
  }

  /** `validateBasic` refuses a route through an impassable territory outside edit mode. */
  lemma BasicRefusesImpassable(v: Verdict, req: MoveRequest)
    requires v.error.None? && !req.rules.editMode
    requires exists t :: t in req.route.AllTerritories() && t.isImpassable
    ensures BasicPass(v, req).error.Some?
  {
  }

  /** `validateBasic` refuses neutral land on the route whenever neutrals are impassable, blitzable or not. */
  lemma BasicRefusesNeutrals(v: Verdict, req: MoveRequest)
    requires v.error.None? && req.rules.neutralsImpassable
    requires exists t :: t in req.route.AllTerritories() && IsNeutralLand(t)
    ensures BasicPass(v, req).error.Some?
  {
  }

  /** A move ending at sea that `validateBasic` accepts has disallowed every land unit no transport can carry. */
  lemma BasicRefusesLandAtSea(v: Verdict, req: MoveRequest, u: Unit)
    requires v.error.None? && BasicPass(v, req).error.None? && req.route.End().isWater
    requires u in req.units && IsLand(u) && !CanBeTransported(u)
    ensures Disallowance(CannotEndAtWater, u) in BasicPass(v, req).disallowed
  {
    var v1 := Apply(v, req.facts.basicPrefix);
    var cant := UnitsThatCantGoOnWater(req.units);
    var i :| 0 <= i < |cant| && cant[i] == u;
    var v2 := EndAtWaterPass(v1, req);
    var v3 := SeaOnLandPass(v2, req);
    var v4 := StackingPass(req.route.steps, Filter(LimitedByStacking, req.units), v3, req);
    ExtendsTransitive(v4, v3, v2);
    assert v2.disallowed[|v1.disallowed| + i] == Disallowance(CannotEndAtWater, u);
    assert BasicPass(v, req).disallowed == v4.disallowed;
  }

  // ---------------------------------------------------------------- validateTransport

  predicate SeaOrNoTransports(transportsToLoad: seq<Unit>)
  {
    transportsToLoad == [] || exists u :: u in transportsToLoad && u.isSea && CanTransport(u)
  }

  predicate EnemyAtSeaEnd(req: MoveRequest)
  {
    exists u :: u in req.route.End().units && EnemyUnit(u, req.mover) && !u.submerged
  }

  /** The load checks of `validateTransport`. */
  function LoadPass(v: Verdict, req: MoveRequest): (r: Verdict)
    ensures !req.rules.editMode && |req.route.steps| != 1 && req.facts.nonParatroopersLandAndAir
            ==> r == Fail(v, MoveBeforeLoading)
    ensures !(!req.rules.editMode && |req.route.steps| != 1) && req.facts.nonParatroopersLandAndAir
            && EnemyAtSeaEnd(req) && !OnlyIgnoredUnitsOnPath(req.rules, req.route, req.mover, false)
            && !req.facts.justWentToWar
            ==> r == Fail(v, LoadWithEnemySeaUnits)
    ensures r.error != v.error && r.error != req.facts.loadRemainder.error ==>
              req.facts.nonParatroopersLandAndAir
              && (r.error == Some(MoveBeforeLoading) || r.error == Some(LoadWithEnemySeaUnits))
  {
    if !req.rules.editMode && |req.route.steps| != 1 && req.facts.nonParatroopersLandAndAir then Fail(v, MoveBeforeLoading)
    else if EnemyAtSeaEnd(req) && req.facts.nonParatroopersLandAndAir
            && !OnlyIgnoredUnitsOnPath(req.rules, req.route, req.mover, false) && !req.facts.justWentToWar
    then Fail(v, LoadWithEnemySeaUnits)
    else Apply(v, req.facts.loadRemainder)
  }

  /** Whether `validateTransport` has anything to check. */
  predicate TransportApplies(req: MoveRequest)
  {
    !AllAir(req.units) && req.route.HasWater() && SeaOrNoTransports(req.transportsToLoad)
  }

  /** `validateTransport` from the transportability test on, after the unload checks. */
  function TransportBody(v: Verdict, req: MoveRequest): Verdict
  {
    var route := req.route;
    var edit := req.rules.editMode;
    var v2 := AddAll(v, CannotBeTransported, Filter(NotTransportable, Filter(IsLand, req.units)));
    if !edit && route.HasLand() && !(route.start.isWater || route.End().isWater) && req.facts.nonParatroopersLandAndAir then
      Fail(v2, OnlyStartOrEndLand)
    else if !edit && !route.End().isWater && !route.start.isWater && req.facts.nonParatroopersLandAndAir then
      Fail(v2, MustStopAtTransport)
    else
      var v3 := if route.End().isWater && route.start.isWater
                then Verdict(v2.error, v2.disallowed + StickTogether(req.units, req.units, route.start.units))
                else v2;
      if route.IsLoad() then LoadPass(v3, req) else v3
  }

  /** `validateTransport`. */
  function TransportPass(v: Verdict, req: MoveRequest): (r: Verdict)
    ensures !TransportApplies(req) ==> r == v
    ensures TransportApplies(req) && !req.rules.editMode && req.route.IsUnload() && |req.route.steps| > 1
            ==> r == Fail(v, UnloadMustStop)
    ensures (TransportApplies(req) && !req.rules.editMode && !req.route.start.isWater && !req.route.End().isWater
             && req.facts.nonParatroopersLandAndAir) ==> r.error == Some(OnlyStartOrEndLand)
    // loading from land onto transports at sea
    ensures (TransportApplies(req) && req.route.IsLoad() && !req.rules.editMode && |req.route.steps| != 1
             && req.facts.nonParatroopersLandAndAir) ==> r.error == Some(MoveBeforeLoading)
    ensures (TransportApplies(req) && req.route.IsLoad() && (req.rules.editMode || |req.route.steps| == 1)
             && req.facts.nonParatroopersLandAndAir && EnemyAtSeaEnd(req)
             && !OnlyIgnoredUnitsOnPath(req.rules, req.route, req.mover, false) && !req.facts.justWentToWar)
            ==> r.error == Some(LoadWithEnemySeaUnits)
  {
    var route := req.route;
    assert route.start in route.AllTerritories();
    if !TransportApplies(req) then v
    else if !req.rules.editMode && route.IsUnload() then
      if |route.steps| > 1 then Fail(v, UnloadMustStop)
      else TransportBody(Verdict(v.error, v.disallowed + req.facts.unloadDisallowed), req)
    else TransportBody(v, req)
  }

  /** A sea-to-sea move that `validateTransport` examines disallows every transport leaving cargo and all cargo leaving its transport. */
  lemma SeaMoveKeepsTransportsTogether(v: Verdict, req: MoveRequest, u: Unit)
    requires TransportApplies(req) && req.route.start.isWater && req.route.End().isWater
    requires u in req.units && LeavesCargo(u, req.units, req.route.start.units)
    ensures Disallowance(TransportsLeaveUnits, u) in TransportPass(v, req).disallowed
  {
    StickTogetherRefuses(req.units, req.units, req.route.start.units, u);
  }

  lemma SeaMoveKeepsCargoWithTransport(v: Verdict, req: MoveRequest, u: Unit)
    requires TransportApplies(req) && req.route.start.isWater && req.route.End().isWater
    requires u in req.units && LeavesTransport(u, req.units)
    ensures Disallowance(StayWithTransport, u) in TransportPass(v, req).disallowed
  {
    StickTogetherRefuses(req.units, req.units, req.route.start.units, u);
  }

  // ---------------------------------------------------------------- validateCanal and the battle zone

  /** `validateCanal(data, units, route, player, result)`: the route's canal failure replaces the error. */
  function CanalPass(v: Verdict, req: MoveRequest): (r: Verdict)
    ensures r.disallowed == v.disallowed
    ensures !req.rules.editMode ==>
              (r.error.None? <==> forall t :: t in req.route.AllTerritories() ==>
                 CanalScan(CanalsAt(req.facts.canalsAt, t), Some(req.route), Some(req.units),
                           CanalAccess(req.facts.canalOwners, req.facts.conquered), req.rules.controlAllCanalsToPass, None).None?)
  {
    if req.rules.editMode then v
    else Verdict(RouteCanalFailure(req.route.AllTerritories(), req.route, req.units, req.facts.canalsAt,
                                   CanalAccess(req.facts.canalOwners, req.facts.conquered), req.rules.controlAllCanalsToPass),
                 v.disallowed)
  }

  /** The move ends in an attack: the end is not allied, or changed hands this turn. */
  predicate EndIsAttack(req: MoveRequest)
  {
    !(req.route.End().owner == req.mover.player || req.route.End().owner in req.mover.allies)
    || req.route.End().name in req.facts.conquered
  }

  /** Units that entered a pending battle may leave it only by air, or by unloading into another attack. */
  function BattleZonePass(v: Verdict, req: MoveRequest): (r: Verdict)
    ensures r.disallowed == v.disallowed
    ensures r.error != v.error <==> req.facts.pendingBattleAtStart && (exists u :: u in req.units && !u.isAir)
                                    && req.facts.movedIntoEnd && !(req.route.IsUnload() && EndIsAttack(req))
                                    && v.error != Some(OutOfBattleZone)
    ensures r.error != v.error ==> r.error == Some(OutOfBattleZone)
  {
    if req.facts.pendingBattleAtStart && (exists u :: u in req.units && !u.isAir) && req.facts.movedIntoEnd
       && !(req.route.IsUnload() && EndIsAttack(req))
    then Fail(v, OutOfBattleZone)
    else v
  }

  // ---------------------------------------------------------------- validateMove

  /** The checks of `validateMove`, in the order it runs them. */
  datatype Stage = First | CombatRules | NonEnemyUnits | Basic | AirCanLand | Transport | Paratroops | Canals | Fuel | BattleZone

  const Stages: seq<Stage> := [First, CombatRules, NonEnemyUnits, Basic, AirCanLand, Transport, Paratroops, Canals, Fuel, BattleZone]

  function RunStage(stage: Stage, v: Verdict, req: MoveRequest): Verdict
  {
    match stage
    case First => FirstPass(v, req)
    case CombatRules => Apply(v, req.facts.combatPass)
    case NonEnemyUnits => NonEnemyPass(v, req)
    case Basic => BasicPass(v, req)
    case AirCanLand => Apply(v, req.facts.airCanLand)
    case Transport => TransportPass(v, req)
    case Paratroops => Apply(v, req.facts.paratroops)
    case Canals => CanalPass(v, req)
    case Fuel => Apply(v, req.facts.fuel)
    case BattleZone => BattleZonePass(v, req)
  }

  /** Runs `stages` in order, stopping at the first that leaves an error. */
  function Run(stages: seq<Stage>, v: Verdict, req: MoveRequest): Verdict
  {
    if stages == [] then v
    else
      var w := RunStage(stages[0], v, req);
      if w.error.Some? then w else Run(stages[1..], w, req)
  }

  /** Once a stage sets an error, no later stage runs: the result is the one the erring stage left. */
  lemma {:induction false} ErrorEndsValidation(stages: seq<Stage>, k: nat, v: Verdict, req: MoveRequest)
    requires k <= |stages| && v.error.None?
    requires Run(stages[..k], v, req).error.Some?
    ensures Run(stages, v, req) == Run(stages[..k], v, req)
  {
    if k == 0 {
      assert false;
    } else {
      var w := RunStage(stages[0], v, req);
      if w.error.None? {
        assert stages[..k][1..] == stages[1..][..k - 1];
        ErrorEndsValidation(stages[1..], k - 1, w, req);
      }
    }
  }

  /** A stage that refuses every move reaching it makes the whole run refuse the move. */
  lemma StageRefusalIsFinal(stages: seq<Stage>, k: nat, stage: Stage, v: Verdict, req: MoveRequest)
    requires k < |stages| && stages[k] == stage && v.error.None?
    requires forall w: Verdict :: w.error.None? ==> RunStage(stage, w, req).error.Some?
    ensures Run(stages, v, req).error.Some?
  {
    var u := Run(stages[..k], v, req);
    if u.error.None? {
      assert RunStage(stage, u, req).error.Some?;
    }
    RefusalReached(stages, k, v, req);
  }

  /** The same for one run: the stage at `k` refuses the verdict that reaches it. */
  lemma {:induction false} RefusalReached(stages: seq<Stage>, k: nat, v: Verdict, req: MoveRequest)
    requires k < |stages| && v.error.None?
    requires Run(stages[..k], v, req).error.None? ==> RunStage(stages[k], Run(stages[..k], v, req), req).error.Some?
    ensures Run(stages, v, req).error.Some?
  {
    var w := RunStage(stages[0], v, req);
    if k > 0 && w.error.None? {
      assert stages[..k][1..] == stages[1..][..k - 1];
      assert stages[1..][k - 1] == stages[k];
      RefusalReached(stages[1..], k - 1, w, req);
    }
  }

  /** `validateMove`: a move without steps is accepted as it is; otherwise every stage runs until one refuses. */
  function ValidateMoveSpec(req: MoveRequest): (r: Verdict)
    ensures req.route.steps == [] ==> r == Fresh
    ensures req.route.steps != [] ==> r == Run(Stages, Fresh, req)
  {
    if req.route.steps == [] then Fresh
    else Run(Stages, Fresh, req)
  }

  /**
   * `validateMove` refuses, once the route has a step, a move whose units
   * repeat, are missing, or are not all at the start, and a move along an
   * invalid route.
   */
  lemma ValidateMoveRefusals(req: MoveRequest)
    requires req.route.steps != []
    ensures !Distinct(req.units) || req.units == [] || !ContainsAll(req.route.start.units, req.units) || !req.facts.validRoute
            ==> ValidateMoveSpec(req).error.Some?
  {
    if !Distinct(req.units) || req.units == [] || !ContainsAll(req.route.start.units, req.units) || !req.facts.validRoute {
      FirstStageRefuses(req);
      StageRefusalIsFinal(Stages, 0, First, Fresh, req);
    }
  }

  /**
   * `validateMove` refuses, once the route has a step, a route through an
   * impassable territory outside edit mode, and a route over neutral land
   * when neutrals are impassable.
   */
  lemma ValidateMoveRefusesClosedRoute(req: MoveRequest)
    requires req.route.steps != []
    ensures (!req.rules.editMode && (exists t :: t in req.route.AllTerritories() && t.isImpassable))
            || (req.rules.neutralsImpassable && (exists t :: t in req.route.AllTerritories() && IsNeutralLand(t)))
            ==> ValidateMoveSpec(req).error.Some?
  {
    if (!req.rules.editMode && (exists t :: t in req.route.AllTerritories() && t.isImpassable))
       || (req.rules.neutralsImpassable && (exists t :: t in req.route.AllTerritories() && IsNeutralLand(t))) {
      BasicStageRefuses(req);
      StageRefusalIsFinal(Stages, 3, Basic, Fresh, req);
    }
  }

  /** A move of submarines only under an enemy destroyer on a middle step is refused. */
  lemma ValidateMoveRefusesSubsUnderDestroyers(req: MoveRequest, t: Territory, d: Unit)
    requires req.route.steps != []
    requires !req.rules.editMode && req.rules.submersibleSubs && OnlySubmarinesMoving(req.units) && !AllAir(req.units)
    requires t in req.route.MiddleSteps() && d in t.units && d.isDestroyer && EnemyUnit(d, req.mover)
    requires !d.isInfrastructure && !d.submerged
    ensures ValidateMoveSpec(req).error.Some?
  {
    NonEnemyStageRefuses(req, t, d);
    StageRefusalIsFinal(Stages, 2, NonEnemyUnits, Fresh, req);
  }

  /** The enemy-units check refuses submarines moving under an enemy destroyer, whatever came before. */
  lemma NonEnemyStageRefuses(req: MoveRequest, t: Territory, d: Unit)
    requires !req.rules.editMode && req.rules.submersibleSubs && OnlySubmarinesMoving(req.units) && !AllAir(req.units)
    requires t in req.route.MiddleSteps() && d in t.units && d.isDestroyer && EnemyUnit(d, req.mover)
    requires !d.isInfrastructure && !d.submerged
    ensures forall w: Verdict :: w.error.None? ==> RunStage(NonEnemyUnits, w, req).error.Some?
  {
    forall w: Verdict | w.error.None? ensures RunStage(NonEnemyUnits, w, req).error.Some? {
      SubmarinesUnderDestroyersRefused(w, req, t, d);
    }
  }

  /** The first checks refuse every move, whatever came before, with repeated, missing or absent units or an invalid route. */
  lemma FirstStageRefuses(req: MoveRequest)
    requires !Distinct(req.units) || req.units == [] || !ContainsAll(req.route.start.units, req.units) || !req.facts.validRoute
    ensures forall w: Verdict :: w.error.None? ==> RunStage(First, w, req).error.Some?
  {
  }

  /** The basic checks refuse every move, whatever came before, that crosses impassable or, when barred, neutral land. */
  lemma BasicStageRefuses(req: MoveRequest)
    requires (!req.rules.editMode && (exists t :: t in req.route.AllTerritories() && t.isImpassable))
             || (req.rules.neutralsImpassable && (exists t :: t in req.route.AllTerritories() && IsNeutralLand(t)))
    ensures forall w: Verdict :: w.error.None? ==> RunStage(Basic, w, req).error.Some?
  {
    forall w: Verdict | w.error.None? ensures RunStage(Basic, w, req).error.Some? {
      if !req.rules.editMode && (exists t :: t in req.route.AllTerritories() && t.isImpassable) {
        BasicRefusesImpassable(w, req);
      } else {
        BasicRefusesNeutrals(w, req);
      }
    }
  }

  // ---------------------------------------------------------------- the result object

  class MoveValidationResult {
    var error: Option<MoveError>
    var disallowed: seq<Disallowance>

    function Value(): Verdict
      reads this
    {
      Verdict(error, disallowed)
    }

    constructor ()
      ensures Value() == Fresh
    {
      error := None;
      disallowed := [];
    }

    method SetError(e: MoveError)
      modifies this
      ensures Value() == Fail(old(Value()), e)
    {
      error := Some(e);
    }

    /** `setErrorReturnResult`, which also accepts null (no error). */
    method SetErrorReturnResult(e: Option<MoveError>)
      modifies this
      ensures Value() == Verdict(e, old(disallowed))
    {
      error := e;
    }

    method AddDisallowedUnit(message: string, u: Unit)
      modifies this
      ensures Value() == Verdict(old(error), old(disallowed) + [Disallowance(message, u)])
    {
      disallowed := disallowed + [Disallowance(message, u)];
    }

    /** One `addDisallowedUnit` per unit of `us`. */
    method AddDisallowedUnits(message: string, us: seq<Unit>)
      modifies this
      ensures Value() == AddAll(old(Value()), message, us)
    {
      var i := 0;
      while i < |us|
        invariant 0 <= i <= |us|
        invariant Value() == AddAll(old(Value()), message, us[..i])
      {
        assert Disallow(message, us[..i + 1]) == Disallow(message, us[..i]) + [Disallowance(message, us[i])];
        AddDisallowedUnit(message, us[i]);
        i := i + 1;
      }
      assert us[..i] == us;
    }

    /** One "has reached stacking limit" disallowance per refused unit. */
    method AddStackingRefusals(refused: seq<Unit>)
      modifies this
      ensures Value() == Verdict(old(error), old(disallowed) + StackRefusals(refused))
    {
      var i := 0;
      while i < |refused|
        invariant 0 <= i <= |refused|
        invariant Value() == Verdict(old(error), old(disallowed) + StackRefusals(refused[..i]))
      {
        assert StackRefusals(refused[..i + 1]) == StackRefusals(refused[..i]) + [Disallowance(StackingLimitReached(refused[i].unitType), refused[i])];
        AddDisallowedUnit(StackingLimitReached(refused[i].unitType), refused[i]);
        i := i + 1;
      }
      assert refused[..i] == refused;
    }

    /** Records what a check outside this model found. */
    method ApplyOutcome(o: PassOutcome)
      modifies this
      ensures Value() == Apply(old(Value()), o)
    {
      disallowed := disallowed + o.disallowed;
      if o.error.Some? {
        error := o.error;
      }
    }
  }

  // ---------------------------------------------------------------- the checks, in place

  /** `validateMovementRestrictedByTerritory`. */
  method ValidateMovementRestrictedByTerritory(req: MoveRequest, result: MoveValidationResult)
    modifies result
    ensures var e := RestrictionError(req.rules, req.facts.restriction, req.route);
            result.Value() == if e.Some? then Verdict(e, old(result.disallowed)) else old(result.Value())
  {
    if req.rules.editMode || !req.rules.movementByTerritoryRestricted || req.facts.restriction.None? {
      return;
    }
    var ra := req.facts.restriction.value;
    if ra.kind == "allowed" {
      var outside := AnyOnRoute(req.route, ra.listed, false);
      if outside {
        result.SetErrorReturnResult(Some(OutsideRestrictedTerritories));
      }
    } else if ra.kind == "disallowed" {
      var inside := AnyOnRoute(req.route, ra.listed, true);
      if inside {
        result.SetErrorReturnResult(Some(IntoRestrictedTerritories));
      }
    }
  }

  /** The loops of `validateMovementRestrictedByTerritory`: whether some territory of the route is (or is not) listed. */
  method AnyOnRoute(route: Route, listed: set<string>, wanted: bool) returns (found: bool)
    ensures found <==> exists n :: n in RouteNames(route) && (n in listed) == wanted
  {
    var ts := route.AllTerritories();
    ghost var names := RouteNames(route);
    var i := 0;
    while i < |ts|
      invariant 0 <= i <= |ts|
      invariant forall j :: 0 <= j < i ==> (names[j] in listed) != wanted
    {
      if (ts[i].name in listed) == wanted {
        assert names[i] in names;
        return true;
      }
      i := i + 1;
    }
    return false;
  }

  /** The land-on-route test of `validateFirst`. */
  method CheckLandOnRoute(req: MoveRequest, result: MoveValidationResult)
    modifies result
    ensures var gate := LandGate(req.route.AllTerritories(), AnyLand(req.units), AnyAir(req.units), req.facts);
            result.Value() == if gate.Some? then Verdict(gate, old(result.disallowed)) else old(result.Value())
  {
    var ts := req.route.AllTerritories();
    var hasLand := AnyLand(req.units);
    var hasAir := AnyAir(req.units);
    var i := 0;
    while i < |ts|
      invariant 0 <= i <= |ts|
      invariant LandGate(ts[i..], hasLand, hasAir, req.facts) == LandGate(ts, hasLand, hasAir, req.facts)
      invariant result.Value() == old(result.Value())
    {
      assert ts[i..][1..] == ts[i + 1..];
      var t := ts[i];
      if !t.isWater {
        if hasLand && t.owner in req.facts.landBlockedOwners {
          result.SetError(LandUnitsOverOwnedLand(t.owner));
          return;
        }
        if hasAir && t.owner in req.facts.airBlockedOwners {
          result.SetError(AirUnitsOverOwnedLand(t.owner));
          return;
        }
      }
      i := i + 1;
    }
  }

  /** The submerged-units loop of `validateFirst`. */
  method DisallowSubmerged(req: MoveRequest, result: MoveValidationResult)
    modifies result
    ensures result.Value() == AddAll(old(result.Value()), CannotMoveSubmerged, Filter(Submerged, req.units))
  {
    var units := req.units;
    var j := 0;
    while j < |units|
      invariant 0 <= j <= |units|
      invariant result.Value() == AddAll(old(result.Value()), CannotMoveSubmerged, Filter(Submerged, units[..j]))
    {
      assert units[..j + 1][..j] == units[..j];
      if units[j].submerged {
        assert Disallow(CannotMoveSubmerged, Filter(Submerged, units[..j + 1]))
               == Disallow(CannotMoveSubmerged, Filter(Submerged, units[..j])) + [Disallowance(CannotMoveSubmerged, units[j])];
        result.AddDisallowedUnit(CannotMoveSubmerged, units[j]);
      }
      j := j + 1;
    }
    assert units[..j] == units;
  }

  /** `validateFirst`, on a result without an error. */
  method ValidateFirst(req: MoveRequest, result: MoveValidationResult)
    requires result.error.None?
    modifies result
    ensures result.Value() == FirstPass(old(result.Value()), req)
  {
    var units := req.units;
    var route := req.route;
    if units != [] && !req.rules.editMode {
      var matches := FreeUnits(req);
      if matches == [] || exists u :: u in matches && !OwnedBy(u, req.mover) {
        result.SetError(NotOwnerOfAllUnits(req.mover.player));
        return;
      }
    }
    if !Distinct(units) {
      result.SetError(UnitsNotUnique);
      return;
    }
    if !req.facts.validRoute {
      result.SetError(InvalidRoute);
      return;
    }
    ValidateMovementRestrictedByTerritory(req, result);
    if result.error.Some? {
      return;
    }
    CheckLandOnRoute(req, result);
    if result.error.Some? {
      return;
    }
    if |units| == 0 {
      result.SetError(NoUnits);
      return;
    }
    DisallowSubmerged(req, result);
    if !ContainsAll(route.start.units, units) {
      result.SetError(NotEnoughUnitsInStart);
    }
  }

  /** `validateNonEnemyUnitsOnPath`. */
  method ValidateNonEnemyUnitsOnPath(req: MoveRequest, result: MoveValidationResult)
    modifies result
    ensures result.Value() == NonEnemyPass(old(result.Value()), req)
  {
    if req.rules.editMode || NoEnemyUnitsOnPathMiddleSteps(req.route, req.mover) || AllAir(req.units) {
      return;
    }
    if req.rules.submersibleSubs {
      var matches := Filter(NotBeingTransported, req.units);
      if matches != [] && forall u :: u in matches ==> u.isSub {
        if EnemyDestroyerOnPath(req.route, req.mover) {
          result.SetError(SubmarinesUnderDestroyers);
        }
        return;
      }
    }
    if OnlyIgnoredUnitsOnPath(req.rules, req.route, req.mover, true) {
      return;
    }
    if req.facts.nonParatroopers {
      result.SetError(EnemyUnitsOnPath);
    }
  }

  /** The stacking test of `validateBasic`: per step, the units over their type's limit, then the player's limit. */
  method ValidateStacking(req: MoveRequest, result: MoveValidationResult)
    requires result.error.None?
    modifies result
    ensures result.Value() == StackingPass(req.route.steps, Filter(LimitedByStacking, req.units), old(result.Value()), req)
  {
    var limited := Filter(LimitedByStacking, req.units);
    var steps := req.route.steps;
    var i := 0;
    while i < |steps|
      invariant 0 <= i <= |steps|
      invariant result.error.None?
      invariant StackingPass(steps[i..], limited, result.Value(), req) == StackingPass(steps, limited, old(result.Value()), req)
    {
      assert steps[i..][1..] == steps[i + 1..];
      var t := steps[i];
      var kind := StackKindAt(t, req.mover);
      var admitted, refused := SplitAtStackingLimit(limited, StepLimits(req.facts, kind, t.name));
      result.AddStackingRefusals(refused);
      if (kind, t.name) in req.facts.playerStackingViolations {
        result.SetError(OverStackingLimit);
        return;
      }
      i := i + 1;
    }
  }

  /** `validateBasic`, on a result without an error. */
  method ValidateBasic(req: MoveRequest, result: MoveValidationResult)
    requires result.error.None?
    modifies result
    ensures result.Value() == BasicPass(old(result.Value()), req)
  {
    var units := req.units;
    var route := req.route;
    result.ApplyOutcome(req.facts.basicPrefix);
    if result.error.Some? {
      return;
    }
    if route.End().isWater {
      result.AddDisallowedUnits(CannotEndAtWater, UnitsThatCantGoOnWater(units));
    }
    var sea := Filter(IsSeaUnit, units);
    if sea != [] && route.HasLand() {
      result.AddDisallowedUnits(SeaUnitsOnLand, sea);
    }
    ValidateStacking(req, result);
    ValidateRouteOpen(req, result);
  }

  /** The end of `validateBasic`: impassable territories and neutral land on the route. */
  method ValidateRouteOpen(req: MoveRequest, result: MoveValidationResult)
    modifies result
    ensures result.Value() == BasicTail(old(result.Value()), req)
  {
    var route := req.route;
    if result.error.Some? {
      return;
    }
    if !req.rules.editMode && exists t :: t in route.AllTerritories() && t.isImpassable {
      result.SetError(ThroughImpassable);
      return;
    }
    var crossing := NeutralCrossingError(req.rules, req.facts.pus, req.facts.emptyNeutrals);
    if crossing.Some? {
      result.SetErrorReturnResult(crossing);
      return;
    }
    if NeutralsClosed(req.rules) && exists t :: t in route.AllTerritories() && IsNeutralLand(t) {
      result.SetError(CannotViolateNeutrality);
    }
  }

  /** The transport and cargo disallowances of a sea-to-sea move. */
  method KeepTransportsTogether(req: MoveRequest, result: MoveValidationResult)
    modifies result
    ensures result.Value() == Verdict(old(result.error),
                                      old(result.disallowed) + StickTogether(req.units, req.units, req.route.start.units))
  {
    var units := req.units;
    var pool := req.route.start.units;
    var i := 0;
    while i < |units|
      invariant 0 <= i <= |units|
      invariant result.error == old(result.error)
      invariant result.disallowed == old(result.disallowed) + StickTogether(units[..i], units, pool)
    {
      ghost var done := old(result.disallowed) + StickTogether(units[..i], units, pool);
      StickTogetherStep(units, i, pool);
      var u := units[i];
      if u.transportCapacity != -1 {
        var holding := Transporting(u, pool);
        if !ContainsAll(units, holding) {
          result.AddDisallowedUnit(TransportsLeaveUnits, u);
        }
      }
      ghost var cargo := if LeavesCargo(u, units, pool) then [Disallowance(TransportsLeaveUnits, u)] else [];
      assert result.disallowed == done + cargo;
      if u.transportCost != -1 {
        if u.transportedBy.Some? && !HasId(units, u.transportedBy.value) {
          result.AddDisallowedUnit(StayWithTransport, u);
        }
      }
      ghost var transport := if LeavesTransport(u, units) then [Disallowance(StayWithTransport, u)] else [];
      assert result.disallowed == done + cargo + transport;
      AppendThree(old(result.disallowed), StickTogether(units[..i], units, pool), cargo, transport);
      i := i + 1;
    }
    assert units[..i] == units;
  }

  /** The disallowances for one more unit of the move follow those for the units before it. */
  lemma AppendThree(a: seq<Disallowance>, b: seq<Disallowance>, c: seq<Disallowance>, d: seq<Disallowance>)
    ensures a + (b + c + d) == a + b + c + d
  {
  }

  lemma StickTogetherStep(units: seq<Unit>, i: nat, pool: seq<Unit>)
    requires i < |units|
    ensures StickTogether(units[..i + 1], units, pool)
            == StickTogether(units[..i], units, pool)
               + (if LeavesCargo(units[i], units, pool) then [Disallowance(TransportsLeaveUnits, units[i])] else [])
               + (if LeavesTransport(units[i], units) then [Disallowance(StayWithTransport, units[i])] else [])
  {
    assert units[..i + 1][..i] == units[..i];
  }

  /** `validateTransport`, on a result without an error. */
  method ValidateTransport(req: MoveRequest, result: MoveValidationResult)
    requires result.error.None?
    modifies result
    ensures result.Value() == TransportPass(old(result.Value()), req)
  {
    var units := req.units;
    var route := req.route;
    var edit := req.rules.editMode;
    if AllAir(units) || !route.HasWater() || !SeaOrNoTransports(req.transportsToLoad) {
      return;
    }
    if !edit && route.IsUnload() {
      if |route.steps| > 1 {
        result.SetError(UnloadMustStop);
        return;
      }
      result.ApplyOutcome(PassOutcome(req.facts.unloadDisallowed, None));
    }
    var land := Filter(IsLand, units);
    result.AddDisallowedUnits(CannotBeTransported, Filter(NotTransportable, land));
    if !edit && route.HasLand() && !(route.start.isWater || route.End().isWater) && req.facts.nonParatroopersLandAndAir {
      result.SetError(OnlyStartOrEndLand);
      return;
    }
    if !edit && !route.End().isWater && !route.start.isWater && req.facts.nonParatroopersLandAndAir {
      // "Must stop units at a transport on route": unreachable, the test above already refused such a move
      assert false;
    }
    if route.End().isWater && route.start.isWater {
      KeepTransportsTogether(req, result);
    }
    if route.IsLoad() {
      if !edit && |route.steps| != 1 && req.facts.nonParatroopersLandAndAir {
        result.SetError(MoveBeforeLoading);
        return;
      }
      if EnemyAtSeaEnd(req) && req.facts.nonParatroopersLandAndAir {
        if !OnlyIgnoredUnitsOnPath(req.rules, route, req.mover, false) && !req.facts.justWentToWar {
          result.SetError(LoadWithEnemySeaUnits);
          return;
        }
      }
      result.ApplyOutcome(req.facts.loadRemainder);
    }
  }

  /** `validateCanal(data, units, route, player, result)`. */
  method ValidateCanal(req: MoveRequest, result: MoveValidationResult)
    modifies result
    ensures result.Value() == CanalPass(old(result.Value()), req)
  {
    if req.rules.editMode {
      return;
    }
    var failure := ValidateCanalRoute(req.route, req.units, req.facts.canalsAt,
                                      CanalAccess(req.facts.canalOwners, req.facts.conquered), req.rules.controlAllCanalsToPass);
    result.SetErrorReturnResult(failure);
  }

  lemma RunUnfold(k: nat, v: Verdict, req: MoveRequest)
    requires k < |Stages|
    ensures Run(Stages[k..], v, req)
            == (var w := RunStage(Stages[k], v, req); if w.error.Some? then w else Run(Stages[k + 1..], w, req))
  {
    assert Stages[k..][0] == Stages[k];
    assert Stages[k..][1..] == Stages[k + 1..];
  }

  /** The battle-zone test that ends `validateMove`. */
  method ValidateBattleZone(req: MoveRequest, result: MoveValidationResult)
    modifies result
    ensures result.Value() == BattleZonePass(old(result.Value()), req)
  {
    if req.facts.pendingBattleAtStart && (exists u :: u in req.units && !u.isAir) && req.facts.movedIntoEnd {
      var unload := req.route.IsUnload();
      var attack := EndIsAttack(req);
      if !(unload && attack) {
        result.SetError(OutOfBattleZone);
      }
    }
  }

  /** Runs one check of `validateMove` on a result without an error. */
  method ValidateStage(stage: Stage, req: MoveRequest, result: MoveValidationResult)
    requires result.error.None?
    modifies result
    ensures result.Value() == RunStage(stage, old(result.Value()), req)
  {
    match stage {
      case First => ValidateFirst(req, result);
      case CombatRules => result.ApplyOutcome(req.facts.combatPass);
      case NonEnemyUnits => ValidateNonEnemyUnitsOnPath(req, result);
      case Basic => ValidateBasic(req, result);
      case AirCanLand => result.ApplyOutcome(req.facts.airCanLand);
      case Transport => ValidateTransport(req, result);
      case Paratroops => result.ApplyOutcome(req.facts.paratroops);
      case Canals => ValidateCanal(req, result);
      case Fuel => result.ApplyOutcome(req.facts.fuel);
      case BattleZone => ValidateBattleZone(req, result);
    }
  }

  lemma RunToEnd(v: Verdict, req: MoveRequest)
    ensures Run(Stages[10..], v, req) == v
  {
    assert Stages[10..] == [];
  }

  /** Runs the `k`-th check of `validateMove` and relates the rest of the run before and after it. */
  method ValidateStep(ghost k: nat, stage: Stage, req: MoveRequest, result: MoveValidationResult)
    requires k < |Stages| && Stages[k] == stage && result.error.None?
    modifies result
    ensures Run(Stages[k..], old(result.Value()), req)
            == if result.error.Some? then result.Value() else Run(Stages[k + 1..], result.Value(), req)
  {
    ghost var v := result.Value();
    ValidateStage(stage, req, result);
    RunUnfold(k, v, req);
  }

  /** The checks of `validateMove` from `validateTransport` on. */
  method ValidateLaterStages(req: MoveRequest, result: MoveValidationResult)
    requires result.error.None?
    modifies result
    ensures result.Value() == Run(Stages[5..], old(result.Value()), req)
  {
    ValidateStep(5, Transport, req, result);
    if result.error.Some? {
      return;
    }
    assert Run(Stages[5..], old(result.Value()), req) == Run(Stages[6..], result.Value(), req);
    ValidateStep(6, Paratroops, req, result);
    if result.error.Some? {
      return;
    }
    assert Run(Stages[5..], old(result.Value()), req) == Run(Stages[7..], result.Value(), req);
    ValidateFinalStages(req, result);
  }

  /** The checks of `validateMove` from `validateCanal` on. */
  method ValidateFinalStages(req: MoveRequest, result: MoveValidationResult)
    requires result.error.None?
    modifies result
    ensures result.Value() == Run(Stages[7..], old(result.Value()), req)
  {
    ValidateStep(7, Canals, req, result);
    if result.error.Some? {
      return;
    }
    assert Run(Stages[7..], old(result.Value()), req) == Run(Stages[8..], result.Value(), req);
    ValidateStep(8, Fuel, req, result);
    if result.error.Some? {
      return;
    }
    assert Run(Stages[7..], old(result.Value()), req) == Run(Stages[9..], result.Value(), req);
    ValidateStep(9, BattleZone, req, result);
    RunToEnd(result.Value(), req);
  }

  /** The checks of `validateMove` from `validateBasic` on. */
  method ValidateMiddleStages(req: MoveRequest, result: MoveValidationResult)
    requires result.error.None?
    modifies result
    ensures result.Value() == Run(Stages[3..], old(result.Value()), req)
  {
    ValidateStep(3, Basic, req, result);
    if result.error.Some? {
      return;
    }
    assert Run(Stages[3..], old(result.Value()), req) == Run(Stages[4..], result.Value(), req);
    ValidateStep(4, AirCanLand, req, result);
    if result.error.Some? {
      return;
    }
    assert Run(Stages[3..], old(result.Value()), req) == Run(Stages[5..], result.Value(), req);
    ValidateLaterStages(req, result);
  }

  /** `validateMove`. */
  method ValidateMove(req: MoveRequest) returns (result: MoveValidationResult)
    ensures fresh(result)
    ensures result.Value() == ValidateMoveSpec(req)
  {
    result := new MoveValidationResult();
    if req.route.steps == [] {
      return;
    }
    assert Stages[0..] == Stages;
    ValidateStep(0, First, req, result);
    if result.error.Some? {
      return;
    }
    assert Run(Stages, Fresh, req) == Run(Stages[1..], result.Value(), req);
    ValidateStep(1, CombatRules, req, result);
    if result.error.Some? {
      return;
    }
    assert Run(Stages, Fresh, req) == Run(Stages[2..], result.Value(), req);
    ValidateStep(2, NonEnemyUnits, req, result);
    if result.error.Some? {
      return;
    }
    assert Run(Stages, Fresh, req) == Run(Stages[3..], result.Value(), req);
    ValidateMiddleStages(req, result);
  }
}
