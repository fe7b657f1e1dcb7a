/**
 * The state of one battle and what each of its operations does to it.
 *
 * `State` holds every field the battle updates; each operation is a function
 * from the state before to the state after, and the battle object's methods
 * are proved to change their fields exactly as these functions say. The rest
 * of the game (the units now in the battle site, the map, which territories
 * were fought over) is read through a `World` value, and what the
 * transport tracker and the other battles would do is left to the caller.
 */
module BattleState {
  import opened Wrappers
  import opened Units
  import opened BattleRules
  import Carriers
  import MoveChecks

  /** The fixed facts of a battle: where it is fought, between whom, and whether it runs without a display. */
  datatype Setting = Setting(site: string, siteIsWater: bool, attacker: Stance, defender: Stance, headless: bool)

  /** What a battle reads from the rest of the game when an operation runs. */
  datatype World = World(
    siteUnits: seq<Unit>,                 // the units now in the battle site
    territories: map<string, Territory>,  // territory records by name
    neighbours: seq<string>,              // the territories next to the battle site
    foughtOver: set<string>,              // territories already fought over this turn
    restricted: set<string>,              // territories closed to the attacker's movement
    canalBlocked: set<string>)            // neighbours whose canals refuse the retreating submarines

  datatype State = State(
    attacking: seq<Unit>,
    defending: seq<Unit>,
    attackingWaitingToDie: seq<Unit>,
    defendingWaitingToDie: seq<Unit>,
    killed: seq<Unit>,
    attackingRetreated: seq<Unit>,
    defendingRetreated: seq<Unit>,
    attackingFromMap: map<string, seq<Unit>>,
    attackingFrom: set<string>,
    amphibiousAttackFrom: seq<string>,
    amphibiousLandAttackers: seq<Unit>,
    isAmphibious: bool,
    bombarding: seq<Unit>,
    dependents: map<Unit, seq<Unit>>,
    round: int,
    isOver: bool,
    whoWon: WhoWon,
    stepStrings: seq<BattleStep>)

  // ---------------------------------------------------------------- the two sides

  function Side(s: State, defender: bool): seq<Unit> { if defender then s.defending else s.attacking }
  function WaitingToDie(s: State, defender: bool): seq<Unit> { if defender then s.defendingWaitingToDie else s.attackingWaitingToDie }
  function Retreated(s: State, defender: bool): seq<Unit> { if defender then s.defendingRetreated else s.attackingRetreated }

  function WithSide(s: State, defender: bool, us: seq<Unit>): State
  {
    if defender then s.(defending := us) else s.(attacking := us)
  }

  function WithWaitingToDie(s: State, defender: bool, us: seq<Unit>): State
  {
    if defender then s.(defendingWaitingToDie := us) else s.(attackingWaitingToDie := us)
  }

  function WithRetreated(s: State, defender: bool, us: seq<Unit>): State
  {
    if defender then s.(defendingRetreated := us) else s.(attackingRetreated := us)
  }

  predicate IsSubUnit(u: Unit) { u.isSub }
  predicate IsNotSubUnit(u: Unit) { !u.isSub }
  predicate IsAirUnit(u: Unit) { u.isAir }
  predicate IsNotAirUnit(u: Unit) { !u.isAir }
  predicate IsNotLandUnit(u: Unit) { !IsLand(u) }
  predicate WasNotAmphibious(u: Unit) { !u.wasAmphibious }

  // ---------------------------------------------------------------- collections

  /** The units of `us` owned by the player of `p`. */
  function OwnedUnits(us: seq<Unit>, p: Stance): (r: seq<Unit>)
    ensures forall u :: u in r <==> u in us && OwnedBy(u, p)
  {
    var owned := (u: Unit) => OwnedBy(u, p);
    var r := Filter(owned, us);
    forall u
      ensures u in r <==> u in us && OwnedBy(u, p)
    {
      FilterMembership(owned, us, u);
    }
    r
  }

  /** The units of `us` that also occur in `others`, in the order of `us` (`Util.intersection`). */
  function Intersection(us: seq<Unit>, others: seq<Unit>): (r: seq<Unit>)
    ensures forall u :: u in r <==> u in us && u in others
  {
    var inOthers := (u: Unit) => u in others;
    var r := Filter(inOthers, us);
    forall u
      ensures u in r <==> u in us && u in others
    {
      FilterMembership(inOthers, us, u);
    }
    r
  }

  /** `removeAll` with a set of units to drop. */
  function RemoveSet(xs: seq<Unit>, ys: set<Unit>): (r: seq<Unit>)
    ensures |r| <= |xs|
    ensures forall i :: 0 <= i < |r| ==> r[i] in xs && r[i] !in ys
    // taking out no unit at all keeps the list as it was (the `alliedAirIndependent` case of `addAttackChange`)
    ensures ys == {} ==> r == xs
  {
    if xs == [] then []
    else
      assert xs == xs[..|xs| - 1] + [xs[|xs| - 1]];
      RemoveSet(xs[..|xs| - 1], ys) + (if xs[|xs| - 1] in ys then [] else [xs[|xs| - 1]])
  }

  lemma {:induction false} RemoveSetMembership(xs: seq<Unit>, ys: set<Unit>, u: Unit)
    ensures u in RemoveSet(xs, ys) <==> u in xs && u !in ys
  {
    if xs != [] {
      RemoveSetMembership(xs[..|xs| - 1], ys, u);
      assert xs == xs[..|xs| - 1] + [xs[|xs| - 1]];
    }
  }

  /** `Collection.remove` on a list: the first occurrence of `x`, if any, is dropped. */
  function RemoveFirst(xs: seq<string>, x: string): (r: seq<string>)
    ensures x !in xs ==> r == xs
    ensures x in xs ==> |r| == |xs| - 1 && multiset(r) == multiset(xs) - multiset{x}
  {
    if xs == [] then []
    else
      assert xs == [xs[0]] + xs[1..];
      if xs[0] == x then xs[1..]
      else [xs[0]] + RemoveFirst(xs[1..], x)
  }

  /**
   * `ys` added to the insertion-ordered set `xs` (a `LinkedHashSet`): each unit
   * of `ys` not already there is appended.
   */
  function Union(xs: seq<Unit>, ys: seq<Unit>): (r: seq<Unit>)
  {
    if ys == [] then xs
    else
      var acc := Union(xs, ys[..|ys| - 1]);
      if ys[|ys| - 1] in acc then acc else acc + [ys[|ys| - 1]]
  }

  /** Nothing is lost and nothing is invented, and no unit is listed twice that was not already. */
  lemma {:induction false} UnionMembership(xs: seq<Unit>, ys: seq<Unit>)
    ensures forall u :: u in Union(xs, ys) <==> u in xs || u in ys
    ensures Distinct(xs) ==> Distinct(Union(xs, ys))
  {
    if ys != [] {
      UnionMembership(xs, ys[..|ys| - 1]);
      assert ys == ys[..|ys| - 1] + [ys[|ys| - 1]];
    }
  }

  // ---------------------------------------------------------------- dependents

  /**
   * The units that depend on some of `units` (carried by them), holder by
   * holder in the order of `units` (`getDependentUnits`).
   */
  function DependentsOf(deps: map<Unit, seq<Unit>>, units: seq<Unit>): seq<Unit>
  {
    if units == [] then []
    else DependentsOf(deps, units[..|units| - 1]) + (if units[|units| - 1] in deps then deps[units[|units| - 1]] else [])
  }

  lemma {:induction false} DependentsOfMembership(deps: map<Unit, seq<Unit>>, units: seq<Unit>, d: Unit)
    ensures d in DependentsOf(deps, units) <==> exists u :: u in units && u in deps && d in deps[u]
  {
    if units != [] {
      var last := units[|units| - 1];
      DependentsOfMembership(deps, units[..|units| - 1], d);
      assert units == units[..|units| - 1] + [last];
      if last in deps && d in deps[last] {
        assert last in units;
      }
    }
  }

  /**
   * `addDependentUnits(dependencies)`: every holder of `dependencies` gets its
   * units added to the ones it already had, or is recorded with them.
   */
  function MergeDependents(deps: map<Unit, seq<Unit>>, added: map<Unit, seq<Unit>>): (r: map<Unit, seq<Unit>>)
    ensures r.Keys == deps.Keys + added.Keys
  {
    map h | h in deps.Keys + added.Keys ::
      if h in added then Union(if h in deps then deps[h] else [], added[h]) else deps[h]
  }

  /** A unit depends on a holder afterwards exactly when it did before or was just added. */
  lemma MergeDependentsMembership(deps: map<Unit, seq<Unit>>, added: map<Unit, seq<Unit>>, h: Unit, u: Unit)
    requires h in deps || h in added
    ensures u in MergeDependents(deps, added)[h] <==> (h in deps && u in deps[h]) || (h in added && u in added[h])
  {
    if h in added {
      UnionMembership(if h in deps then deps[h] else [], added[h]);
    }
  }

  /** Every holder's dependents with the units of `units` taken out (the loop at the end of `removeAttack`). */
  function StripDependents(deps: map<Unit, seq<Unit>>, units: seq<Unit>): (r: map<Unit, seq<Unit>>)
    ensures r.Keys == deps.Keys
    ensures forall h, u :: h in r && u in units ==> u !in r[h]
  {
    map h | h in deps :: RemoveAll(deps[h], units)
  }

  // ---------------------------------------------------------------- casualties

  /**
   * `remove(killed, site, defenderDying)`: the killed units and their
   * dependents are logged as killed and leave the defending side, the
   * attacking side, or both when `defenderDying` is null.
   */
  function Remove(s: State, killed: seq<Unit>, defenderDying: Option<bool>): (r: State)
    ensures killed == [] ==> r == s
    ensures r.(killed := s.killed, attacking := s.attacking, defending := s.defending) == s
    ensures s.killed <= r.killed
    ensures forall u :: u in killed ==> u in r.killed
    ensures forall u :: u in killed && defenderDying != Some(false) ==> u !in r.defending
    ensures forall u :: u in killed && defenderDying != Some(true) ==> u !in r.attacking
    ensures defenderDying == Some(true) ==> r.attacking == s.attacking
    ensures defenderDying == Some(false) ==> r.defending == s.defending
  {
    if killed == [] then s
    else
      var all := killed + DependentsOf(s.dependents, killed);
      s.(killed := s.killed + all,
         defending := if defenderDying != Some(false) then RemoveAll(s.defending, all) else s.defending,
         attacking := if defenderDying != Some(true) then RemoveAll(s.attacking, all) else s.attacking)
  }

  /** The units that depend on a removed unit die with it. */
  lemma RemoveTakesDependents(s: State, killed: seq<Unit>, defenderDying: Option<bool>, holder: Unit, d: Unit)
    requires holder in killed && holder in s.dependents && d in s.dependents[holder]
    ensures d in Remove(s, killed, defenderDying).killed
    ensures defenderDying != Some(false) ==> d !in Remove(s, killed, defenderDying).defending
    ensures defenderDying != Some(true) ==> d !in Remove(s, killed, defenderDying).attacking
  {
    DependentsOfMembership(s.dependents, killed, d);
  }

  /**
   * `removeCasualties(killed, returnFire, defender)`. With ALL every casualty
   * waits to die (it may still fire back this round); with SUBS only the
   * submarines wait and the rest are removed at once; with NONE all are removed
   * at once. Either way the casualties leave their side's active list.
   */
  function RemoveCasualties(s: State, killed: seq<Unit>, returnFire: ReturnFire, defender: bool): (r: State)
    ensures killed == [] ==> r == s
  {
    if killed == [] then s
    else
      var s1 := match returnFire
        case ALL => WithWaitingToDie(s, defender, WaitingToDie(s, defender) + killed)
        case SUBS => Remove(WithWaitingToDie(s, defender, WaitingToDie(s, defender) + Filter(IsSubUnit, killed)),
                            Filter(IsNotSubUnit, killed), Some(defender))
        case NONE => Remove(s, killed, Some(defender));
      var removed := if returnFire == NONE then killed + DependentsOf(s.dependents, killed) else killed;
      WithSide(s1, defender, RemoveAll(Side(s1, defender), removed))
  }

  /** Casualties leave their side; the other side, its waiting list and the retreated lists are untouched. */
  lemma RemoveCasualtiesLeavesSide(s: State, killed: seq<Unit>, returnFire: ReturnFire, defender: bool)
    ensures var r := RemoveCasualties(s, killed, returnFire, defender);
            (forall u :: u in killed ==> u !in Side(r, defender))
            && Side(r, !defender) == Side(s, !defender)
            && WaitingToDie(r, !defender) == WaitingToDie(s, !defender)
            && r.attackingRetreated == s.attackingRetreated && r.defendingRetreated == s.defendingRetreated
  {
    var r := RemoveCasualties(s, killed, returnFire, defender);
    if killed != [] {
      var s1 := match returnFire
        case ALL => WithWaitingToDie(s, defender, WaitingToDie(s, defender) + killed)
        case SUBS => Remove(WithWaitingToDie(s, defender, WaitingToDie(s, defender) + Filter(IsSubUnit, killed)),
                            Filter(IsNotSubUnit, killed), Some(defender))
        case NONE => Remove(s, killed, Some(defender));
      var removed := if returnFire == NONE then killed + DependentsOf(s.dependents, killed) else killed;
      assert r == WithSide(s1, defender, RemoveAll(Side(s1, defender), removed));
      forall u | u in killed
        ensures u !in Side(r, defender)
      {
        RemoveAllMembership(Side(s1, defender), removed, u);
      }
    }
  }

  /** Where the casualties go under each kind of return fire. */
  lemma RemoveCasualtiesWaitingToDie(s: State, killed: seq<Unit>, returnFire: ReturnFire, defender: bool)
    requires killed != []
    ensures var r := RemoveCasualties(s, killed, returnFire, defender);
            && (returnFire == ALL ==> WaitingToDie(r, defender) == WaitingToDie(s, defender) + killed && r.killed == s.killed)
            && (returnFire == ReturnFire.SUBS ==>
                  WaitingToDie(r, defender) == WaitingToDie(s, defender) + Filter(IsSubUnit, killed)
                  && forall u :: u in killed && !u.isSub ==> u in r.killed)
            && (returnFire == NONE ==>
                  WaitingToDie(r, defender) == WaitingToDie(s, defender) && forall u :: u in killed ==> u in r.killed)
  {
    var r := RemoveCasualties(s, killed, returnFire, defender);
    if returnFire == ReturnFire.SUBS {
      forall u | u in killed && !u.isSub
        ensures u in Filter(IsNotSubUnit, killed)
      {
        FilterMembership(IsNotSubUnit, killed, u);
      }
    }
  }

  /**
   * `clearWaitingToDie`: the units waiting to die on both sides are removed
   * from both sides, and both waiting lists end up empty.
   */
  function ClearWaitingToDie(s: State): (r: State)
    ensures r.attackingWaitingToDie == [] && r.defendingWaitingToDie == []
    ensures forall u :: u in s.attackingWaitingToDie || u in s.defendingWaitingToDie
                        ==> u in r.killed && u !in r.attacking && u !in r.defending
    ensures s.killed <= r.killed
    ensures r.(killed := s.killed, attacking := s.attacking, defending := s.defending,
               attackingWaitingToDie := s.attackingWaitingToDie, defendingWaitingToDie := s.defendingWaitingToDie) == s
  {
    Remove(s, s.attackingWaitingToDie + s.defendingWaitingToDie, None).(attackingWaitingToDie := [], defendingWaitingToDie := [])
  }

  /** `endBattle`: the units waiting to die are removed and the battle is over. */
  function EndBattle(s: State): (r: State)
    ensures r.isOver && r.attackingWaitingToDie == [] && r.defendingWaitingToDie == []
    ensures r.whoWon == s.whoWon && r.round == s.round
    ensures r.attackingRetreated == s.attackingRetreated && r.defendingRetreated == s.defendingRetreated
  {
    ClearWaitingToDie(s).(isOver := true)
  }

  /** The battle ends with `who` the winner. */
  function Conclude(s: State, who: WhoWon): (r: State)
    ensures r.isOver && r.whoWon == who
  {
    EndBattle(s).(whoWon := who)
  }

  /** The side that did not give up wins: a defender retreat lets the attacker win and the other way round. */
  function Concede(s: State, defender: bool): (r: State)
    ensures r.isOver && r.whoWon == (if defender then ATTACKER else DEFENDER)
    ensures r.attackingWaitingToDie == [] && r.defendingWaitingToDie == []
  {
    Conclude(s, if defender then ATTACKER else DEFENDER)
  }

  /** Conceding only takes units off a side. */
  lemma ConcedeShrinks(s: State, loser: bool, defender: bool, u: Unit)
    ensures u in Side(Concede(s, loser), defender) ==> u in Side(s, defender)
  {
    var r := Side(Concede(s, loser), defender);
    if u in r {
      var i :| 0 <= i < |r| && r[i] == u;
    }
  }

  /** Conceding leaves the retreated lists alone. */
  lemma ConcedeKeepsRetreated(s: State, loser: bool, defender: bool)
    ensures Retreated(Concede(s, loser), defender) == Retreated(s, defender)
  {
  }

  // ---------------------------------------------------------------- end of a round

  /**
   * The end-of-round step: the decision of `EndOfRound` carried out. A
   * decided battle is ended and its winner recorded; in round 1 with
   * restricted transport casualties the attacker's units at the site may
   * rejoin the attack instead.
   */
  function EndOfRoundStep(s: State, st: Setting, w: World, o: Options, maxRounds: int): (r: State)
  {
    match EndOfRound(s.attacking, s.defending, w.siteUnits, st.attacker, o, s.round, maxRounds)
    case DefenderWins => Conclude(s, DEFENDER)
    case AttackerWins => Conclude(s, ATTACKER)
    case Draw => Conclude(s, DRAW)
    case ReaddTransports => s.(attacking := OwnedUnits(w.siteUnits, st.attacker))
    case Continue => s
  }

  /**
   * After the step the battle is over exactly when it was already over or the
   * round decided it, and the recorded winner is the decided one.
   */
  lemma EndOfRoundStepOutcome(s: State, st: Setting, w: World, o: Options, maxRounds: int)
    ensures var e := EndOfRound(s.attacking, s.defending, w.siteUnits, st.attacker, o, s.round, maxRounds);
            var r := EndOfRoundStep(s, st, w, o, maxRounds);
            && (r.isOver <==> s.isOver || e == DefenderWins || e == AttackerWins || e == Draw)
            && (e == DefenderWins ==> r.whoWon == DEFENDER)
            && (e == AttackerWins ==> r.whoWon == ATTACKER)
            && (e == Draw ==> r.whoWon == DRAW)
            && (e == Continue || e == ReaddTransports ==> r.whoWon == s.whoWon && r.round == s.round)
  {
  }

  // ---------------------------------------------------------------- adding and removing attackers

  /** Every territory attacked from has an entry in the map of who attacks from where. */
  predicate RosterConsistent(s: State)
  {
    s.attackingFrom <= s.attackingFromMap.Keys
  }

  /**
   * `removeAttack(route, units)`: the units stop attacking. Without a route
   * nothing else changes. With one, they leave the entry of the territory the
   * route enters the battle from, that territory stops being attacked from
   * once its entry is empty, an assault from the sea loses the units' land
   * units and ends when no land unit is left in the entry, and no holder keeps
   * any of the units as dependents.
   */
  function RemoveAttack(s: State, route: Option<Route>, units: seq<Unit>): (r: State)
    ensures forall u :: u in units ==> u !in r.attacking
    ensures route.None? ==> r == s.(attacking := r.attacking)
    ensures r.attackingFrom <= s.attackingFrom && r.attackingFromMap.Keys == s.attackingFromMap.Keys
  {
    var attacking := RemoveAll(s.attacking, units);
    forall u | u in units
      ensures u !in attacking
    {
      RemoveAllMembership(s.attacking, units, u);
    }
    var s1 := s.(attacking := attacking);
    if route.None? then s1
    else LeaveEntry(s1, route.value.TerritoryBeforeEnd(), !route.value.End().isWater, units)
           .(dependents := StripDependents(s.dependents, units))
  }

  /**
   * The units leave the entry of the territory `from` they attacked from; the
   * territory stops being attacked from once its entry is empty; when `from`
   * is a sea zone, a landing loses its land units and the assault from there
   * ends once no land unit is left in the entry.
   */
  function LeaveEntry(s: State, from: Territory, endsOnLand: bool, units: seq<Unit>): (r: State)
    ensures r.attackingFrom <= s.attackingFrom && r.attackingFromMap.Keys == s.attackingFromMap.Keys
    ensures r.attacking == s.attacking && r.dependents == s.dependents
  {
    var inMap := from.name in s.attackingFromMap;
    var left := RemoveAll(if inMap then s.attackingFromMap[from.name] else [], units);
    var landing := from.isWater && endsOnLand && HasLand(units);
    var stopsAssault := from.isWater && !HasLand(left);
    var amphibiousFrom := if stopsAssault then RemoveFirst(s.amphibiousAttackFrom, from.name) else s.amphibiousAttackFrom;
    var roster := if inMap then s.attackingFromMap[from.name := left] else s.attackingFromMap;
    assert roster.Keys == s.attackingFromMap.Keys by {
      if inMap { assert roster.Keys == s.attackingFromMap.Keys + {from.name}; }
    }
    s.(attackingFromMap := roster,
       attackingFrom := if left == [] then s.attackingFrom - {from.name} else s.attackingFrom,
       amphibiousLandAttackers := if landing then RemoveAll(s.amphibiousLandAttackers, Filter(IsLand, units))
                                  else s.amphibiousLandAttackers,
       amphibiousAttackFrom := amphibiousFrom,
       isAmphibious := if stopsAssault then amphibiousFrom != [] else s.isAmphibious)
  }

  /**
   * The territory the route enters from keeps being attacked from exactly when
   * units are left in its entry, and none of the removed units is left there.
   */
  lemma RemoveAttackEntry(s: State, route: Route, units: seq<Unit>)
    requires RosterConsistent(s)
    ensures var r := RemoveAttack(s, Some(route), units);
            var from := route.TerritoryBeforeEnd().name;
            && RosterConsistent(r)
            && (from in r.attackingFromMap ==> forall u :: u in units ==> u !in r.attackingFromMap[from])
            && (from in r.attackingFrom <==> from in s.attackingFrom && r.attackingFromMap[from] != [])
            && (forall h, u :: h in r.dependents && u in units ==> u !in r.dependents[h])
  {
    var from := route.TerritoryBeforeEnd().name;
    if from in s.attackingFromMap {
      var left := RemoveAll(s.attackingFromMap[from], units);
      forall u | u in units
        ensures u !in left
      {
        RemoveAllMembership(s.attackingFromMap[from], units, u);
      }
    }
  }

  /** What `addAttackChange` reads from outside the battle. */
  datatype AttackFacts = AttackFacts(
    transporting: map<Unit, seq<Unit>>,    // each transport among the units with what it carries
    airTransportable: bool,                // the attacker's technology lets bombers carry paratroopers
    paratroopers: seq<(Unit, Unit)>)       // each paratrooper with the bomber it is loaded on

  /** The bombers with the paratroopers each carries, in loading order. */
  function GroupByBomber(loads: seq<(Unit, Unit)>): map<Unit, seq<Unit>>
  {
    if loads == [] then map[]
    else
      var acc := GroupByBomber(loads[..|loads| - 1]);
      var (trooper, bomber) := loads[|loads| - 1];
      acc[bomber := (if bomber in acc then acc[bomber] else []) + [trooper]]
  }

  /** Each carrier's dependents narrowed to its aircraft; other holders keep theirs. */
  function CarriedAircraft(deps: map<Unit, seq<Unit>>): (r: map<Unit, seq<Unit>>)
    ensures r.Keys == deps.Keys
  {
    map h | h in deps :: if IsCarrier(h) then Filter(IsAirUnit, deps[h]) else deps[h]
  }

  /** The aircraft held by carriers. */
  function Fighters(deps: map<Unit, seq<Unit>>): set<Unit>
  {
    set h, f | h in deps && IsCarrier(h) && f in deps[h] && f.isAir :: f
  }

  /**
   * The dependencies an attack records: what the transports carry, unless
   * allied air fights independently also the allied aircraft that must move
   * with the attacker's carriers (narrowed to aircraft for every carrier), and
   * with paratrooper technology the paratroopers of each bomber; a later
   * source replaces an earlier one for the same holder.
   */
  function AttackDependencies(units: seq<Unit>, st: Setting, o: Options, f: AttackFacts): map<Unit, seq<Unit>>
  {
    var base := if o.alliedAirIndependent then f.transporting
                else CarriedAircraft(f.transporting + Carriers.CarrierMap(units, units, st.attacker));
    if f.airTransportable then base + GroupByBomber(f.paratroopers) else base
  }

  /** The units that join the attack: under WW2V2 only the attacker's own. */
  function Joining(units: seq<Unit>, st: Setting, o: Options): seq<Unit>
  {
    if o.ww2v2 then OwnedUnits(units, st.attacker) else units
  }

  /** A route that lands units from the sea: it starts at sea, ends on land and some joining unit is a land unit. */
  predicate IsAssaultFromSea(route: Route, joining: seq<Unit>)
  {
    route.start.isWater && !route.End().isWater && HasLand(joining)
  }

  /**
   * `addAttackChange(route, units)`, its effect on the battle: the joining
   * units attack from the territory before the route's end, a landing from the
   * sea makes the battle an amphibious assault, the dependencies are recorded,
   * and the aircraft carried on carriers leave the attacking list (they fight
   * on their carriers).
   */
  function AddAttack(s: State, st: Setting, o: Options, route: Route, units: seq<Unit>, f: AttackFacts): (r: State)
  {
    JoinAttack(s, st, o, route, units, f).(dependents := MergeDependents(s.dependents, AttackDependencies(units, st, o, f)))
  }

  /** `AddAttack` on every field but the dependents. */
  function JoinAttack(s: State, st: Setting, o: Options, route: Route, units: seq<Unit>, f: AttackFacts): (r: State)
  {
    var joining := Joining(units, st, o);
    var from := route.TerritoryBeforeEnd().name;
    var entry := if from in s.attackingFromMap then s.attackingFromMap[from] else [];
    var assault := IsAssaultFromSea(route, joining);
    var fighters := if o.alliedAirIndependent then {} else Fighters(CarriedAircraft(f.transporting + Carriers.CarrierMap(units, units, st.attacker)));
    s.(attackingFrom := s.attackingFrom + {from},
       attacking := RemoveSet(s.attacking + joining, fighters),
       attackingFromMap := s.attackingFromMap[from := entry + joining],
       amphibiousAttackFrom := if assault then s.amphibiousAttackFrom + [from] else s.amphibiousAttackFrom,
       amphibiousLandAttackers := if assault then s.amphibiousLandAttackers + Filter(IsLand, joining) else s.amphibiousLandAttackers,
       isAmphibious := s.isAmphibious || assault)
  }

  /**
   * After an attack is added, the territory it comes from is attacked from,
   * its entry ends with the joining units, every joining unit that is not an
   * aircraft on a carrier attacks, and the roster stays consistent.
   */
  lemma AddAttackRoster(s: State, st: Setting, o: Options, route: Route, units: seq<Unit>, f: AttackFacts)
    requires RosterConsistent(s)
    ensures var r := AddAttack(s, st, o, route, units, f);
            var from := route.TerritoryBeforeEnd().name;
            var joining := Joining(units, st, o);
            && RosterConsistent(r)
            && from in r.attackingFrom
            && joining <= r.attackingFromMap[from][|r.attackingFromMap[from]| - |joining|..]
            && (forall u :: u in joining && !(u.isAir && o.alliedAirIndependent == false && u in Fighters(CarriedAircraft(f.transporting + Carriers.CarrierMap(units, units, st.attacker))))
                  ==> u in r.attacking)
            && (IsAssaultFromSea(route, joining) ==> r.isAmphibious)
  {
    var r := AddAttack(s, st, o, route, units, f);
    var joining := Joining(units, st, o);
    var fighters := if o.alliedAirIndependent then {} else Fighters(CarriedAircraft(f.transporting + Carriers.CarrierMap(units, units, st.attacker)));
    forall u | u in joining && !(u.isAir && o.alliedAirIndependent == false && u in Fighters(CarriedAircraft(f.transporting + Carriers.CarrierMap(units, units, st.attacker))))
      ensures u in r.attacking
    {
      RemoveSetMembership(s.attacking + joining, fighters, u);
    }
  }

  /**
   * Taking back an attack just added restores the attacking list, when none of
   * the units attacked before and the aircraft carried on carriers are among them.
   */
  lemma RemoveAttackUndoesAddAttack(s: State, st: Setting, o: Options, route: Route, units: seq<Unit>, f: AttackFacts)
    requires forall u :: u in units ==> u !in s.attacking
    requires o.alliedAirIndependent || forall u :: u in Fighters(CarriedAircraft(f.transporting + Carriers.CarrierMap(units, units, st.attacker))) ==> u in units
    ensures RemoveAttack(AddAttack(s, st, o, route, units, f), Some(route), units).attacking == s.attacking
  {
    var joining := Joining(units, st, o);
    var fighters := if o.alliedAirIndependent then {} else Fighters(CarriedAircraft(f.transporting + Carriers.CarrierMap(units, units, st.attacker)));
    var added := RemoveSet(s.attacking + joining, fighters);
    var back := RemoveAll(added, units);
    forall u
      ensures u in back <==> u in s.attacking
    {
      RemoveAllMembership(added, units, u);
      RemoveSetMembership(s.attacking + joining, fighters, u);
    }
    RemoveUnitsNotThere(s.attacking, joining, fighters, units);
  }

  /** Removing, from `a + b`, first `fs` then `us` gives `a` back when `b` and `fs` lie within `us` and `a` has none of `us`. */
  lemma RemoveUnitsNotThere(a: seq<Unit>, b: seq<Unit>, fs: set<Unit>, us: seq<Unit>)
    requires forall u :: u in a ==> u !in us
    requires forall u :: u in b ==> u in us
    requires forall u :: u in fs ==> u in us
    ensures RemoveAll(RemoveSet(a + b, fs), us) == a
  {
    RemoveSetWithin(a + b, fs, us);
    RemoveAllTail(a, b, us);
  }

  /** Dropping some of `us` before dropping all of `us` changes nothing. */
  lemma {:induction false} RemoveSetWithin(xs: seq<Unit>, fs: set<Unit>, us: seq<Unit>)
    requires forall u :: u in fs ==> u in us
    ensures RemoveAll(RemoveSet(xs, fs), us) == RemoveAll(xs, us)
  {
    if xs != [] {
      var init := xs[..|xs| - 1];
      var last := xs[|xs| - 1];
      RemoveSetWithin(init, fs, us);
      if last !in fs {
        RemoveAllSnoc(RemoveSet(init, fs), last, us);
      } else {
        assert RemoveSet(init, fs) + [] == RemoveSet(init, fs);
      }
    }
  }

  /** Dropping `us` from a list with one more unit at its end drops it or keeps it at the end. */
  lemma RemoveAllSnoc(xs: seq<Unit>, last: Unit, us: seq<Unit>)
    ensures RemoveAll(xs + [last], us) == RemoveAll(xs, us) + (if last in us then [] else [last])
  {
    assert (xs + [last])[..|xs|] == xs;
  }

  /** Dropping `us` from `a + b` gives `a` when all of `b` and none of `a` is in `us`. */
  lemma {:induction false} RemoveAllTail(a: seq<Unit>, b: seq<Unit>, us: seq<Unit>)
    requires forall u :: u in a ==> u !in us
    requires forall u :: u in b ==> u in us
    ensures RemoveAll(a + b, us) == a
  {
    if b == [] {
      assert a + b == a;
      RemoveAllKeeps(a, us);
    } else {
      var ab := a + b;
      assert ab[..|ab| - 1] == a + b[..|b| - 1];
      assert ab[|ab| - 1] == b[|b| - 1];
      RemoveAllTail(a, b[..|b| - 1], us);
    }
  }

  /** Dropping units a list does not hold leaves it as it was. */
  lemma {:induction false} RemoveAllKeeps(a: seq<Unit>, us: seq<Unit>)
    requires forall u :: u in a ==> u !in us
    ensures RemoveAll(a, us) == a
  {
    if a != [] {
      RemoveAllKeeps(a[..|a| - 1], us);
      assert a == a[..|a| - 1] + [a[|a| - 1]];
    }
  }

  /**
   * The change `addAttackChange` returns for the rest of the game: each
   * aircraft held by a carrier, and with paratrooper technology each
   * paratrooper, is marked as carried by its holder; and the joining units
   * other than aircraft (and, in a sea battle, other than land units) are left
   * with no movement, unless the route passed only ignorable sea units.
   */
  datatype AttackChange = AttackChange(carriedBy: set<(Unit, Unit)>, noMovement: Option<seq<Unit>>)

  /** The options the movement rules of the route check read. */
  function PathRules(o: Options): MoveChecks.MoveRules
  {
    MoveChecks.MoveRules(false, false, o.submersibleSubs, o.ignoreTransportInMovement, o.ignoreSubInMovement,
                         false, false, 0, false)
  }

  /** Marks a unit stopped by an attack: not an aircraft, nor a land unit carried in a sea battle. */
  predicate Halts(u: Unit, siteIsWater: bool) { !u.isAir && !(siteIsWater && IsLand(u)) }

  function AttackChanges(st: Setting, o: Options, route: Route, units: seq<Unit>, f: AttackFacts): (r: AttackChange)
    ensures r.noMovement.None? <==> MoveChecks.OnlyIgnoredUnitsOnPath(PathRules(o), route, st.attacker, false)
    ensures r.noMovement.Some? ==>
              forall u :: u in r.noMovement.value <==> u in Joining(units, st, o) && Halts(u, st.siteIsWater)
    ensures forall p :: p in r.carriedBy ==>
              (p.0.isAir && IsCarrier(p.1) && !o.alliedAirIndependent) || (f.airTransportable && p in f.paratroopers)
  {
    var carried := if o.alliedAirIndependent then {}
                   else var deps := CarriedAircraft(f.transporting + Carriers.CarrierMap(units, units, st.attacker));
                        set h, a | h in deps && IsCarrier(h) && a in deps[h] && a.isAir :: (a, h);
    var dropped := if f.airTransportable then set p | p in f.paratroopers else {};
    var halting := (u: Unit) => Halts(u, st.siteIsWater);
    var joining := Joining(units, st, o);
    var stopped := Filter(halting, joining);
    forall u
      ensures u in stopped <==> u in joining && Halts(u, st.siteIsWater)
    {
      FilterMembership(halting, joining, u);
    }
    AttackChange(carried + dropped,
                 if MoveChecks.OnlyIgnoredUnitsOnPath(PathRules(o), route, st.attacker, false) then None else Some(stopped))
  }

  // ---------------------------------------------------------------- retreat destinations

  /** An enemy unit that closes a territory to retreat. */
  predicate PreventsRetreat(u: Unit, attacker: Stance, o: Options)
  {
    EnemyUnit(u, attacker) && !u.isInfrastructure && u.transportedBy.None? && !u.submerged
    && (o.ignoreSubInMovement ==> !u.isSub)
    && (o.ignoreTransportInMovement ==> IsNotTransportButCouldBeCombatTransport(u))
  }

  /** A territory the attackers came from that they may retreat to. */
  predicate RetreatOpen(s: State, st: Setting, w: World, o: Options, n: string)
  {
    && n in w.territories
    && var t := w.territories[n];
    && !(exists u :: u in t.units && PreventsRetreat(u, st.attacker, o))
    && ((o.ww2v2 || o.ww2v3) && n in s.attackingFromMap ==> s.attackingFromMap[n] == [] || !AllAir(s.attackingFromMap[n]))
    && !(IsEnemyTerritory(t, st.attacker) || t.isImpassable || n in w.restricted || (t.isWater && n in w.foughtOver))
    && n != st.site
    && (HasLand(s.attacking) && !st.siteIsWater ==> !t.isWater)
    && (HasSea(s.attacking) ==> t.isWater)
  }

  /**
   * `getAttackerRetreatTerritories`: without a display, with only aircraft
   * attacking, or when retreating units stay where they are, the battle site
   * alone; otherwise the territories attacked from that hold no enemy unit that
   * blocks a retreat, are not enemy, impassable or restricted ground nor a sea
   * zone fought over, are not the battle site, and suit the attacking units
   * (land for land units in a land battle, sea for sea units).
   */
  function AttackerRetreatTerritories(s: State, st: Setting, w: World, o: Options): (r: set<string>)
    ensures st.headless || AllAir(s.attacking) || o.retreatingUnitsRemainInPlace ==> r == {st.site}
    ensures !(st.headless || AllAir(s.attacking) || o.retreatingUnitsRemainInPlace) ==>
              st.site !in r && r <= s.attackingFrom
              && forall n :: n in r ==> n in w.territories
                                        && !(exists u :: u in w.territories[n].units && PreventsRetreat(u, st.attacker, o))
  {
    if st.headless || AllAir(s.attacking) || o.retreatingUnitsRemainInPlace then {st.site}
    else set n | n in s.attackingFrom && RetreatOpen(s, st, w, o, n)
  }

  /** With restricted transport casualties, only defenceless transports are left defending. */
  predicate OnlyDefenselessDefendingTransportsLeft(s: State, o: Options)
  {
    o.transportCasualtiesRestricted && s.defending != []
    && forall u :: u in s.defending ==> IsTransportButNotCombatTransport(u)
  }

  predicate CanAttackerRetreat(s: State, st: Setting, w: World, o: Options)
  {
    !OnlyDefenselessDefendingTransportsLeft(s, o) && !s.isAmphibious && AttackerRetreatTerritories(s, st, w, o) != {}
  }

  predicate CanAttackerRetreatPlanes(s: State, o: Options)
  {
    (o.ww2v2 || o.attackerRetreatPlanes || o.partialAmphibiousRetreat) && s.isAmphibious && HasAir(s.attacking)
  }

  predicate CanAttackerRetreatPartialAmphib(s: State, o: Options)
  {
    s.isAmphibious && o.partialAmphibiousRetreat && exists u :: u in s.attacking && IsLand(u) && !u.wasAmphibious
  }

  predicate CanAttackerRetreatSubs(s: State, st: Setting, w: World, o: Options)
  {
    !HasDestroyer(s.defending) && !HasDestroyer(s.defendingWaitingToDie)
    && (CanAttackerRetreat(s, st, w, o) || o.submersibleSubs)
  }

  /**
   * `getEmptyOrFriendlySeaNeighbors`: without a display every neighbour;
   * otherwise the neighbouring sea zones with no unit at war with the
   * defender whose canals let the submarines through.
   */
  function EmptyOrFriendlySeaNeighbors(st: Setting, w: World): (r: set<string>)
    ensures !st.headless ==> forall n :: n in r ==> n in w.territories && w.territories[n].isWater && n !in w.canalBlocked
  {
    set n | n in w.neighbours
            && (st.headless
                || (n in w.territories && w.territories[n].isWater
                    && !(exists u :: u in w.territories[n].units && EnemyUnit(u, st.defender))
                    && n !in w.canalBlocked))
  }

  predicate CanDefenderRetreatSubs(s: State, st: Setting, w: World, o: Options)
  {
    !HasDestroyer(s.attacking) && !HasDestroyer(s.attackingWaitingToDie)
    && (EmptyOrFriendlySeaNeighbors(st, w) != {} || o.submersibleSubs)
  }

  /** No side may withdraw its submarines while the other side has a destroyer, even one waiting to die. */
  lemma DestroyersPinSubmarines(s: State, st: Setting, w: World, o: Options)
    ensures HasDestroyer(s.defending) || HasDestroyer(s.defendingWaitingToDie) ==> !CanAttackerRetreatSubs(s, st, w, o)
    ensures HasDestroyer(s.attacking) || HasDestroyer(s.attackingWaitingToDie) ==> !CanDefenderRetreatSubs(s, st, w, o)
  {
  }

  // ---------------------------------------------------------------- retreat effects

  /** Units that go with a retreat: not the attacker's own aircraft. */
  function NotMyAir(us: seq<Unit>, attacker: Stance): (r: seq<Unit>)
    ensures forall u :: u in r <==> u in us && (!u.isAir || !OwnedBy(u, attacker))
  {
    var notMyAir := (u: Unit) => !u.isAir || !OwnedBy(u, attacker);
    var r := Filter(notMyAir, us);
    forall u
      ensures u in r <==> u in us && (!u.isAir || !OwnedBy(u, attacker))
    {
      FilterMembership(notMyAir, us, u);
    }
    r
  }

  /**
   * The units leave their side for the retreated list; when nothing is left
   * on the side, or the battle was already over, the battle ends and the other
   * side wins.
   */
  function Withdraw(s: State, moving: seq<Unit>, defender: bool): (r: State)
  {
    var side := RemoveAll(Side(s, defender), moving);
    var s1 := WithRetreated(WithSide(s, defender, side), defender, Retreated(s, defender) + moving);
    if side == [] || s.isOver then Concede(s1, defender) else s1
  }

  /** Withdrawn units are off their side and on its retreated list, which only grows. */
  lemma WithdrawMoves(s: State, moving: seq<Unit>, defender: bool)
    ensures var r := Withdraw(s, moving, defender);
            && (forall u :: u in moving ==> u !in Side(r, defender) && u in Retreated(r, defender))
            && Retreated(s, defender) <= Retreated(r, defender)
            && (s.isOver ==> r.isOver)
            && (!r.isOver ==> Side(r, defender) != [])
  {
    var side := RemoveAll(Side(s, defender), moving);
    var s1 := WithRetreated(WithSide(s, defender, side), defender, Retreated(s, defender) + moving);
    assert Side(s1, defender) == side && Retreated(s1, defender) == Retreated(s, defender) + moving;
    forall u | u in moving
      ensures u !in Side(Withdraw(s, moving, defender), defender)
    {
      RemoveAllMembership(Side(s, defender), moving, u);
      ConcedeShrinks(s1, defender, defender, u);
    }
    ConcedeKeepsRetreated(s1, defender, defender);
  }

  /**
   * `retreatUnits(retreating, to, defender)`: the retreating units and their
   * dependents go, except the attacker's own aircraft.
   */
  function RetreatUnits(s: State, st: Setting, retreating: seq<Unit>, defender: bool): State
  {
    Withdraw(s, NotMyAir(retreating + DependentsOf(s.dependents, retreating), st.attacker), defender)
  }

  /** The retreating units that are not the attacker's aircraft leave the fight and are listed as retreated. */
  lemma RetreatUnitsMoves(s: State, st: Setting, retreating: seq<Unit>, defender: bool, u: Unit)
    requires u in retreating && (!u.isAir || !OwnedBy(u, st.attacker))
    ensures var r := RetreatUnits(s, st, retreating, defender);
            u !in Side(r, defender) && u in Retreated(r, defender)
  {
    WithdrawMoves(s, NotMyAir(retreating + DependentsOf(s.dependents, retreating), st.attacker), defender);
  }

  /** `submergeUnits(submerging, defender)`: the submarines leave their side for the retreated list; the battle goes on. */
  function SubmergeUnits(s: State, submerging: seq<Unit>, defender: bool): (r: State)
    ensures forall u :: u in submerging ==> u !in Side(r, defender) && u in Retreated(r, defender)
    ensures r.isOver == s.isOver && r.whoWon == s.whoWon
  {
    var side := RemoveAll(Side(s, defender), submerging);
    forall u | u in submerging
      ensures u !in side
    {
      RemoveAllMembership(Side(s, defender), submerging, u);
    }
    WithRetreated(WithSide(s, defender, side), defender, Retreated(s, defender) + submerging)
  }

  /**
   * `retreatPlanes(retreating, defender)` as the source has it: the planes
   * leave their side and are also taken off the retreated list (where the
   * other retreats add them); an emptied side or a battle already over ends
   * the battle with the other side the winner.
   */
  function RetreatPlanes(s: State, retreating: seq<Unit>, defender: bool): State
  {
    var side := RemoveAll(Side(s, defender), retreating);
    var s1 := WithRetreated(WithSide(s, defender, side), defender, RemoveAll(Retreated(s, defender), retreating));
    if side == [] || s.isOver then Concede(s1, defender) else s1
  }

  /** Retreated planes are on neither their side nor its retreated list. */
  lemma RetreatPlanesDropsThem(s: State, retreating: seq<Unit>, defender: bool, u: Unit)
    requires u in retreating
    ensures var r := RetreatPlanes(s, retreating, defender);
            u !in Side(r, defender) && u !in Retreated(r, defender)
  {
    var s1 := WithRetreated(WithSide(s, defender, RemoveAll(Side(s, defender), retreating)), defender,
                            RemoveAll(Retreated(s, defender), retreating));
    RemoveAllMembership(Side(s, defender), retreating, u);
    RemoveAllMembership(Retreated(s, defender), retreating, u);
    assert u !in Side(s1, defender) && u !in Retreated(s1, defender);
    ConcedeShrinks(s1, defender, defender, u);
    ConcedeKeepsRetreated(s1, defender, defender);
  }

  /**
   * `retreatUnitsAndPlanes(retreating, to, defender)`: every aircraft leaves
   * the side, then the retreating units together with the dependents of the
   * units still on the side go, except the attacker's own aircraft.
   */
  function RetreatUnitsAndPlanes(s: State, st: Setting, retreating: seq<Unit>, defender: bool): (r: State)
    ensures r.isOver || forall u :: u in Side(r, defender) ==> !u.isAir
  {
    var grounded := RemoveAll(Side(s, defender), Filter(IsAirUnit, Side(s, defender)));
    forall u | u in grounded
      ensures !u.isAir
    {
      RemoveAllMembership(Side(s, defender), Filter(IsAirUnit, Side(s, defender)), u);
      FilterMembership(IsAirUnit, Side(s, defender), u);
    }
    var s1 := WithSide(s, defender, grounded);
    Withdraw(s1, NotMyAir(retreating + DependentsOf(s.dependents, grounded), st.attacker), defender)
  }

  /** The units a retreat question is about. */
  function RetreatCandidates(s: State, st: Setting, w: World, defender: bool, kind: RetreatType): seq<Unit>
  {
    var units := if defender then s.defending
                 else s.attacking + RemoveAll(OwnedUnits(w.siteUnits, st.attacker), s.attacking);
    match kind
    case SUBS => Filter(IsSubUnit, units)
    case PLANES => Filter(IsAirUnit, units)
    case PARTIAL_AMPHIB => Filter(WasNotAmphibious, units)
    case DEFAULT => units
  }

  /**
   * A retreat question is about exactly the units of the retreating side (for
   * the attacker, also its own units at the site that are not attacking) that
   * are of the kind asked about.
   */
  lemma RetreatCandidatesMembership(s: State, st: Setting, w: World, defender: bool, kind: RetreatType, u: Unit)
    ensures u in RetreatCandidates(s, st, w, defender, kind) <==>
      (if defender then u in s.defending else u in s.attacking || (u in w.siteUnits && OwnedBy(u, st.attacker)))
      && (kind == RetreatType.SUBS ==> u.isSub) && (kind == RetreatType.PLANES ==> u.isAir)
      && (kind == PARTIAL_AMPHIB ==> !u.wasAmphibious)
  {
    var units := if defender then s.defending
                 else s.attacking + RemoveAll(OwnedUnits(w.siteUnits, st.attacker), s.attacking);
    RemoveAllMembership(OwnedUnits(w.siteUnits, st.attacker), s.attacking, u);
    FilterMembership(IsSubUnit, units, u);
    FilterMembership(IsAirUnit, units, u);
    FilterMembership(WasNotAmphibious, units, u);
  }

  /** Submarines submerge instead of retreating. */
  predicate Submerges(o: Options, kind: RetreatType)
  {
    kind == RetreatType.SUBS && o.submersibleSubs
  }

  /** Defending submarines may choose between submerging and retreating. */
  predicate DefendingSubsChoose(o: Options, defender: bool, kind: RetreatType)
  {
    kind == RetreatType.SUBS && defender && o.submarinesDefendingMaySubmergeOrRetreat
  }

  /** The destinations a retreat question offers. */
  function RetreatOffer(s: State, st: Setting, w: World, o: Options, defender: bool, kind: RetreatType,
                        available: set<string>): (r: set<string>)
    ensures kind == PLANES ==> r == {st.site}
    ensures DefendingSubsChoose(o, defender, kind) ==> st.site in r
  {
    var units := RetreatCandidates(s, st, w, defender, kind);
    var atSea := if HasSea(units) then set n | n in available && n in w.territories && w.territories[n].isWater else available;
    var offered := if DefendingSubsChoose(o, defender, kind) then atSea + {st.site}
                   else if Submerges(o, kind) then {st.site}
                   else atSea;
    if kind == PLANES then {st.site} else offered
  }

  /**
   * `queryRetreat(defender, kind, available)` with the player's answer
   * `retreatTo` (none for staying): when there is anything to ask about, a
   * full retreat of the attacker ends the battle, submarines at the battle site
   * submerge, planes retreat in place, a partial amphibious retreat takes the
   * units that did not land from the sea, and anything else retreats to the
   * chosen territory. An answer outside the offer is ignored, except for
   * submarines.
   */
  function QueryRetreat(s: State, st: Setting, w: World, o: Options, defender: bool, kind: RetreatType,
                        available: set<string>, retreatTo: Option<string>): State
  {
    var submerge := Submerges(o, kind);
    var choose := DefendingSubsChoose(o, defender, kind);
    var units := RetreatCandidates(s, st, w, defender, kind);
    var offer := RetreatOffer(s, st, w, o, defender, kind, available);
    if available == {} && !(submerge || choose) then s
    else if units == [] || retreatTo.None? then s
    else if retreatTo.value !in offer && kind != RetreatType.SUBS then s
    else
      var s1 := if !defender && kind == DEFAULT then s.(isOver := true) else s;
      if kind == RetreatType.SUBS && retreatTo.value == st.site && (submerge || choose) then SubmergeUnits(s1, units, defender)
      else if kind == PLANES then RetreatPlanes(s1, units, defender)
      else if kind == PARTIAL_AMPHIB then RetreatUnitsAndPlanes(s1, st, Filter(WasNotAmphibious, units), defender)
      else RetreatUnits(s1, st, units, defender)
  }

  /** No answer, or an answer outside the offer for anything but submarines, changes nothing. */
  lemma QueryRetreatIgnores(s: State, st: Setting, w: World, o: Options, defender: bool, kind: RetreatType,
                            available: set<string>, retreatTo: Option<string>)
    requires retreatTo.None? || (retreatTo.value !in RetreatOffer(s, st, w, o, defender, kind, available) && kind != RetreatType.SUBS)
    ensures QueryRetreat(s, st, w, o, defender, kind, available, retreatTo) == s
  {
  }

  /** A full retreat of the attacker to an offered territory ends the battle, and the retreating units leave the fight. */
  lemma AttackerFullRetreatEndsBattle(s: State, st: Setting, w: World, o: Options, available: set<string>, to: string, u: Unit)
    requires available != {} && RetreatCandidates(s, st, w, false, DEFAULT) != []
    requires to in RetreatOffer(s, st, w, o, false, DEFAULT, available)
    requires u in RetreatCandidates(s, st, w, false, DEFAULT) && (!u.isAir || !OwnedBy(u, st.attacker))
    ensures var r := QueryRetreat(s, st, w, o, false, DEFAULT, available, Some(to));
            r.isOver && r.whoWon == DEFENDER && u !in r.attacking && u in r.attackingRetreated
  {
    var units := RetreatCandidates(s, st, w, false, DEFAULT);
    RetreatUnitsMoves(s.(isOver := true), st, units, false, u);
  }

  /** Submarines told to stay at the battle site submerge: they leave the fight and the battle goes on. */
  lemma SubmarinesSubmerge(s: State, st: Setting, w: World, o: Options, defender: bool, available: set<string>, u: Unit)
    requires Submerges(o, RetreatType.SUBS) || DefendingSubsChoose(o, defender, RetreatType.SUBS)
    requires u in RetreatCandidates(s, st, w, defender, RetreatType.SUBS)
    ensures var r := QueryRetreat(s, st, w, o, defender, RetreatType.SUBS, available, Some(st.site));
            u !in Side(r, defender) && u in Retreated(r, defender) && r.isOver == s.isOver
  {
  }

  // ---------------------------------------------------------------- the retreat steps of a round

  /**
   * The attacker's submarine retreat step: while the battle goes on and the
   * attacker's submarines may withdraw (and were not asked before the battle),
   * they are asked where to go among the attacker's retreat territories.
   */
  function AttackerRetreatSubsStep(s: State, st: Setting, w: World, o: Options, answer: Option<string>): (r: State)
    ensures s.isOver || !CanAttackerRetreatSubs(s, st, w, o) || o.subRetreatBeforeBattle || !HasSub(s.attacking) ==> r == s
  {
    if !s.isOver && CanAttackerRetreatSubs(s, st, w, o) && !o.subRetreatBeforeBattle && HasSub(s.attacking)
    then QueryRetreat(s, st, w, o, false, RetreatType.SUBS, AttackerRetreatTerritories(s, st, w, o), answer)
    else s
  }

  /**
   * The defender's submarine retreat step; afterwards a battle with no
   * defender left is won by the attacker, so that the attacker is not asked to
   * retreat from a battle already decided.
   */
  function DefenderRetreatSubsStep(s: State, st: Setting, w: World, o: Options, answer: Option<string>): (r: State)
    ensures s.isOver ==> r == s
    ensures !s.isOver && r.defending == [] ==> r.isOver && r.whoWon == ATTACKER
  {
    if s.isOver then s
    else
      var s1 := if CanDefenderRetreatSubs(s, st, w, o) && !o.subRetreatBeforeBattle && HasSub(s.defending)
                then QueryRetreat(s, st, w, o, true, RetreatType.SUBS, EmptyOrFriendlySeaNeighbors(st, w), answer)
                else s;
      if s1.defending == [] then Conclude(s1, ATTACKER) else s1
  }

  /** The attacker's aircraft may leave an amphibious assault they cannot otherwise retreat from, staying at the site. */
  function AttackerRetreatPlanesStep(s: State, st: Setting, w: World, o: Options, answer: Option<string>): (r: State)
    ensures s.isOver || !CanAttackerRetreatPlanes(s, o) || CanAttackerRetreatPartialAmphib(s, o) ==> r == s
  {
    if !s.isOver && CanAttackerRetreatPlanes(s, o) && !CanAttackerRetreatPartialAmphib(s, o) && HasAir(s.attacking)
    then QueryRetreat(s, st, w, o, false, PLANES, {st.site}, answer)
    else s
  }

  /** The units of an amphibious assault that did not land from the sea may retreat. */
  function AttackerRetreatNonAmphibStep(s: State, st: Setting, w: World, o: Options, answer: Option<string>): (r: State)
    ensures s.isOver || !CanAttackerRetreatPartialAmphib(s, o) ==> r == s
  {
    if !s.isOver && CanAttackerRetreatPartialAmphib(s, o)
    then QueryRetreat(s, st, w, o, false, PARTIAL_AMPHIB, AttackerRetreatTerritories(s, st, w, o), answer)
    else s
  }

  /**
   * The attacker's full retreat step. A battle the attacker may retreat from
   * is never amphibious, so the partial retreat the source offers an
   * amphibious battle here never happens and the question is always a full
   * retreat.
   */
  function AttackerRetreatStep(s: State, st: Setting, w: World, o: Options, answer: Option<string>): (r: State)
    ensures s.isOver || !CanAttackerRetreat(s, st, w, o) ==> r == s
  {
    if !s.isOver && CanAttackerRetreat(s, st, w, o)
    then QueryRetreat(s, st, w, o, false, DEFAULT, AttackerRetreatTerritories(s, st, w, o), answer)
    else s
  }

  /** Once the attacker accepts an offered full retreat, the battle is over and the defender has won. */
  lemma AttackerRetreatStepEnds(s: State, st: Setting, w: World, o: Options, to: string, u: Unit)
    requires !s.isOver && CanAttackerRetreat(s, st, w, o)
    requires to in RetreatOffer(s, st, w, o, false, DEFAULT, AttackerRetreatTerritories(s, st, w, o))
    requires u in RetreatCandidates(s, st, w, false, DEFAULT) && (!u.isAir || !OwnedBy(u, st.attacker))
    ensures var r := AttackerRetreatStep(s, st, w, o, Some(to));
            r.isOver && r.whoWon == DEFENDER && u !in r.attacking
  {
    AttackerFullRetreatEndsBattle(s, st, w, o, AttackerRetreatTerritories(s, st, w, o), to, u);
  }

  // ---------------------------------------------------------------- other steps of a round

  predicate IsSuicideUnit(u: Unit) { u.isSuicide }

  /**
   * `checkSuicideUnits`: suicide units die once they have fired. When the
   * defender's suicide units do not fire, only the attacker's die.
   */
  function CheckSuicideUnits(s: State, o: Options): (r: State)
    ensures forall u :: u in s.attacking && u.isSuicide ==> u !in r.attacking
    ensures !o.defendingSuicideAndMunitionUnitsDoNotFire ==> forall u :: u in s.defending && u.isSuicide ==> u !in r.defending
    ensures o.defendingSuicideAndMunitionUnitsDoNotFire ==> r.defending == s.defending
  {
    var attackers := Filter(IsSuicideUnit, s.attacking);
    var defenders := Filter(IsSuicideUnit, s.defending);
    forall u: Unit | u.isSuicide
      ensures (u in s.attacking ==> u in attackers) && (u in s.defending ==> u in defenders)
    {
      FilterMembership(IsSuicideUnit, s.attacking, u);
      FilterMembership(IsSuicideUnit, s.defending, u);
    }
    if o.defendingSuicideAndMunitionUnitsDoNotFire then Remove(s, attackers, Some(false))
    else Remove(s, defenders + attackers, None)
  }

  /**
   * `submergeSubsVsOnlyAir`: submarines facing only aircraft submerge: the
   * defender's when only aircraft attack, otherwise the attacker's when only
   * aircraft defend.
   */
  function SubmergeSubsVsOnlyAir(s: State): (r: State)
    ensures AllAir(s.attacking) && HasSub(s.defending) ==> !HasSub(r.defending) && r.attacking == s.attacking
    ensures !(AllAir(s.attacking) && HasSub(s.defending)) && AllAir(s.defending) && HasSub(s.attacking) ==>
              !HasSub(r.attacking) && r.defending == s.defending
    ensures r.isOver == s.isOver
  {
    if AllAir(s.attacking) && HasSub(s.defending) then
      var subs := Filter(IsSubUnit, s.defending);
      var r := SubmergeUnits(s, subs, true);
      forall u | u in r.defending
        ensures !u.isSub
      {
        FilterMembership(IsSubUnit, s.defending, u);
      }
      r
    else if AllAir(s.defending) && HasSub(s.attacking) then
      var subs := Filter(IsSubUnit, s.attacking);
      var r := SubmergeUnits(s, subs, false);
      forall u | u in r.attacking
        ensures !u.isSub
      {
        FilterMembership(IsSubUnit, s.attacking, u);
      }
      r
    else s
  }

  // ---------------------------------------------------------------- losses in an earlier battle

  /**
   * `unitsLostInPrecedingBattle(units, withdrawn)`: attackers lost in a battle
   * fought before this one (and what depended on them) stop attacking; the
   * assault from the sea ends when none of its land units is left; the lost
   * units still in the battle site are removed unless they withdrew; and an
   * attack left with no unit is recorded as the defender's win, although the
   * battle is not marked over here.
   */
  function UnitsLostInPrecedingBattle(s: State, w: World, units: seq<Unit>, withdrawn: bool): (r: State)
    ensures forall u :: u in units && u in s.attacking ==> u !in r.attacking
    ensures r.isOver == s.isOver
    ensures r.attacking == [] ==> r.whoWon == DEFENDER
    ensures r.attacking != [] ==> r.whoWon == s.whoWon
  {
    var lost := DependentsOf(s.dependents, units) + Intersection(units, s.attacking);
    var landers := RemoveAll(s.amphibiousLandAttackers, lost);
    var s1 := s.(amphibiousLandAttackers := landers,
                 isAmphibious := if landers == [] then false else s.isAmphibious,
                 bombarding := if landers == [] then [] else s.bombarding,
                 attacking := RemoveAll(s.attacking, lost));
    forall u | u in units && u in s.attacking
      ensures u !in s1.attacking
    {
      assert u in Intersection(units, s.attacking);
      RemoveAllMembership(s.attacking, lost, u);
    }
    var inSite := Intersection(lost, w.siteUnits);
    var s2 := if !withdrawn then Remove(s1, inSite, Some(false)) else s1;
    if s2.attacking == [] then s2.(whoWon := DEFENDER) else s2
  }
}
