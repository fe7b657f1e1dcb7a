/**
 * The battle object itself: `MustFightBattle` with the fields it updates in
 * place and the execution stack its round is pushed onto. Every method
 * changes the fields exactly as the matching function of `BattleState` (or,
 * for the stack, of `BattleSteps`) says, and changes nothing else.
 */
module Battle {
  import opened Wrappers
  import opened Units
  import opened BattleRules
  import opened BattleState
  import opened BattleSteps
  import Carriers

  /**
   * A battle as it is created: the defenders are the units at the battle site
   * that are enemies of the attacker, nothing else is recorded yet, and the
   * first round is round 1.
   */
  function InitialState(st: Setting, siteUnits: seq<Unit>): (r: State)
    ensures forall u :: u in r.defending <==> u in siteUnits && EnemyUnit(u, st.attacker)
    ensures r.attacking == [] && r.killed == [] && r.attackingFrom == {} && r.dependents == map[]
    ensures r.round == 1 && !r.isOver && r.whoWon == NOTFINISHED
  {
    var enemy := (u: Unit) => EnemyUnit(u, st.attacker);
    forall u
      ensures u in Filter(enemy, siteUnits) <==> u in siteUnits && EnemyUnit(u, st.attacker)
    {
      FilterMembership(enemy, siteUnits, u);
    }
    State([], Filter(enemy, siteUnits), [], [], [], [], [], map[], {}, [], [], false, [], map[], 1, false, NOTFINISHED, [])
  }

  /** The number of rounds a battle may last: the sea or the land setting, by where it is fought (0 or less: no limit). */
  function MaxRounds(st: Setting, seaRounds: int, landRounds: int): (r: int)
    ensures st.siteIsWater ==> r == seaRounds
    ensures !st.siteIsWater ==> r == landRounds
  {
    if st.siteIsWater then seaRounds else landRounds
  }

  /**
   * The loop step of a round on a battle still going on: the next round
   * begins and the step names are listed again for it (never as a first run).
   */
  function NextRound(s: State, st: Setting, w: World, o: Options, f: StepFacts): (r: State)
    ensures r == s.(round := s.round + 1, stepStrings := r.stepStrings)
  {
    var s1 := s.(round := s.round + 1);
    s1.(stepStrings := StepList(s1, st, w, o, f, false))
  }

  /**
   * The steps listed for the next round remove casualties once, offer only
   * retreats after that, and list the attacker's withdrawal, as the last step,
   * exactly when the attacker may withdraw.
   */
  lemma NextRoundSteps(s: State, st: Setting, w: World, o: Options, f: StepFacts)
    ensures var r := NextRound(s, st, w, o, f);
            CasualtiesOnceThenRetreats(r.stepStrings, AttackerWithdrawShown(r, st, w, o))
  {
    var s1 := s.(round := s.round + 1);
    StepListShape(s1, st, w, o, f, false);
    assert NextRound(s, st, w, o, f) == s1.(stepStrings := StepList(s1, st, w, o, f, false));
    AttackerWithdrawShownIgnoresSteps(s1, st, w, o, StepList(s1, st, w, o, f, false));
  }

  /** Whether the attacker may withdraw does not depend on the step names listed. */
  lemma AttackerWithdrawShownIgnoresSteps(s: State, st: Setting, w: World, o: Options, steps: seq<BattleStep>)
    ensures AttackerWithdrawShown(s.(stepStrings := steps), st, w, o) == AttackerWithdrawShown(s, st, w, o)
  {
  }

  class MustFightBattle {
    const setting: Setting
    const maxRounds: int

    var attacking: seq<Unit>
    var defending: seq<Unit>
    var attackingWaitingToDie: seq<Unit>
    var defendingWaitingToDie: seq<Unit>
    var killed: seq<Unit>
    var attackingRetreated: seq<Unit>
    var defendingRetreated: seq<Unit>
    var attackingFromMap: map<string, seq<Unit>>
    var attackingFrom: set<string>
    var amphibiousAttackFrom: seq<string>
    var amphibiousLandAttackers: seq<Unit>
    var isAmphibious: bool
    var bombarding: seq<Unit>
    var dependents: map<Unit, seq<Unit>>
    var round: int
    var isOver: bool
    var whoWon: WhoWon
    var stepStrings: seq<BattleStep>
    /** The execution stack; its top is the last element. */
    var stack: seq<Exec>

    /** The fields the battle updates, as one value. */
    function Value(): State
      reads this
    {
      State(attacking, defending, attackingWaitingToDie, defendingWaitingToDie, killed,
            attackingRetreated, defendingRetreated, attackingFromMap, attackingFrom,
            amphibiousAttackFrom, amphibiousLandAttackers, isAmphibious, bombarding,
            dependents, round, isOver, whoWon, stepStrings)
    }

    /** A battle at a site: it defends with the attacker's enemies there and lasts the sea or land number of rounds. */
    constructor (st: Setting, siteUnits: seq<Unit>, seaRounds: int, landRounds: int)
      ensures setting == st && maxRounds == MaxRounds(st, seaRounds, landRounds)
      ensures Value() == InitialState(st, siteUnits) && stack == []
    {
      setting := st;
      defending := Filter((u: Unit) => EnemyUnit(u, st.attacker), siteUnits);
      maxRounds := if st.siteIsWater then seaRounds else landRounds;
      attacking, attackingWaitingToDie, defendingWaitingToDie, killed := [], [], [], [];
      attackingRetreated, defendingRetreated := [], [];
      attackingFromMap, attackingFrom, amphibiousAttackFrom := map[], {}, [];
      amphibiousLandAttackers, isAmphibious, bombarding := [], false, [];
      dependents, round, isOver, whoWon, stepStrings := map[], 1, false, NOTFINISHED, [];
      stack := [];
    }

    // ------------------------------------------------------------ casualties

    /**
     * `remove(killed, site, defenderDying)`. The source adds the dependents to
     * the caller's own collection; `all` is that collection afterwards.
     */
    method Remove(lost: seq<Unit>, defenderDying: Option<bool>) returns (all: seq<Unit>)
      modifies this`killed, this`defending, this`attacking
      ensures Value() == BattleState.Remove(old(Value()), lost, defenderDying)
      ensures all == if lost == [] then [] else lost + DependentsOf(old(dependents), lost)
    {
      if lost == [] {
        return [];
      }
      all := lost + DependentsOf(dependents, lost);
      SetKilled(killed + all);
      if defenderDying != Some(false) {
        SetDefending(RemoveAll(defending, all));
      }
      if defenderDying != Some(true) {
        SetAttacking(RemoveAll(attacking, all));
      }
    }

    /** `removeCasualties(killed, returnFire, defender)`. */
    method RemoveCasualties(lost: seq<Unit>, returnFire: ReturnFire, defender: bool)
      modifies this`killed, this`defending, this`attacking, this`attackingWaitingToDie, this`defendingWaitingToDie
      ensures Value() == BattleState.RemoveCasualties(old(Value()), lost, returnFire, defender)
    {
      if lost == [] {
        return;
      }
      var removed := lost;
      match returnFire {
        case ALL =>
          if defender {
            SetDefendingWaitingToDie(defendingWaitingToDie + lost);
          } else {
            SetAttackingWaitingToDie(attackingWaitingToDie + lost);
          }
        case SUBS =>
          if defender {
            SetDefendingWaitingToDie(defendingWaitingToDie + Filter(IsSubUnit, lost));
          } else {
            SetAttackingWaitingToDie(attackingWaitingToDie + Filter(IsSubUnit, lost));
          }
          var _ := Remove(Filter(IsNotSubUnit, lost), Some(defender));
        case NONE =>
          // the same collection is passed on, so it comes back with the dependents
          removed := Remove(lost, Some(defender));
      }
      if defender {
        SetDefending(RemoveAll(defending, removed));
      } else {
        SetAttacking(RemoveAll(attacking, removed));
      }
    }

    /** `clearWaitingToDie`: both waiting lists are removed from the battle and emptied. */
    method ClearWaitingToDie()
      modifies this`killed, this`defending, this`attacking, this`attackingWaitingToDie, this`defendingWaitingToDie
      ensures Value() == BattleState.ClearWaitingToDie(old(Value()))
    {
      var units := attackingWaitingToDie + defendingWaitingToDie;
      var _ := Remove(units, None);
      SetDefendingWaitingToDie([]);
      SetAttackingWaitingToDie([]);
    }

    // ------------------------------------------------------------ the end of the battle

    /** `endBattle`. */
    method EndBattle()
      modifies this`killed, this`defending, this`attacking, this`attackingWaitingToDie, this`defendingWaitingToDie, this`isOver
      ensures Value() == BattleState.EndBattle(old(Value()))
    {
      ClearWaitingToDie();
      SetIsOver(true);
    }

    /** `defenderWins`, as far as the battle's own fields go. */
    method DefenderWins()
      modifies this`whoWon
      ensures Value() == old(Value()).(whoWon := DEFENDER)
    {
      whoWon := DEFENDER;
    }

    /** `attackerWins`, as far as the battle's own fields go. */
    method AttackerWins()
      modifies this`whoWon
      ensures Value() == old(Value()).(whoWon := ATTACKER)
    {
      whoWon := ATTACKER;
    }

    /** `nobodyWins`, as far as the battle's own fields go. */
    method NobodyWins()
      modifies this`whoWon
      ensures Value() == old(Value()).(whoWon := DRAW)
    {
      whoWon := DRAW;
    }

    /** The end-of-round check of `getBattleExecutables`. */
    method CheckEnd(w: World, o: Options)
      modifies this`killed, this`defending, this`attacking, this`attackingWaitingToDie, this`defendingWaitingToDie, this`isOver, this`whoWon
      ensures Value() == EndOfRoundStep(old(Value()), setting, w, o, maxRounds)
    {
      var e := EndOfRound(attacking, defending, w.siteUnits, setting.attacker, o, round, maxRounds);
      match e {
        case DefenderWins =>
          EndBattle();
          DefenderWins();
        case AttackerWins =>
          EndBattle();
          AttackerWins();
        case Draw =>
          EndBattle();
          NobodyWins();
        case ReaddTransports =>
          SetAttacking(OwnedUnits(w.siteUnits, setting.attacker));
        case Continue =>
      }
    }

    // ------------------------------------------------------------ adding and removing attackers

    /** `removeAttack(route, units)`. */
    method RemoveAttack(route: Option<Route>, units: seq<Unit>)
      modifies this`attacking, this`attackingFromMap, this`attackingFrom, this`amphibiousLandAttackers, this`amphibiousAttackFrom, this`isAmphibious, this`dependents
      ensures Value() == BattleState.RemoveAttack(old(Value()), route, units)
    {
      SetAttacking(RemoveAll(attacking, units));
      if route.None? {
        return;
      }
      LeaveEntry(route.value.TerritoryBeforeEnd(), !route.value.End().isWater, units);
      StripDependentUnits(units);
    }

    /** The middle of `removeAttack`: the units leave the entry of the territory they attacked from. */
    method LeaveEntry(from: Territory, endsOnLand: bool, units: seq<Unit>)
      modifies this`attackingFromMap, this`attackingFrom, this`amphibiousLandAttackers, this`amphibiousAttackFrom, this`isAmphibious
      ensures Value() == BattleState.LeaveEntry(old(Value()), from, endsOnLand, units)
    {
      var left := [];
      if from.name in attackingFromMap {
        left := RemoveAll(attackingFromMap[from.name], units);
        SetAttackingFromMap(attackingFromMap[from.name := left]);
      }
      if left == [] {
        SetAttackingFrom(attackingFrom - {from.name});
      }
      if from.isWater && endsOnLand && HasLand(units) {
        SetAmphibiousLandAttackers(RemoveAll(amphibiousLandAttackers, Filter(IsLand, units)));
      }
      if from.isWater && !HasLand(left) {
        SetAmphibiousAttackFrom(RemoveFirst(amphibiousAttackFrom, from.name));
        SetIsAmphibious(amphibiousAttackFrom != []);
      }
    }

    /** The loop at the end of `removeAttack`: no holder keeps any of the units as dependents. */
    method StripDependentUnits(units: seq<Unit>)
      modifies this`dependents
      ensures Value() == old(Value()).(dependents := StripDependents(old(dependents), units))
    {
      var holders := dependents.Keys;
      while holders != {}
        invariant holders <= dependents.Keys == old(dependents).Keys
        invariant forall h :: h in dependents ==>
                    dependents[h] == if h in holders then old(dependents)[h] else RemoveAll(old(dependents)[h], units)
        invariant Value() == old(Value()).(dependents := dependents)
        decreases holders
      {
        var h :| h in holders;
        SetDependents(dependents[h := RemoveAll(dependents[h], units)]);
        holders := holders - {h};
      }
      assert dependents == StripDependents(old(dependents), units);
    }

    /** `addDependentUnits(dependencies)`. */
    method AddDependentUnits(added: map<Unit, seq<Unit>>)
      modifies this`dependents
      ensures Value() == old(Value()).(dependents := MergeDependents(old(dependents), added))
    {
      var merged := dependents;
      var holders := added.Keys;
      while holders != {}
        invariant holders <= added.Keys
        invariant merged.Keys == dependents.Keys + (added.Keys - holders)
        invariant forall h :: h in merged ==>
                    merged[h] == if h in added && h !in holders
                                 then Union(if h in dependents then dependents[h] else [], added[h])
                                 else dependents[h]
        decreases holders
      {
        var h :| h in holders;
        if h in merged {
          merged := merged[h := Union(merged[h], added[h])];
        } else {
          merged := merged[h := Union([], added[h])];
        }
        holders := holders - {h};
      }
      assert merged == MergeDependents(dependents, added);
      SetDependents(merged);
    }

    /**
     * `addAttackChange(route, units)`: the battle's own fields change as
     * `AddAttack` says, and the change handed back to the game is returned.
     */
    method AddAttackChange(o: Options, route: Route, units: seq<Unit>, f: AttackFacts) returns (change: AttackChange)
      modifies this`attacking, this`attackingFromMap, this`attackingFrom, this`amphibiousLandAttackers, this`amphibiousAttackFrom, this`isAmphibious, this`dependents
      ensures Value() == AddAttack(old(Value()), setting, o, route, units, f)
      ensures change == AttackChanges(setting, o, route, units, f)
    {
      JoinAttack(o, route, units, f);
      AddDependentUnits(AttackDependencies(units, setting, o, f));
      change := AttackChanges(setting, o, route, units, f);
    }

    /** The part of `addAttackChange` before the dependencies are recorded. */
    method JoinAttack(o: Options, route: Route, units: seq<Unit>, f: AttackFacts)
      modifies this`attacking, this`attackingFromMap, this`attackingFrom, this`amphibiousLandAttackers, this`amphibiousAttackFrom, this`isAmphibious
      ensures Value() == BattleState.JoinAttack(old(Value()), setting, o, route, units, f)
    {
      var joining := Joining(units, setting, o);
      var from := route.TerritoryBeforeEnd().name;
      var entry := if from in attackingFromMap then attackingFromMap[from] else [];
      SetRoster(attackingFromMap[from := entry + joining], attackingFrom + {from});
      SetAttacking(attacking + joining);
      if IsAssaultFromSea(route, joining) {
        SetAssault(amphibiousAttackFrom + [from], amphibiousLandAttackers + Filter(IsLand, joining), true);
      }
      if !o.alliedAirIndependent {
        // the aircraft carried on carriers fight on their carriers
        SetAttacking(RemoveSet(attacking, Fighters(CarriedAircraft(f.transporting + Carriers.CarrierMap(units, units, setting.attacker)))));
      }
    }

    // ------------------------------------------------------------ retreats

    /** The common end of the retreats: the units go from the side to its retreated list, and an emptied side or an ended battle is conceded. */
    method Withdraw(moving: seq<Unit>, defender: bool)
      modifies this`killed, this`defending, this`attacking, this`attackingWaitingToDie, this`defendingWaitingToDie, this`isOver, this`whoWon, this`attackingRetreated, this`defendingRetreated
      ensures Value() == BattleState.Withdraw(old(Value()), moving, defender)
    {
      var emptied: bool;
      if defender {
        SetDefending(RemoveAll(defending, moving));
        SetDefendingRetreated(defendingRetreated + moving);
        emptied := defending == [];
      } else {
        SetAttacking(RemoveAll(attacking, moving));
        SetAttackingRetreated(attackingRetreated + moving);
        emptied := attacking == [];
      }
      if emptied || isOver {
        EndBattle();
        if defender {
          AttackerWins();
        } else {
          DefenderWins();
        }
      }
    }

    /** `retreatUnits(retreating, to, defender)`. */
    method RetreatUnits(retreating: seq<Unit>, defender: bool)
      modifies this`killed, this`defending, this`attacking, this`attackingWaitingToDie, this`defendingWaitingToDie, this`isOver, this`whoWon, this`attackingRetreated, this`defendingRetreated
      ensures Value() == BattleState.RetreatUnits(old(Value()), setting, retreating, defender)
    {
      Withdraw(NotMyAir(retreating + DependentsOf(dependents, retreating), setting.attacker), defender);
    }

    /** `retreatUnitsAndPlanes(retreating, to, defender)`. */
    method RetreatUnitsAndPlanes(retreating: seq<Unit>, defender: bool)
      modifies this`killed, this`defending, this`attacking, this`attackingWaitingToDie, this`defendingWaitingToDie, this`isOver, this`whoWon, this`attackingRetreated, this`defendingRetreated
      ensures Value() == BattleState.RetreatUnitsAndPlanes(old(Value()), setting, retreating, defender)
    {
      var grounded: seq<Unit>;
      if defender {
        SetDefending(RemoveAll(defending, Filter(IsAirUnit, defending)));
        grounded := defending;
      } else {
        SetAttacking(RemoveAll(attacking, Filter(IsAirUnit, attacking)));
        grounded := attacking;
      }
      Withdraw(NotMyAir(retreating + DependentsOf(dependents, grounded), setting.attacker), defender);
    }

    /** `retreatPlanes(retreating, defender)`. */
    method RetreatPlanes(retreating: seq<Unit>, defender: bool)
      modifies this`killed, this`defending, this`attacking, this`attackingWaitingToDie, this`defendingWaitingToDie, this`isOver, this`whoWon, this`attackingRetreated, this`defendingRetreated
      ensures Value() == BattleState.RetreatPlanes(old(Value()), retreating, defender)
    {
      var emptied: bool;
      if defender {
        SetDefending(RemoveAll(defending, retreating));
        SetDefendingRetreated(RemoveAll(defendingRetreated, retreating));
        emptied := defending == [];
      } else {
        SetAttacking(RemoveAll(attacking, retreating));
        SetAttackingRetreated(RemoveAll(attackingRetreated, retreating));
        emptied := attacking == [];
      }
      if emptied || isOver {
        EndBattle();
        if defender {
          AttackerWins();
        } else {
          DefenderWins();
        }
      }
    }

    /** `submergeUnits(submerging, defender)`. */
    method SubmergeUnits(submerging: seq<Unit>, defender: bool)
      modifies this`attacking, this`defending, this`attackingRetreated, this`defendingRetreated
      ensures Value() == BattleState.SubmergeUnits(old(Value()), submerging, defender)
    {
      if defender {
        SetDefending(RemoveAll(defending, submerging));
        SetDefendingRetreated(defendingRetreated + submerging);
      } else {
        SetAttacking(RemoveAll(attacking, submerging));
        SetAttackingRetreated(attackingRetreated + submerging);
      }
    }

    /**
     * `queryRetreat(defender, kind, available)`, with the retreating player's
     * answer `retreatTo` given (none for staying).
     */
    method QueryRetreat(w: World, o: Options, defender: bool, kind: RetreatType, available: set<string>, retreatTo: Option<string>)
      modifies this`killed, this`defending, this`attacking, this`attackingWaitingToDie, this`defendingWaitingToDie, this`isOver, this`whoWon, this`attackingRetreated, this`defendingRetreated
      ensures Value() == BattleState.QueryRetreat(old(Value()), setting, w, o, defender, kind, available, retreatTo)
    {
      var submerge := Submerges(o, kind);
      var choose := DefendingSubsChoose(o, defender, kind);
      if available == {} && !(submerge || choose) {
        return;
      }
      var units := RetreatCandidates(Value(), setting, w, defender, kind);
      var offer := RetreatOffer(Value(), setting, w, o, defender, kind, available);
      if units == [] || retreatTo.None? {
        return;
      }
      if retreatTo.value !in offer && kind != RetreatType.SUBS {
        return;
      }
      if !defender && kind == DEFAULT {
        SetIsOver(true);
      }
      if kind == RetreatType.SUBS && retreatTo.value == setting.site && (submerge || choose) {
        SubmergeUnits(units, defender);
      } else if kind == PLANES {
        RetreatPlanes(units, defender);
      } else if kind == PARTIAL_AMPHIB {
        RetreatUnitsAndPlanes(Filter(WasNotAmphibious, units), defender);
      } else {
        RetreatUnits(units, defender);
      }
    }

    // ------------------------------------------------------------ losses in an earlier battle

    /** `unitsLostInPrecedingBattle(battle, units, withdrawn)`. */
    method UnitsLostInPrecedingBattle(w: World, units: seq<Unit>, withdrawn: bool)
      modifies this`killed, this`defending, this`attacking, this`amphibiousLandAttackers, this`isAmphibious, this`bombarding, this`whoWon
      ensures Value() == BattleState.UnitsLostInPrecedingBattle(old(Value()), w, units, withdrawn)
    {
      var lost := DependentsOf(dependents, units) + Intersection(units, attacking);
      SetAmphibiousLandAttackers(RemoveAll(amphibiousLandAttackers, lost));
      if amphibiousLandAttackers == [] {
        SetIsAmphibious(false);
        SetBombarding([]);
      }
      SetAttacking(RemoveAll(attacking, lost));
      var inSite := Intersection(lost, w.siteUnits);
      if !withdrawn {
        var _ := Remove(inSite, Some(false));
      }
      if attacking == [] {
        DefenderWins();
      }
    }

    // ------------------------------------------------------------ the round loop

    /**
     * `pushFightLoopOnStack(firstRun)`: nothing once the battle is over;
     * otherwise the round's steps are pushed in reverse order, so that the
     * first step created is on top.
     */
    method PushFightLoopOnStack(firstRun: bool, offensiveAa: bool, defendingAa: bool, o: Options)
      modifies this`stack
      ensures stack == PushRound(old(stack), old(isOver),
                                 BattleExecutables(firstRun, old(round), offensiveAa, defendingAa, old(attacking), old(defending), o))
      ensures Value() == old(Value())
    {
      if isOver {
        return;
      }
      var steps := BattleExecutables(firstRun, round, offensiveAa, defendingAa, attacking, defending, o);
      PushAll(Reversed(steps));
    }

    /** Pushes `xs` onto the stack one by one, the last of them ending on top. */
    method PushAll(xs: seq<Exec>)
      modifies this`stack
      ensures stack == old(stack) + xs && Value() == old(Value())
    {
      var i := 0;
      while i < |xs|
        invariant 0 <= i <= |xs|
        invariant stack == old(stack) + xs[..i]
        invariant Value() == old(Value())
      {
        Push(xs[i]);
        assert xs[..i + 1] == xs[..i] + [xs[i]];
        i := i + 1;
      }
      assert xs[..i] == xs;
    }

    /** The start of the next round in the loop step: the round number goes up and the step names are listed again. */
    method BeginNextRound(w: World, o: Options, f: StepFacts)
      modifies this`round, this`stepStrings
      ensures Value() == NextRound(old(Value()), setting, w, o, f)
    {
      var next := NextRound(Value(), setting, w, o, f);
      SetRoundSteps(next.round, next.stepStrings);
    }

    /**
     * The step that ends every round: on a battle still going on, the next
     * round begins, its step names are listed, and the step that pushes the
     * next round becomes the whole stack. The stack must be empty by then;
     * `thrown` reports the source's `IllegalStateException` otherwise, after
     * the round and the step names have already changed.
     */
    method LoopStep(w: World, o: Options, f: StepFacts) returns (thrown: bool)
      modifies this`round, this`stepStrings, this`stack
      ensures old(isOver) ==> Value() == old(Value()) && stack == old(stack) && !thrown
      ensures !old(isOver) ==> Value() == NextRound(old(Value()), setting, w, o, f)
      ensures thrown <==> !old(isOver) && old(stack) != []
      ensures !old(isOver) ==> stack == if thrown then old(stack) else [Loop]
    {
      if isOver {
        return false;
      }
      thrown := stack != [];
      if !thrown {
        stack := [Loop];
      }
      assert Value() == old(Value());
      BeginNextRound(w, o, f);
    }

    // ------------------------------------------------------------ single-field updates
    // Each changes one field and nothing else; the operations above are
    // written as sequences of them.

    method SetAttacking(us: seq<Unit>)
      modifies this`attacking
      ensures Value() == old(Value()).(attacking := us)
    {
      attacking := us;
    }

    method SetDefending(us: seq<Unit>)
      modifies this`defending
      ensures Value() == old(Value()).(defending := us)
    {
      defending := us;
    }

    method SetAttackingWaitingToDie(us: seq<Unit>)
      modifies this`attackingWaitingToDie
      ensures Value() == old(Value()).(attackingWaitingToDie := us)
    {
      attackingWaitingToDie := us;
    }

    method SetDefendingWaitingToDie(us: seq<Unit>)
      modifies this`defendingWaitingToDie
      ensures Value() == old(Value()).(defendingWaitingToDie := us)
    {
      defendingWaitingToDie := us;
    }

    method SetKilled(us: seq<Unit>)
      modifies this`killed
      ensures Value() == old(Value()).(killed := us)
    {
      killed := us;
    }

    method SetAttackingRetreated(us: seq<Unit>)
      modifies this`attackingRetreated
      ensures Value() == old(Value()).(attackingRetreated := us)
    {
      attackingRetreated := us;
    }

    method SetDefendingRetreated(us: seq<Unit>)
      modifies this`defendingRetreated
      ensures Value() == old(Value()).(defendingRetreated := us)
    {
      defendingRetreated := us;
    }

    method SetAttackingFromMap(m: map<string, seq<Unit>>)
      modifies this`attackingFromMap
      ensures Value() == old(Value()).(attackingFromMap := m)
    {
      attackingFromMap := m;
    }

    method SetAttackingFrom(names: set<string>)
      modifies this`attackingFrom
      ensures Value() == old(Value()).(attackingFrom := names)
    {
      attackingFrom := names;
    }

    method SetAmphibiousAttackFrom(names: seq<string>)
      modifies this`amphibiousAttackFrom
      ensures Value() == old(Value()).(amphibiousAttackFrom := names)
    {
      amphibiousAttackFrom := names;
    }

    method SetAmphibiousLandAttackers(us: seq<Unit>)
      modifies this`amphibiousLandAttackers
      ensures Value() == old(Value()).(amphibiousLandAttackers := us)
    {
      amphibiousLandAttackers := us;
    }

    method SetIsAmphibious(b: bool)
      modifies this`isAmphibious
      ensures Value() == old(Value()).(isAmphibious := b)
    {
      isAmphibious := b;
    }

    method SetBombarding(us: seq<Unit>)
      modifies this`bombarding
      ensures Value() == old(Value()).(bombarding := us)
    {
      bombarding := us;
    }

    method SetDependents(m: map<Unit, seq<Unit>>)
      modifies this`dependents
      ensures Value() == old(Value()).(dependents := m)
    {
      dependents := m;
    }

    method SetRoster(m: map<string, seq<Unit>>, names: set<string>)
      modifies this`attackingFromMap, this`attackingFrom
      ensures Value() == old(Value()).(attackingFromMap := m, attackingFrom := names)
    {
      attackingFromMap := m;
      attackingFrom := names;
    }

    method SetAssault(names: seq<string>, landers: seq<Unit>, b: bool)
      modifies this`amphibiousAttackFrom, this`amphibiousLandAttackers, this`isAmphibious
      ensures Value() == old(Value()).(amphibiousAttackFrom := names, amphibiousLandAttackers := landers, isAmphibious := b)
    {
      amphibiousAttackFrom := names;
      amphibiousLandAttackers := landers;
      isAmphibious := b;
    }

    method SetRoundSteps(n: int, steps: seq<BattleStep>)
      modifies this`round, this`stepStrings
      ensures Value() == old(Value()).(round := n, stepStrings := steps)
    {
      round := n;
      stepStrings := steps;
    }

    method SetIsOver(b: bool)
      modifies this`isOver
      ensures Value() == old(Value()).(isOver := b)
    {
      isOver := b;
    }

    /** Pushes one executable onto the stack. */
    method Push(e: Exec)
      modifies this`stack
      ensures stack == old(stack) + [e] && Value() == old(Value())
    {
      stack := stack + [e];
    }
  }
}
