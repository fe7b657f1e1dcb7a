/**
 * The decision tables of a battle: who may return fire on submarines that
 * fire first, when a round ends the battle, which air units may attack
 * submarines, and how amphibious attackers are ordered for casualty selection.
 * Every function here reads only the units on each side and the game options.
 */
module BattleRules {
  import opened Units

  /** Which of the units hit by a first strike may still fire back this round. */
  datatype ReturnFire = ALL | SUBS | NONE

  /** The outcome recorded on a battle. */
  datatype WhoWon = NOTFINISHED | DRAW | ATTACKER | DEFENDER

  /** What a retreat question offers to move: everything, submarines, planes, or the units that did not land from the sea. */
  datatype RetreatType = DEFAULT | SUBS | PLANES | PARTIAL_AMPHIB

  /** Whose step a battle step is. */
  datatype Side = Attacker | Defender | Neither

  /** The kinds of battle step listed to the players; their display text is not part of this model. */
  datatype StepKind =
    | AA_GUNS_FIRE(aaType: string) | SELECT_AA_CASUALTIES(aaType: string) | REMOVE_AA_CASUALTIES(aaType: string)
    | NAVAL_BOMBARDMENT | SELECT_NAVAL_BOMBARDMENT_CASUALTIES
    | SUICIDE_ATTACK | SUICIDE_DEFEND | SELECT_CASUALTIES_SUICIDE
    | LAND_PARATROOPS | SUBS_SUBMERGE | REMOVE_UNESCORTED_TRANSPORTS
    | SUBS_FIRE | SELECT_SUB_CASUALTIES | REMOVE_SNEAK_ATTACK_CASUALTIES
    | SUBMERGE_SUBS_VS_AIR_ONLY | AIR_ATTACK_NON_SUBS | AIR_DEFEND_NON_SUBS
    | FIRE | SELECT_CASUALTIES | REMOVE_CASUALTIES
    | SUBS_WITHDRAW | ATTACKER_WITHDRAW

  datatype BattleStep = BattleStep(side: Side, kind: StepKind)

  /** The game options a battle consults. */
  datatype Options = Options(
    ww2v2: bool,
    ww2v3: bool,
    defendingSubsSneakAttack: bool,
    submersibleSubs: bool,
    subRetreatBeforeBattle: bool,
    transportCasualtiesRestricted: bool,
    airAttackSubRestricted: bool,
    attackerRetreatPlanes: bool,
    partialAmphibiousRetreat: bool,
    retreatingUnitsRemainInPlace: bool,
    ignoreSubInMovement: bool,
    ignoreTransportInMovement: bool,
    alliedAirIndependent: bool,
    submarinesDefendingMaySubmergeOrRetreat: bool,
    defendingSuicideAndMunitionUnitsDoNotFire: bool)

  // ---------------------------------------------------------------- unit tests on a side

  predicate HasDestroyer(us: seq<Unit>) { exists u :: u in us && u.isDestroyer }
  predicate HasSub(us: seq<Unit>) { exists u :: u in us && u.isSub }
  predicate HasNotSub(us: seq<Unit>) { exists u :: u in us && !u.isSub }
  predicate HasAir(us: seq<Unit>) { exists u :: u in us && u.isAir }
  predicate HasLand(us: seq<Unit>) { exists u :: u in us && IsLand(u) }
  predicate HasSea(us: seq<Unit>) { exists u :: u in us && u.isSea }
  predicate HasTransport(us: seq<Unit>) { exists u :: u in us && IsTransport(u) }
  predicate HasSuicide(us: seq<Unit>) { exists u :: u in us && u.isSuicide }
  /** Nothing on the side can be destroyed in combat: every unit is infrastructure. */
  predicate NoCombatUnits(us: seq<Unit>) { forall u :: u in us ==> u.isInfrastructure }

  // ---------------------------------------------------------------- first strike and return fire

  /** Defending submarines may strike first at all when the rules give them a sneak attack. */
  predicate DefendingSubsSneakAttack3(o: Options)
  {
    o.ww2v2 || o.defendingSubsSneakAttack
  }

  /** Defending submarines strike first this round: no attacking destroyer and the rules allow it. */
  predicate DefendingSubsSneakAttack2(attacking: seq<Unit>, o: Options)
  {
    !HasDestroyer(attacking) && DefendingSubsSneakAttack3(o)
  }

  /**
   * The return fire allowed against attacking submarines: a defending destroyer
   * lets every defender answer; otherwise the defending submarines still answer
   * when they strike first themselves or the rules are WW2V2, and nobody answers
   * in the remaining case.
   */
  function ReturnFireAgainstAttackingSubs(attacking: seq<Unit>, defending: seq<Unit>, o: Options): (r: ReturnFire)
    ensures r == ALL <==> HasDestroyer(defending)
    ensures r == NONE <==> !HasDestroyer(defending) && !o.ww2v2 && (HasDestroyer(attacking) || !o.defendingSubsSneakAttack)
  {
    var attackingSubsSneakAttack := !HasDestroyer(defending);
    if !attackingSubsSneakAttack then ALL
    else if DefendingSubsSneakAttack2(attacking, o) || o.ww2v2 then ReturnFire.SUBS
    else NONE
  }

  /**
   * The return fire allowed against defending submarines, the mirror image:
   * everybody answers unless the defending submarines strike first; then the
   * attacking submarines answer when they strike first too or the rules are
   * WW2V2, and nobody answers otherwise.
   */
  function ReturnFireAgainstDefendingSubs(attacking: seq<Unit>, defending: seq<Unit>, o: Options): (r: ReturnFire)
    ensures r == ALL <==> HasDestroyer(attacking) || !DefendingSubsSneakAttack3(o)
    ensures r == NONE <==> !HasDestroyer(attacking) && o.defendingSubsSneakAttack && !o.ww2v2 && HasDestroyer(defending)
  {
    var attackingSubsSneakAttack := !HasDestroyer(defending);
    if !DefendingSubsSneakAttack2(attacking, o) then ALL
    else if attackingSubsSneakAttack || o.ww2v2 then ReturnFire.SUBS
    else NONE
  }

  /**
   * Defending submarines fire before everything else exactly when a defending
   * destroyer takes the attacking submarines' sneak attack away while no
   * attacking destroyer does the same to the defenders, outside WW2V2 rules and
   * with the defending-subs sneak attack option on.
   */
  function DefenderSubsFireFirst(attacking: seq<Unit>, defending: seq<Unit>, o: Options): (r: bool)
    ensures r <==> HasDestroyer(defending) && !HasDestroyer(attacking) && o.defendingSubsSneakAttack && !o.ww2v2
  {
    ReturnFireAgainstAttackingSubs(attacking, defending, o) == ALL
    && ReturnFireAgainstDefendingSubs(attacking, defending, o) == NONE
  }

  /** At most one side's submarines strike with no return fire at all. */
  lemma NeverBothUnanswered(attacking: seq<Unit>, defending: seq<Unit>, o: Options)
    ensures !(ReturnFireAgainstAttackingSubs(attacking, defending, o) == NONE
              && ReturnFireAgainstDefendingSubs(attacking, defending, o) == NONE)
  {
  }

  // ---------------------------------------------------------------- air against submarines

  /**
   * Whether air units among `firing` may attack `firedAt`: only at sea, facing
   * a submarine, with no destroyer among the firing units are they kept off.
   */
  function CanAirAttackSubs(siteIsWater: bool, firedAt: seq<Unit>, firing: seq<Unit>): (r: bool)
    ensures !siteIsWater ==> r
    ensures HasDestroyer(firing) ==> r
    ensures !HasSub(firedAt) ==> r
    ensures !r ==> siteIsWater && HasSub(firedAt) && !HasDestroyer(firing)
  {
    !(siteIsWater && HasSub(firedAt) && !HasDestroyer(firing))
  }

  // ---------------------------------------------------------------- end of a round

  /** The round limit: a positive limit that the round has reached. A limit of 0 or less never ends a battle. */
  predicate ShouldEndBattleDueToMaxRounds(maxRounds: int, round: int)
  {
    maxRounds > 0 && maxRounds <= round
  }

  /** Once reached, the round limit stays reached in every later round. */
  lemma MaxRoundsStaysReached(maxRounds: int, round: int, later: int)
    requires ShouldEndBattleDueToMaxRounds(maxRounds, round) && round <= later
    ensures ShouldEndBattleDueToMaxRounds(maxRounds, later)
  {
  }

  /** The decision of the end-of-round check. */
  datatype Ending = Continue | DefenderWins | AttackerWins | Draw | ReaddTransports

  /** An allied transport that is not a combat transport. */
  predicate AlliedNonCombatTransport(u: Unit, attacker: Stance)
  {
    IsTransport(u) && !u.isCombatTransport && AlliedUnit(u, attacker)
  }

  /** Both sides have units and none of them can score a hit: every attack and every defence is below 1. */
  predicate NobodyCanHit(attacking: seq<Unit>, defending: seq<Unit>)
  {
    attacking != [] && (forall u :: u in attacking ==> u.attack < 1)
    && defending != [] && (forall u :: u in defending ==> u.defense < 1)
  }

  /** With restricted transport casualties, an attack left without combat units in round 1 next to allied transports picks its units up again. */
  predicate TransportsRejoin(attacking: seq<Unit>, siteUnits: seq<Unit>, attacker: Stance, o: Options, round: int)
  {
    NoCombatUnits(attacking) && o.transportCasualtiesRestricted && round <= 1
    && exists u :: u in siteUnits && AlliedNonCombatTransport(u, attacker)
  }

  /**
   * The end-of-round check, in the order the rules apply it:
   *  1. no attacker can be destroyed in combat: the defender wins, except that
   *     with restricted transport casualties, allied transports at the site and
   *     round 1 the attacker's units at the site rejoin the attack;
   *  2. otherwise no defender can be destroyed: the attacker wins;
   *  3. otherwise the round limit is reached, or both sides are non-empty and
   *     nobody has attack or defence left: a draw;
   *  4. otherwise the battle goes on.
   */
  function EndOfRound(attacking: seq<Unit>, defending: seq<Unit>, siteUnits: seq<Unit>, attacker: Stance,
                      o: Options, round: int, maxRounds: int): (r: Ending)
    ensures r == ReaddTransports <==> TransportsRejoin(attacking, siteUnits, attacker, o, round)
    ensures r == DefenderWins <==> NoCombatUnits(attacking) && !TransportsRejoin(attacking, siteUnits, attacker, o, round)
    ensures r == AttackerWins <==> !NoCombatUnits(attacking) && NoCombatUnits(defending)
    ensures r == Draw <==> !NoCombatUnits(attacking) && !NoCombatUnits(defending)
                           && (ShouldEndBattleDueToMaxRounds(maxRounds, round) || NobodyCanHit(attacking, defending))
    ensures r == Continue <==> !NoCombatUnits(attacking) && !NoCombatUnits(defending)
                               && !ShouldEndBattleDueToMaxRounds(maxRounds, round) && !NobodyCanHit(attacking, defending)
  {
    if NoCombatUnits(attacking) then
      if !o.transportCasualtiesRestricted then DefenderWins
      else if !exists u :: u in siteUnits && AlliedNonCombatTransport(u, attacker) then DefenderWins
      else if round <= 1 then ReaddTransports
      else DefenderWins
    else if NoCombatUnits(defending) then AttackerWins
    else if ShouldEndBattleDueToMaxRounds(maxRounds, round)
         || (attacking != [] && (forall u :: u in attacking ==> u.attack < 1)
             && defending != [] && (forall u :: u in defending ==> u.defense < 1)) then Draw
    else Continue
  }

  // ---------------------------------------------------------------- amphibious ordering

  /**
   * The order of two units of one marine type in an amphibious assault: a unit
   * that landed from a transport comes before one that did not, and otherwise
   * the larger marine bonus comes first. Negative means `u1` first.
   */
  function CompareAccordingToAmphibious(amphibiousLandAttackers: seq<Unit>, u1: Unit, u2: Unit): (r: int)
    ensures u1 in amphibiousLandAttackers && u2 !in amphibiousLandAttackers ==> r < 0
    ensures u2 in amphibiousLandAttackers && u1 !in amphibiousLandAttackers ==> r > 0
    ensures (u1 in amphibiousLandAttackers) == (u2 in amphibiousLandAttackers)
            ==> (r < 0 <==> u1.isMarine > u2.isMarine) && (r == 0 <==> u1.isMarine == u2.isMarine)
  {
    if u1 in amphibiousLandAttackers && u2 !in amphibiousLandAttackers then -1
    else if u2 in amphibiousLandAttackers && u1 !in amphibiousLandAttackers then 1
    else u2.isMarine - u1.isMarine
  }

  /** Swapping the two units reverses the order. */
  lemma CompareIsAntisymmetric(amphibiousLandAttackers: seq<Unit>, u1: Unit, u2: Unit)
    ensures CompareAccordingToAmphibious(amphibiousLandAttackers, u1, u2)
            == -CompareAccordingToAmphibious(amphibiousLandAttackers, u2, u1)
  {
  }

  /** "Comes first" is transitive, so sorting with the comparison is well defined. */
  lemma CompareIsTransitive(amphibiousLandAttackers: seq<Unit>, u1: Unit, u2: Unit, u3: Unit)
    requires CompareAccordingToAmphibious(amphibiousLandAttackers, u1, u2) < 0
    requires CompareAccordingToAmphibious(amphibiousLandAttackers, u2, u3) < 0
    ensures CompareAccordingToAmphibious(amphibiousLandAttackers, u1, u3) < 0
  {
  }
}
