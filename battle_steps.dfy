/**
 * The steps of a battle round: the list of step names shown to the players
 * (`determineStepStrings`) and the list of executable steps a round is made of
 * (`getBattleExecutables`), with the execution stack they are pushed onto.
 */
module BattleSteps {
  import opened Units
  import opened BattleRules
  import opened BattleState

  /** What the step list reads that this model does not compute. */
  datatype StepFacts = StepFacts(
    canFireOffensiveAa: bool,          // the attacker has anti-aircraft guns able to fire this round
    offensiveAaTypes: seq<string>,     // their kinds, in display order
    canFireDefendingAa: bool,          // the same for the defender
    defendingAaTypes: seq<string>,
    airTransportable: bool,            // the attacker's technology lets bombers carry paratroopers
    paratroopersAtSite: bool)          // some bomber at the battle site carries paratroopers

  // ---------------------------------------------------------------- step names

  /** The three steps of one kind of anti-aircraft fire, for each kind in order. */
  function AaSteps(firer: Side, target: Side, types: seq<string>): (r: seq<BattleStep>)
    ensures |r| == 3 * |types|
    ensures forall b :: b in r ==> b.kind.AA_GUNS_FIRE? || b.kind.SELECT_AA_CASUALTIES? || b.kind.REMOVE_AA_CASUALTIES?
  {
    if types == [] then []
    else [BattleStep(firer, AA_GUNS_FIRE(types[0])), BattleStep(target, SELECT_AA_CASUALTIES(types[0])),
          BattleStep(target, REMOVE_AA_CASUALTIES(types[0]))] + AaSteps(firer, target, types[1..])
  }

  /** `steps` when `c` holds, nothing otherwise. */
  function When(c: bool, steps: seq<BattleStep>): (r: seq<BattleStep>)
    ensures forall b :: b in r ==> b in steps
  {
    if c then steps else []
  }

  function Step(side: Side, kind: StepKind): BattleStep { BattleStep(side, kind) }

  /** How many times `x` occurs in `xs`. */
  function StepCount(xs: seq<BattleStep>, x: BattleStep): nat
  {
    if xs == [] then 0 else (if xs[0] == x then 1 else 0) + StepCount(xs[1..], x)
  }

  lemma {:induction false} StepCountAppend(a: seq<BattleStep>, b: seq<BattleStep>, x: BattleStep)
    ensures StepCount(a + b, x) == StepCount(a, x) + StepCount(b, x)
  {
    if a != [] {
      assert (a + b)[0] == a[0];
      assert (a + b)[1..] == a[1..] + b;
      StepCountAppend(a[1..], b, x);
    } else {
      assert a + b == b;
    }
  }

  lemma {:induction false} StepCountAbsent(a: seq<BattleStep>, x: BattleStep)
    requires x !in a
    ensures StepCount(a, x) == 0
  {
    if a != [] {
      StepCountAbsent(a[1..], x);
    }
  }

  lemma {:induction false} StepCountPresent(a: seq<BattleStep>, x: BattleStep)
    requires x in a
    ensures StepCount(a, x) > 0
  {
    if a[0] != x {
      StepCountPresent(a[1..], x);
    }
  }

  /**
   * What the step list reads from the battle: each condition the list tests,
   * computed once from the state, the site, the map and the options.
   */
  datatype RoundView = RoundView(
    facts: StepFacts,
    showFirstRun: bool,
    water: bool,                        // the battle is in a sea zone
    bombarding: bool,                   // some ship bombards the site
    attackerSuicide: bool,              // the attacker has suicide units
    defenderSuicideFires: bool,         // the defender has suicide units and they fire
    subRetreatBeforeBattle: bool,
    transportCasualtiesRestricted: bool,
    airAttackSubRestricted: bool,
    submersibleSubs: bool,
    ww2v2: bool,
    sneak3: bool,                       // defending subs may sneak attack (WW2V2 or the option)
    attackerHasDestroyer: bool,
    defenderHasDestroyer: bool,
    attackerHasSub: bool,
    defenderHasSub: bool,
    defendersHaveSub: bool,             // counting the defenders waiting to die
    transportsPresent: bool,            // either side has a transport
    attackerAirKeptOff: bool,           // attacking aircraft cannot hit the defending subs
    defenderAirKeptOff: bool,           // defending aircraft cannot hit the attacking subs
    attackerHasNotSub: bool,
    defenderHasNotSub: bool,
    rfAttacking: ReturnFire,            // the return fire the attacking subs face
    rfDefending: ReturnFire,            // the return fire the defending subs face
    attackerSubsWithdraw: bool,         // the attacker's subs may withdraw
    defenderSubsWithdraw: bool,         // the defender's subs may withdraw
    attackerWithdraw: bool)             // the attacker may be asked to withdraw

  /** The attacker may be asked to withdraw: it can retreat, or has aircraft at sea, or may retreat part of an assault or its planes. */
  predicate AttackerWithdrawShown(s: State, st: Setting, w: World, o: Options)
  {
    CanAttackerRetreat(s, st, w, o) || (st.siteIsWater && HasAir(s.attacking))
    || CanAttackerRetreatPartialAmphib(s, o) || CanAttackerRetreatPlanes(s, o)
  }

  /** The conditions of `determineStepStrings`, read from the battle. */
  function ViewOf(s: State, st: Setting, w: World, o: Options, f: StepFacts, showFirstRun: bool): RoundView
  {
    RoundView(
      f, showFirstRun, st.siteIsWater, s.bombarding != [],
      HasSuicide(s.attacking), HasSuicide(s.defending) && !o.defendingSuicideAndMunitionUnitsDoNotFire,
      o.subRetreatBeforeBattle, o.transportCasualtiesRestricted, o.airAttackSubRestricted, o.submersibleSubs,
      o.ww2v2, DefendingSubsSneakAttack3(o),
      HasDestroyer(s.attacking), HasDestroyer(s.defending),
      HasSub(s.attacking), HasSub(s.defending), HasSub(s.defending + s.defendingWaitingToDie),
      HasTransport(s.attacking) || HasTransport(s.defending),
      HasAir(s.attacking) && !CanAirAttackSubs(st.siteIsWater, s.defending, s.attacking),
      HasAir(s.defending) && !CanAirAttackSubs(st.siteIsWater, s.attacking, s.defending + s.defendingWaitingToDie),
      HasNotSub(s.attacking), HasNotSub(s.defending),
      ReturnFireAgainstAttackingSubs(s.attacking, s.defending, o),
      ReturnFireAgainstDefendingSubs(s.attacking, s.defending, o),
      CanAttackerRetreatSubs(s, st, w, o), CanDefenderRetreatSubs(s, st, w, o),
      AttackerWithdrawShown(s, st, w, o))
  }

  /** A defender that has a sub among its live units has one among its live units and those waiting to die. */
  predicate Consistent(v: RoundView) { v.defenderHasSub ==> v.defendersHaveSub }

  lemma ViewOfConsistent(s: State, st: Setting, w: World, o: Options, f: StepFacts, showFirstRun: bool)
    ensures Consistent(ViewOf(s, st, w, o, f, showFirstRun))
  {
    if HasSub(s.defending) {
      var u :| u in s.defending && u.isSub;
      assert u in s.defending + s.defendingWaitingToDie;
    }
  }

  /** The defender's subs fire first: only the attacking subs face all return fire, the defending subs none. */
  predicate SubsFireFirst(v: RoundView) { v.rfAttacking == ALL && v.rfDefending == NONE }

  /** Only the attacker's subs strike before the other units fire. */
  predicate OnlyAttackerSneakAttack(v: RoundView)
  {
    !SubsFireFirst(v) && v.rfAttacking == NONE && v.rfDefending == ALL
  }

  /** The defender's subs fire together with the other defenders, outside WW2V2. */
  predicate DefendingSubsFireWithAllDefenders(v: RoundView)
  {
    !SubsFireFirst(v) && !v.ww2v2 && v.rfDefending == ALL
  }

  /** Anti-aircraft fire, and in the first round bombardment, suicide attacks and paratroopers. */
  function OpeningSteps(v: RoundView): (r: seq<BattleStep>)
    ensures forall b :: b in r ==> b.kind != REMOVE_CASUALTIES && b.kind != ATTACKER_WITHDRAW && b.kind != SUBS_FIRE
  {
    AaFireSteps(v) + When(v.showFirstRun, FirstRunSteps(v)) + PreBattleSteps(v)
  }

  /** The attacker's anti-aircraft fire, then the defender's. */
  function AaFireSteps(v: RoundView): (r: seq<BattleStep>)
    ensures forall b :: b in r ==> b.kind.AA_GUNS_FIRE? || b.kind.SELECT_AA_CASUALTIES? || b.kind.REMOVE_AA_CASUALTIES?
  {
    When(v.facts.canFireOffensiveAa, AaSteps(Side.Attacker, Side.Defender, v.facts.offensiveAaTypes))
    + When(v.facts.canFireDefendingAa, AaSteps(Side.Defender, Side.Attacker, v.facts.defendingAaTypes))
  }

  /** The events of the first round: bombardment, suicide attacks and landing paratroopers. */
  function FirstRunSteps(v: RoundView): (r: seq<BattleStep>)
    ensures forall b :: b in r ==> b.kind != REMOVE_CASUALTIES && b.kind != ATTACKER_WITHDRAW && b.kind != SUBS_FIRE
  {
    When(!v.water && v.bombarding, [Step(Neither, NAVAL_BOMBARDMENT), Step(Neither, SELECT_NAVAL_BOMBARDMENT_CASUALTIES)])
    + When(v.attackerSuicide, [Step(Neither, SUICIDE_ATTACK), Step(Side.Defender, SELECT_CASUALTIES_SUICIDE)])
    + When(v.defenderSuicideFires, [Step(Neither, SUICIDE_DEFEND), Step(Side.Attacker, SELECT_CASUALTIES_SUICIDE)])
    + When(!v.water && v.facts.airTransportable && v.facts.paratroopersAtSite, [Step(Neither, LAND_PARATROOPS)])
  }

  /** Submerging before the battle, and removing transports left without escort. */
  function PreBattleSteps(v: RoundView): (r: seq<BattleStep>)
    ensures forall b :: b in r ==> b.kind != REMOVE_CASUALTIES && b.kind != ATTACKER_WITHDRAW && b.kind != SUBS_FIRE
  {
    When(v.subRetreatBeforeBattle && !v.defenderHasDestroyer && v.attackerHasSub, [Step(Side.Attacker, SUBS_SUBMERGE)])
    + When(v.subRetreatBeforeBattle && !v.attackerHasDestroyer && v.defenderHasSub, [Step(Side.Defender, SUBS_SUBMERGE)])
    + When(v.water && v.transportCasualtiesRestricted && v.transportsPresent, [Step(Neither, REMOVE_UNESCORTED_TRANSPORTS)])
  }

  /** The defender's subs striking first, with their casualties removed at once. */
  function DefenderFirstStrike(v: RoundView): (r: seq<BattleStep>)
    ensures forall b :: b in r ==> b.kind == SUBS_FIRE || b.kind == SELECT_SUB_CASUALTIES || b.kind == REMOVE_SNEAK_ATTACK_CASUALTIES
  {
    When(SubsFireFirst(v) && v.defenderHasSub,
         [Step(Side.Defender, SUBS_FIRE), Step(Side.Attacker, SELECT_SUB_CASUALTIES), Step(Neither, REMOVE_SNEAK_ATTACK_CASUALTIES)])
  }

  /** At sea, the attacker's subs fire, and their casualties are removed at once when only they sneak attack. */
  function AttackerSneakAttack(v: RoundView): (r: seq<BattleStep>)
    ensures forall b :: b in r ==> b.kind == SUBS_FIRE || b.kind == SELECT_SUB_CASUALTIES || b.kind == REMOVE_SNEAK_ATTACK_CASUALTIES
  {
    When(v.water,
      When(v.attackerHasSub, [Step(Side.Attacker, SUBS_FIRE), Step(Side.Defender, SELECT_SUB_CASUALTIES)])
      + When(OnlyAttackerSneakAttack(v), [Step(Neither, REMOVE_SNEAK_ATTACK_CASUALTIES)]))
  }

  /** At sea, the defender's subs sneak attack on their own. */
  function DefenderSneakAttack(v: RoundView): (r: seq<BattleStep>)
    ensures forall b :: b in r ==> b.kind == SUBS_FIRE || b.kind == SELECT_SUB_CASUALTIES
  {
    When(v.water && v.sneak3 && !DefendingSubsFireWithAllDefenders(v) && !SubsFireFirst(v) && v.defenderHasSub,
         [Step(Side.Defender, SUBS_FIRE), Step(Side.Attacker, SELECT_SUB_CASUALTIES)])
  }

  /** The casualties of the sneak attacks are removed when some side's subs faced less than full return fire. */
  function SneakCasualties(v: RoundView): (r: seq<BattleStep>)
    ensures forall b :: b in r ==> b.kind == REMOVE_SNEAK_ATTACK_CASUALTIES
  {
    When(v.water && !SubsFireFirst(v) && !OnlyAttackerSneakAttack(v) && (v.rfDefending != ALL || v.rfAttacking != ALL),
         [Step(Neither, REMOVE_SNEAK_ATTACK_CASUALTIES)])
  }

  /** The submarines' sneak attacks and the removal of their casualties. */
  function SneakAttackSteps(v: RoundView): (r: seq<BattleStep>)
    ensures forall b :: b in r ==> b.kind == SUBS_FIRE || b.kind == SELECT_SUB_CASUALTIES || b.kind == REMOVE_SNEAK_ATTACK_CASUALTIES
  {
    DefenderFirstStrike(v) + AttackerSneakAttack(v) + DefenderSneakAttack(v) + SneakCasualties(v)
  }

  /** The general fire of both sides, with the defender's subs that fire with the other defenders. */
  function FireSteps(v: RoundView): (r: seq<BattleStep>)
    ensures forall b :: b in r ==> b.kind != REMOVE_CASUALTIES && b.kind != ATTACKER_WITHDRAW && b.kind != SUBS_SUBMERGE
                                   && b.kind != SUBS_WITHDRAW && b != Step(Side.Attacker, SUBS_FIRE)
  {
    AttackerFireSteps(v) + DefenderFireSteps(v)
  }

  /** Aircraft kept off submarines, then the attacker's general fire. */
  function AttackerFireSteps(v: RoundView): (r: seq<BattleStep>)
    ensures forall b :: b in r ==> b.kind != REMOVE_CASUALTIES && b.kind != ATTACKER_WITHDRAW && b.kind != SUBS_SUBMERGE
                                   && b.kind != SUBS_WITHDRAW && b.kind != SUBS_FIRE
  {
    When(v.airAttackSubRestricted && v.attackerAirKeptOff, [Step(Neither, SUBMERGE_SUBS_VS_AIR_ONLY)])
    + When(v.water && v.airAttackSubRestricted && v.attackerAirKeptOff, [Step(Neither, AIR_ATTACK_NON_SUBS)])
    + When(v.attackerHasNotSub, [Step(Side.Attacker, FIRE), Step(Side.Defender, SELECT_CASUALTIES)])
  }

  /** The defender's subs that fire with the other defenders. */
  function DefenderSubsWithAll(v: RoundView): (r: seq<BattleStep>)
    ensures forall b :: b in r ==> b == Step(Side.Defender, SUBS_FIRE) || b == Step(Side.Attacker, SELECT_SUB_CASUALTIES)
  {
    When(v.water && v.defendersHaveSub && !SubsFireFirst(v) && (DefendingSubsFireWithAllDefenders(v) || !v.sneak3),
         [Step(Side.Defender, SUBS_FIRE), Step(Side.Attacker, SELECT_SUB_CASUALTIES)])
  }

  /** The defender's subs that fire with the other defenders, aircraft kept off subs, then the defender's general fire. */
  function DefenderFireSteps(v: RoundView): (r: seq<BattleStep>)
    ensures forall b :: b in r ==> b.kind != REMOVE_CASUALTIES && b.kind != ATTACKER_WITHDRAW && b.kind != SUBS_SUBMERGE
                                   && b.kind != SUBS_WITHDRAW && b != Step(Side.Attacker, SUBS_FIRE)
  {
    DefenderSubsWithAll(v) + DefenderGeneralFire(v)
  }

  /** Defending aircraft kept off submarines, then the defender's other units. */
  function DefenderGeneralFire(v: RoundView): (r: seq<BattleStep>)
    ensures forall b :: b in r ==> b.kind == AIR_DEFEND_NON_SUBS || b.kind == FIRE || b.kind == SELECT_CASUALTIES
  {
    When(v.water && v.airAttackSubRestricted && v.defenderAirKeptOff, [Step(Neither, AIR_DEFEND_NON_SUBS)])
    + When(v.defenderHasNotSub, [Step(Side.Defender, FIRE), Step(Side.Attacker, SELECT_CASUALTIES)])
  }

  /** A step that offers a retreat or a submerge. */
  predicate IsRetreatStep(b: BattleStep) { b.kind == SUBS_SUBMERGE || b.kind == SUBS_WITHDRAW || b.kind == ATTACKER_WITHDRAW }

  /** At sea, the subs that may submerge or withdraw once the round's casualties are removed. */
  function SubsRetreatSteps(v: RoundView): (r: seq<BattleStep>)
    ensures forall b :: b in r ==> b.kind == SUBS_SUBMERGE || b.kind == SUBS_WITHDRAW
  {
    When(v.water,
      if v.submersibleSubs then
        When(!v.subRetreatBeforeBattle,
          When(v.attackerHasSub, [Step(Side.Attacker, SUBS_SUBMERGE)])
          + When(v.defenderHasSub, [Step(Side.Defender, SUBS_SUBMERGE)]))
      else
        When(v.attackerSubsWithdraw && v.attackerHasSub, [Step(Side.Attacker, SUBS_WITHDRAW)])
        + When(v.defenderSubsWithdraw && v.defenderHasSub, [Step(Side.Defender, SUBS_WITHDRAW)]))
  }

  /** The retreats offered once the round's casualties are removed, the attacker's withdrawal last. */
  function RetreatSteps(v: RoundView): (r: seq<BattleStep>)
    ensures forall b :: b in r ==> IsRetreatStep(b)
    ensures Step(Side.Attacker, ATTACKER_WITHDRAW) in r <==> v.attackerWithdraw
    ensures forall j :: 0 <= j < |r| - 1 ==> r[j].kind != ATTACKER_WITHDRAW
  {
    var subs := SubsRetreatSteps(v);
    var last := When(v.attackerWithdraw, [Step(Side.Attacker, ATTACKER_WITHDRAW)]);
    assert forall j :: 0 <= j < |subs| ==> subs[j] in subs;
    subs + last
  }

  /** The steps of a round, in the order they are shown. */
  function StepNames(v: RoundView): seq<BattleStep>
  {
    OpeningSteps(v) + SneakAttackSteps(v) + FireSteps(v) + [Step(Neither, REMOVE_CASUALTIES)] + RetreatSteps(v)
  }

  /** `determineStepStrings(showFirstRun)`: the steps of a round, in the order they are shown. */
  function StepList(s: State, st: Setting, w: World, o: Options, f: StepFacts, showFirstRun: bool): seq<BattleStep>
  {
    StepNames(ViewOf(s, st, w, o, f, showFirstRun))
  }

  /**
   * Casualties are removed exactly once; every later step offers a retreat;
   * the attacker's withdrawal is offered exactly when `withdraw` holds, and
   * then as the last step.
   */
  predicate CasualtiesOnceThenRetreats(steps: seq<BattleStep>, withdraw: bool)
  {
    && StepCount(steps, Step(Neither, REMOVE_CASUALTIES)) == 1
    && (forall j, k :: 0 <= j < k < |steps| && steps[j].kind == REMOVE_CASUALTIES ==> IsRetreatStep(steps[k]))
    && (Step(Side.Attacker, ATTACKER_WITHDRAW) in steps <==> withdraw)
    && (forall j :: 0 <= j < |steps| && steps[j].kind == ATTACKER_WITHDRAW ==> j == |steps| - 1)
  }

  /** No step of `xs` removes casualties or withdraws the attacker. */
  predicate NeitherRemovalNorWithdrawal(xs: seq<BattleStep>)
  {
    forall b :: b in xs ==> b.kind != REMOVE_CASUALTIES && b.kind != ATTACKER_WITHDRAW
  }

  /** The steps shown before the round's casualties are removed neither remove casualties nor withdraw. */
  lemma BeforeCasualties(v: RoundView)
    ensures NeitherRemovalNorWithdrawal(OpeningSteps(v) + SneakAttackSteps(v) + FireSteps(v))
  {
    OpeningNeither(v);
    SneakNeither(v);
    FireNeither(v);
    NeitherAppend(OpeningSteps(v), SneakAttackSteps(v), FireSteps(v));
  }

  lemma OpeningNeither(v: RoundView)
    ensures NeitherRemovalNorWithdrawal(OpeningSteps(v))
  {
  }

  lemma SneakNeither(v: RoundView)
    ensures NeitherRemovalNorWithdrawal(SneakAttackSteps(v))
  {
  }

  lemma FireNeither(v: RoundView)
    ensures NeitherRemovalNorWithdrawal(FireSteps(v))
  {
  }

  lemma NeitherAppend(a: seq<BattleStep>, b: seq<BattleStep>, c: seq<BattleStep>)
    requires NeitherRemovalNorWithdrawal(a) && NeitherRemovalNorWithdrawal(b) && NeitherRemovalNorWithdrawal(c)
    ensures NeitherRemovalNorWithdrawal(a + b + c)
  {
    forall x | x in a + b + c
      ensures x.kind != REMOVE_CASUALTIES && x.kind != ATTACKER_WITHDRAW
    {
      assert x in a || x in b || x in c;
    }
  }

  /**
   * A step list made of steps that neither remove casualties nor withdraw,
   * the removal of casualties, and then retreats with the attacker's
   * withdrawal at most last, removes casualties once and withdraws last.
   */
  lemma CasualtiesThenRetreats(steps: seq<BattleStep>, before: seq<BattleStep>, after: seq<BattleStep>)
    requires steps == before + [Step(Neither, REMOVE_CASUALTIES)] + after
    requires NeitherRemovalNorWithdrawal(before)
    requires forall b :: b in after ==> IsRetreatStep(b)
    requires forall j :: 0 <= j < |after| - 1 ==> after[j].kind != ATTACKER_WITHDRAW
    ensures CasualtiesOnceThenRetreats(steps, Step(Side.Attacker, ATTACKER_WITHDRAW) in after)
  {
    var rc := Step(Neither, REMOVE_CASUALTIES);
    StepCountAbsent(before, rc);
    StepCountAbsent(after, rc);
    StepCountAppend(before, [rc], rc);
    StepCountAppend(before + [rc], after, rc);
    var i := |before|;
    forall j | 0 <= j < i
      ensures steps[j] == before[j] && steps[j] in before
    {
    }
    forall j | i < j < |steps|
      ensures steps[j] == after[j - i - 1] && steps[j] in after
    {
    }
    if Step(Side.Attacker, ATTACKER_WITHDRAW) in steps {
      assert Step(Side.Attacker, ATTACKER_WITHDRAW) !in before;
    }
  }

  /**
   * Casualties are removed exactly once a round; everything after that step
   * offers a retreat, and the attacker's withdrawal, when offered, is the last
   * step and is offered exactly when the attacker may retreat in some way or
   * has aircraft at sea.
   */
  lemma StepListShape(s: State, st: Setting, w: World, o: Options, f: StepFacts, showFirstRun: bool)
    ensures CasualtiesOnceThenRetreats(StepList(s, st, w, o, f, showFirstRun), AttackerWithdrawShown(s, st, w, o))
  {
    StepNamesShape(ViewOf(s, st, w, o, f, showFirstRun));
  }

  /** `StepListShape` for any view of the battle. */
  lemma StepNamesShape(v: RoundView)
    ensures CasualtiesOnceThenRetreats(StepNames(v), v.attackerWithdraw)
  {
    BeforeCasualties(v);
    CasualtiesThenRetreats(StepNames(v), OpeningSteps(v) + SneakAttackSteps(v) + FireSteps(v), RetreatSteps(v));
  }

  /** Counting a step that is neither shown before the battle, nor a removal of casualties, nor a retreat. */
  lemma {:induction false} StepCountOfParts(steps: seq<BattleStep>, opening: seq<BattleStep>, sneak: seq<BattleStep>,
                                            fire: seq<BattleStep>, after: seq<BattleStep>, x: BattleStep)
    requires steps == opening + sneak + fire + [Step(Neither, REMOVE_CASUALTIES)] + after
    requires x !in opening && x !in after && x != Step(Neither, REMOVE_CASUALTIES)
    ensures StepCount(steps, x) == StepCount(sneak, x) + StepCount(fire, x)
  {
    var rc := Step(Neither, REMOVE_CASUALTIES);
    StepCountAbsent(opening, x);
    StepCountAbsent(after, x);
    StepCountAbsent([rc], x);
    StepCountAppend(opening, sneak, x);
    StepCountAppend(opening + sneak, fire, x);
    StepCountAppend(opening + sneak + fire, [rc], x);
    StepCountAppend(opening + sneak + fire + [rc], after, x);
  }

  /** A step occurs in a fragment shown under a condition once when the condition holds, never otherwise. */
  lemma StepCountWhen(c: bool, steps: seq<BattleStep>, x: BattleStep)
    requires |steps| > 0 && steps[0] == x && x !in steps[1..]
    ensures StepCount(When(c, steps), x) == if c then 1 else 0
  {
    if c {
      StepCountAbsent(steps[1..], x);
    }
  }

  /** A subs' fire step is shown only in the sneak attacks and in the general fire. */
  lemma StepNamesSubsFire(v: RoundView, x: BattleStep)
    requires x.kind == SUBS_FIRE
    ensures StepCount(StepNames(v), x) == StepCount(SneakAttackSteps(v), x) + StepCount(FireSteps(v), x)
  {
    StepCountOfParts(StepNames(v), OpeningSteps(v), SneakAttackSteps(v), FireSteps(v), RetreatSteps(v), x);
  }

  /** Counting a step over the four parts of the sneak attacks. */
  lemma {:induction false} SneakCount(v: RoundView, x: BattleStep)
    ensures StepCount(SneakAttackSteps(v), x)
            == StepCount(DefenderFirstStrike(v), x) + StepCount(AttackerSneakAttack(v), x)
               + StepCount(DefenderSneakAttack(v), x) + StepCount(SneakCasualties(v), x)
  {
    StepCountAppend(DefenderFirstStrike(v), AttackerSneakAttack(v), x);
    StepCountAppend(DefenderFirstStrike(v) + AttackerSneakAttack(v), DefenderSneakAttack(v), x);
    StepCountAppend(DefenderFirstStrike(v) + AttackerSneakAttack(v) + DefenderSneakAttack(v), SneakCasualties(v), x);
  }

  /** The defender's subs fire in the sneak attacks when they fire first, or at sea when they sneak attack on their own. */
  lemma SneakDefenderFire(v: RoundView)
    ensures StepCount(SneakAttackSteps(v), Step(Side.Defender, SUBS_FIRE))
            == (if SubsFireFirst(v) && v.defenderHasSub then 1 else 0)
               + (if v.water && v.sneak3 && !DefendingSubsFireWithAllDefenders(v) && !SubsFireFirst(v) && v.defenderHasSub
                  then 1 else 0)
  {
    var df := Step(Side.Defender, SUBS_FIRE);
    SneakCount(v, df);
    StepCountAbsent(AttackerSneakAttack(v), df);
    StepCountAbsent(SneakCasualties(v), df);
    StepCountWhen(SubsFireFirst(v) && v.defenderHasSub,
                  [df, Step(Side.Attacker, SELECT_SUB_CASUALTIES), Step(Neither, REMOVE_SNEAK_ATTACK_CASUALTIES)], df);
    StepCountWhen(v.water && v.sneak3 && !DefendingSubsFireWithAllDefenders(v) && !SubsFireFirst(v) && v.defenderHasSub,
                  [df, Step(Side.Attacker, SELECT_SUB_CASUALTIES)], df);
  }

  /** The defender's subs fire with the other defenders at sea when they neither fire first nor sneak attack on their own. */
  lemma FireDefenderFire(v: RoundView)
    ensures StepCount(FireSteps(v), Step(Side.Defender, SUBS_FIRE))
            == if v.water && v.defendersHaveSub && !SubsFireFirst(v) && (DefendingSubsFireWithAllDefenders(v) || !v.sneak3)
               then 1 else 0
  {
    var df := Step(Side.Defender, SUBS_FIRE);
    StepCountAppend(AttackerFireSteps(v), DefenderFireSteps(v), df);
    StepCountAppend(DefenderSubsWithAll(v), DefenderGeneralFire(v), df);
    StepCountAbsent(AttackerFireSteps(v), df);
    StepCountAbsent(DefenderGeneralFire(v), df);
    StepCountWhen(v.water && v.defendersHaveSub && !SubsFireFirst(v) && (DefendingSubsFireWithAllDefenders(v) || !v.sneak3),
                  [df, Step(Side.Attacker, SELECT_SUB_CASUALTIES)], df);
  }

  /** The attacker's subs fire in the sneak attacks at sea, when it has a submarine. */
  lemma SneakAttackerFire(v: RoundView)
    ensures StepCount(SneakAttackSteps(v), Step(Side.Attacker, SUBS_FIRE)) == if v.water && v.attackerHasSub then 1 else 0
  {
    var af := Step(Side.Attacker, SUBS_FIRE);
    SneakCount(v, af);
    StepCountAbsent(DefenderFirstStrike(v), af);
    StepCountAbsent(DefenderSneakAttack(v), af);
    StepCountAbsent(SneakCasualties(v), af);
    var subs := When(v.attackerHasSub, [af, Step(Side.Defender, SELECT_SUB_CASUALTIES)]);
    var rest := When(OnlyAttackerSneakAttack(v), [Step(Neither, REMOVE_SNEAK_ATTACK_CASUALTIES)]);
    StepCountWhen(v.attackerHasSub, [af, Step(Side.Defender, SELECT_SUB_CASUALTIES)], af);
    StepCountAbsent(rest, af);
    StepCountAppend(subs, rest, af);
  }

  /**
   * The defender's subs are shown firing at most once a round, and at sea,
   * when the defender has a submarine, exactly once.
   */
  lemma DefenderSubsFireOnce(s: State, st: Setting, w: World, o: Options, f: StepFacts, showFirstRun: bool)
    ensures var steps := StepList(s, st, w, o, f, showFirstRun);
            && StepCount(steps, Step(Side.Defender, SUBS_FIRE)) <= 1
            && (st.siteIsWater && HasSub(s.defending) ==> StepCount(steps, Step(Side.Defender, SUBS_FIRE)) == 1)
  {
    ViewOfConsistent(s, st, w, o, f, showFirstRun);
    StepNamesDefenderSubsFire(ViewOf(s, st, w, o, f, showFirstRun));
  }

  /** `DefenderSubsFireOnce` for any consistent view of the battle. */
  lemma StepNamesDefenderSubsFire(v: RoundView)
    requires Consistent(v)
    ensures StepCount(StepNames(v), Step(Side.Defender, SUBS_FIRE)) <= 1
    ensures v.water && v.defenderHasSub ==> StepCount(StepNames(v), Step(Side.Defender, SUBS_FIRE)) == 1
  {
    StepNamesSubsFire(v, Step(Side.Defender, SUBS_FIRE));
    SneakDefenderFire(v);
    FireDefenderFire(v);
  }

  /** The attacker's subs are shown firing at most once a round, and at sea exactly when it has a submarine. */
  lemma AttackerSubsFireOnce(s: State, st: Setting, w: World, o: Options, f: StepFacts, showFirstRun: bool)
    ensures StepCount(StepList(s, st, w, o, f, showFirstRun), Step(Side.Attacker, SUBS_FIRE))
            == if st.siteIsWater && HasSub(s.attacking) then 1 else 0
  {
    StepNamesAttackerSubsFire(ViewOf(s, st, w, o, f, showFirstRun));
  }

  /** `AttackerSubsFireOnce` for any view of the battle. */
  lemma StepNamesAttackerSubsFire(v: RoundView)
    ensures StepCount(StepNames(v), Step(Side.Attacker, SUBS_FIRE)) == if v.water && v.attackerHasSub then 1 else 0
  {
    StepNamesSubsFire(v, Step(Side.Attacker, SUBS_FIRE));
    SneakAttackerFire(v);
    StepCountAbsent(FireSteps(v), Step(Side.Attacker, SUBS_FIRE));
  }

  // ---------------------------------------------------------------- executable steps

  /** The executable steps of a round, each standing for the code it runs. */
  datatype Exec =
    | FireOffensiveAa | FireDefensiveAa | ClearWaitingToDie | RemoveNonCombatants
    | FireNavalBombardment | FireSuicideAttack | FireSuicideDefend | LandParatroops | MarkNoMovementLeft
    | AttackerRetreatSubsBeforeBattle | DefenderRetreatSubsBeforeBattle
    | CheckSuicideUnits | CheckUndefendedTransports | SubmergeSubsVsOnlyAir
    | DefendSubs(returnFire: ReturnFire) | AttackSubs(returnFire: ReturnFire)
    | AttackAirOnNonSubs | AttackNonSubs | DefendAirOnNonSubs | DefendNonSubs
    | CheckEnd | AttackerRetreatSubs | DefenderRetreatSubs | AttackerRetreatPlanes
    | AttackerRetreatNonAmphib | AttackerRetreat | LoopStep | Loop

  /** How many times `x` occurs in `xs`. */
  function ExecCount(xs: seq<Exec>, x: Exec): nat
  {
    if xs == [] then 0 else (if xs[0] == x then 1 else 0) + ExecCount(xs[1..], x)
  }

  lemma {:induction false} ExecCountAppend(a: seq<Exec>, b: seq<Exec>, x: Exec)
    ensures ExecCount(a + b, x) == ExecCount(a, x) + ExecCount(b, x)
  {
    if a != [] {
      assert (a + b)[0] == a[0];
      assert (a + b)[1..] == a[1..] + b;
      ExecCountAppend(a[1..], b, x);
    } else {
      assert a + b == b;
    }
  }

  lemma {:induction false} ExecCountAbsent(a: seq<Exec>, x: Exec)
    requires x !in a
    ensures ExecCount(a, x) == 0
  {
    if a != [] {
      ExecCountAbsent(a[1..], x);
    }
  }

  function ExecWhen(c: bool, steps: seq<Exec>): (r: seq<Exec>)
  {
    if c then steps else []
  }

  /** `addFightStartToStack`: anti-aircraft fire, and in the first round the opening events. */
  function FightStart(firstRun: bool, round: int, offensiveAa: bool, defendingAa: bool): (r: seq<Exec>)
    ensures (FireOffensiveAa in r <==> offensiveAa) && (FireDefensiveAa in r <==> defendingAa)
    ensures ClearWaitingToDie in r <==> offensiveAa || defendingAa
    ensures RemoveNonCombatants in r <==> round > 1 || firstRun
    ensures (FireNavalBombardment in r <==> firstRun) && (LandParatroops in r <==> firstRun)
            && (MarkNoMovementLeft in r <==> firstRun)
  {
    AaFireExecs(offensiveAa, defendingAa) + ExecWhen(round > 1, [RemoveNonCombatants]) + OpeningEvents(firstRun)
  }

  /** Each side's anti-aircraft fire, then the removal of the units it killed. */
  function AaFireExecs(offensiveAa: bool, defendingAa: bool): (r: seq<Exec>)
    ensures (FireOffensiveAa in r <==> offensiveAa) && (FireDefensiveAa in r <==> defendingAa)
    ensures ClearWaitingToDie in r <==> offensiveAa || defendingAa
    ensures RemoveNonCombatants !in r && FireNavalBombardment !in r && LandParatroops !in r && MarkNoMovementLeft !in r
  {
    ExecWhen(offensiveAa, [FireOffensiveAa]) + ExecWhen(defendingAa, [FireDefensiveAa])
    + ExecWhen(offensiveAa || defendingAa, [ClearWaitingToDie])
  }

  /** The events of the first round: bombardment, suicide attacks, paratroopers and spent movement. */
  function OpeningEvents(firstRun: bool): (r: seq<Exec>)
    ensures FireOffensiveAa !in r && FireDefensiveAa !in r && ClearWaitingToDie !in r
    ensures (RemoveNonCombatants in r <==> firstRun) && (FireNavalBombardment in r <==> firstRun)
    ensures (LandParatroops in r <==> firstRun) && (MarkNoMovementLeft in r <==> firstRun)
  {
    ExecWhen(firstRun, [FireNavalBombardment, FireSuicideAttack, FireSuicideDefend, RemoveNonCombatants,
                        LandParatroops, MarkNoMovementLeft])
  }

  /**
   * `addFightStepsNonEditMode`: the fire of both sides. The defender's subs
   * fire before the attacker's subs when they fire first, right after them
   * when they have a sneak attack of their own, and otherwise together with
   * the other defenders; the return fire each side's subs allow is fixed when
   * the round is built.
   */
  function FightSteps(attacking: seq<Unit>, defending: seq<Unit>, o: Options): seq<Exec>
  {
    FireOrder(ReturnFireAgainstAttackingSubs(attacking, defending, o), ReturnFireAgainstDefendingSubs(attacking, defending, o),
              DefenderSubsFireFirst(attacking, defending, o), o)
  }

  /** The fire of a round once the return fire of both sides' subs, and whether the defender's subs fire first, are known. */
  function FireOrder(rfAttacking: ReturnFire, rfDefending: ReturnFire, first: bool, o: Options): seq<Exec>
  {
    var withAll := !first && !o.ww2v2 && rfDefending == ALL;
    FireOpening(o)
    + ExecWhen(first, [DefendSubs(rfDefending)])
    + [AttackSubs(rfAttacking)]
    + ExecWhen(DefendingSubsSneakAttack3(o) && !first && !withAll, [DefendSubs(rfDefending)])
    + GeneralFire(o, AttackAirOnNonSubs, AttackNonSubs)
    + ExecWhen(!first && (!DefendingSubsSneakAttack3(o) || withAll), [DefendSubs(rfDefending)])
    + GeneralFire(o, DefendAirOnNonSubs, DefendNonSubs)
  }

  /** Submerging before the battle, suicide units, unescorted transports and subs facing only aircraft. */
  function FireOpening(o: Options): (r: seq<Exec>)
    ensures forall e :: e in r ==> !e.DefendSubs? && !e.AttackSubs?
  {
    ExecWhen(o.subRetreatBeforeBattle, [AttackerRetreatSubsBeforeBattle, DefenderRetreatSubsBeforeBattle])
    + [CheckSuicideUnits]
    + ExecWhen(o.transportCasualtiesRestricted, [CheckUndefendedTransports])
    + ExecWhen(o.airAttackSubRestricted, [SubmergeSubsVsOnlyAir])
  }

  /** One side's aircraft kept off submarines, then the side's other units. */
  function GeneralFire(o: Options, airOnNonSubs: Exec, nonSubs: Exec): (r: seq<Exec>)
    ensures forall e :: e in r ==> e == airOnNonSubs || e == nonSubs
  {
    ExecWhen(o.airAttackSubRestricted, [airOnNonSubs]) + [nonSubs]
  }

  /** The closing steps of every round, ending with the step that starts the next round. */
  function RoundEnd(): seq<Exec>
  {
    [ClearWaitingToDie, CheckSuicideUnits, CheckEnd, AttackerRetreatSubs, DefenderRetreatSubs,
     AttackerRetreatPlanes, AttackerRetreatNonAmphib, AttackerRetreat, LoopStep]
  }

  /** `getBattleExecutables(firstRun)`: the steps of a round in the order they run. */
  function BattleExecutables(firstRun: bool, round: int, offensiveAa: bool, defendingAa: bool,
                             attacking: seq<Unit>, defending: seq<Unit>, o: Options): seq<Exec>
  {
    FightStart(firstRun, round, offensiveAa, defendingAa) + FightSteps(attacking, defending, o) + RoundEnd()
  }

  /** The fire of a round in seven parts: what comes before the subs fire, and the places subs may fire. */
  lemma {:induction false} ExecCountOfParts(a: seq<Exec>, x: seq<Exec>, b: seq<Exec>, y: seq<Exec>, c: seq<Exec>,
                                            z: seq<Exec>, e: seq<Exec>, d: Exec)
    ensures ExecCount(a + x + b + y + c + z + e, d)
            == ExecCount(a, d) + ExecCount(x, d) + ExecCount(b, d) + ExecCount(y, d) + ExecCount(c, d)
               + ExecCount(z, d) + ExecCount(e, d)
  {
    ExecCountAppend(a, x, d);
    ExecCountAppend(a + x, b, d);
    ExecCountAppend(a + x + b, y, d);
    ExecCountAppend(a + x + b + y, c, d);
    ExecCountAppend(a + x + b + y + c, z, d);
    ExecCountAppend(a + x + b + y + c + z, e, d);
  }

  /** A step that runs only under a condition occurs once when the condition holds and never otherwise. */
  lemma ExecCountWhen(cond: bool, d: Exec)
    ensures ExecCount(ExecWhen(cond, [d]), d) == if cond then 1 else 0
  {
    if cond {
      assert [d][1..] == [];
    }
  }

  /** A step kept out of four parts occurs once for each of the three conditional places between them that hold. */
  lemma SlotsCount(a: seq<Exec>, b: seq<Exec>, c: seq<Exec>, e: seq<Exec>, x: bool, y: bool, z: bool, d: Exec)
    requires d !in a && d !in b && d !in c && d !in e
    ensures ExecCount(a + ExecWhen(x, [d]) + b + ExecWhen(y, [d]) + c + ExecWhen(z, [d]) + e, d)
            == (if x then 1 else 0) + (if y then 1 else 0) + (if z then 1 else 0)
  {
    ExecCountOfParts(a, ExecWhen(x, [d]), b, ExecWhen(y, [d]), c, ExecWhen(z, [d]), e, d);
    ExecCountAbsent(a, d);
    ExecCountAbsent(b, d);
    ExecCountAbsent(c, d);
    ExecCountAbsent(e, d);
    ExecCountWhen(x, d);
    ExecCountWhen(y, d);
    ExecCountWhen(z, d);
  }

  /** A step that occurs in none of six parts occurs once when placed between the second and the third. */
  lemma OneSlotCount(a: seq<Exec>, x: seq<Exec>, y: seq<Exec>, c: seq<Exec>, z: seq<Exec>, e: seq<Exec>, d: Exec)
    requires d !in a && d !in x && d !in y && d !in c && d !in z && d !in e
    ensures ExecCount(a + x + [d] + y + c + z + e, d) == 1
  {
    ExecCountOfParts(a, x, [d], y, c, z, e, d);
    ExecCountAbsent(a, d);
    ExecCountAbsent(x, d);
    ExecCountAbsent(y, d);
    ExecCountAbsent(c, d);
    ExecCountAbsent(z, d);
    ExecCountAbsent(e, d);
    ExecCountWhen(true, d);
  }

  /**
   * The defender's subs fire exactly once a round: before the attacker's
   * subs when they fire first, right after them when they have a sneak attack
   * of their own, and otherwise with the other defenders; the return fire they
   * face is the one fixed when the round was built.
   */
  lemma DefendSubsOnce(attacking: seq<Unit>, defending: seq<Unit>, o: Options)
    ensures ExecCount(FightSteps(attacking, defending, o), DefendSubs(ReturnFireAgainstDefendingSubs(attacking, defending, o))) == 1
  {
    FireOrderDefendSubsOnce(ReturnFireAgainstAttackingSubs(attacking, defending, o), ReturnFireAgainstDefendingSubs(attacking, defending, o),
      DefenderSubsFireFirst(attacking, defending, o), o);
  }

  /** `DefendSubsOnce` for any return fire and order of fire. */
  lemma FireOrderDefendSubsOnce(rfAttacking: ReturnFire, rfDefending: ReturnFire, first: bool, o: Options)
    ensures ExecCount(FireOrder(rfAttacking, rfDefending, first, o), DefendSubs(rfDefending)) == 1
  {
    var withAll := !first && !o.ww2v2 && rfDefending == ALL;
    var sneak := DefendingSubsSneakAttack3(o);
    SlotsCount(FireOpening(o), [AttackSubs(rfAttacking)], GeneralFire(o, AttackAirOnNonSubs, AttackNonSubs),
               GeneralFire(o, DefendAirOnNonSubs, DefendNonSubs),
               first, sneak && !first && !withAll, !first && (!sneak || withAll), DefendSubs(rfDefending));
  }

  /** The attacker's subs fire exactly once a round, against the return fire fixed when the round was built. */
  lemma AttackSubsOnce(attacking: seq<Unit>, defending: seq<Unit>, o: Options)
    ensures ExecCount(FightSteps(attacking, defending, o), AttackSubs(ReturnFireAgainstAttackingSubs(attacking, defending, o))) == 1
  {
    FireOrderAttackSubsOnce(ReturnFireAgainstAttackingSubs(attacking, defending, o), ReturnFireAgainstDefendingSubs(attacking, defending, o),
      DefenderSubsFireFirst(attacking, defending, o), o);
  }

  /** `AttackSubsOnce` for any return fire and order of fire. */
  lemma FireOrderAttackSubsOnce(rfAttacking: ReturnFire, rfDefending: ReturnFire, first: bool, o: Options)
    ensures ExecCount(FireOrder(rfAttacking, rfDefending, first, o), AttackSubs(rfAttacking)) == 1
  {
    var withAll := !first && !o.ww2v2 && rfDefending == ALL;
    var sneak := DefendingSubsSneakAttack3(o);
    var d := DefendSubs(rfDefending);
    OneSlotCount(FireOpening(o), ExecWhen(first, [d]), ExecWhen(sneak && !first && !withAll, [d]),
                 GeneralFire(o, AttackAirOnNonSubs, AttackNonSubs), ExecWhen(!first && (!sneak || withAll), [d]),
                 GeneralFire(o, DefendAirOnNonSubs, DefendNonSubs), AttackSubs(rfAttacking));
  }

  /**
   * A round ends by checking for its end, then offering the retreats, then
   * the step that starts the next round.
   */
  lemma RoundEndsWithRetreats(firstRun: bool, round: int, offensiveAa: bool, defendingAa: bool,
                              attacking: seq<Unit>, defending: seq<Unit>, o: Options)
    ensures var steps := BattleExecutables(firstRun, round, offensiveAa, defendingAa, attacking, defending, o);
            |steps| >= 9 && steps[|steps| - 9..] == RoundEnd()
  {
  }

  /** Over the whole round, opening and closing steps included, each side's subs fire exactly once. */
  lemma RoundSubsFireOnce(firstRun: bool, round: int, offensiveAa: bool, defendingAa: bool,
                          attacking: seq<Unit>, defending: seq<Unit>, o: Options)
    ensures var steps := BattleExecutables(firstRun, round, offensiveAa, defendingAa, attacking, defending, o);
            && ExecCount(steps, DefendSubs(ReturnFireAgainstDefendingSubs(attacking, defending, o))) == 1
            && ExecCount(steps, AttackSubs(ReturnFireAgainstAttackingSubs(attacking, defending, o))) == 1
  {
    var start := FightStart(firstRun, round, offensiveAa, defendingAa);
    var fight := FightSteps(attacking, defending, o);
    DefendSubsOnce(attacking, defending, o);
    AttackSubsOnce(attacking, defending, o);
    FightStartHasNoFire(firstRun, round, offensiveAa, defendingAa, DefendSubs(ReturnFireAgainstDefendingSubs(attacking, defending, o)));
    FightStartHasNoFire(firstRun, round, offensiveAa, defendingAa, AttackSubs(ReturnFireAgainstAttackingSubs(attacking, defending, o)));
    CountWithinRound(start, fight, RoundEnd(), DefendSubs(ReturnFireAgainstDefendingSubs(attacking, defending, o)));
    CountWithinRound(start, fight, RoundEnd(), AttackSubs(ReturnFireAgainstAttackingSubs(attacking, defending, o)));
  }

  /** The opening of a round holds no fire of subs, no end-of-round check and no loop step. */
  lemma FightStartHasNoFire(firstRun: bool, round: int, offensiveAa: bool, defendingAa: bool, x: Exec)
    requires x.DefendSubs? || x.AttackSubs? || x == CheckEnd || x == LoopStep
    ensures x !in FightStart(firstRun, round, offensiveAa, defendingAa)
  {
    var events := [FireNavalBombardment, FireSuicideAttack, FireSuicideDefend, RemoveNonCombatants,
                   LandParatroops, MarkNoMovementLeft];
    assert x !in events;
    assert x !in [FireOffensiveAa] + [FireDefensiveAa] + [ClearWaitingToDie] + [RemoveNonCombatants];
  }

  /** A step that neither the opening nor the closing part holds occurs in the round as often as in its fire. */
  lemma CountWithinRound(start: seq<Exec>, fight: seq<Exec>, end: seq<Exec>, x: Exec)
    requires x !in start && x !in end
    ensures ExecCount(start + fight + end, x) == ExecCount(fight, x)
  {
    ExecCountAppend(start + fight, end, x);
    ExecCountAppend(start, fight, x);
    ExecCountAbsent(start, x);
    ExecCountAbsent(end, x);
  }

  // ---------------------------------------------------------------- the execution stack

  /** The reverse of a list. */
  function Reversed<T>(xs: seq<T>): (r: seq<T>)
    ensures |r| == |xs|
    ensures forall i :: 0 <= i < |xs| ==> r[i] == xs[|xs| - 1 - i]
  {
    if xs == [] then [] else Reversed(xs[1..]) + [xs[0]]
  }

  /** Reversing twice gives the list back. */
  lemma ReversedTwice<T>(xs: seq<T>)
    ensures Reversed(Reversed(xs)) == xs
  {
  }

  /**
   * The order in which a stack whose top is the end of `stack` runs its
   * steps: from the top down.
   */
  function ExecutionOrder(stack: seq<Exec>): seq<Exec> { Reversed(stack) }

  /**
   * `pushFightLoopOnStack`: nothing once the battle is over; otherwise the
   * round's steps, pushed in reverse so that the first step created is on top.
   */
  function PushRound(stack: seq<Exec>, isOver: bool, steps: seq<Exec>): (r: seq<Exec>)
    ensures isOver ==> r == stack
    ensures !isOver ==> ExecutionOrder(r) == steps + ExecutionOrder(stack)
  {
    if isOver then stack
    else
      var r := stack + Reversed(steps);
      assert ExecutionOrder(r) == steps + ExecutionOrder(stack) by {
        ReversedTwice(steps);
        ReversedAppend(stack, Reversed(steps));
      }
      r
  }

  /** The reverse of `a + b` is the reverse of `b` followed by that of `a`. */
  lemma ReversedAppend<T>(a: seq<T>, b: seq<T>)
    ensures Reversed(a + b) == Reversed(b) + Reversed(a)
  {
  }

  /**
   * A round pushed on an empty stack leaves the step that starts the next
   * round at the bottom, so it runs last.
   */
  lemma LoopStepAtBase(firstRun: bool, round: int, offensiveAa: bool, defendingAa: bool,
                       attacking: seq<Unit>, defending: seq<Unit>, o: Options)
    ensures var r := PushRound([], false, BattleExecutables(firstRun, round, offensiveAa, defendingAa, attacking, defending, o));
            |r| > 0 && r[0] == LoopStep
  {
    var steps := BattleExecutables(firstRun, round, offensiveAa, defendingAa, attacking, defending, o);
    assert steps[|steps| - 1] == LoopStep;
  }
}
