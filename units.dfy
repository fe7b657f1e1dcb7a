/**
 * Units, territories and routes as the rules engine sees them.
 *
 * A unit is an id carrying the attributes of its unit type (its unit attachment)
 * and of its own state (owner, movement, submerged, transported-by). The
 * `Matches.*` predicates that the engine filters with are functions over that
 * record. `Matches`, `UnitAttachment`, `TripleAUnit`, `Territory` and `Route` are
 * not part of this model; the predicates below are defined from the attributes
 * their names refer to.
 */
module Units {
  import opened Wrappers

  type UnitId = nat
  type PlayerName = string

  /** The owner of unowned territories (neutral land, open sea). */
  const NullPlayer: PlayerName := ""

  datatype Unit = Unit(
    id: UnitId,
    unitType: string,
    owner: PlayerName,
    isAir: bool,
    isSea: bool,
    isSub: bool,
    isDestroyer: bool,
    isInfrastructure: bool,
    isCombatTransport: bool,
    isSuicide: bool,
    isMarine: int,
    attack: int,
    defense: int,
    carrierCapacity: int,     // -1: not a carrier
    carrierCost: int,         // -1: cannot land on a carrier
    transportCapacity: int,   // -1: not a transport
    transportCost: int,       // -1: cannot be transported
    hasStackingLimit: bool,   // has a movement or an attacking stacking limit
    movementLeft: int,
    alreadyMoved: int,
    submerged: bool,
    wasAmphibious: bool,
    transportedBy: Option<UnitId>)

  // ---------------------------------------------------------------- unit predicates

  predicate IsLand(u: Unit) { !u.isAir && !u.isSea }
  predicate IsCarrier(u: Unit) { u.carrierCapacity != -1 }
  predicate CanLandOnCarrier(u: Unit) { u.carrierCost != -1 }
  predicate CanTransport(u: Unit) { u.transportCapacity != -1 }
  predicate CanBeTransported(u: Unit) { u.transportCost != -1 }
  /** A sea unit with transport capacity. */
  predicate IsTransport(u: Unit) { u.transportCapacity != -1 && u.isSea }
  predicate IsTransportButNotCombatTransport(u: Unit) { IsTransport(u) && !u.isCombatTransport }
  predicate IsNotTransportButCouldBeCombatTransport(u: Unit) { u.transportCapacity == -1 || (u.isCombatTransport && u.isSea) }
  predicate HasNotMoved(u: Unit) { u.alreadyMoved == 0 }
  /** A non-empty collection of air units only. */
  predicate AllAir(us: seq<Unit>) { us != [] && forall u :: u in us ==> u.isAir }

  /** The diplomatic position of one player: who is allied with it and who is at war with it. */
  datatype Stance = Stance(player: PlayerName, allies: set<PlayerName>, enemies: set<PlayerName>)

  predicate OwnedBy(u: Unit, s: Stance) { u.owner == s.player }
  predicate AlliedUnit(u: Unit, s: Stance) { u.owner == s.player || u.owner in s.allies }
  predicate EnemyUnit(u: Unit, s: Stance) { u.owner in s.enemies }

  // ---------------------------------------------------------------- territories and routes

  datatype Territory = Territory(name: string, isWater: bool, owner: PlayerName, units: seq<Unit>, isImpassable: bool)

  predicate IsNeutralLand(t: Territory) { !t.isWater && t.owner == NullPlayer }
  /** An enemy territory that is not unowned sea. */
  predicate IsEnemyTerritory(t: Territory, s: Stance) { t.owner in s.enemies && !(t.isWater && t.owner == NullPlayer) }

  /** A route: a start territory and the territories stepped into, in order. */
  datatype Route = Route(start: Territory, steps: seq<Territory>) {
    function AllTerritories(): (r: seq<Territory>)
      ensures |r| == |steps| + 1 && r[0] == start && r[1..] == steps
    {
      [start] + steps
    }

    function End(): Territory { if steps == [] then start else steps[|steps| - 1] }

    /** The steps before the last one. */
    function MiddleSteps(): (r: seq<Territory>)
      ensures |steps| <= 1 ==> r == []
      ensures |steps| > 1 ==> r == steps[..|steps| - 1]
    {
      if |steps| <= 1 then [] else steps[..|steps| - 1]
    }

    function TerritoryBeforeEnd(): Territory { if |steps| <= 1 then start else steps[|steps| - 2] }

    predicate HasWater() { exists t :: t in AllTerritories() && t.isWater }
    predicate HasLand() { exists t :: t in AllTerritories() && !t.isWater }
    predicate IsUnload() { steps != [] && start.isWater && !End().isWater }
    predicate IsLoad() { steps != [] && !start.isWater && End().isWater }
  }

  // ---------------------------------------------------------------- collections of units

  /** The units of `s` that satisfy `p`, in order (`Match.getMatches`). */
  function Filter(p: Unit -> bool, s: seq<Unit>): (r: seq<Unit>)
    ensures |r| <= |s|
    ensures forall i :: 0 <= i < |r| ==> p(r[i])
  {
    if s == [] then []
    else Filter(p, s[..|s| - 1]) + (if p(s[|s| - 1]) then [s[|s| - 1]] else [])
  }

  lemma {:induction false} FilterMembership(p: Unit -> bool, s: seq<Unit>, u: Unit)
    ensures u in Filter(p, s) <==> u in s && p(u)
  {
    if s != [] {
      FilterMembership(p, s[..|s| - 1], u);
      assert s == s[..|s| - 1] + [s[|s| - 1]];
    }
  }

  /** `Collection.removeAll`: every occurrence of every unit of `ys` is dropped. */
  function RemoveAll(xs: seq<Unit>, ys: seq<Unit>): (r: seq<Unit>)
    ensures |r| <= |xs|
    ensures forall i :: 0 <= i < |r| ==> r[i] in xs && r[i] !in ys
  {
    if xs == [] then []
    else RemoveAll(xs[..|xs| - 1], ys) + (if xs[|xs| - 1] in ys then [] else [xs[|xs| - 1]])
  }

  lemma {:induction false} RemoveAllMembership(xs: seq<Unit>, ys: seq<Unit>, u: Unit)
    ensures u in RemoveAll(xs, ys) <==> u in xs && u !in ys
  {
    if xs != [] {
      RemoveAllMembership(xs[..|xs| - 1], ys, u);
      assert xs == xs[..|xs| - 1] + [xs[|xs| - 1]];
    }
  }

  /** Removing nothing leaves a collection as it was. */
  lemma {:induction false} RemoveNothing(xs: seq<Unit>)
    ensures RemoveAll(xs, []) == xs
  {
    if xs != [] {
      RemoveNothing(xs[..|xs| - 1]);
    }
  }

  /** No unit occurs twice (a set of the units has as many elements as the collection). */
  predicate Distinct(s: seq<Unit>) { forall i, j :: 0 <= i < j < |s| ==> s[i] != s[j] }

  /** `containsAll`. */
  predicate ContainsAll(big: seq<Unit>, small: seq<Unit>) { forall u :: u in small ==> u in big }

  predicate HasId(s: seq<Unit>, id: UnitId) { exists u :: u in s && u.id == id }

  /** `a` is `b` with some elements left out, the rest kept in order. */
  predicate IsSubsequence(a: seq<Unit>, b: seq<Unit>)
    decreases |b|
  {
    if a == [] then true
    else if b == [] then false
    else if a[0] == b[0] then IsSubsequence(a[1..], b[1..])
    else IsSubsequence(a, b[1..])
  }
}
