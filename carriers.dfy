/**
 * The carrier side of the move validator: which aircraft a carrier can take
 * (`getCanCarry`), which allied aircraft in a sea zone must move with the
 * mover's own carriers (`carrierMustMoveWith`), and the merge of two
 * must-move-with mappings (`addToMapping`).
 */
module Carriers {
  import opened Units

  /** The sum of the carrier costs of some aircraft. */
  function CostSum(planes: seq<Unit>): int
  {
    if planes == [] then 0 else planes[0].carrierCost + CostSum(planes[1..])
  }

  /**
   * The test `getCanCarry` uses for "started in the same sea zone": the two have
   * moved equally far, or neither has moved, or the plane is an ally's.
   */
  predicate SameStart(carrier: Unit, plane: Unit, mover: Stance)
  {
    carrier.alreadyMoved == plane.alreadyMoved
    || (HasNotMoved(plane) && HasNotMoved(carrier))
    || (!OwnedBy(plane, mover) && AlliedUnit(plane, mover))
  }

  /** Whether a carrier with `available` capacity left takes `plane`: its cost fits and it passes `SameStart`. */
  predicate Takes(carrier: Unit, plane: Unit, available: int, mover: Stance)
  {
    available >= plane.carrierCost && SameStart(carrier, plane, mover)
  }

  /**
   * The aircraft of `planes` that a carrier with `available` capacity left takes,
   * scanning in order: a plane is taken when `Takes` holds of it, and the scan
   * stops as soon as the capacity left is exactly 0.
   */
  function CanCarry(carrier: Unit, planes: seq<Unit>, available: int, mover: Stance): seq<Unit>
    decreases |planes|
  {
    if planes == [] then []
    else if Takes(carrier, planes[0], available, mover) then
      var left := available - planes[0].carrierCost;
      [planes[0]] + (if left == 0 then [] else CanCarry(carrier, planes[1..], left, mover))
    else if available == 0 then []
    else CanCarry(carrier, planes[1..], available, mover)
  }

  /** The planes taken are a subsequence of those offered, and every one of them passes `SameStart`. */
  lemma {:induction false} CanCarryIsSubsequence(carrier: Unit, planes: seq<Unit>, available: int, mover: Stance)
    ensures var r := CanCarry(carrier, planes, available, mover);
            IsSubsequence(r, planes) && forall i :: 0 <= i < |r| ==> SameStart(carrier, r[i], mover)
    decreases |planes|
  {
    if planes != [] {
      var r := CanCarry(carrier, planes, available, mover);
      if Takes(carrier, planes[0], available, mover) {
        var left := available - planes[0].carrierCost;
        var rest := if left == 0 then [] else CanCarry(carrier, planes[1..], left, mover);
        if left != 0 {
          CanCarryIsSubsequence(carrier, planes[1..], left, mover);
        }
        assert r == [planes[0]] + rest && r[1..] == rest;
      } else if available != 0 {
        CanCarryIsSubsequence(carrier, planes[1..], available, mover);
        if r != [] {
          SubsequenceOfTail(r, planes);
        }
      }
    }
  }

  /** A subsequence of the tail of `b` is a subsequence of `b`. */
  lemma {:induction false} SubsequenceOfTail(a: seq<Unit>, b: seq<Unit>)
    requires b != [] && IsSubsequence(a, b[1..])
    ensures IsSubsequence(a, b)
    decreases |b|, |a|
  {
    if a != [] && a[0] == b[0] {
      SubsequenceDropFirst(a, b[1..]);
    }
  }

  /** Dropping the first element of a subsequence leaves a subsequence. */
  lemma {:induction false} SubsequenceDropFirst(a: seq<Unit>, b: seq<Unit>)
    requires a != [] && IsSubsequence(a, b)
    ensures IsSubsequence(a[1..], b)
    decreases |b|, |a|
  {
    if a[0] == b[0] {
      if a[1..] != [] {
        SubsequenceOfTail(a[1..], b);
      }
    } else {
      SubsequenceDropFirst(a, b[1..]);
      if a[1..] != [] {
        SubsequenceOfTail(a[1..], b);
      }
    }
  }

  /** Every element of a subsequence is an element of the whole. */
  lemma {:induction false} SubsequenceMembers(a: seq<Unit>, b: seq<Unit>, x: Unit)
    requires IsSubsequence(a, b) && x in a
    ensures x in b
    decreases |b|
  {
    if a[0] == b[0] {
      if x != a[0] {
        assert x in a[1..];
        SubsequenceMembers(a[1..], b[1..], x);
      }
    } else {
      SubsequenceMembers(a, b[1..], x);
    }
  }

  /** A step of the scan that takes the first plane. */
  lemma CanCarryTakes(carrier: Unit, planes: seq<Unit>, available: int, mover: Stance)
    requires planes != [] && Takes(carrier, planes[0], available, mover)
    ensures var left := available - planes[0].carrierCost;
            CanCarry(carrier, planes, available, mover)
            == [planes[0]] + (if left == 0 then [] else CanCarry(carrier, planes[1..], left, mover))
  {
  }

  /** A step of the scan that passes over the first plane. */
  lemma CanCarrySkips(carrier: Unit, planes: seq<Unit>, available: int, mover: Stance)
    requires planes != [] && !Takes(carrier, planes[0], available, mover)
    ensures CanCarry(carrier, planes, available, mover)
            == (if available == 0 then [] else CanCarry(carrier, planes[1..], available, mover))
  {
  }

  lemma CostSumCons(p: Unit, rest: seq<Unit>)
    ensures CostSum([p] + rest) == p.carrierCost + CostSum(rest)
  {
    assert ([p] + rest)[1..] == rest;
  }

  /**
   * The planes taken never cost more than the capacity, and the capacity left
   * never reaches 0 before the last plane taken: once the carrier is full the
   * scan takes nothing more, not even a plane that costs nothing.
   */
  lemma {:induction false} CanCarryWithinCapacity(carrier: Unit, planes: seq<Unit>, available: int, mover: Stance)
    ensures var r := CanCarry(carrier, planes, available, mover);
            (r != [] ==> CostSum(r) <= available)
            && (forall k :: 0 < k < |r| ==> available - CostSum(r[..k]) != 0)
    decreases |planes|
  {
    if planes != [] {
      var r := CanCarry(carrier, planes, available, mover);
      if Takes(carrier, planes[0], available, mover) {
        var p := planes[0];
        var left := available - p.carrierCost;
        var rest := if left == 0 then [] else CanCarry(carrier, planes[1..], left, mover);
        assert r == [p] + rest;
        CostSumCons(p, rest);
        if left != 0 {
          CanCarryWithinCapacity(carrier, planes[1..], left, mover);
        }
        forall k | 0 < k < |r|
          ensures available - CostSum(r[..k]) != 0
        {
          assert r[..k] == [p] + rest[..k - 1];
          CostSumCons(p, rest[..k - 1]);
        }
      } else if available != 0 {
        CanCarryWithinCapacity(carrier, planes[1..], available, mover);
      }
    }
  }

  /**
   * Whether the scan over `planes` has ended: it stops right after a plane that
   * leaves exactly 0 capacity, or at a plane it does not take with 0 capacity left.
   */
  predicate ScanEnded(carrier: Unit, planes: seq<Unit>, available: int, mover: Stance)
    decreases |planes|
  {
    if planes == [] then false
    else if Takes(carrier, planes[0], available, mover) then
      available - planes[0].carrierCost == 0 || ScanEnded(carrier, planes[1..], available - planes[0].carrierCost, mover)
    else available == 0 || ScanEnded(carrier, planes[1..], available, mover)
  }

  /** Offering one more plane: it is taken iff the scan has not ended and it fits the capacity left and started with the carrier. */
  lemma {:induction false} CanCarryAppend(carrier: Unit, planes: seq<Unit>, p: Unit, available: int, mover: Stance)
    ensures var before := CanCarry(carrier, planes, available, mover);
            CanCarry(carrier, planes + [p], available, mover)
            == before + (if !ScanEnded(carrier, planes, available, mover) && Takes(carrier, p, available - CostSum(before), mover)
                         then [p] else [])
    decreases |planes|
  {
    if planes == [] {
      assert [p][1..] == [];
    } else {
      var q := planes[0];
      assert (planes + [p])[0] == q && (planes + [p])[1..] == planes[1..] + [p];
      if Takes(carrier, q, available, mover) {
        var left := available - q.carrierCost;
        if left != 0 {
          CanCarryAppend(carrier, planes[1..], p, left, mover);
          CostSumCons(q, CanCarry(carrier, planes[1..], left, mover));
        }
      } else if available != 0 {
        CanCarryAppend(carrier, planes[1..], p, available, mover);
      }
    }
  }

  /** When the scan has ended, the carrier has no capacity left. */
  lemma {:induction false} ScanEndedLeavesNothing(carrier: Unit, planes: seq<Unit>, available: int, mover: Stance)
    requires ScanEnded(carrier, planes, available, mover)
    ensures available - CostSum(CanCarry(carrier, planes, available, mover)) == 0
    decreases |planes|
  {
    var q := planes[0];
    if Takes(carrier, q, available, mover) {
      var left := available - q.carrierCost;
      if left == 0 {
        CostSumCons(q, []);
      } else {
        ScanEndedLeavesNothing(carrier, planes[1..], left, mover);
        CostSumCons(q, CanCarry(carrier, planes[1..], left, mover));
      }
    } else if available != 0 {
      ScanEndedLeavesNothing(carrier, planes[1..], available, mover);
    }
  }

  /** Once some plane has been taken and no capacity is left, the scan has ended. */
  lemma {:induction false} FullCarrierEndsScan(carrier: Unit, planes: seq<Unit>, available: int, mover: Stance)
    requires CanCarry(carrier, planes, available, mover) != []
    requires available - CostSum(CanCarry(carrier, planes, available, mover)) == 0
    ensures ScanEnded(carrier, planes, available, mover)
    decreases |planes|
  {
    var q := planes[0];
    if Takes(carrier, q, available, mover) {
      var left := available - q.carrierCost;
      if left != 0 {
        var rest := CanCarry(carrier, planes[1..], left, mover);
        CostSumCons(q, rest);
        if rest != [] {
          FullCarrierEndsScan(carrier, planes[1..], left, mover);
        }
      }
    } else {
      FullCarrierEndsScan(carrier, planes[1..], available, mover);
    }
  }

  /** An ended scan takes nothing from any further planes. */
  lemma {:induction false} ScanEndedStaysEnded(carrier: Unit, planes: seq<Unit>, more: seq<Unit>, available: int, mover: Stance)
    requires ScanEnded(carrier, planes, available, mover)
    ensures CanCarry(carrier, planes + more, available, mover) == CanCarry(carrier, planes, available, mover)
    ensures ScanEnded(carrier, planes + more, available, mover)
    decreases |more|
  {
    if more != [] {
      var init := more[..|more| - 1];
      ScanEndedStaysEnded(carrier, planes, init, available, mover);
      assert planes + more == (planes + init) + [more[|more| - 1]];
      CanCarryAppend(carrier, planes + init, more[|more| - 1], available, mover);
      ScanEndedAppend(carrier, planes + init, more[|more| - 1], available, mover);
    } else {
      assert planes + more == planes;
    }
  }

  lemma {:induction false} ScanEndedAppend(carrier: Unit, planes: seq<Unit>, p: Unit, available: int, mover: Stance)
    requires ScanEnded(carrier, planes, available, mover)
    ensures ScanEnded(carrier, planes + [p], available, mover)
    decreases |planes|
  {
    var q := planes[0];
    assert (planes + [p])[0] == q && (planes + [p])[1..] == planes[1..] + [p];
    if Takes(carrier, q, available, mover) {
      var left := available - q.carrierCost;
      if left != 0 {
        ScanEndedAppend(carrier, planes[1..], p, left, mover);
      }
    } else if available != 0 {
      ScanEndedAppend(carrier, planes[1..], p, available, mover);
    }
  }

  /** The planes chosen from a prefix of the offer are a prefix of those chosen from the whole offer. */
  lemma {:induction false} CanCarryPrefix(carrier: Unit, planes: seq<Unit>, i: nat, available: int, mover: Stance)
    requires i <= |planes|
    ensures var before := CanCarry(carrier, planes[..i], available, mover);
            var all := CanCarry(carrier, planes, available, mover);
            |before| <= |all| && all[..|before|] == before
    decreases |planes|
  {
    if i < |planes| {
      var init := planes[..|planes| - 1];
      assert planes == init + [planes[|planes| - 1]];
      assert planes[..i] == init[..i];
      CanCarryPrefix(carrier, init, i, available, mover);
      CanCarryAppend(carrier, init, planes[|planes| - 1], available, mover);
    } else {
      assert planes[..i] == planes;
    }
  }

  /**
   * The scan is greedy: a plane that started with the carrier and fits the
   * capacity still left when it is reached, with the carrier not yet full, is
   * the next plane taken.
   */
  lemma CanCarryGreedy(carrier: Unit, planes: seq<Unit>, i: nat, available: int, mover: Stance)
    requires i < |planes| && SameStart(carrier, planes[i], mover)
    requires var left := available - CostSum(CanCarry(carrier, planes[..i], available, mover));
             left != 0 && planes[i].carrierCost <= left
    ensures var before := CanCarry(carrier, planes[..i], available, mover);
            var all := CanCarry(carrier, planes, available, mover);
            |before| < |all| && all[|before|] == planes[i]
  {
    var before := CanCarry(carrier, planes[..i], available, mover);
    if ScanEnded(carrier, planes[..i], available, mover) {
      ScanEndedLeavesNothing(carrier, planes[..i], available, mover);
    }
    assert planes[..i + 1] == planes[..i] + [planes[i]];
    CanCarryAppend(carrier, planes[..i], planes[i], available, mover);
    CanCarryPrefix(carrier, planes, i + 1, available, mover);
  }

  /** Once the planes taken use up the whole capacity, no later plane is taken, not even one that costs nothing. */
  lemma CanCarryStopsWhenFull(carrier: Unit, planes: seq<Unit>, i: nat, available: int, mover: Stance)
    requires i <= |planes|
    requires var before := CanCarry(carrier, planes[..i], available, mover);
             before != [] && CostSum(before) == available
    ensures CanCarry(carrier, planes, available, mover) == CanCarry(carrier, planes[..i], available, mover)
  {
    FullCarrierEndsScan(carrier, planes[..i], available, mover);
    ScanEndedStaysEnded(carrier, planes[..i], planes[i..], available, mover);
    assert planes[..i] + planes[i..] == planes;
  }

  /** The loop of `getCanCarry(carrier, selectFrom)`: the planes the carrier's full capacity takes. */
  method GetCanCarry(carrier: Unit, selectFrom: seq<Unit>, mover: Stance) returns (canCarry: seq<Unit>)
    ensures canCarry == CanCarry(carrier, selectFrom, carrier.carrierCapacity, mover)
  {
    canCarry := [];
    var available := carrier.carrierCapacity;
    var i := 0;
    while i < |selectFrom|
      invariant 0 <= i <= |selectFrom|
      invariant canCarry + CanCarry(carrier, selectFrom[i..], available, mover)
             == CanCarry(carrier, selectFrom, carrier.carrierCapacity, mover)
    {
      var plane := selectFrom[i];
      var cost := plane.carrierCost;
      assert selectFrom[i..][0] == plane && selectFrom[i..][1..] == selectFrom[i + 1..];
      if available >= cost
        && (carrier.alreadyMoved == plane.alreadyMoved
          || (HasNotMoved(plane) && HasNotMoved(carrier))
          || (!OwnedBy(plane, mover) && AlliedUnit(plane, mover)))
      {
        CanCarryTakes(carrier, selectFrom[i..], available, mover);
        available := available - cost;
        canCarry := canCarry + [plane];
      } else {
        CanCarrySkips(carrier, selectFrom[i..], available, mover);
      }
      if available == 0 {
        assert canCarry + [] == canCarry;
        break;
      }
      i := i + 1;
    }
  }

  // ---------------------------------------------------------------- carrierMustMoveWith

  /** Allied aircraft, not the mover's own, that can land on a carrier. */
  function AlliedAir(startUnits: seq<Unit>, mover: Stance): seq<Unit>
  {
    Filter(u => AlliedUnit(u, mover) && !OwnedBy(u, mover) && CanLandOnCarrier(u), startUnits)
  }

  /** Allied carriers, not the mover's own. */
  function AlliedCarriers(startUnits: seq<Unit>, mover: Stance): seq<Unit>
  {
    Filter(u => IsCarrier(u) && AlliedUnit(u, mover) && !OwnedBy(u, mover), startUnits)
  }

  /** The mover's own carriers. */
  function OwnedCarriers(units: seq<Unit>, mover: Stance): seq<Unit>
  {
    Filter(u => IsCarrier(u) && OwnedBy(u, mover), units)
  }

  /** The aircraft of `air` left over once each carrier of `carriers`, in turn, has taken what it can. */
  function LeftOver(carriers: seq<Unit>, air: seq<Unit>, mover: Stance): seq<Unit>
    decreases |carriers|
  {
    if carriers == [] then air
    else LeftOver(carriers[1..], RemoveAll(air, CanCarry(carriers[0], air, carriers[0].carrierCapacity, mover)), mover)
  }

  /** What is left over is drawn from the aircraft there were. */
  lemma {:induction false} LeftOverIsDrawnFrom(carriers: seq<Unit>, air: seq<Unit>, mover: Stance, p: Unit)
    requires p in LeftOver(carriers, air, mover)
    ensures p in air
    decreases |carriers|
  {
    if carriers != [] {
      var taken := CanCarry(carriers[0], air, carriers[0].carrierCapacity, mover);
      LeftOverIsDrawnFrom(carriers[1..], RemoveAll(air, taken), mover, p);
      RemoveAllMembership(air, taken, p);
    }
  }

  /** With no aircraft to place, nothing is left over. */
  lemma {:induction false} LeftOverOfNone(carriers: seq<Unit>, mover: Stance)
    ensures LeftOver(carriers, [], mover) == []
    decreases |carriers|
  {
    if carriers != [] {
      LeftOverOfNone(carriers[1..], mover);
    }
  }

  /** The first loop of `carrierMustMoveWith`: each allied carrier in turn removes what it can carry. */
  method RemoveCarriedByAllies(alliedCarriers: seq<Unit>, air: seq<Unit>, mover: Stance) returns (alliedAir: seq<Unit>)
    ensures alliedAir == LeftOver(alliedCarriers, air, mover)
  {
    alliedAir := air;
    var i := 0;
    while i < |alliedCarriers|
      invariant 0 <= i <= |alliedCarriers|
      invariant LeftOver(alliedCarriers[i..], alliedAir, mover) == LeftOver(alliedCarriers, air, mover)
    {
      assert alliedCarriers[i..][1..] == alliedCarriers[i + 1..];
      var carrying := GetCanCarry(alliedCarriers[i], alliedAir, mover);
      alliedAir := RemoveAll(alliedAir, carrying);
      i := i + 1;
    }
  }

  /**
   * The carrier-to-aircraft map that the owned carriers of `carriers` build, in
   * turn, from the aircraft of `air` still unplaced, starting from `mapping`:
   * each carrier is recorded with what it can take, and what it takes is no
   * longer offered to the carriers after it.
   */
  function Assign(carriers: seq<Unit>, air: seq<Unit>, mapping: map<Unit, seq<Unit>>, mover: Stance): map<Unit, seq<Unit>>
    decreases |carriers|
  {
    if carriers == [] then mapping
    else
      var taking := CanCarry(carriers[0], air, carriers[0].carrierCapacity, mover);
      Assign(carriers[1..], RemoveAll(air, taking), mapping[carriers[0] := taking], mover)
  }

  /** What `carrierMustMoveWith(units, startUnits, mover)` returns. */
  function CarrierMap(units: seq<Unit>, startUnits: seq<Unit>, mover: Stance): map<Unit, seq<Unit>>
  {
    var air := AlliedAir(startUnits, mover);
    if air == [] then map[]
    else
      var left := LeftOver(AlliedCarriers(startUnits, mover), air, mover);
      if left == [] then map[] else Assign(OwnedCarriers(units, mover), left, map[], mover)
  }

  /**
   * A carrier-to-aircraft map that places only aircraft of `orig`, never the
   * same aircraft on two carriers, and no more than a carrier's capacity.
   */
  predicate PlacedWithinCapacity(m: map<Unit, seq<Unit>>, orig: seq<Unit>)
  {
    && (forall c, p :: c in m && p in m[c] ==> p in orig)
    && (forall c, d, p :: c in m && d in m && c != d && p in m[c] ==> p !in m[d])
    && (forall c :: c in m && m[c] != [] ==> CostSum(m[c]) <= c.carrierCapacity)
  }

  /** What `Assign` keeps between carriers: the unplaced aircraft are from `orig` and none of them is placed yet. */
  predicate AssignInvariant(air: seq<Unit>, mapping: map<Unit, seq<Unit>>, orig: seq<Unit>)
  {
    && (forall p :: p in air ==> p in orig)
    && (forall c, p :: c in mapping && p in mapping[c] ==> p !in air)
    && PlacedWithinCapacity(mapping, orig)
  }

  /**
   * The shape `Assign` keeps: every carrier offered becomes a key, only aircraft
   * of `orig` are placed, no aircraft is held by two carriers, and no carrier
   * holds more than its capacity.
   */
  lemma {:induction false} AssignShape(carriers: seq<Unit>, air: seq<Unit>, mapping: map<Unit, seq<Unit>>, orig: seq<Unit>, mover: Stance)
    requires AssignInvariant(air, mapping, orig)
    ensures forall c :: c in Assign(carriers, air, mapping, mover) <==> c in mapping || c in carriers
    ensures PlacedWithinCapacity(Assign(carriers, air, mapping, mover), orig)
    decreases |carriers|
  {
    if carriers != [] {
      var carrier := carriers[0];
      var taking := CanCarry(carrier, air, carrier.carrierCapacity, mover);
      AssignStep(carrier, air, mapping, orig, mover);
      AssignShape(carriers[1..], RemoveAll(air, taking), mapping[carrier := taking], orig, mover);
      forall c
        ensures c in carriers <==> c == carrier || c in carriers[1..]
      {
        assert carriers == [carrier] + carriers[1..];
      }
    }
  }

  /** One carrier taking what it can of the unplaced aircraft keeps `AssignInvariant`. */
  lemma AssignStep(carrier: Unit, air: seq<Unit>, mapping: map<Unit, seq<Unit>>, orig: seq<Unit>, mover: Stance)
    requires AssignInvariant(air, mapping, orig)
    ensures var taking := CanCarry(carrier, air, carrier.carrierCapacity, mover);
            AssignInvariant(RemoveAll(air, taking), mapping[carrier := taking], orig)
  {
    var taking := CanCarry(carrier, air, carrier.carrierCapacity, mover);
    CanCarryWithinCapacity(carrier, air, carrier.carrierCapacity, mover);
    CanCarryIsSubsequence(carrier, air, carrier.carrierCapacity, mover);
    forall p | p in taking
      ensures p in air
    {
      SubsequenceMembers(taking, air, p);
    }
    var rest := RemoveAll(air, taking);
    forall p | p in rest
      ensures p in air && p !in taking
    {
      RemoveAllMembership(air, taking, p);
    }
  }

  /**
   * The second loop of `carrierMustMoveWith`: each owned carrier in turn takes
   * what it can of the aircraft still unplaced, and is recorded with them.
   */
  method AssignToOwnedCarriers(ownedCarriers: seq<Unit>, air: seq<Unit>, mover: Stance) returns (mapping: map<Unit, seq<Unit>>)
    ensures mapping == Assign(ownedCarriers, air, map[], mover)
  {
    mapping := map[];
    var alliedAir := air;
    var j := 0;
    while j < |ownedCarriers|
      invariant 0 <= j <= |ownedCarriers|
      invariant Assign(ownedCarriers[j..], alliedAir, mapping, mover) == Assign(ownedCarriers, air, map[], mover)
    {
      var carrier := ownedCarriers[j];
      assert ownedCarriers[j..][0] == carrier && ownedCarriers[j..][1..] == ownedCarriers[j + 1..];
      var carrying := GetCanCarry(carrier, alliedAir, mover);
      alliedAir := RemoveAll(alliedAir, carrying);
      mapping := mapping[carrier := carrying];
      j := j + 1;
    }
  }

  /**
   * `carrierMustMoveWith(units, startUnits, player)`: the allied (not owned)
   * aircraft in the sea zone that can land on a carrier are first given to the
   * allies' own carriers; what is left is handed out, carrier by carrier, to the
   * mover's carriers among `units`. The map is empty when there is no such
   * aircraft or the allied carriers hold all of it; otherwise every owned
   * carrier of `units` is a key. Each aircraft is held by at most one carrier,
   * only aircraft the allied carriers left over are assigned, and no carrier
   * holds more than its capacity.
   */
  method CarrierMustMoveWith(units: seq<Unit>, startUnits: seq<Unit>, mover: Stance) returns (mapping: map<Unit, seq<Unit>>)
    ensures mapping == CarrierMap(units, startUnits, mover)
    ensures AlliedAir(startUnits, mover) == [] ==> mapping == map[]
    ensures var left := LeftOver(AlliedCarriers(startUnits, mover), AlliedAir(startUnits, mover), mover);
            (left == [] ==> mapping == map[])
            && (left != [] ==> forall c :: c in mapping <==> c in units && IsCarrier(c) && OwnedBy(c, mover))
            && (forall c, p :: c in mapping && p in mapping[c] ==> p in left)
    ensures forall c, d, p :: c in mapping && d in mapping && c != d && p in mapping[c] ==> p !in mapping[d]
    ensures forall c :: c in mapping && mapping[c] != [] ==> CostSum(mapping[c]) <= c.carrierCapacity
  {
    var alliedAir := AlliedAir(startUnits, mover);
    var alliedCarriers := AlliedCarriers(startUnits, mover);
    if alliedAir == [] {
      LeftOverOfNone(alliedCarriers, mover);
      return map[];
    }
    alliedAir := RemoveCarriedByAllies(alliedCarriers, alliedAir, mover);
    if alliedAir == [] {
      return map[];
    }
    var ownedCarriers := OwnedCarriers(units, mover);
    mapping := AssignToOwnedCarriers(ownedCarriers, alliedAir, mover);
    AssignShape(ownedCarriers, alliedAir, map[], alliedAir, mover);
    forall c
      ensures c in ownedCarriers <==> c in units && IsCarrier(c) && OwnedBy(c, mover)
    {
      FilterMembership(u => IsCarrier(u) && OwnedBy(u, mover), units, c);
    }
  }

  // ---------------------------------------------------------------- addToMapping

  /**
   * `addToMapping(mapping, newMapping)`: every holder of `newMapping` is added;
   * a holder already present gets the new units appended to the ones it held.
   * No holder and no held unit is lost, and holders only in `mapping` are untouched.
   */
  method AddToMapping(mapping: map<Unit, seq<Unit>>, newMapping: map<Unit, seq<Unit>>) returns (merged: map<Unit, seq<Unit>>)
    ensures merged.Keys == mapping.Keys + newMapping.Keys
    ensures forall k :: k in mapping && k in newMapping ==> merged[k] == mapping[k] + newMapping[k]
    ensures forall k :: k in mapping && k !in newMapping ==> merged[k] == mapping[k]
    ensures forall k :: k !in mapping && k in newMapping ==> merged[k] == newMapping[k]
  {
    merged := mapping;
    var pending := newMapping.Keys;
    while pending != {}
      invariant pending <= newMapping.Keys
      invariant merged.Keys == mapping.Keys + (newMapping.Keys - pending)
      invariant forall k :: k in mapping && k in newMapping && k !in pending ==> merged[k] == mapping[k] + newMapping[k]
      invariant forall k :: k in mapping && (k !in newMapping || k in pending) ==> merged[k] == mapping[k]
      invariant forall k :: k !in mapping && k in newMapping && k !in pending ==> merged[k] == newMapping[k]
      decreases pending
    {
      var key :| key in pending;
      if key in merged {
        merged := merged[key := merged[key] + newMapping[key]];
      } else {
        merged := merged[key := newMapping[key]];
      }
      pending := pending - {key};
    }
  }
}
