# TripleA combat and movement rules, modelled in Dafny

This project models the rules engine at the heart of TripleA, a turn-based
strategy game engine. Four Java classes are covered:

- `MustFightBattle` is the per-territory battle. It keeps the attacking and
  defending units, the casualties waiting to die, the killed and retreated
  units, the roster of who attacks from where, the amphibious bookkeeping,
  the dependent (carried) units, the round number and the outcome. It
  decides how submarines fire and who may answer them, lists the steps of
  a round, runs them from a stack, and carries out casualties, retreats,
  submerging and the end of the battle.
- `MoveValidator` checks a move of units along a route. The checks run in
  order and stop at the first one that sets an error. Together they build a
  `MoveValidationResult`: one general error plus per-unit disallowances. It
  also works out which allied aircraft must move with which carriers.
- `TechAbilityAttachment` is the set of bonuses a technology grants. It
  parses option strings such as `"2:infantry"` with range checks. Its static
  getters combine a player's current technologies into one value.
- `VersionProxy` is the serialisation proxy of an engine version.

Modules:

- `Wrappers` holds `Option` and `Result`.
- `JavaText` holds `String.split` on one character and `Integer.parseInt`.
- `Units` holds units, territories, routes and the player's diplomatic
  stance. A unit is an id with a record of attributes, and the `Matches`
  predicates are functions of that record.
- `VersionProxy`.
- `TechAbility` holds the attachment, a class whose setters update its
  fields, with the parsers it uses. `TechAggregates` holds the static getters.
- `MoveChecks` holds the pure checks of `MoveValidator`.
- `Carriers` holds the carrier allocation.
- `MoveValidator` holds the validation pipeline. It is modelled twice: as
  functions on a `Verdict` value, and as methods that update a
  `MoveValidationResult` object and are proved to agree with those functions.
- `BattleRules` holds the battle's pure decisions: return fire, sneak
  attacks, the end of a round and the amphibious order.
- `BattleState` holds the battle's fields as one `State` value, with one
  function per operation.
- `BattleSteps` holds the step names of a round, the executables of a round
  and the execution stack.
- `Battle` holds the `MustFightBattle` class. Each method that changes the
  battle ensures `Value() == F(old(Value()), ...)`, where `F` is the
  `BattleState` function of that operation. The properties of a battle are
  proved as lemmas about those functions.

Everything the engine asks other objects is passed in as a parameter: the
game map, the game options, the battle and transport trackers, the
relationship tracker, the player's current technologies and the player's
answers.

## Model

| member | source | states |
|---|---|---|
| VersionProxy.NewProxy | src/main/java/games/strategy/internal/persistence/serializable/VersionProxy.java:24-31 | A missing (null) version is rejected with an error. Otherwise the proxy holds exactly the version's major, minor, point and micro numbers. |
| VersionProxy.ReadResolve | src/main/java/games/strategy/internal/persistence/serializable/VersionProxy.java:33-36 | The version rebuilt has the proxy's four numbers as its components. |
| VersionProxy.RoundTrip | src/main/java/games/strategy/internal/persistence/serializable/VersionProxy.java:24-36 | For every version, making a proxy and resolving it gives back the same version. |
| VersionProxy.ProxyIsInjective | src/main/java/games/strategy/internal/persistence/serializable/VersionProxy.java:19-31 | Two versions with equal proxies are equal, so the proxy loses nothing. |
| JavaText.Pieces | src/main/java/games/strategy/triplea/attachments/TechAbilityAttachment.java:114 | At least one piece. No piece holds the separator, and a string without one is its own only piece. |
| JavaText.JoinPieces | src/main/java/games/strategy/triplea/attachments/TechAbilityAttachment.java:114 | Joining the pieces with the separator gives back the original string. |
| JavaText.DropTrailingEmpty | src/main/java/games/strategy/triplea/attachments/TechAbilityAttachment.java:114 | The result is a prefix of the input whose last element, if any, is not empty. Everything dropped is empty. |
| JavaText.Split | src/main/java/games/strategy/triplea/attachments/TechAbilityAttachment.java:114 | `String.split` on one ordinary character. A string with no separator comes back whole. Otherwise the result is the pieces minus their trailing empty ones, and no field holds the separator. |
| JavaText.SplitTwoFields | src/main/java/games/strategy/triplea/attachments/TechAbilityAttachment.java:114-128 | `a:b`, with separator-free fields and `b` not empty, splits into exactly `[a, b]`. |
| JavaText.SplitThreeFields | src/main/java/games/strategy/triplea/attachments/TechAbilityAttachment.java:114-117 | `a:b:c`, with separator-free fields and `c` not empty, splits into exactly `[a, b, c]`. |
| JavaText.SplitOnlySeparators | src/main/java/games/strategy/triplea/attachments/TechAbilityAttachment.java:114-117 | A string of one or more separators splits into no fields at all. |
| JavaText.ParseInt | src/main/java/games/strategy/triplea/attachments/TechAbilityAttachment.java:127 | A value only for a string that starts with a digit or a sign, and always within the Java `int` range. A leading `-` gives a value of at most 0, and anything else a value of at least 0. `ParseIntToString` gives the converse. |
| JavaText.NatToString | src/main/java/games/strategy/triplea/attachments/TechAbilityAttachment.java:127 | The decimal digits of `n`, all digits, with no leading zero, whose value is `n`. |
| JavaText.IntToString | src/main/java/games/strategy/triplea/attachments/TechAbilityAttachment.java:127 | A non-empty string without the `:` separator, so it can stand as a field. |
| JavaText.ParseIntToString | src/main/java/games/strategy/triplea/attachments/TechAbilityAttachment.java:127 | Every Java `int` printed in decimal parses back to itself. |
| TechAbility.Initial | src/main/java/games/strategy/triplea/attachments/TechAbilityAttachment.java:80-92 | The initial value is within the field's range. It is -1 exactly for the fields where -1 means unset: minimumTerritoryValue, repairDiscount and warBondDiceSides. Every other field starts at 0. |
| TechAbility.FreshHoldsInitialValues | src/main/java/games/strategy/triplea/attachments/TechAbilityAttachment.java:73-106 | A new attachment has every bonus map, ability map, unit-type set and AA map empty. Airborne forces are off, and every range-checked field holds its initial value. |
| TechAbility.ParseUnitBonus | src/main/java/games/strategy/triplea/attachments/TechAbilityAttachment.java:113-128 | Succeeds exactly for two fields where the second is a known unit type and the first parses as an `int`; the result is that pair. A single field, except for the rocket dice, fails with an index error on `s[1]`. Any other count but 2 fails as a bad field count. |
| TechAbility.UnitBonusRoundTrip | src/main/java/games/strategy/triplea/attachments/TechAbilityAttachment.java:113-128 | Any Java `int` and any known unit type, written as `"n:UnitType"`, parse back to that pair for every bonus map. |
| TechAbility.OneFieldBonusIsIndexError | src/main/java/games/strategy/triplea/attachments/TechAbilityAttachment.java:114-119 | For every bonus kind that reads two fields, any value without a `:` separator (a bare number such as `2` included) passes the field-count guard and then fails with an index error on the second field. |
| TechAbility.BadFieldCounts | src/main/java/games/strategy/triplea/attachments/TechAbilityAttachment.java:114-117 | Three fields are rejected as a bad field count, and so is a value made of separators only. |
| TechAbility.TrailingSeparatorIsIndexError | src/main/java/games/strategy/triplea/attachments/TechAbilityAttachment.java:114-119 | `"n:"` loses its empty trailing field to `split` and fails with the index error. |
| TechAbility.ParseScalar | src/main/java/games/strategy/triplea/attachments/TechAbilityAttachment.java:453-461 | A range-checked field accepts exactly a Java `int` in its range. The ranges are: -1 or 0..10000 (minimum territory value), -1 or 0..100 (repair discount), -1 or 0..200 (war bond dice sides), 0..100 (war bond dice number, rocket distance, airborne distance) and 0..200 (rockets per territory). |
| TechAbility.ScalarRoundTrip | src/main/java/games/strategy/triplea/attachments/TechAbilityAttachment.java:532-539 | Every Java `int` written in decimal is accepted, as itself, exactly when it is in the field's range. Otherwise it is a range error. |
| TechAbility.ParseTargettedByAA | src/main/java/games/strategy/triplea/attachments/TechAbilityAttachment.java:1001-1017 | Succeeds exactly when there are at least two fields and every field after the first is a known unit type. The result is the first field together with the set of the others. |
| TechAbility.UnitAbilitiesGainedAfter | src/main/java/games/strategy/triplea/attachments/TechAbilityAttachment.java:736-763 | Succeeds exactly for at least two fields, a known unit type first, and every ability supported. On success the named type's set becomes its old set (or none) joined with every ability named. A failure before the abilities, or for a type with no set yet, leaves the map unchanged. A failure on an unsupported ability for a type that already has a set still keeps the abilities named before it. No set ever shrinks, and only the named type's set changes. |
| TechAbility.UnsupportedAbilityKeepsEarlierOnes | src/main/java/games/strategy/triplea/attachments/TechAbilityAttachment.java:749-762 | With `canBlitz` before an unsupported ability, the call fails. `canBlitz` is nevertheless in the set of a type that already had one. A type without a set stays without one. |
| TechAbility.CollectAbilities | src/main/java/games/strategy/triplea/attachments/TechAbilityAttachment.java:753-761 | The loop stops at `FirstNotIn`, the first unsupported ability, or at the end. The abilities collected are `before` plus the fields ahead of that point. |
| TechAbility.Get | src/main/java/games/strategy/triplea/attachments/TechAbilityAttachment.java:41-55 | For a generic advance naming a hard-coded one, the hard-coded advance's attachment, if it has one. Otherwise the advance's own attachment, if any. |
| TechAbility.HardCodedShadowsGeneric | src/main/java/games/strategy/triplea/attachments/TechAbilityAttachment.java:41-55 | When the hard-coded advance has no attachment, a generic advance naming it yields none, even if the generic advance has its own. |
| TechAbility.GetNamed | src/main/java/games/strategy/triplea/attachments/TechAbilityAttachment.java:60-67 | The named attachment when the advance has it. Otherwise an illegal-state error. |
| TechAbility.Validate | src/main/java/games/strategy/triplea/attachments/TechAbilityAttachment.java:1359-1369 | Fails exactly for a generic advance that names a hard-coded advance. |
| TechAbility.ValidAttachmentIsReachable | src/main/java/games/strategy/triplea/attachments/TechAbilityAttachment.java:41-55 | An attachment on an advance that passes `validate` is what `get` returns for that advance. |
| TechAbility.TechAbilityAttachment.constructor | src/main/java/games/strategy/triplea/attachments/TechAbilityAttachment.java:73-106 | A new attachment holds the initial values. |
| TechAbility.TechAbilityAttachment.SetUnitBonus | src/main/java/games/strategy/triplea/attachments/TechAbilityAttachment.java:113-128 | Succeeds exactly when `ParseUnitBonus` does. On success only that map's entry for the unit type changes, to the parsed number. On failure nothing changes and the error is the parser's. |
| TechAbility.TechAbilityAttachment.SetBonusMap | src/main/java/games/strategy/triplea/attachments/TechAbilityAttachment.java:131-133 | The whole map is replaced and nothing else changes. |
| TechAbility.TechAbilityAttachment.ResetBonus | src/main/java/games/strategy/triplea/attachments/TechAbilityAttachment.java:150-156 | The map becomes empty and nothing else changes. |
| TechAbility.TechAbilityAttachment.SetScalar | src/main/java/games/strategy/triplea/attachments/TechAbilityAttachment.java:453-461 | Succeeds exactly when `ParseScalar` does, and the field then takes the parsed value. On failure nothing changes and the error is the parser's. |
| TechAbility.TechAbilityAttachment.SetScalarValue | src/main/java/games/strategy/triplea/attachments/TechAbilityAttachment.java:463-465 | The value is stored unchecked and nothing else changes. |
| TechAbility.TechAbilityAttachment.ResetScalar | src/main/java/games/strategy/triplea/attachments/TechAbilityAttachment.java:487-489 | The field returns to its initial value. |
| TechAbility.TechAbilityAttachment.SetUnitAbilitiesGained | src/main/java/games/strategy/triplea/attachments/TechAbilityAttachment.java:736-763 | The ability map becomes what `UnitAbilitiesGainedAfter` says, with the same outcome, so a successful call joins every named ability to the type's set. No other field changes. |
| TechAbility.TechAbilityAttachment.SetUnitAbilitiesGainedMap | src/main/java/games/strategy/triplea/attachments/TechAbilityAttachment.java:766-768 | The ability map is replaced and nothing else changes. |
| TechAbility.TechAbilityAttachment.SetAirborneForces | src/main/java/games/strategy/triplea/attachments/TechAbilityAttachment.java:803-818 | Only the airborne-forces flag changes. |
| TechAbility.TechAbilityAttachment.AddTypes | src/main/java/games/strategy/triplea/attachments/TechAbilityAttachment.java:882-892 | Fails exactly when some field is not a unit type. Either way the set gains the known fields ahead of the first unknown one, or all of them. Nothing else changes. |
| TechAbility.TechAbilityAttachment.AddEachType | src/main/java/games/strategy/triplea/attachments/TechAbilityAttachment.java:884-891 | The same loop, over fields already split. |
| TechAbility.TechAbilityAttachment.AddNextType | src/main/java/games/strategy/triplea/attachments/TechAbilityAttachment.java:889 | One more field joins the set. Nothing else changes. |
| TechAbility.TechAbilityAttachment.AddType | src/main/java/games/strategy/triplea/attachments/TechAbilityAttachment.java:889 | The set gains the type, and nothing else changes. |
| TechAbility.TechAbilityAttachment.SetTypeSet | src/main/java/games/strategy/triplea/attachments/TechAbilityAttachment.java:894-896 | The set is replaced and nothing else changes. |
| TechAbility.TechAbilityAttachment.SetAirborneTargettedByAA | src/main/java/games/strategy/triplea/attachments/TechAbilityAttachment.java:1001-1017 | Succeeds exactly when `ParseTargettedByAA` does, and the AA type's entry then becomes the parsed set. On failure nothing changes. |
| TechAbility.TechAbilityAttachment.SetAirborneTargettedByAAMap | src/main/java/games/strategy/triplea/attachments/TechAbilityAttachment.java:1019-1021 | The AA map is replaced and nothing else changes. |
| TechAggregates.Attachments | src/main/java/games/strategy/triplea/attachments/TechAbilityAttachment.java:141-142 | One entry per technology, in order: what `get` finds for it. |
| TechAggregates.BonusSumAppend | src/main/java/games/strategy/triplea/attachments/TechAbilityAttachment.java:139-148 | `BonusSum`: the per-type sum over two lists of technologies is the sum of the two sums. |
| TechAggregates.BonusSumOfUnmentioned | src/main/java/games/strategy/triplea/attachments/TechAbilityAttachment.java:139-148 | Technologies without an attachment, and unit types that no attachment mentions, add 0. |
| TechAggregates.GetBonus | src/main/java/games/strategy/triplea/attachments/TechAbilityAttachment.java:139-148 | The accumulation loop returns `BonusSum`: the unit type's entry in each attachment present, added up, with 0 where it has none. |
| TechAggregates.RocketDiceOfPlayersWithoutTechs | src/main/java/games/strategy/triplea/attachments/TechAbilityAttachment.java:633-650 | Rockets whose owners have no technology roll no dice. |
| TechAggregates.RocketDiceOfOne | src/main/java/games/strategy/triplea/attachments/TechAbilityAttachment.java:633-650 | One rocket rolls the rocket-dice bonus of its type summed over its own owner's current attachments (`BonusSum`), as `getRocketDiceNumber(ut, player)` computes it. |
| TechAggregates.RocketDiceTotalAppend | src/main/java/games/strategy/triplea/attachments/TechAbilityAttachment.java:644-650 | `RocketDiceTotal` over two groups of rockets is the sum of the two totals, so the total is the sum of each rocket's own dice. |
| TechAggregates.SmallestSet | src/main/java/games/strategy/triplea/attachments/TechAbilityAttachment.java:471-485 | No value when no attachment has a set value (anything but -1). Otherwise the value is one an attachment holds, and no set value is smaller. |
| TechAggregates.MinimumTerritoryValue | src/main/java/games/strategy/triplea/attachments/TechAbilityAttachment.java:471-485 | 0 when nothing is set, otherwise `max(0, smallest set value)`. It is never negative. |
| TechAggregates.GetMinimumTerritoryValue | src/main/java/games/strategy/triplea/attachments/TechAbilityAttachment.java:471-485 | The source's loop, which starts at -1 for "none yet", returns `MinimumTerritoryValue`. The result is at most every non-negative value set. |
| TechAggregates.PositivePart | src/main/java/games/strategy/triplea/attachments/TechAbilityAttachment.java:549-561 | What one attachment adds: its value when positive, otherwise 0. Never negative. |
| TechAggregates.PositiveTotalBounds | src/main/java/games/strategy/triplea/attachments/TechAbilityAttachment.java:549-561 | `PositiveTotal`, for war bond dice sides and number, rocket distance and rockets per territory: the total is at least 0 and at least each attachment's positive part. |
| TechAggregates.PositiveTotalAppend | src/main/java/games/strategy/triplea/attachments/TechAbilityAttachment.java:585-597 | The total over two lists of technologies is the sum of the two totals. |
| TechAggregates.AirborneDistanceTotal | src/main/java/games/strategy/triplea/attachments/TechAbilityAttachment.java:939-948 | Every value is added, then the total is floored at 0. The result is never below 0 or below the plain sum. |
| TechAggregates.AirborneDistanceInRange | src/main/java/games/strategy/triplea/attachments/TechAbilityAttachment.java:922-948 | When every airborne distance is in the setter's range, the floor never applies and the total is the plain sum. |
| TechAggregates.UnitAbilitiesMembership | src/main/java/games/strategy/triplea/attachments/TechAbilityAttachment.java:780-792 | `UnitAbilities`: a unit type gains an ability exactly when some current attachment grants it. |
| TechAggregates.HasUnitAbility | src/main/java/games/strategy/triplea/attachments/TechAbilityAttachment.java:774-778 | True exactly when some current attachment grants the ability to that unit type. |
| TechAggregates.TypeUnion | src/main/java/games/strategy/triplea/attachments/TechAbilityAttachment.java:902-911 | Airborne types and bases: a type is in the union exactly when some current attachment lists it. |
| TechAggregates.AddMaps | src/main/java/games/strategy/triplea/attachments/TechAbilityAttachment.java:853-856 | `IntegerMap.add`: the keys of either map. Each entry is the sum of the two entries, with 0 where one is absent. |
| TechAggregates.AirborneCapacityMap | src/main/java/games/strategy/triplea/attachments/TechAbilityAttachment.java:850-859 | The pointwise sum of the current attachments' capacity maps. A type's entry is the sum of its entries. |
| TechAggregates.Remaining | src/main/java/games/strategy/triplea/attachments/TechAbilityAttachment.java:861-868 | A unit's capacity less what it has launched, never below 0. |
| TechAggregates.AirborneCapacityOfUnits | src/main/java/games/strategy/triplea/attachments/TechAbilityAttachment.java:861-868 | The loop returns the sum of the units' remaining capacities. The sum is at least 0 and at least each unit's remaining capacity. |
| TechAggregates.MergeSets | src/main/java/games/strategy/triplea/attachments/TechAbilityAttachment.java:1033-1043 | The keys of either map, each with the union of its sets. |
| TechAggregates.TargettedByAAMembership | src/main/java/games/strategy/triplea/attachments/TechAbilityAttachment.java:1027-1047 | `TargettedByAA`: an AA type has an entry exactly when some current attachment lists it. A unit type is targetted by it exactly when some attachment says so. |
| TechAggregates.AllowAirborneForces | src/main/java/games/strategy/triplea/attachments/TechAbilityAttachment.java:1204-1214 | True exactly when some current attachment allows airborne forces. |
| MoveChecks.NeutralsClosed | src/main/java/games/strategy/triplea/delegate/MoveValidator.java:723-726 | Neutral land refuses the move exactly when neutrals are impassable: `isNeutralsBlitzable` is always false then, so the Java test reduces to that one flag. |
| MoveChecks.NeutralCharge | src/main/java/games/strategy/triplea/delegate/MoveValidator.java:1616-1618 | No neutral territory costs nothing, and a non-negative charge per neutral never gives a negative total. |
| MoveChecks.NeutralCrossingError | src/main/java/games/strategy/triplea/delegate/MoveValidator.java:924-933 | The only error is "too poor to violate neutrality". With no empty neutral crossed, it is refused only for a negative PU count. Without a PU record, it is refused exactly when the charge is positive. |
| MoveChecks.RouteNames | src/main/java/games/strategy/triplea/delegate/MoveValidator.java:487-505 | The names of every territory of the route, start first. |
| MoveChecks.AllowedListConfinesRoute | src/main/java/games/strategy/triplea/delegate/MoveValidator.java:479-508 | When the restriction is active, an "allowed" list refuses the route exactly when some territory of it is not listed. |
| MoveChecks.DisallowedListExcludesRoute | src/main/java/games/strategy/triplea/delegate/MoveValidator.java:479-508 | When the restriction is active, a "disallowed" list refuses the route exactly when some territory of it is listed. |
| MoveChecks.IgnoredPath | src/main/java/games/strategy/triplea/delegate/MoveValidator.java:770-785 | The territories inspected: the route's steps, without the end when it is ignored. |
| MoveChecks.IgnoredScan | src/main/java/games/strategy/triplea/delegate/MoveValidator.java:786-812 | Passes exactly when (the move is already valid, or some sea zone was seen) and every sea zone seen holds only ignorable units. |
| MoveChecks.OnlyIgnoredUnitsOnPath | src/main/java/games/strategy/triplea/delegate/MoveValidator.java:770-813 | True exactly when one of the two properties is set, the path crosses some sea zone, and every sea zone on it holds only units those properties ignore. |
| MoveChecks.NothingIgnoredWithoutProperties | src/main/java/games/strategy/triplea/delegate/MoveValidator.java:770-780 | With neither property set, no path holds only ignored units. |
| MoveChecks.UnitsThatCantGoOnWater | src/main/java/games/strategy/triplea/delegate/MoveValidator.java:878-887 | A unit is listed exactly when it is one of the move's land units that cannot be transported. |
| MoveChecks.MaxMovement | src/main/java/games/strategy/triplea/delegate/MoveValidator.java:897-907 | At least 0 and at least every unit's movement left, and equal to 0 or to one of them. |
| MoveChecks.LeastMovement | src/main/java/games/strategy/triplea/delegate/MoveValidator.java:909-919 | At most `Integer.MAX_VALUE` and at most every unit's movement left, and equal to `Integer.MAX_VALUE` or to one of them. |
| MoveChecks.GetMaxMovement | src/main/java/games/strategy/triplea/delegate/MoveValidator.java:897-907 | Fails on no units. Otherwise the loop returns `MaxMovement`. |
| MoveChecks.GetLeastMovement | src/main/java/games/strategy/triplea/delegate/MoveValidator.java:909-919 | Fails on no units. Otherwise the loop returns `LeastMovement`. |
| MoveChecks.StackKindAt | src/main/java/games/strategy/triplea/delegate/MoveValidator.java:674-690 | A step is an attack when its territory is enemy land or sea, or holds enemy units. |
| MoveChecks.CountOfType | src/main/java/games/strategy/triplea/delegate/MoveValidator.java:690-705 | The number of units of the type. It is never more than the number of units. |
| MoveChecks.StackSplit | src/main/java/games/strategy/triplea/delegate/MoveValidator.java:690-705 | Between them, the admitted units and the refused units number as many as the units offered. |
| MoveChecks.StackWithinLimits | src/main/java/games/strategy/triplea/delegate/MoveValidator.java:690-705 | No unit type is admitted beyond its limit, and none at all under a limit of 0 or less. |
| MoveChecks.RefusedAtLimit | src/main/java/games/strategy/triplea/delegate/MoveValidator.java:690-705 | A unit is refused only when its type has a limit, and the admitted units of that type reach the limit. |
| MoveChecks.StackSplitPartitions | src/main/java/games/strategy/triplea/delegate/MoveValidator.java:690-705 | Every unit offered lands on exactly one side of the split. |
| MoveChecks.UnlimitedAdmitted | src/main/java/games/strategy/triplea/delegate/MoveValidator.java:690-705 | A unit whose type has no limit is never refused. |
| MoveChecks.SplitAtStackingLimit | src/main/java/games/strategy/triplea/delegate/MoveValidator.java:690-705 | The per-step loop returns exactly `StackSplit`. |
| MoveChecks.PairScan | src/main/java/games/strategy/triplea/delegate/MoveValidator.java:1278-1290 | True exactly when some consecutive pair of territories holds every one of the canal's sea zones. |
| MoveChecks.IsCanalOnRoute | src/main/java/games/strategy/triplea/delegate/MoveValidator.java:1273-1291 | True for no route. Otherwise true exactly when some consecutive pair of the route's territories holds every sea zone of the canal. |
| MoveChecks.BorderFailure | src/main/java/games/strategy/triplea/delegate/MoveValidator.java:1302-1310 | No error exactly when every border territory is held, and held since the turn began. Any error is "not controlled" or "not held for the turn". |
| MoveChecks.CanPassThroughCanal | src/main/java/games/strategy/triplea/delegate/MoveValidator.java:1296-1312 | Units all of excluded types always pass. Otherwise the canal refuses exactly when a border territory is not held, or not held since the turn began. |
| MoveChecks.ControlAllCanals | src/main/java/games/strategy/triplea/delegate/MoveValidator.java:246-262 | When every canal must be controlled, the territory is passable exactly when every canal on the route is passable. |
| MoveChecks.ControlAnyCanal | src/main/java/games/strategy/triplea/delegate/MoveValidator.java:246-262 | When one canal suffices, the territory is passable exactly when some canal on the route is passable or none is on it. |
| MoveChecks.ValidateCanalAt | src/main/java/games/strategy/triplea/delegate/MoveValidator.java:246-262 | The loop returns the scan's outcome, so it refuses exactly as the two lemmas above say. |
| MoveChecks.RouteCanalFailure | src/main/java/games/strategy/triplea/delegate/MoveValidator.java:224-233 | No error exactly when the canals at every territory let the move through. Otherwise the error is one of those territories' canal errors. |
| MoveChecks.ValidateCanalRoute | src/main/java/games/strategy/triplea/delegate/MoveValidator.java:224-233 | The loop over the route's territories returns `RouteCanalFailure`. |
| MoveChecks.StickTogetherRefuses | src/main/java/games/strategy/triplea/delegate/MoveValidator.java:1065-1084 | A unit is refused for leaving cargo behind exactly when it is a moving transport that leaves cargo. It is refused for leaving its transport exactly when it is moving cargo whose transport stays. No other message is given. |
| MoveValidator.Disallow | src/main/java/games/strategy/triplea/delegate/MoveValidator.java:182-186 | One disallowance per unit, with the same message, in order. |
| MoveValidator.LandGate | src/main/java/games/strategy/triplea/delegate/MoveValidator.java:160-178 | An error exactly when some land territory of the route belongs to an owner that the moving land or air units may not cross. |
| MoveValidator.FirstPass | src/main/java/games/strategy/triplea/delegate/MoveValidator.java:133-191 | Keeps what was already disallowed. Each of these refuses the move: repeated units, no units, an invalid route, units missing from the start. When nothing was refused before or now, exactly the submerged units are added as disallowed, in order. |
| MoveValidator.FirstPassOwnership | src/main/java/games/strategy/triplea/delegate/MoveValidator.java:135-144 | A move accepted outside edit mode moves only the mover's units or units they carry. |
| MoveValidator.FirstPassRefusesSubmerged | src/main/java/games/strategy/triplea/delegate/MoveValidator.java:182-186 | Every submerged unit of an accepted move is disallowed. |
| MoveValidator.NonEnemyPass | src/main/java/games/strategy/triplea/delegate/MoveValidator.java:510-543 | The disallowances are unchanged. Nothing changes in edit mode, with no enemies on the middle steps, or when only air units move. Otherwise, when submersible subs are allowed and only submarines move, the move fails with "cannot move submarines under destroyers" exactly when an enemy destroyer stands on a middle step (`EnemyDestroyerOnPath`). Any other move fails with "enemy units on path" exactly when non-paratroopers move and the path holds more than ignorable units. |
| MoveValidator.SubmarinesUnderDestroyersRefused | src/main/java/games/strategy/triplea/delegate/MoveValidator.java:520-529 | Outside edit mode with submersible subs, a move of submarines (not all air) past an enemy destroyer on a middle step, which is neither infrastructure nor submerged, fails with "cannot move submarines under destroyers". |
| MoveValidator.NonEnemyStageRefuses | src/main/java/games/strategy/triplea/delegate/MoveValidator.java:510-543 | The stage that checks units on the path refuses every request in which submarines pass under an enemy destroyer, whatever the verdict before it. |
| MoveValidator.ValidateMoveRefusesSubsUnderDestroyers | src/main/java/games/strategy/triplea/delegate/MoveValidator.java:815-823 | `validateMove` refuses every move of submarines past an enemy destroyer on the middle steps of a non-empty route. |
| MoveValidator.StackRefusals | src/main/java/games/strategy/triplea/delegate/MoveValidator.java:700-704 | One "has reached stacking limit" disallowance per refused unit. |
| MoveValidator.StackingPass | src/main/java/games/strategy/triplea/delegate/MoveValidator.java:674-716 | Keeps what was already disallowed. The only new error is "over stacking limit". Starting without an error, it passes exactly when no step breaks the player's stacking limit. |
| MoveValidator.BasicTail | src/main/java/games/strategy/triplea/delegate/MoveValidator.java:717-726 | The disallowances are unchanged. Starting without an error: an impassable territory outside edit mode fails with "through impassable", neutral land with neutrals closed fails, and a pass means the neutral charge is affordable. |
| MoveValidator.BasicPass | src/main/java/games/strategy/triplea/delegate/MoveValidator.java:659-728 | `validateBasic` from its end-at-water test on only adds disallowances. The lemmas below state what it refuses. |
| MoveValidator.EndAtWaterPass | src/main/java/games/strategy/triplea/delegate/MoveValidator.java:660-665 | Only adds disallowances, and the error is unchanged. `BasicRefusesLandAtSea` states which units are added. |
| MoveValidator.SeaOnLandPass | src/main/java/games/strategy/triplea/delegate/MoveValidator.java:666-672 | Only adds disallowances, and the error is unchanged. `SeaOnLandDisallowsSeaUnits` states which units are added. |
| MoveValidator.SeaOnLandDisallowsSeaUnits | src/main/java/games/strategy/triplea/delegate/MoveValidator.java:666-672 | On a route touching land, every sea unit of the move is disallowed. |
| MoveValidator.BasicRefusesImpassable | src/main/java/games/strategy/triplea/delegate/MoveValidator.java:717-721 | Outside edit mode, a route through an impassable territory is refused. |
| MoveValidator.BasicRefusesNeutrals | src/main/java/games/strategy/triplea/delegate/MoveValidator.java:722-726 | Neutral land on the route is refused whenever neutrals are impassable. |
| MoveValidator.BasicRefusesLandAtSea | src/main/java/games/strategy/triplea/delegate/MoveValidator.java:660-665 | A move ending at sea that passes has disallowed every land unit no transport can carry. |
| MoveValidator.TransportPass | src/main/java/games/strategy/triplea/delegate/MoveValidator.java:945-1162 | Nothing changes when the transport check does not apply. Outside edit mode, an unload of more than one step fails with "unload must stop". A move with land at both ends fails with "only start or end in land" when the land and air units include non-paratroopers. A load by non-paratroopers fails with "units cannot move before loading" when it takes more than one step outside edit mode. Otherwise it fails with "cannot load when enemy sea units are present" when unsubmerged enemies hold the end, the path holds more than ignorable units, and the players did not just go to war. |
| MoveValidator.LoadPass | src/main/java/games/strategy/triplea/delegate/MoveValidator.java:1085-1097 | Outside edit mode, a load by non-paratroopers of more than one step fails with "units cannot move before loading". Otherwise, non-paratroopers loading where unsubmerged enemies hold the end fail with "cannot load when enemy sea units are present", unless the path holds only ignorable units or the players just went to war. No other error is raised here except the transport mapping's own. |
| MoveValidator.SeaMoveKeepsTransportsTogether | src/main/java/games/strategy/triplea/delegate/MoveValidator.java:1066-1075 | In a sea-to-sea move, every transport leaving cargo behind is disallowed. |
| MoveValidator.SeaMoveKeepsCargoWithTransport | src/main/java/games/strategy/triplea/delegate/MoveValidator.java:1076-1084 | In a sea-to-sea move, all cargo whose transport stays behind is disallowed. |
| MoveValidator.CanalPass | src/main/java/games/strategy/triplea/delegate/MoveValidator.java:209-216 | The disallowances are unchanged. Outside edit mode, it passes exactly when the canals at every territory of the route let the units through. |
| MoveValidator.BattleZonePass | src/main/java/games/strategy/triplea/delegate/MoveValidator.java:105-129 | The disallowances are unchanged. The error changes exactly when a battle is pending at the start, some unit is not air, and some moved into the end. An unload into an attack is exempt. The new error is "out of battle zone". |
| MoveValidator.ErrorEndsValidation | src/main/java/games/strategy/triplea/delegate/MoveValidator.java:68-102 | Once a check sets an error, no later check runs: the result is the one that check left. |
| MoveValidator.StageRefusalIsFinal | src/main/java/games/strategy/triplea/delegate/MoveValidator.java:68-102 | A check that refuses every move reaching it makes the whole validation refuse. |
| MoveValidator.RefusalReached | src/main/java/games/strategy/triplea/delegate/MoveValidator.java:68-102 | A run whose check at position `k` refuses the verdict that reaches it ends with an error. |
| MoveValidator.ValidateMoveSpec | src/main/java/games/strategy/triplea/delegate/MoveValidator.java:61-131 | A route without steps gives a fresh result with no error. Otherwise every check runs in order until one sets an error. |
| MoveValidator.ValidateMoveRefusals | src/main/java/games/strategy/triplea/delegate/MoveValidator.java:146-153 | For a route with a step: repeated units, no units, units not all at the start, or an invalid route make the move fail. |
| MoveValidator.ValidateMoveRefusesClosedRoute | src/main/java/games/strategy/triplea/delegate/MoveValidator.java:717-726 | Once the route has a step, a route through impassable land outside edit mode is refused, and so is a route over closed neutral land. |
| MoveValidator.FirstStageRefuses | src/main/java/games/strategy/triplea/delegate/MoveValidator.java:146-153 | For such moves, the first check fails whatever verdict it starts from. |
| MoveValidator.BasicStageRefuses | src/main/java/games/strategy/triplea/delegate/MoveValidator.java:717-726 | For such routes, the basic check fails whatever verdict it starts from. |
| MoveValidator.ValidateMovementRestrictedByTerritory | src/main/java/games/strategy/triplea/delegate/MoveValidator.java:479-508 | The result's error becomes the restriction's refusal, if any, and nothing else changes. |
| MoveValidator.AnyOnRoute | src/main/java/games/strategy/triplea/delegate/MoveValidator.java:487-505 | True exactly when some territory of the route is listed, or is unlisted, whichever is asked. |
| MoveValidator.CheckLandOnRoute | src/main/java/games/strategy/triplea/delegate/MoveValidator.java:160-178 | The error becomes `LandGate`'s, if any. |
| MoveValidator.DisallowSubmerged | src/main/java/games/strategy/triplea/delegate/MoveValidator.java:182-186 | One disallowance per submerged unit is appended, in order. |
| MoveValidator.ValidateFirst | src/main/java/games/strategy/triplea/delegate/MoveValidator.java:133-191 | The result object ends as `FirstPass` says. |
| MoveValidator.ValidateNonEnemyUnitsOnPath | src/main/java/games/strategy/triplea/delegate/MoveValidator.java:510-543 | The result object ends as `NonEnemyPass` says, so submarines moving under an enemy destroyer are refused. |
| MoveValidator.ValidateStacking | src/main/java/games/strategy/triplea/delegate/MoveValidator.java:674-716 | The result object ends as `StackingPass` says. |
| MoveValidator.ValidateBasic | src/main/java/games/strategy/triplea/delegate/MoveValidator.java:659-728 | The result object ends as `BasicPass` says. |
| MoveValidator.ValidateRouteOpen | src/main/java/games/strategy/triplea/delegate/MoveValidator.java:717-726 | The result object ends as `BasicTail` says. |
| MoveValidator.KeepTransportsTogether | src/main/java/games/strategy/triplea/delegate/MoveValidator.java:1066-1084 | The loop appends exactly `StickTogether` for the move's units, and the error is unchanged. |
| MoveValidator.ValidateTransport | src/main/java/games/strategy/triplea/delegate/MoveValidator.java:945-1162 | The result object ends as `TransportPass` says. |
| MoveValidator.ValidateCanal | src/main/java/games/strategy/triplea/delegate/MoveValidator.java:209-216 | The result object ends as `CanalPass` says. |
| MoveValidator.ValidateBattleZone | src/main/java/games/strategy/triplea/delegate/MoveValidator.java:105-129 | The result object ends as `BattleZonePass` says. |
| MoveValidator.ValidateStage | src/main/java/games/strategy/triplea/delegate/MoveValidator.java:68-102 | One check moves the result object as that check's function says. |
| MoveValidator.ValidateStep | src/main/java/games/strategy/triplea/delegate/MoveValidator.java:68-102 | One check runs. The rest of the run from this check equals the new result if an error was set, and otherwise the rest of the run from the next check. |
| MoveValidator.ValidateMiddleStages | src/main/java/games/strategy/triplea/delegate/MoveValidator.java:83-102 | The checks from `validateBasic` on, each stopping the run on error. |
| MoveValidator.ValidateLaterStages | src/main/java/games/strategy/triplea/delegate/MoveValidator.java:91-102 | The checks from `validateTransport` on. |
| MoveValidator.ValidateFinalStages | src/main/java/games/strategy/triplea/delegate/MoveValidator.java:98-129 | The checks from `validateCanal` on. |
| MoveValidator.ValidateMove | src/main/java/games/strategy/triplea/delegate/MoveValidator.java:61-131 | The new result object holds exactly `ValidateMoveSpec`'s verdict. |
| MoveValidator.MoveValidationResult.constructor | src/main/java/games/strategy/triplea/delegate/MoveValidator.java:64 | A new result: no error and no disallowances. |
| Carriers.CanCarryIsSubsequence | src/main/java/games/strategy/triplea/delegate/MoveValidator.java:1439-1466 | `CanCarry`: the planes taken are a subsequence of those offered, in order, and each started with the carrier. |
| Carriers.CanCarryWithinCapacity | src/main/java/games/strategy/triplea/delegate/MoveValidator.java:1439-1466 | The planes taken cost no more than the capacity. Before each plane after the first, some capacity is still left. |
| Carriers.CanCarryAppend | src/main/java/games/strategy/triplea/delegate/MoveValidator.java:1446-1463 | Scanning one more plane keeps what the shorter scan took. It adds that plane exactly when the scan had not ended, the plane started with the carrier, and it fits in the capacity left. |
| Carriers.CanCarryPrefix | src/main/java/games/strategy/triplea/delegate/MoveValidator.java:1446-1463 | What the scan takes from a prefix of the planes is a prefix of what it takes from all of them. |
| Carriers.CanCarryGreedy | src/main/java/games/strategy/triplea/delegate/MoveValidator.java:1451-1459 | The scan is greedy. A plane that started with the carrier and fits in the capacity left after the planes before it is taken, right after the planes taken before it. |
| Carriers.CanCarryStopsWhenFull | src/main/java/games/strategy/triplea/delegate/MoveValidator.java:1461-1462 | Once the planes taken from a prefix fill the capacity exactly, nothing later is taken, not even a plane that costs nothing. |
| Carriers.ScanEndedLeavesNothing | src/main/java/games/strategy/triplea/delegate/MoveValidator.java:1461-1462 | When the scan has stopped, the planes taken use the whole capacity. |
| Carriers.FullCarrierEndsScan | src/main/java/games/strategy/triplea/delegate/MoveValidator.java:1461-1462 | When the planes taken use the whole capacity, the scan has stopped. |
| Carriers.ScanEndedStaysEnded | src/main/java/games/strategy/triplea/delegate/MoveValidator.java:1461-1463 | A stopped scan stays stopped and takes nothing from any further planes. |
| Carriers.GetCanCarry | src/main/java/games/strategy/triplea/delegate/MoveValidator.java:1439-1466 | The loop returns `CanCarry` at the carrier's full capacity. The scan lemmas `CanCarryGreedy`, `CanCarryStopsWhenFull`, `CanCarryWithinCapacity` and `CanCarryIsSubsequence` therefore hold of its result. |
| Carriers.LeftOverIsDrawnFrom | src/main/java/games/strategy/triplea/delegate/MoveValidator.java:1416-1421 | `LeftOver`: every plane left over after the allied carriers take theirs is one of the planes there were. |
| Carriers.LeftOverOfNone | src/main/java/games/strategy/triplea/delegate/MoveValidator.java:1416-1421 | With no planes to place, none is left over. |
| Carriers.RemoveCarriedByAllies | src/main/java/games/strategy/triplea/delegate/MoveValidator.java:1416-1421 | The first loop returns `LeftOver`: each allied carrier in turn removes what it can carry. |
| Carriers.AssignShape | src/main/java/games/strategy/triplea/delegate/MoveValidator.java:1429-1435 | `Assign`: every carrier offered becomes a key. Only planes that were there are placed, none on two carriers, and no carrier goes over its capacity. |
| Carriers.AssignStep | src/main/java/games/strategy/triplea/delegate/MoveValidator.java:1430-1434 | One more carrier taking what it can keeps the invariant: unplaced planes are not yet placed, and the placement is within capacity. |
| Carriers.AssignToOwnedCarriers | src/main/java/games/strategy/triplea/delegate/MoveValidator.java:1429-1435 | The second loop returns `Assign`, whose shape `AssignShape` states. |
| Carriers.CarrierMustMoveWith | src/main/java/games/strategy/triplea/delegate/MoveValidator.java:1398-1437 | Empty when no allied plane is left for the mover's carriers. Otherwise every carrier the mover owns among the units gets a key. Only the leftover planes are placed, none twice, and within each carrier's capacity. |
| Carriers.AddToMapping | src/main/java/games/strategy/triplea/delegate/MoveValidator.java:1348-1359 | The keys of either map. A holder in both keeps its old units with the new ones appended; the others keep theirs. |
| BattleRules.ReturnFireAgainstAttackingSubs | src/main/java/games/strategy/triplea/delegate/MustFightBattle.java:1140-1152 | ALL exactly when the defenders have a destroyer. NONE exactly when they have none, the rules are not WW2V2, and the attacker has a destroyer or defending subs do not sneak attack. Otherwise SUBS. |
| BattleRules.ReturnFireAgainstDefendingSubs | src/main/java/games/strategy/triplea/delegate/MustFightBattle.java:1154-1172 | ALL exactly when the attackers have a destroyer or defending subs do not sneak attack. NONE exactly when the attackers have none, defending subs sneak attack, the rules are not WW2V2 and the defenders have a destroyer. Otherwise SUBS. |
| BattleRules.DefenderSubsFireFirst | src/main/java/games/strategy/triplea/delegate/MustFightBattle.java:675-677 | True exactly when the defenders have a destroyer, the attackers have none, defending subs sneak attack, and the rules are not WW2V2. |
| BattleRules.NeverBothUnanswered | src/main/java/games/strategy/triplea/delegate/MustFightBattle.java:1140-1180 | The two return fires are never both NONE. |
| BattleRules.CanAirAttackSubs | src/main/java/games/strategy/triplea/delegate/MustFightBattle.java:1880-1883 | False only at sea, against units including a sub, with no destroyer among the firing units. |
| BattleRules.MaxRoundsStaysReached | src/main/java/games/strategy/triplea/delegate/MustFightBattle.java:137-139 | Once the round limit is reached, it stays reached in every later round. A limit of 0 or less never ends a battle. |
| BattleRules.EndOfRound | src/main/java/games/strategy/triplea/delegate/MustFightBattle.java:835-888 | Transports are re-added exactly under restricted transport casualties in round 1 with allied transports at the site and no attacker left. The defender wins exactly when no attacker is left otherwise. The attacker wins exactly when attackers remain and no defender does. A draw comes exactly when both sides remain and either the round limit is reached or neither side has any attack or defence strength (`NobodyCanHit`). Otherwise the battle goes on. |
| BattleRules.CompareAccordingToAmphibious | src/main/java/games/strategy/triplea/delegate/MustFightBattle.java:2714-2723 | A unit that landed from the sea comes before one that did not. Between two that both did or both did not, the larger marine bonus comes first, and an equal bonus compares as 0. |
| BattleRules.CompareIsAntisymmetric | src/main/java/games/strategy/triplea/delegate/MustFightBattle.java:2714-2723 | Swapping the two units reverses the sign of the comparison. |
| BattleRules.CompareIsTransitive | src/main/java/games/strategy/triplea/delegate/MustFightBattle.java:2714-2723 | "Comes first" is transitive, so a sort by it is well defined. |
| BattleState.OwnedUnits | src/main/java/games/strategy/triplea/delegate/MustFightBattle.java:861-864 | A unit is listed exactly when it is in the list and owned by the player. |
| BattleState.Intersection | src/main/java/games/strategy/triplea/delegate/MustFightBattle.java:2736 | A unit is listed exactly when it is in both lists. |
| BattleState.RemoveSet | src/main/java/games/strategy/triplea/delegate/MustFightBattle.java:226-228 | Drawn from the first list, none from the set, and no longer than the first list. Taking out the empty set gives the list back unchanged. |
| BattleState.RemoveSetMembership | src/main/java/games/strategy/triplea/delegate/MustFightBattle.java:226-228 | A unit remains exactly when it is in the list and not in the set. |
| BattleState.RemoveFirst | src/main/java/games/strategy/triplea/delegate/MustFightBattle.java:169-170 | Unchanged when the name is absent. Otherwise one occurrence is dropped and the rest is kept. |
| BattleState.UnionMembership | src/main/java/games/strategy/triplea/delegate/MustFightBattle.java:2401-2428 | Adding to an insertion-ordered set loses nothing, invents nothing and lists nothing twice. |
| BattleState.DependentsOfMembership | src/main/java/games/strategy/triplea/delegate/MustFightBattle.java:2405-2406 | A unit is a dependent of the units exactly when some of them holds it. |
| BattleState.MergeDependents | src/main/java/games/strategy/triplea/delegate/MustFightBattle.java:280-289 | The keys of either map. `MergeDependentsMembership` gives each holder's units. |
| BattleState.MergeDependentsMembership | src/main/java/games/strategy/triplea/delegate/MustFightBattle.java:280-289 | A unit depends on a holder afterwards exactly when it did before or was just added. |
| BattleState.StripDependents | src/main/java/games/strategy/triplea/delegate/MustFightBattle.java:174-180 | The same holders, each without any of the units. |
| BattleState.Remove | src/main/java/games/strategy/triplea/delegate/MustFightBattle.java:2401-2428 | An empty list changes nothing. Only the killed, attacking and defending lists change. The units join the killed list and leave the defending side, the attacking side, or both when `defenderDying` is null. |
| BattleState.RemoveTakesDependents | src/main/java/games/strategy/triplea/delegate/MustFightBattle.java:2405-2427 | The units that depend on a removed unit die with it. |
| BattleState.RemoveCasualties | src/main/java/games/strategy/triplea/delegate/MustFightBattle.java:1969-1998 | An empty list of casualties changes nothing. The two lemmas below state the rest. |
| BattleState.RemoveCasualtiesLeavesSide | src/main/java/games/strategy/triplea/delegate/MustFightBattle.java:1969-1998 | Casualties leave their side. The other side, its waiting list and both retreated lists are untouched. |
| BattleState.RemoveCasualtiesWaitingToDie | src/main/java/games/strategy/triplea/delegate/MustFightBattle.java:1973-1997 | With ALL every casualty waits to die and none is killed yet. With SUBS the subs wait and the others are killed. With NONE all are killed and the waiting list is unchanged. |
| BattleState.ClearWaitingToDie | src/main/java/games/strategy/triplea/delegate/MustFightBattle.java:2452-2459 | Both waiting lists become empty. Every unit that waited is killed and on neither side. Nothing else changes. |
| BattleState.EndBattle | src/main/java/games/strategy/triplea/delegate/MustFightBattle.java:2663-2679 | The battle is over and both waiting lists are empty. The winner, the round and the retreated lists are unchanged. |
| BattleState.Conclude | src/main/java/games/strategy/triplea/delegate/MustFightBattle.java:2461-2570 | The battle is over with the given winner. |
| BattleState.ConcedeShrinks | src/main/java/games/strategy/triplea/delegate/MustFightBattle.java:1630-1650 | Conceding only takes units off a side. |
| BattleState.Concede | src/main/java/games/strategy/triplea/delegate/MustFightBattle.java:1643-1652 | Conceding ends the battle. The side that did not concede wins, and nobody is left waiting to die. |
| BattleState.RetreatCandidatesMembership | src/main/java/games/strategy/triplea/delegate/MustFightBattle.java:1392-1404 | A unit is offered for retreat exactly when it is on the retreating side. For the attacker this includes any of its own units at the site. A subs retreat offers only subs, a planes retreat only air units, and a partial amphibious retreat only units that did not land from sea. |
| BattleState.ConcedeKeepsRetreated | src/main/java/games/strategy/triplea/delegate/MustFightBattle.java:1630-1650 | Conceding leaves the retreated lists alone. |
| BattleState.EndOfRoundStepOutcome | src/main/java/games/strategy/triplea/delegate/MustFightBattle.java:835-888 | `EndOfRoundStep`: afterwards the battle is over exactly when it already was or the round decided it. The winner is the decided one. A round that goes on keeps the winner and the round. |
| BattleState.RemoveAttack | src/main/java/games/strategy/triplea/delegate/MustFightBattle.java:146-181 | The units stop attacking. Without a route nothing else changes. The set of territories attacked from can only shrink. |
| BattleState.LeaveEntry | src/main/java/games/strategy/triplea/delegate/MustFightBattle.java:150-172 | The attacking list and the dependents are unchanged. The territories attacked from can only shrink, and the roster keeps its keys. |
| BattleState.RemoveAttackEntry | src/main/java/games/strategy/triplea/delegate/MustFightBattle.java:146-181 | The roster stays consistent. The removed units leave the entry of the territory they came from, which stays attacked from exactly when units are left in it. No removed unit stays a dependent. |
| BattleState.CarriedAircraft | src/main/java/games/strategy/triplea/delegate/MustFightBattle.java:218-228 | The same holders as the dependents map. |
| BattleState.AddAttackRoster | src/main/java/games/strategy/triplea/delegate/MustFightBattle.java:189-278 | `AddAttack`: the roster stays consistent. The territory the attack comes from is attacked from, and its entry ends with the joining units. Every joining unit attacks, except fighters on carriers when allied air is not independent. An assault from the sea makes the battle amphibious. |
| BattleState.RemoveAttackUndoesAddAttack | src/main/java/games/strategy/triplea/delegate/MustFightBattle.java:146-278 | Taking back an attack just added restores the attacking list. This holds when none of its units attacked before and any carried fighters are among them. |
| BattleState.AttackChanges | src/main/java/games/strategy/triplea/delegate/MustFightBattle.java:240-277 | A no-movement change exactly when the path does not hold only ignored units. It covers exactly the joining units that must halt. Each carried-by pair is a plane on a carrier or, where air transport applies, a paratrooper. |
| BattleState.AttackerRetreatTerritories | src/main/java/games/strategy/triplea/delegate/MustFightBattle.java:1201-1256 | Only the battle site when all attackers are air, units stay in place, or no display is attached. Otherwise territories attacked from, never the site, each without units that prevent a retreat. |
| BattleState.EmptyOrFriendlySeaNeighbors | src/main/java/games/strategy/triplea/delegate/MustFightBattle.java:1355-1374 | With a display attached, only sea zones whose canals are not blocked. |
| BattleState.DestroyersPinSubmarines | src/main/java/games/strategy/triplea/delegate/MustFightBattle.java:1277-1334 | `CanAttackerRetreatSubs` and `CanDefenderRetreatSubs`: neither side may withdraw its subs while the other side has a destroyer, even one waiting to die. |
| BattleState.NotMyAir | src/main/java/games/strategy/triplea/delegate/MustFightBattle.java:1615-1617 | A unit is listed exactly when it is in the list and is not one of the attacker's own aircraft. |
| BattleState.WithdrawMoves | src/main/java/games/strategy/triplea/delegate/MustFightBattle.java:1639-1650 | Withdrawn units leave their side for its retreated list, which only grows. A battle that was over stays over, and one that is not over has units left on that side. |
| BattleState.RetreatUnitsMoves | src/main/java/games/strategy/triplea/delegate/MustFightBattle.java:1612-1653 | A retreating unit that is not the attacker's own aircraft leaves its side and is listed as retreated. |
| BattleState.SubmergeUnits | src/main/java/games/strategy/triplea/delegate/MustFightBattle.java:1595-1610 | The subs leave their side for its retreated list. Whether the battle is over, and who won, is unchanged. |
| BattleState.RetreatPlanesDropsThem | src/main/java/games/strategy/triplea/delegate/MustFightBattle.java:1573-1593 | Retreated planes are on neither their side nor its retreated list. |
| BattleState.RetreatUnitsAndPlanes | src/main/java/games/strategy/triplea/delegate/MustFightBattle.java:1655-1694 | Unless the battle ended, no aircraft is left on the side. |
| BattleState.RetreatOffer | src/main/java/games/strategy/triplea/delegate/MustFightBattle.java:1376-1450 | Planes are offered only the battle site. The site is offered wherever defending subs may choose to submerge. |
| BattleState.QueryRetreatIgnores | src/main/java/games/strategy/triplea/delegate/MustFightBattle.java:1445-1457 | No answer, or a non-sub answer outside the offer, changes nothing. |
| BattleState.AttackerFullRetreatEndsBattle | src/main/java/games/strategy/triplea/delegate/MustFightBattle.java:1490-1505 | A full attacker retreat to an offered territory ends the battle with the defender winning. Each retreating unit that is not the attacker's own aircraft leaves the fight and is listed as retreated. |
| BattleState.SubmarinesSubmerge | src/main/java/games/strategy/triplea/delegate/MustFightBattle.java:1458-1470 | Subs told to stay at the battle site submerge: they leave their side for its retreated list, and whether the battle is over is unchanged. |
| BattleState.AttackerRetreatSubsStep | src/main/java/games/strategy/triplea/delegate/MustFightBattle.java:889-899 | Changes nothing when the battle is over, the subs may not withdraw, subs retreat before the battle, or the attacker has no sub. |
| BattleState.DefenderRetreatSubsStep | src/main/java/games/strategy/triplea/delegate/MustFightBattle.java:900-920 | A battle already over is left alone. A battle with no defender left afterwards is won by the attacker. |
| BattleState.AttackerRetreatPlanesStep | src/main/java/games/strategy/triplea/delegate/MustFightBattle.java:921-931 | Changes nothing when the battle is over, planes may not retreat, or a partial amphibious retreat is offered instead. |
| BattleState.AttackerRetreatNonAmphibStep | src/main/java/games/strategy/triplea/delegate/MustFightBattle.java:932-942 | Changes nothing when the battle is over or no partial amphibious retreat is possible. |
| BattleState.AttackerRetreatStep | src/main/java/games/strategy/triplea/delegate/MustFightBattle.java:943-953 | Changes nothing when the battle is over or the attacker may not retreat (`CanAttackerRetreat`). |
| BattleState.AttackerRetreatStepEnds | src/main/java/games/strategy/triplea/delegate/MustFightBattle.java:943-953 | When the attacker may retreat and picks an offered territory, the battle ends with the defender winning. Each retreating unit that is not the attacker's own aircraft stops attacking. |
| BattleState.CheckSuicideUnits | src/main/java/games/strategy/triplea/delegate/MustFightBattle.java:1711-1724 | No attacking suicide unit is left. Defending suicide units are removed too, unless suicide units do not fire on defence; then the defenders are unchanged. |
| BattleState.SubmergeSubsVsOnlyAir | src/main/java/games/strategy/triplea/delegate/MustFightBattle.java:1817-1833 | Against attackers that are all aircraft, the defender's subs submerge. Otherwise, against defenders that are all aircraft, the attacker's subs do. Whether the battle is over is unchanged. |
| BattleState.UnitsLostInPrecedingBattle | src/main/java/games/strategy/triplea/delegate/MustFightBattle.java:2733-2764 | The lost units stop attacking, and whether the battle is over is unchanged. An emptied attack is won by the defender; otherwise the winner is unchanged. |
| BattleSteps.AaSteps | src/main/java/games/strategy/triplea/delegate/MustFightBattle.java:488-500 | Three steps per anti-aircraft type, each a fire, select-casualties or remove-casualties step. |
| BattleSteps.When | src/main/java/games/strategy/triplea/delegate/MustFightBattle.java:502-525 | The steps when the condition holds, and nothing otherwise: never a step that was not given. |
| BattleSteps.ViewOfConsistent | src/main/java/games/strategy/triplea/delegate/MustFightBattle.java:486-673 | `ViewOf`, the conditions `determineStepStrings` reads from a battle, are consistent with each other, as the step list needs. |
| BattleSteps.OpeningSteps | src/main/java/games/strategy/triplea/delegate/MustFightBattle.java:488-542 | No removal of casualties, no withdrawal and no subs' fire. |
| BattleSteps.AaFireSteps | src/main/java/games/strategy/triplea/delegate/MustFightBattle.java:488-500 | Only anti-aircraft fire, select and remove steps. |
| BattleSteps.FirstRunSteps | src/main/java/games/strategy/triplea/delegate/MustFightBattle.java:502-525 | No removal of casualties, no withdrawal and no subs' fire. |
| BattleSteps.PreBattleSteps | src/main/java/games/strategy/triplea/delegate/MustFightBattle.java:526-542 | No removal of casualties, no withdrawal and no subs' fire. |
| BattleSteps.DefenderFirstStrike | src/main/java/games/strategy/triplea/delegate/MustFightBattle.java:544-551 | Only subs' fire, selection of sub casualties and removal of sneak-attack casualties. |
| BattleSteps.AttackerSneakAttack | src/main/java/games/strategy/triplea/delegate/MustFightBattle.java:553-563 | Only subs' fire, selection of sub casualties and removal of sneak-attack casualties. |
| BattleSteps.DefenderSneakAttack | src/main/java/games/strategy/triplea/delegate/MustFightBattle.java:567-576 | Only subs' fire and selection of sub casualties. |
| BattleSteps.SneakCasualties | src/main/java/games/strategy/triplea/delegate/MustFightBattle.java:577-580 | Only the removal of sneak-attack casualties. |
| BattleSteps.SneakAttackSteps | src/main/java/games/strategy/triplea/delegate/MustFightBattle.java:544-580 | Only subs' fire, selection of sub casualties and removal of sneak-attack casualties. |
| BattleSteps.FireSteps | src/main/java/games/strategy/triplea/delegate/MustFightBattle.java:581-633 | No removal of casualties, no withdrawal, no submerging, and no fire by the attacker's subs. |
| BattleSteps.AttackerFireSteps | src/main/java/games/strategy/triplea/delegate/MustFightBattle.java:581-605 | No removal of casualties, no withdrawal, no submerging and no subs' fire. |
| BattleSteps.DefenderSubsWithAll | src/main/java/games/strategy/triplea/delegate/MustFightBattle.java:608-617 | At most the defender's subs firing and the attacker selecting sub casualties. |
| BattleSteps.DefenderFireSteps | src/main/java/games/strategy/triplea/delegate/MustFightBattle.java:608-633 | No removal of casualties, no withdrawal, no submerging, and no fire by the attacker's subs. |
| BattleSteps.DefenderGeneralFire | src/main/java/games/strategy/triplea/delegate/MustFightBattle.java:618-633 | Only defending aircraft against non-subs, general fire and casualty selection. |
| BattleSteps.SubsRetreatSteps | src/main/java/games/strategy/triplea/delegate/MustFightBattle.java:636-659 | Only submerge or withdraw steps. |
| BattleSteps.RetreatSteps | src/main/java/games/strategy/triplea/delegate/MustFightBattle.java:636-672 | Every step offers a retreat. The attacker's withdrawal is listed exactly when the attacker may withdraw, and if listed it is last. |
| BattleSteps.BeforeCasualties | src/main/java/games/strategy/triplea/delegate/MustFightBattle.java:486-633 | No step before the removal of casualties removes casualties or withdraws the attacker. |
| BattleSteps.CasualtiesThenRetreats | src/main/java/games/strategy/triplea/delegate/MustFightBattle.java:634-672 | Steps without removal or withdrawal, then the removal, then retreat steps with any withdrawal last. Together these mean casualties are removed once and everything after offers a retreat. |
| BattleSteps.StepListShape | src/main/java/games/strategy/triplea/delegate/MustFightBattle.java:486-673 | The casualties of a round are removed exactly once, and every later step offers a retreat. The attacker's withdrawal is last, and is shown exactly when the attacker may retreat in some way. |
| BattleSteps.StepNamesShape | src/main/java/games/strategy/triplea/delegate/MustFightBattle.java:486-673 | `StepNames`, the step list built from any view of a battle: casualties are removed exactly once, every later step offers a retreat, and the attacker's withdrawal is last and shown exactly when the view says the attacker may withdraw. |
| BattleSteps.StepNamesSubsFire | src/main/java/games/strategy/triplea/delegate/MustFightBattle.java:544-617 | A subs' fire step appears only in the sneak attacks and in the general fire. |
| BattleSteps.SneakDefenderFire | src/main/java/games/strategy/triplea/delegate/MustFightBattle.java:544-580 | The defender's subs fire in the sneak attacks once if they fire first, and once at sea if they sneak attack on their own. |
| BattleSteps.FireDefenderFire | src/main/java/games/strategy/triplea/delegate/MustFightBattle.java:608-617 | The defender's subs fire with the other defenders, at sea, exactly when they neither fire first nor sneak attack. |
| BattleSteps.SneakAttackerFire | src/main/java/games/strategy/triplea/delegate/MustFightBattle.java:553-563 | The attacker's subs fire in the sneak attacks exactly once at sea when the attacker has a sub, and otherwise not at all. |
| BattleSteps.DefenderSubsFireOnce | src/main/java/games/strategy/triplea/delegate/MustFightBattle.java:544-617 | The defender's subs are shown firing at most once a round. At sea, when the defender has a sub, they are shown exactly once. |
| BattleSteps.StepNamesDefenderSubsFire | src/main/java/games/strategy/triplea/delegate/MustFightBattle.java:544-617 | The same, for any consistent view. |
| BattleSteps.AttackerSubsFireOnce | src/main/java/games/strategy/triplea/delegate/MustFightBattle.java:553-563 | The attacker's subs are shown firing at most once a round, and exactly once at sea when the attacker has a sub. |
| BattleSteps.StepNamesAttackerSubsFire | src/main/java/games/strategy/triplea/delegate/MustFightBattle.java:553-563 | The same, for any view. |
| BattleSteps.FireOpening | src/main/java/games/strategy/triplea/delegate/MustFightBattle.java:991-1040 | No sub fires in the opening executables. |
| BattleSteps.GeneralFire | src/main/java/games/strategy/triplea/delegate/MustFightBattle.java:1080-1138 | Only the side's aircraft fire against non-subs and its other units' fire. |
| BattleSteps.DefendSubsOnce | src/main/java/games/strategy/triplea/delegate/MustFightBattle.java:991-1138 | The defender's subs fire exactly once a round, whatever the return fire. |
| BattleSteps.FireOrderDefendSubsOnce | src/main/java/games/strategy/triplea/delegate/MustFightBattle.java:991-1138 | `FireOrder`, the fire of one round: the defender's subs fire exactly once, for any return fire and order of fire. |
| BattleSteps.AttackSubsOnce | src/main/java/games/strategy/triplea/delegate/MustFightBattle.java:991-1138 | The attacker's subs fire exactly once a round. |
| BattleSteps.FireOrderAttackSubsOnce | src/main/java/games/strategy/triplea/delegate/MustFightBattle.java:991-1138 | `FireOrder`: the attacker's subs fire exactly once, for any return fire and order of fire. |
| BattleSteps.FightStart | src/main/java/games/strategy/triplea/delegate/MustFightBattle.java:679-772 | Each side's anti-aircraft fire is queued exactly when that side can fire it. The removal of the killed follows exactly when either side can. Non-combatants are removed exactly after round 1 or in the first run. Bombardment, paratroopers and spent movement are queued exactly in the first run. |
| BattleSteps.AaFireExecs | src/main/java/games/strategy/triplea/delegate/MustFightBattle.java:680-711 | Each side's anti-aircraft fire is queued exactly when it can fire. The removal of the killed follows exactly when either side fires. Nothing else is queued. |
| BattleSteps.OpeningEvents | src/main/java/games/strategy/triplea/delegate/MustFightBattle.java:722-771 | Bombardment, the removal of non-combatants, paratroopers and spent movement are queued exactly in the first run. No anti-aircraft fire is queued. |
| BattleSteps.FightStartHasNoFire | src/main/java/games/strategy/triplea/delegate/MustFightBattle.java:679-772 | The start of a round queues no subs' fire, no end-of-round check and no loop step. |
| BattleSteps.RoundSubsFireOnce | src/main/java/games/strategy/triplea/delegate/MustFightBattle.java:787-809 | Among all the executables of one round, the defender's subs fire exactly once and the attacker's subs fire exactly once. This holds with or without anti-aircraft fire, in any round and on the first run or not. |
| BattleSteps.RoundEndsWithRetreats | src/main/java/games/strategy/triplea/delegate/MustFightBattle.java:835-988 | `RoundEnd`: every round of `BattleExecutables` ends with the same nine executables, namely the end-of-round check, the retreat offers and the step that starts the next round. |
| BattleSteps.PushRound | src/main/java/games/strategy/triplea/delegate/MustFightBattle.java:774-785 | Nothing is pushed once the battle is over. Otherwise the stack runs the round's steps in order, then what was on it before. |
| BattleSteps.LoopStepAtBase | src/main/java/games/strategy/triplea/delegate/MustFightBattle.java:954-988 | A round pushed on an empty stack leaves the step that starts the next round at the bottom, so it runs last. |
| Battle.InitialState | src/main/java/games/strategy/triplea/delegate/MustFightBattle.java:94-106 | The defenders are exactly the site's units that are the attacker's enemies. No attacker, casualty, roster or dependents. The battle is not over, nobody has won, and the round is 1. |
| Battle.MaxRounds | src/main/java/games/strategy/triplea/delegate/MustFightBattle.java:98-102 | The sea setting at sea, the land setting on land. |
| Battle.NextRound | src/main/java/games/strategy/triplea/delegate/MustFightBattle.java:969-980 | Only the round and the step list change, and the round goes up by one. |
| Battle.NextRoundSteps | src/main/java/games/strategy/triplea/delegate/MustFightBattle.java:969-980 | The next round's step list removes casualties once, then only offers retreats. The attacker's withdrawal is last, and is listed exactly when the attacker may withdraw. |
| Battle.AttackerWithdrawShownIgnoresSteps | src/main/java/games/strategy/triplea/delegate/MustFightBattle.java:669-670 | Whether the attacker's withdrawal is offered depends on the units and options, never on the step names already listed. |
| Battle.MustFightBattle.constructor | src/main/java/games/strategy/triplea/delegate/MustFightBattle.java:94-106 | The battle holds `InitialState`, with an empty stack and the round limit of its site. |
| Battle.MustFightBattle.Remove | src/main/java/games/strategy/triplea/delegate/MustFightBattle.java:2401-2428 | The state becomes `BattleState.Remove`. The units returned are the lost units followed by their dependents, or none for an empty list. |
| Battle.MustFightBattle.RemoveCasualties | src/main/java/games/strategy/triplea/delegate/MustFightBattle.java:1969-1998 | The state becomes `BattleState.RemoveCasualties`. |
| Battle.MustFightBattle.ClearWaitingToDie | src/main/java/games/strategy/triplea/delegate/MustFightBattle.java:2452-2459 | The state becomes `BattleState.ClearWaitingToDie`. |
| Battle.MustFightBattle.EndBattle | src/main/java/games/strategy/triplea/delegate/MustFightBattle.java:2663-2679 | The state becomes `BattleState.EndBattle`. |
| Battle.MustFightBattle.DefenderWins | src/main/java/games/strategy/triplea/delegate/MustFightBattle.java:2461-2496 | Only the winner changes, to the defender. |
| Battle.MustFightBattle.AttackerWins | src/main/java/games/strategy/triplea/delegate/MustFightBattle.java:2513-2570 | Only the winner changes, to the attacker. |
| Battle.MustFightBattle.NobodyWins | src/main/java/games/strategy/triplea/delegate/MustFightBattle.java:2498-2511 | Only the winner changes, to a draw. |
| Battle.MustFightBattle.CheckEnd | src/main/java/games/strategy/triplea/delegate/MustFightBattle.java:835-888 | The state becomes `EndOfRoundStep`. |
| Battle.MustFightBattle.RemoveAttack | src/main/java/games/strategy/triplea/delegate/MustFightBattle.java:146-181 | The state becomes `BattleState.RemoveAttack`. |
| Battle.MustFightBattle.LeaveEntry | src/main/java/games/strategy/triplea/delegate/MustFightBattle.java:150-172 | The state becomes `BattleState.LeaveEntry`. |
| Battle.MustFightBattle.StripDependentUnits | src/main/java/games/strategy/triplea/delegate/MustFightBattle.java:174-180 | The dependents become `StripDependents` of the old ones, and nothing else changes. |
| Battle.MustFightBattle.AddDependentUnits | src/main/java/games/strategy/triplea/delegate/MustFightBattle.java:280-289 | The dependents become `MergeDependents` of the old ones. Nothing else changes. |
| Battle.MustFightBattle.AddAttackChange | src/main/java/games/strategy/triplea/delegate/MustFightBattle.java:189-278 | The state becomes `AddAttack`, and the change returned is `AttackChanges`. |
| Battle.MustFightBattle.JoinAttack | src/main/java/games/strategy/triplea/delegate/MustFightBattle.java:189-236 | The state becomes `BattleState.JoinAttack`: the attack joins every field but the dependents. |
| Battle.MustFightBattle.Withdraw | src/main/java/games/strategy/triplea/delegate/MustFightBattle.java:1639-1650 | The state becomes `BattleState.Withdraw`. |
| Battle.MustFightBattle.RetreatUnits | src/main/java/games/strategy/triplea/delegate/MustFightBattle.java:1612-1653 | The state becomes `BattleState.RetreatUnits`. |
| Battle.MustFightBattle.RetreatUnitsAndPlanes | src/main/java/games/strategy/triplea/delegate/MustFightBattle.java:1655-1694 | The state becomes `BattleState.RetreatUnitsAndPlanes`. |
| Battle.MustFightBattle.RetreatPlanes | src/main/java/games/strategy/triplea/delegate/MustFightBattle.java:1573-1593 | The state becomes `BattleState.RetreatPlanes`. |
| Battle.MustFightBattle.SubmergeUnits | src/main/java/games/strategy/triplea/delegate/MustFightBattle.java:1595-1610 | The state becomes `BattleState.SubmergeUnits`. |
| Battle.MustFightBattle.QueryRetreat | src/main/java/games/strategy/triplea/delegate/MustFightBattle.java:1376-1512 | The state becomes `BattleState.QueryRetreat` for the given answer. |
| Battle.MustFightBattle.UnitsLostInPrecedingBattle | src/main/java/games/strategy/triplea/delegate/MustFightBattle.java:2733-2764 | The state becomes `BattleState.UnitsLostInPrecedingBattle`. |
| Battle.MustFightBattle.PushFightLoopOnStack | src/main/java/games/strategy/triplea/delegate/MustFightBattle.java:774-785 | The stack becomes `PushRound` of the old stack with this round's executables. The battle state is unchanged. |
| Battle.MustFightBattle.PushAll | src/main/java/games/strategy/triplea/delegate/MustFightBattle.java:782-784 | The steps are pushed in order, the last on top. The battle state is unchanged. |
| Battle.MustFightBattle.BeginNextRound | src/main/java/games/strategy/triplea/delegate/MustFightBattle.java:969-980 | The state becomes `NextRound`. |
| Battle.MustFightBattle.LoopStep | src/main/java/games/strategy/triplea/delegate/MustFightBattle.java:968-986 | A battle that is over is unchanged. Otherwise the round goes up by one and the steps are listed again. A non-empty stack throws; an empty one gets just the loop step. |

## Left out

- Display, sound, the history writer and the changes sent to the game (`bridge.addChange`) are side effects. The model records the change an attack hands back (`AttackChanges`) and nothing more.
- Dice and `FireAA` are random, and casualty selection is in `BattleCalculator`; the model takes the casualties as given. TUV costs and the "click to continue" waiter thread are also left out.
- `TransportTracker`, `BattleTracker`, `TechTracker`, `GameMap`, the relationship tracker and the canal attachments are not part of this model. Their answers are parameters: the `Setting`, `World`, `AttackFacts`, `StepFacts` and `MoveFacts` records, and the current technologies.
- `AbstractBattle` is not part of this model. The round starts at 1, and the attacker, defender and site are fixed parameters.
- `setUnits`, `resetDefendingUnits`, `setAttackingFromAndMap` and the plain getters of `MustFightBattle` are left out. They only assign or read fields.
- `checkUndefendedTransports`, `checkForUnitsThatCanRollLeft`, the bombardment, paratrooper and marine steps, and the step display text are left out. Steps are named by a side and a kind, not a string.
- `getDependentUnits` asks `TransportTracker`. The model reads dependents from the battle's own map.
- Battle.MustFightBattle.LoopStep: the stack check and push come before the round update, while the source increments the round first. Both orders end in the same state, and the model states only that final state.
- Battle.MustFightBattle.AddDependentUnits: the merged map is built in a local variable and stored once. The source updates the field's lists in place, and the model does not capture that aliasing.
- BattleState.AttackerRetreatStep: the partial amphibious branch of the attacker's retreat step is never taken. A battle the attacker may retreat from is not amphibious, so the model omits that branch.
- BattleState.RetreatPlanes is modelled as written. The planes are taken off the retreated list, where the other retreats add them.
- `MoveValidationResult.java` is not part of this model. Its `setError`, `addDisallowedUnit` and `setErrorReturnResult` are given the behaviour their names and uses imply.
- `validateCombat`, `validateNonCombat`, `AirMovementValidator.validateAirCanLand`, `validateParatroops`, `validateFuel`, the per-transport unload checks and the later load checks are left out. Their outcomes are parameters of the move (`PassOutcome`).
- The route search of `getBestRoute`, and the `TransportUtils` and `PlayerAttachment` stacking internals, are left out. The stacking limits per step are parameters.
- `getMustMoveWith`, `mustMoveWith`, `transportsMustMoveWith`, `airTransportsMustMoveWith`, `isLoad`, `getDependents` and `hasConqueredNonBlitzedNonWaterOnRoute` only gather data through the trackers, and are left out.
- MoveValidator.BasicPass: the checks of `validateBasic` before its end-at-water test (MoveValidator.java:548-657) are not modelled. Their outcome is the unconstrained parameter `basicPrefix`. They are:
  - "Transports not found in route end" (550-553);
  - "Can only move friendly units" (556-558);
  - "Can only move own troops", with its allied-carrier exception (567-573);
  - the "Not all units have enough movement" loop, with its air-transport, mechanized-infantry and allied-carrier allowances (575-645);
  - "Must stop land units when passing through neutral territories" (647-651);
  - the territory-effects refusal (653-657).
  The model promises nothing about which moves these checks refuse. The read lock taken around the movement check is part of that loop.
- MoveValidator.ValidateBasic: applies the same `basicPrefix` parameter, so it leaves out the same checks.
- `getRepairDiscount` works in floating point and is left out; its setter and range check are modelled.
- `setDefaultTechnologyAttachments` fills a table of XML defaults, and is left out.
- `getInt` and `getBool` are defined outside this class. `getInt` is modelled as `Integer.parseInt`, and `setAirborneForces` takes the value already read as a boolean.
- `clear*` empties a map in place, while `reset*` assigns a new one. They differ only in aliasing, and both are modelled as storing an empty map.
- Java `int` overflow in the sums of bonuses and capacities is not modelled: the sums are unbounded integers.
- JavaText.ParseInt: accepts the ASCII digits 0-9 only. Java's `Integer.parseInt` also accepts other Unicode decimal digits, such as Arabic-Indic or full-width digits, which the model rejects as a format error.
- BattleState.Remove: `removeFromNonCombatLandings` and `removeFromDependents` are not modelled. Both need `TransportTracker` or `BattleTracker` answers that no parameter carries. So when a sunk transport had unloaded cargo into allied land this turn, that cargo and its dependents do not join the killed list or leave the attacking list. The "not unloaded?" exception for a transport with no unload territory is not raised, and other battles blocked by this one are not told about the losses.
- Battle.MustFightBattle.Remove: the state becomes `BattleState.Remove`, so it lacks the same two steps.
