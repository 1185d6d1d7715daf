/**
 * The game state and its reducer (src/App.tsx, `gameReducer` and `meetsUpgradeRequirement`):
 * a pure `(state, action) -> state` function. Invalid purchases are rejected silently by
 * returning the state unchanged. `Date.now()` is the parameter `now`.
 */
module Game {
  import opened Wrappers
  import opened Buildings
  import Upgrades

  /** The whole saved game: currencies, owned buildings and upgrades, click counter, prestige points. */
  datatype GameState = GameState(
    coins: real,
    sparks: real,
    buildings: seq<Building>,
    upgrades: seq<string>,
    totalClicks: real,
    prestige: real,
    lastSavedAt: int)

  /** The reducer's actions; `Unrecognized` stands for any other action type, which the reducer ignores. */
  datatype Action =
    | AddCoins(amount: real)
    | AddSparks(amount: real)
    | AddClicks(amount: real)
    | RegisterClick
    | BuyBuilding(id: string)
    | BuyUpgrade(id: string)
    | LoadState(payload: GameState)
    | Reset
    | Prestige(gain: real)
    | UpdateSaveTimestamp(timestamp: int)
    | Unrecognized(kind: string)

  /** `defaultState` stamped with the time `now`: nothing owned, every counter zero. */
  function DefaultState(now: int): GameState
  {
    GameState(0.0, 0.0, BuildingData, [], 0.0, 0.0, now)
  }

  /** Total number of building units owned (`reduce((sum, b) => sum + b.count, 0)`). */
  function TotalBuildings(bs: seq<Building>): nat
  {
    if bs == [] then 0 else bs[0].count + TotalBuildings(bs[1..])
  }

  /** Units owned of the building with that id, 0 when the id is absent (`targetBuilding?.count ?? 0`). */
  function OwnedCount(bs: seq<Building>, id: string): nat
  {
    match FindBuilding(bs, id)
    case None => 0
    case Some(b) => b.count
  }

  /** The per-building check of an upgrade runs only when both `requiresBuildings` and its target are truthy. */
  predicate ChecksTargetCount(u: Upgrades.Upgrade)
  {
    u.requiresBuildings.Some? && u.requiresBuildings.value != 0 && Upgrades.HasTarget(u)
  }

  /** The total-count check runs only when `requiresTotalBuildings` is truthy. */
  predicate ChecksTotalCount(u: Upgrades.Upgrade)
  {
    u.requiresTotalBuildings.Some? && u.requiresTotalBuildings.value != 0
  }

  /** `meetsUpgradeRequirement`: false for an unknown id, otherwise both building prerequisites hold. */
  predicate MeetsUpgradeRequirement(s: GameState, upgradeId: string)
  {
    match Upgrades.FindUpgrade(Upgrades.UpgradeData, upgradeId)
    case None => false
    case Some(u) =>
      && (ChecksTargetCount(u) ==> OwnedCount(s.buildings, u.targetBuildingId.value) >= u.requiresBuildings.value)
      && (ChecksTotalCount(u) ==> TotalBuildings(s.buildings) >= u.requiresTotalBuildings.value)
  }

  /** Every building with id `id` gains one unit (the `map` of the `buyBuilding` case). */
  function IncrementCount(bs: seq<Building>, id: string): (r: seq<Building>)
    ensures |r| == |bs|
    ensures forall i :: 0 <= i < |bs| ==>
              r[i] == if bs[i].id == id then bs[i].(count := bs[i].count + 1) else bs[i]
  {
    if bs == [] then []
    else [if bs[0].id == id then bs[0].(count := bs[0].count + 1) else bs[0]] + IncrementCount(bs[1..], id)
  }

  /** A building purchase is accepted: the id is known and both prices are affordable. */
  predicate CanBuyBuilding(s: GameState, id: string)
  {
    match FindBuilding(s.buildings, id)
    case None => false
    case Some(b) => s.coins >= BuildingCost(b) as real && s.sparks >= BuildingSparkCost(b) as real
  }

  /** The spark price an upgrade charges (`upgrade.sparkCost ?? 0`). */
  function UpgradeSparkCost(u: Upgrades.Upgrade): real
  {
    u.sparkCost.GetOr(0.0)
  }

  /** An upgrade purchase is accepted: every guard of the `buyUpgrade` case passes. */
  predicate CanBuyUpgrade(s: GameState, id: string)
  {
    && id !in s.upgrades
    && (match Upgrades.FindUpgrade(Upgrades.UpgradeData, id)
        case None => false
        case Some(u) =>
          && s.coins >= u.cost
          && s.sparks >= UpgradeSparkCost(u)
          && s.coins >= u.unlockAt
          && MeetsUpgradeRequirement(s, id))
  }

  /** The `buyBuilding` case: price lookup, affordability check, deduction and one more unit. */
  function BuyBuildingStep(s: GameState, id: string): GameState
  {
    match FindBuilding(s.buildings, id)
    case None => s
    case Some(b) =>
      var cost := BuildingCost(b) as real;
      var sparkCost := BuildingSparkCost(b) as real;
      if s.coins < cost || s.sparks < sparkCost then s
      else s.(coins := s.coins - cost, sparks := s.sparks - sparkCost,
              buildings := IncrementCount(s.buildings, id))
  }

  /** The `buyUpgrade` case: the guards in source order, then deduction and append. */
  function BuyUpgradeStep(s: GameState, id: string): GameState
  {
    if id in s.upgrades then s
    else
      match Upgrades.FindUpgrade(Upgrades.UpgradeData, id)
      case None => s
      case Some(u) =>
        var sparkCost := UpgradeSparkCost(u);
        if s.coins < u.cost then s
        else if s.sparks < sparkCost then s
        else if s.coins < u.unlockAt then s
        else if !MeetsUpgradeRequirement(s, id) then s
        else s.(coins := s.coins - u.cost, sparks := s.sparks - sparkCost, upgrades := s.upgrades + [id])
  }

  /** `gameReducer`. */
  function Reduce(s: GameState, a: Action, now: int): GameState
  {
    match a
    case AddCoins(amount) => s.(coins := s.coins + amount)
    case AddSparks(amount) => s.(sparks := s.sparks + amount)
    case AddClicks(amount) => s.(totalClicks := s.totalClicks + amount)
    case RegisterClick => s.(totalClicks := s.totalClicks + 1.0)
    case BuyBuilding(id) => BuyBuildingStep(s, id)
    case BuyUpgrade(id) => BuyUpgradeStep(s, id)
    case LoadState(payload) => payload
    case Reset => DefaultState(now)
    case Prestige(gain) => DefaultState(now).(prestige := s.prestige + gain)
    case UpdateSaveTimestamp(timestamp) => s.(lastSavedAt := timestamp)
    case Unrecognized(_) => s
  }

  /** No id occurs twice in a list. */
  predicate NoDuplicates(xs: seq<string>)
  {
    forall i, j :: 0 <= i < j < |xs| ==> xs[i] != xs[j]
  }

  /** The buildings are the table's entries, in table order, each with its own owned count. */
  predicate MatchesTable(bs: seq<Building>)
  {
    |bs| == |BuildingData| && forall i :: 0 <= i < |bs| ==> bs[i] == BuildingData[i].(count := bs[i].count)
  }

  /** The state invariant: no negative amounts, no upgrade owned twice, one building per table entry. */
  predicate Valid(s: GameState)
  {
    && s.coins >= 0.0 && s.sparks >= 0.0 && s.totalClicks >= 0.0 && s.prestige >= 0.0
    && NoDuplicates(s.upgrades)
    && MatchesTable(s.buildings)
  }

  /** What callers promise about an action: non-negative amounts and gains, a valid payload. */
  predicate Admissible(a: Action)
  {
    match a
    case AddCoins(amount) => amount >= 0.0
    case AddSparks(amount) => amount >= 0.0
    case AddClicks(amount) => amount >= 0.0
    case Prestige(gain) => gain >= 0.0
    case LoadState(payload) => Valid(payload)
    case _ => true
  }

  // ----- Buildings ---------------------------------------------------------------------------

  /** A building list that matches the table has distinct ids, in table positions. */
  lemma MatchesTableIds(bs: seq<Building>)
    requires MatchesTable(bs)
    ensures UniqueIds(bs)
    ensures forall id :: IndexOf(bs, id) == IndexOf(BuildingData, id)
  {
    BuildingDataInvariants();
    forall id ensures IndexOf(bs, id) == IndexOf(BuildingData, id) {
      assert forall j :: 0 <= j < |bs| ==> bs[j].id == BuildingData[j].id;
    }
  }

  /** One more unit of building `k` adds exactly one to the total. */
  lemma {:induction false} TotalBuildingsIncrement(bs: seq<Building>, id: string, k: nat)
    requires UniqueIds(bs) && k < |bs| && bs[k].id == id
    ensures TotalBuildings(IncrementCount(bs, id)) == TotalBuildings(bs) + 1
  {
    var r := IncrementCount(bs, id);
    assert r[1..] == IncrementCount(bs[1..], id);
    if k == 0 {
      assert forall i :: 0 <= i < |bs| - 1 ==> bs[1..][i].id != id;
      IncrementAbsentId(bs[1..], id);
    } else {
      TotalBuildingsIncrement(bs[1..], id, k - 1);
    }
  }

  lemma {:induction false} IncrementAbsentId(bs: seq<Building>, id: string)
    requires forall i :: 0 <= i < |bs| ==> bs[i].id != id
    ensures IncrementCount(bs, id) == bs
  {
    if bs != [] {
      IncrementAbsentId(bs[1..], id);
    }
  }

  /**
   * `buyBuilding` either changes nothing or takes exactly both prices and adds one unit to every
   * building with that id; upgrades, clicks, prestige and the save stamp are never touched.
   */
  lemma BuyBuildingEffect(s: GameState, id: string, now: int)
    ensures var r := Reduce(s, BuyBuilding(id), now);
      && (!CanBuyBuilding(s, id) ==> r == s)
      && (CanBuyBuilding(s, id) ==>
            var b := FindBuilding(s.buildings, id).value;
            && r.coins == s.coins - BuildingCost(b) as real
            && r.sparks == s.sparks - BuildingSparkCost(b) as real
            && |r.buildings| == |s.buildings|
            && (forall i :: 0 <= i < |s.buildings| && s.buildings[i].id != id ==> r.buildings[i] == s.buildings[i])
            && (forall i :: 0 <= i < |s.buildings| && s.buildings[i].id == id ==>
                  r.buildings[i] == s.buildings[i].(count := s.buildings[i].count + 1))
            && r.coins >= 0.0 && r.sparks >= 0.0
            && r.upgrades == s.upgrades && r.totalClicks == s.totalClicks
            && r.prestige == s.prestige && r.lastSavedAt == s.lastSavedAt)
  {
  }

  /** `buyBuilding` changes the state exactly when the purchase is accepted. */
  lemma BuyBuildingChangesIffAccepted(s: GameState, id: string, now: int)
    ensures Reduce(s, BuyBuilding(id), now) != s <==> CanBuyBuilding(s, id)
  {
    if CanBuyBuilding(s, id) {
      var b := FindBuilding(s.buildings, id).value;
      var k := IndexOf(s.buildings, id);
      var r := Reduce(s, BuyBuilding(id), now);
      assert r.buildings[k].count == s.buildings[k].count + 1;
    }
  }

  /** In a valid state an accepted purchase raises the total unit count by exactly one. */
  lemma BuyBuildingAddsOneUnit(s: GameState, id: string, now: int)
    requires Valid(s) && CanBuyBuilding(s, id)
    ensures TotalBuildings(Reduce(s, BuyBuilding(id), now).buildings) == TotalBuildings(s.buildings) + 1
  {
    MatchesTableIds(s.buildings);
    TotalBuildingsIncrement(s.buildings, id, IndexOf(s.buildings, id));
  }

  // ----- Upgrades ----------------------------------------------------------------------------

  /** A rejected `buyUpgrade` returns the state unchanged. */
  lemma BuyUpgradeRejected(s: GameState, id: string, now: int)
    requires !CanBuyUpgrade(s, id)
    ensures Reduce(s, BuyUpgrade(id), now) == s
  {
  }

  /**
   * An accepted `buyUpgrade` takes exactly the upgrade's prices and appends its id once;
   * the buildings, clicks, prestige and save stamp are not touched.
   */
  lemma BuyUpgradeAccepted(s: GameState, id: string, now: int)
    requires CanBuyUpgrade(s, id)
    ensures var r := Reduce(s, BuyUpgrade(id), now);
      var u := Upgrades.FindUpgrade(Upgrades.UpgradeData, id).value;
      && r.coins == s.coins - u.cost && r.sparks == s.sparks - UpgradeSparkCost(u)
      && r.coins >= 0.0 && r.sparks >= 0.0
      && r.upgrades == s.upgrades + [id]
      && r.buildings == s.buildings && r.totalClicks == s.totalClicks
      && r.prestige == s.prestige && r.lastSavedAt == s.lastSavedAt
  {
  }

  /** Buying the same upgrade twice changes the state only once. */
  lemma BuyUpgradeIdempotent(s: GameState, id: string, now: int)
    ensures var r := Reduce(s, BuyUpgrade(id), now);
      Reduce(r, BuyUpgrade(id), now) == r
  {
    var r := Reduce(s, BuyUpgrade(id), now);
    if CanBuyUpgrade(s, id) {
      assert r.upgrades[|s.upgrades|] == id;
    }
  }

  /** The owned-upgrade list never gains a duplicate. */
  lemma BuyUpgradeKeepsNoDuplicates(s: GameState, id: string, now: int)
    requires NoDuplicates(s.upgrades)
    ensures NoDuplicates(Reduce(s, BuyUpgrade(id), now).upgrades)
  {
  }

  /**
   * For the shipped table the `unlockAt` guard never decides anything: whenever the price is
   * affordable the unlock threshold, which lies below it, is reached as well.
   */
  lemma UnlockGuardRedundant(s: GameState, id: string)
    ensures CanBuyUpgrade(s, id) <==>
      && id !in s.upgrades
      && Upgrades.FindUpgrade(Upgrades.UpgradeData, id).Some?
      && var u := Upgrades.FindUpgrade(Upgrades.UpgradeData, id).value;
         s.coins >= u.cost && s.sparks >= UpgradeSparkCost(u) && MeetsUpgradeRequirement(s, id)
  {
    Upgrades.UpgradePricesAndBonuses();
    var f := Upgrades.FindUpgrade(Upgrades.UpgradeData, id);
    if f.Some? {
      var k := Upgrades.IndexOf(Upgrades.UpgradeData, id);
      assert f.value == Upgrades.UpgradeData[k];
    }
  }

  // ----- Requirement -------------------------------------------------------------------------

  /** Every owned count of `bs` is at most the matching count of `bs'`, which has the same definitions. */
  predicate CountsGrow(bs: seq<Building>, bs': seq<Building>)
  {
    |bs| == |bs'| &&
    forall i :: 0 <= i < |bs| ==> bs'[i] == bs[i].(count := bs'[i].count) && bs[i].count <= bs'[i].count
  }

  lemma {:induction false} TotalBuildingsGrow(bs: seq<Building>, bs': seq<Building>)
    requires CountsGrow(bs, bs')
    ensures TotalBuildings(bs) <= TotalBuildings(bs')
  {
    if bs != [] {
      TotalBuildingsGrow(bs[1..], bs'[1..]);
    }
  }

  lemma {:induction false} OwnedCountGrows(bs: seq<Building>, bs': seq<Building>, id: string)
    requires CountsGrow(bs, bs')
    ensures OwnedCount(bs, id) <= OwnedCount(bs', id)
  {
    if bs != [] {
      assert bs'[0].id == bs[0].id;
      if bs[0].id != id {
        OwnedCountGrows(bs[1..], bs'[1..], id);
        assert FindBuilding(bs, id) == FindBuilding(bs[1..], id);
        assert FindBuilding(bs', id) == FindBuilding(bs'[1..], id);
      }
    }
  }

  /** Owning more buildings never takes a met upgrade requirement away. */
  lemma RequirementMonotone(s: GameState, s': GameState, id: string)
    requires CountsGrow(s.buildings, s'.buildings) && MeetsUpgradeRequirement(s, id)
    ensures MeetsUpgradeRequirement(s', id)
  {
    TotalBuildingsGrow(s.buildings, s'.buildings);
    var u := Upgrades.FindUpgrade(Upgrades.UpgradeData, id).value;
    if ChecksTargetCount(u) {
      OwnedCountGrows(s.buildings, s'.buildings, u.targetBuildingId.value);
    }
  }

  /** An unknown upgrade id never meets its requirement. */
  lemma RequirementUnknownId(s: GameState, id: string)
    requires forall i :: 0 <= i < |Upgrades.UpgradeData| ==> Upgrades.UpgradeData[i].id != id
    ensures !MeetsUpgradeRequirement(s, id)
  {
  }

  /**
   * For a shipped upgrade the per-building guard never skips a stated requirement: the
   * requirement holds exactly when the target building's count and the total count reach
   * whatever minimums the entry states.
   */
  lemma RequirementOfTableUpgrade(s: GameState, i: nat)
    requires i < |Upgrades.UpgradeData|
    ensures var u := Upgrades.UpgradeData[i];
      MeetsUpgradeRequirement(s, u.id) <==>
        && (u.requiresBuildings.Some? ==> OwnedCount(s.buildings, u.targetBuildingId.value) >= u.requiresBuildings.value)
        && (u.requiresTotalBuildings.Some? ==> TotalBuildings(s.buildings) >= u.requiresTotalBuildings.value)
  {
    Upgrades.UpgradeIdsUnique();
    Upgrades.UpgradeTargetsExist();
    Upgrades.FindUpgradeAt(Upgrades.UpgradeData, i);
  }

  // ----- Resets and single-field actions -----------------------------------------------------

  /**
   * `reset` gives the default state; `prestige` gives the default state with the prestige points
   * carried over plus the gain, so coins, sparks, units, upgrades and clicks all return to zero.
   */
  lemma ResetAndPrestige(s: GameState, gain: real, now: int)
    ensures Reduce(s, Reset, now) == DefaultState(now) && Reduce(s, Reset, now).prestige == 0.0
    ensures var r := Reduce(s, Prestige(gain), now);
      && r.prestige == s.prestige + gain
      && r.coins == 0.0 && r.sparks == 0.0 && r.upgrades == [] && r.totalClicks == 0.0
      && r.buildings == BuildingData && TotalBuildings(r.buildings) == 0
      && r.lastSavedAt == now
      && (gain >= 0.0 ==> r.prestige >= s.prestige)
  {
    ResetYieldsDefault(s, now);
    PrestigeClearsProgress(s, gain, now);
    PrestigeOwnsNoUnit(s, gain, now);
  }

  lemma ResetYieldsDefault(s: GameState, now: int)
    ensures Reduce(s, Reset, now) == DefaultState(now)
  {
  }

  lemma PrestigeClearsProgress(s: GameState, gain: real, now: int)
    ensures var r := Reduce(s, Prestige(gain), now);
      && r.prestige == s.prestige + gain
      && r.coins == 0.0 && r.sparks == 0.0 && r.upgrades == [] && r.totalClicks == 0.0
      && r.buildings == BuildingData && r.lastSavedAt == now
  {
  }

  lemma PrestigeOwnsNoUnit(s: GameState, gain: real, now: int)
    ensures TotalBuildings(Reduce(s, Prestige(gain), now).buildings) == 0
  {
    TableTotalZero();
  }

  /** The table owns no unit. */
  lemma TableTotalZero()
    ensures TotalBuildings(BuildingData) == 0
  {
    TableCountsZero();
    ZeroTotal(BuildingData);
  }

  lemma {:induction false} ZeroTotal(bs: seq<Building>)
    requires forall i :: 0 <= i < |bs| ==> bs[i].count == 0
    ensures TotalBuildings(bs) == 0
  {
    if bs != [] {
      ZeroTotal(bs[1..]);
    }
  }

  /** Each counter action changes its own field by exactly its amount and nothing else. */
  lemma CounterActions(s: GameState, amount: real, ts: int, kind: string, now: int)
    ensures Reduce(s, AddCoins(amount), now) == s.(coins := s.coins + amount)
    ensures Reduce(s, AddSparks(amount), now) == s.(sparks := s.sparks + amount)
    ensures Reduce(s, AddClicks(amount), now) == s.(totalClicks := s.totalClicks + amount)
    ensures Reduce(s, RegisterClick, now) == s.(totalClicks := s.totalClicks + 1.0)
    ensures Reduce(s, UpdateSaveTimestamp(ts), now) == s.(lastSavedAt := ts)
    ensures Reduce(s, Unrecognized(kind), now) == s
  {
  }

  // ----- The state invariant -----------------------------------------------------------------

  /** The default state is valid. */
  lemma DefaultStateValid(now: int)
    ensures Valid(DefaultState(now))
  {
  }

  /** Every admissible action keeps the state invariant. */
  lemma ReducePreservesValid(s: GameState, a: Action, now: int)
    requires Valid(s) && Admissible(a)
    ensures Valid(Reduce(s, a, now))
  {
    match a
    case BuyBuilding(id) =>
      var r := Reduce(s, a, now);
      if CanBuyBuilding(s, id) {
        forall i | 0 <= i < |r.buildings|
          ensures r.buildings[i] == BuildingData[i].(count := r.buildings[i].count)
        {
        }
      }
    case BuyUpgrade(id) =>
      BuyUpgradeKeepsNoDuplicates(s, id, now);
    case _ =>
  }

  /** The actions of a session applied in order, all at time `now`. */
  function Run(s: GameState, actions: seq<Action>, now: int): GameState
    decreases |actions|
  {
    if actions == [] then s else Run(Reduce(s, actions[0], now), actions[1..], now)
  }

  /** Any run of admissible actions from a valid state ends in a valid state. */
  lemma {:induction false} RunPreservesValid(s: GameState, actions: seq<Action>, now: int)
    requires Valid(s)
    requires forall i :: 0 <= i < |actions| ==> Admissible(actions[i])
    ensures Valid(Run(s, actions, now))
    decreases |actions|
  {
    if actions != [] {
      ReducePreservesValid(s, actions[0], now);
      RunPreservesValid(Reduce(s, actions[0], now), actions[1..], now);
    }
  }

  /** Without `reset` or `loadState`, prestige points never decrease over a run of admissible actions. */
  lemma {:induction false} PrestigeNeverDecreases(s: GameState, actions: seq<Action>, now: int)
    requires forall i :: 0 <= i < |actions| ==> Admissible(actions[i]) && !actions[i].Reset? && !actions[i].LoadState?
    ensures Run(s, actions, now).prestige >= s.prestige
    decreases |actions|
  {
    if actions != [] {
      PrestigeNeverDecreases(Reduce(s, actions[0], now), actions[1..], now);
    }
  }

  // ----- Scenarios ---------------------------------------------------------------------------

  /** No coins: the first lumen-forge (price 12) is refused; with exactly 12 coins it is bought for all of them. */
  lemma FirstForgeScenario(now: int)
    ensures Reduce(DefaultState(now), BuyBuilding("lumen-forge"), now) == DefaultState(now)
    ensures var r := Reduce(DefaultState(now).(coins := 12.0), BuyBuilding("lumen-forge"), now);
      r.coins == 0.0 && r.buildings[0].id == "lumen-forge" && r.buildings[0].count == 1
  {
    FirstUnitPrices();
    assert BuildingData[0].id == "lumen-forge";
    assert IndexOf(BuildingData, "lumen-forge") == 0;
    assert FindBuilding(BuildingData, "lumen-forge") == Some(BuildingData[0]);
    assert BuildingSparkCost(BuildingData[0]) == 0;
  }
}
