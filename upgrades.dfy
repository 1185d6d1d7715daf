/** The one-time upgrades of the React version (src/modules/upgrades.ts). */
module Upgrades {
  import opened Wrappers
  import Buildings

  /**
   * An upgrade definition. `targetBuildingId` scopes income and spark bonuses to one building;
   * the bonus fields are fractions added to a multiplier (`incomeMultiplier`, `sparkMultiplier`)
   * or flat amounts (`clickBonus`, `autoClicks`). Display fields are not part of the model.
   */
  datatype Upgrade = Upgrade(
    id: string,
    cost: real,
    sparkCost: Option<real>,
    unlockAt: real,
    targetBuildingId: Option<string>,
    incomeMultiplier: Option<real>,
    sparkMultiplier: Option<real>,
    clickBonus: Option<real>,
    autoClicks: Option<real>,
    requiresBuildings: Option<int>,
    requiresTotalBuildings: Option<int>)

  /** JavaScript truthiness of an optional target id: present and not the empty string. */
  predicate HasTarget(u: Upgrade)
  {
    u.targetBuildingId.Some? && u.targetBuildingId.value != ""
  }

  const UpgradeData: seq<Upgrade> := [
    Upgrade(id := "forge-tuning", cost := 140.0, sparkCost := None, unlockAt := 70.0,
            targetBuildingId := Some("lumen-forge"), incomeMultiplier := Some(0.3), sparkMultiplier := None,
            clickBonus := None, autoClicks := None, requiresBuildings := Some(5), requiresTotalBuildings := None),
    Upgrade(id := "chlorophyll-loop", cost := 360.0, sparkCost := None, unlockAt := 170.0,
            targetBuildingId := Some("sky-greenhouse"), incomeMultiplier := Some(0.25), sparkMultiplier := None,
            clickBonus := None, autoClicks := None, requiresBuildings := Some(3), requiresTotalBuildings := None),
    Upgrade(id := "drone-routing", cost := 820.0, sparkCost := None, unlockAt := 460.0,
            targetBuildingId := Some("astro-platform"), incomeMultiplier := Some(0.35), sparkMultiplier := None,
            clickBonus := None, autoClicks := None, requiresBuildings := Some(2), requiresTotalBuildings := None),
    Upgrade(id := "pulse-mantra", cost := 260.0, sparkCost := None, unlockAt := 140.0,
            targetBuildingId := None, incomeMultiplier := None, sparkMultiplier := None,
            clickBonus := Some(2.0), autoClicks := None, requiresBuildings := None, requiresTotalBuildings := None),
    Upgrade(id := "crystal-lens", cost := 1800.0, sparkCost := Some(4.0), unlockAt := 1200.0,
            targetBuildingId := Some("crystal-archive"), incomeMultiplier := Some(0.4), sparkMultiplier := Some(0.3),
            clickBonus := None, autoClicks := None, requiresBuildings := Some(2), requiresTotalBuildings := None),
    Upgrade(id := "market-rituals", cost := 2400.0, sparkCost := Some(6.0), unlockAt := 1600.0,
            targetBuildingId := Some("holo-market"), incomeMultiplier := Some(0.45), sparkMultiplier := None,
            clickBonus := None, autoClicks := None, requiresBuildings := Some(2), requiresTotalBuildings := None),
    Upgrade(id := "spark-resonance", cost := 2800.0, sparkCost := Some(12.0), unlockAt := 1900.0,
            targetBuildingId := None, incomeMultiplier := None, sparkMultiplier := Some(0.35),
            clickBonus := None, autoClicks := None, requiresBuildings := None, requiresTotalBuildings := Some(10)),
    Upgrade(id := "spark-conductors", cost := 4200.0, sparkCost := Some(18.0), unlockAt := 2600.0,
            targetBuildingId := Some("spark-station"), incomeMultiplier := Some(0.55), sparkMultiplier := None,
            clickBonus := None, autoClicks := None, requiresBuildings := Some(2), requiresTotalBuildings := None),
    Upgrade(id := "drone-autonomy", cost := 5200.0, sparkCost := Some(28.0), unlockAt := 3200.0,
            targetBuildingId := None, incomeMultiplier := None, sparkMultiplier := None,
            clickBonus := None, autoClicks := Some(1.5), requiresBuildings := None, requiresTotalBuildings := Some(12)),
    Upgrade(id := "pulse-choir", cost := 3600.0, sparkCost := Some(16.0), unlockAt := 2400.0,
            targetBuildingId := None, incomeMultiplier := None, sparkMultiplier := None,
            clickBonus := Some(4.0), autoClicks := None, requiresBuildings := None, requiresTotalBuildings := None),
    Upgrade(id := "lumen-symphony", cost := 6400.0, sparkCost := Some(40.0), unlockAt := 4000.0,
            targetBuildingId := None, incomeMultiplier := Some(0.2), sparkMultiplier := None,
            clickBonus := None, autoClicks := None, requiresBuildings := None, requiresTotalBuildings := Some(18)),
    Upgrade(id := "gravity-choir", cost := 18000.0, sparkCost := Some(120.0), unlockAt := 10000.0,
            targetBuildingId := Some("gravity-temple"), incomeMultiplier := Some(0.65), sparkMultiplier := None,
            clickBonus := None, autoClicks := None, requiresBuildings := Some(1), requiresTotalBuildings := None)
  ]

  /** The position of the first upgrade with id `id`, or `|ups|` when there is none. */
  function IndexOf(ups: seq<Upgrade>, id: string): (k: nat)
    ensures k <= |ups|
    ensures k < |ups| ==> ups[k].id == id
    ensures forall j :: 0 <= j < k ==> ups[j].id != id
  {
    if ups == [] then 0
    else if ups[0].id == id then 0
    else 1 + IndexOf(ups[1..], id)
  }

  /** `upgradeData.find((item) => item.id === id)`: the first upgrade with that id, if any. */
  function FindUpgrade(ups: seq<Upgrade>, id: string): (r: Option<Upgrade>)
    ensures r.Some? ==> r.value.id == id
  {
    var k := IndexOf(ups, id);
    if k < |ups| then Some(ups[k]) else None
  }

  /** The lookup fails exactly when no entry carries the id; a hit is an entry of the list. */
  lemma FindUpgradeCases(ups: seq<Upgrade>, id: string)
    ensures FindUpgrade(ups, id).None? <==> forall i :: 0 <= i < |ups| ==> ups[i].id != id
    ensures FindUpgrade(ups, id).Some? ==> FindUpgrade(ups, id).value in ups
  {
  }

  /** The ids of an upgrade list are pairwise distinct. */
  predicate UniqueIds(ups: seq<Upgrade>)
  {
    forall i, j :: 0 <= i < j < |ups| ==> ups[i].id != ups[j].id
  }

  /** With distinct ids the upgrade found for the id of entry `i` is entry `i` itself. */
  lemma FindUpgradeAt(ups: seq<Upgrade>, i: nat)
    requires UniqueIds(ups) && i < |ups|
    ensures FindUpgrade(ups, ups[i].id) == Some(ups[i])
  {
  }

  /** A building id names an entry of the building table. */
  predicate IsBuildingId(id: string)
  {
    exists i :: 0 <= i < |Buildings.BuildingData| && Buildings.BuildingData[i].id == id
  }

  /** Bonus and price fields are positive wherever they are present. */
  predicate PositiveFields(u: Upgrade)
  {
    && u.cost > 0.0
    && (u.sparkCost.Some? ==> u.sparkCost.value > 0.0)
    && (u.incomeMultiplier.Some? ==> u.incomeMultiplier.value > 0.0)
    && (u.sparkMultiplier.Some? ==> u.sparkMultiplier.value > 0.0)
    && (u.clickBonus.Some? ==> u.clickBonus.value > 0.0)
    && (u.autoClicks.Some? ==> u.autoClicks.value > 0.0)
  }

  /** Upgrade ids are distinct. */
  lemma UpgradeIdsUnique()
    ensures |UpgradeData| == 12 && UniqueIds(UpgradeData)
  {
    forall i, j | 0 <= i < j < |UpgradeData| ensures UpgradeData[i].id != UpgradeData[j].id {
      IdKey(i);
      IdKey(j);
      KeysDistinct();
    }
  }

  /** Length and first letter of each upgrade id, in table order: they already tell the ids apart. */
  const IdKeys: seq<(int, char)> := [(12, 'f'), (16, 'c'), (13, 'd'), (12, 'p'), (12, 'c'), (14, 'm'),
                                     (15, 's'), (16, 's'), (14, 'd'), (11, 'p'), (14, 'l'), (13, 'g')]

  lemma IdKey(i: nat)
    requires i < |UpgradeData|
    ensures |UpgradeData| == |IdKeys|
    ensures UpgradeData[i].id != "" && (|UpgradeData[i].id|, UpgradeData[i].id[0]) == IdKeys[i]
  {
  }

  lemma KeysDistinct()
    ensures forall i, j :: 0 <= i < j < |IdKeys| ==> IdKeys[i] != IdKeys[j]
  {
  }

  /** Every target names a building of the table, and every building requirement has a target to count. */
  lemma UpgradeTargetsExist()
    ensures forall i :: 0 <= i < |UpgradeData| && UpgradeData[i].targetBuildingId.Some? ==>
              IsBuildingId(UpgradeData[i].targetBuildingId.value)
    ensures forall i :: 0 <= i < |UpgradeData| && UpgradeData[i].requiresBuildings.Some? ==>
              HasTarget(UpgradeData[i])
  {
    TargetsAreTableIds();
  }

  /** The targets, entry by entry, are ids of the building table. */
  lemma TargetsAreTableIds()
    ensures forall i :: 0 <= i < |UpgradeData| && UpgradeData[i].targetBuildingId.Some? ==>
              IsBuildingId(UpgradeData[i].targetBuildingId.value)
  {
    TargetNames();
    TargetNamesAreBuildingIds();
  }

  /** The building ids the upgrade table names as targets. */
  const TargetIds: set<string> := {"lumen-forge", "sky-greenhouse", "astro-platform", "crystal-archive",
                                   "holo-market", "spark-station", "gravity-temple"}

  lemma TargetNames()
    ensures forall i :: 0 <= i < |UpgradeData| && UpgradeData[i].targetBuildingId.Some? ==>
              UpgradeData[i].targetBuildingId.value in TargetIds
  {
  }

  lemma TargetNamesAreBuildingIds()
    ensures forall t :: t in TargetIds ==> IsBuildingId(t)
  {
    var bd := Buildings.BuildingData;
    assert IsBuildingId("lumen-forge") by { assert bd[0].id == "lumen-forge"; }
    assert IsBuildingId("sky-greenhouse") by { assert bd[1].id == "sky-greenhouse"; }
    assert IsBuildingId("astro-platform") by { assert bd[2].id == "astro-platform"; }
    assert IsBuildingId("crystal-archive") by { assert bd[3].id == "crystal-archive"; }
    assert IsBuildingId("holo-market") by { assert bd[4].id == "holo-market"; }
    assert IsBuildingId("spark-station") by { assert bd[5].id == "spark-station"; }
    assert IsBuildingId("gravity-temple") by { assert bd[8].id == "gravity-temple"; }
  }

  /** Every unlock threshold is below the price, and prices and bonuses are positive. */
  lemma UpgradePricesAndBonuses()
    ensures forall i :: 0 <= i < |UpgradeData| ==> UpgradeData[i].unlockAt < UpgradeData[i].cost
    ensures forall i :: 0 <= i < |UpgradeData| ==> PositiveFields(UpgradeData[i])
  {
  }

  /** The global (untargeted) upgrades are exactly these five. */
  lemma UntargetedUpgrades()
    ensures forall i :: 0 <= i < |UpgradeData| ==>
              (!HasTarget(UpgradeData[i]) <==>
                UpgradeData[i].id in {"pulse-mantra", "spark-resonance", "drone-autonomy", "pulse-choir", "lumen-symphony"})
  {
  }

  /** Only untargeted upgrades carry click or auto-click bonuses. */
  lemma ClickBonusesAreUntargeted()
    ensures forall i :: 0 <= i < |UpgradeData| && (UpgradeData[i].clickBonus.Some? || UpgradeData[i].autoClicks.Some?) ==>
              !HasTarget(UpgradeData[i])
  {
  }
}
