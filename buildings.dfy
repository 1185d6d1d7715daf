/**
 * The building definitions of the React version (src/modules/buildings.ts):
 * the `Building` record, the nine-entry `buildingData` table and the two price formulas.
 */
module Buildings {
  import opened Wrappers
  import CostCurve

  /**
   * A building definition together with the number of units owned (`count`).
   * The display fields `name` and `desc` are not part of the model.
   */
  datatype Building = Building(
    id: string,
    baseIncome: real,
    baseSparkIncome: Option<real>,
    baseAutoClicks: Option<real>,
    count: nat,
    costBase: real,
    costExp: real,
    sparkCostBase: Option<real>,
    sparkCostExp: Option<real>,
    chapter: nat,
    unlockAt: real)

  /** JavaScript truthiness of an optional number: present and not zero. */
  predicate Truthy(x: Option<real>)
  {
    x.Some? && x.value != 0.0
  }

  const BuildingData: seq<Building> := [
    Building(id := "lumen-forge", baseIncome := 0.3, baseSparkIncome := None, baseAutoClicks := None,
             count := 0, costBase := 12.0, costExp := 1.15, sparkCostBase := None, sparkCostExp := None,
             chapter := 1, unlockAt := 0.0),
    Building(id := "sky-greenhouse", baseIncome := 1.4, baseSparkIncome := None, baseAutoClicks := None,
             count := 0, costBase := 90.0, costExp := 1.18, sparkCostBase := None, sparkCostExp := None,
             chapter := 1, unlockAt := 50.0),
    Building(id := "astro-platform", baseIncome := 5.5, baseSparkIncome := Some(0.05), baseAutoClicks := None,
             count := 0, costBase := 360.0, costExp := 1.2, sparkCostBase := None, sparkCostExp := None,
             chapter := 2, unlockAt := 250.0),
    Building(id := "crystal-archive", baseIncome := 16.0, baseSparkIncome := Some(0.15), baseAutoClicks := None,
             count := 0, costBase := 1400.0, costExp := 1.22, sparkCostBase := None, sparkCostExp := None,
             chapter := 2, unlockAt := 1000.0),
    Building(id := "holo-market", baseIncome := 40.0, baseSparkIncome := Some(0.25), baseAutoClicks := None,
             count := 0, costBase := 4200.0, costExp := 1.23, sparkCostBase := None, sparkCostExp := None,
             chapter := 3, unlockAt := 3000.0),
    Building(id := "spark-station", baseIncome := 90.0, baseSparkIncome := Some(0.9), baseAutoClicks := None,
             count := 0, costBase := 12500.0, costExp := 1.24, sparkCostBase := Some(18.0), sparkCostExp := Some(1.2),
             chapter := 3, unlockAt := 9000.0),
    Building(id := "drone-swarm", baseIncome := 180.0, baseSparkIncome := Some(1.4), baseAutoClicks := Some(0.8),
             count := 0, costBase := 32000.0, costExp := 1.25, sparkCostBase := Some(45.0), sparkCostExp := Some(1.22),
             chapter := 4, unlockAt := 22000.0),
    Building(id := "luminary", baseIncome := 400.0, baseSparkIncome := Some(3.0), baseAutoClicks := None,
             count := 0, costBase := 98000.0, costExp := 1.27, sparkCostBase := Some(120.0), sparkCostExp := Some(1.25),
             chapter := 4, unlockAt := 60000.0),
    Building(id := "gravity-temple", baseIncome := 900.0, baseSparkIncome := Some(6.0), baseAutoClicks := Some(2.4),
             count := 0, costBase := 240000.0, costExp := 1.29, sparkCostBase := Some(260.0), sparkCostExp := Some(1.28),
             chapter := 5, unlockAt := 150000.0)
  ]

  /** `getBuildingCost`: the coin price of the next unit. */
  function BuildingCost(b: Building): int
  {
    CostCurve.Cost(b.costBase, b.costExp, b.count)
  }

  /** `getBuildingSparkCost`: the spark price of the next unit, 0 unless both spark parameters are truthy. */
  function BuildingSparkCost(b: Building): int
  {
    if !Truthy(b.sparkCostBase) || !Truthy(b.sparkCostExp) then 0
    else CostCurve.Cost(b.sparkCostBase.value, b.sparkCostExp.value, b.count)
  }

  /** The position of the first building with id `id`, or `|bs|` when there is none. */
  function IndexOf(bs: seq<Building>, id: string): (k: nat)
    ensures k <= |bs|
    ensures k < |bs| ==> bs[k].id == id
    ensures forall j :: 0 <= j < k ==> bs[j].id != id
  {
    if bs == [] then 0
    else if bs[0].id == id then 0
    else 1 + IndexOf(bs[1..], id)
  }

  /** `buildings.find((item) => item.id === id)`: the first building with that id, if any. */
  function FindBuilding(bs: seq<Building>, id: string): (r: Option<Building>)
    ensures r.Some? ==> r.value.id == id
  {
    var k := IndexOf(bs, id);
    if k < |bs| then Some(bs[k]) else None
  }

  /** The lookup fails exactly when no entry carries the id; a hit is an entry of the list. */
  lemma FindBuildingCases(bs: seq<Building>, id: string)
    ensures FindBuilding(bs, id).None? <==> forall i :: 0 <= i < |bs| ==> bs[i].id != id
    ensures FindBuilding(bs, id).Some? ==> FindBuilding(bs, id).value in bs
  {
  }

  /** The ids of a building list are pairwise distinct. */
  predicate UniqueIds(bs: seq<Building>)
  {
    forall i, j :: 0 <= i < j < |bs| ==> bs[i].id != bs[j].id
  }

  /** Shape of every shipped building: positive base price, growth factor above 1. */
  predicate WellFormed(b: Building)
  {
    && b.costBase > 0.0 && b.costExp >= 1.0 && b.costBase * (b.costExp - 1.0) >= 1.0
    && (b.sparkCostBase.Some? ==> b.sparkCostBase.value > 0.0)
    && (b.sparkCostExp.Some? ==> b.sparkCostExp.value >= 1.0)
    && b.baseIncome > 0.0
    && (b.baseSparkIncome.Some? ==> b.baseSparkIncome.value > 0.0)
    && (b.baseAutoClicks.Some? ==> b.baseAutoClicks.value > 0.0)
  }

  /** Table invariants: unique ids, nothing owned, unlock thresholds and base prices strictly rising. */
  lemma BuildingDataInvariants()
    ensures |BuildingData| == 9
    ensures UniqueIds(BuildingData)
    ensures forall i :: 0 <= i < |BuildingData| ==> BuildingData[i].count == 0
    ensures forall i :: 0 <= i < |BuildingData| ==> WellFormed(BuildingData[i])
    ensures forall i :: 0 < i < |BuildingData| ==> BuildingData[i - 1].unlockAt < BuildingData[i].unlockAt
    ensures forall i :: 0 < i < |BuildingData| ==> BuildingData[i - 1].costBase < BuildingData[i].costBase
  {
    TableIdsUnique();
    TableCountsZero();
    TableWellFormed();
    TableRising();
  }

  lemma TableIdsUnique()
    ensures UniqueIds(BuildingData)
  {
    forall i, j | 0 <= i < j < |BuildingData| ensures BuildingData[i].id != BuildingData[j].id {
      IdKey(i);
      IdKey(j);
      KeysDistinct();
    }
  }

  /** Length and first letter of each building id, in table order: they already tell the ids apart. */
  const IdKeys: seq<(int, char)> := [(11, 'l'), (14, 's'), (14, 'a'), (15, 'c'), (11, 'h'), (13, 's'),
                                     (11, 'd'), (8, 'l'), (14, 'g')]

  lemma IdKey(i: nat)
    requires i < |BuildingData|
    ensures |BuildingData| == |IdKeys|
    ensures BuildingData[i].id != "" && (|BuildingData[i].id|, BuildingData[i].id[0]) == IdKeys[i]
  {
  }

  lemma KeysDistinct()
    ensures forall i, j :: 0 <= i < j < |IdKeys| ==> IdKeys[i] != IdKeys[j]
  {
  }

  lemma TableCountsZero()
    ensures |BuildingData| == 9
    ensures forall i :: 0 <= i < |BuildingData| ==> BuildingData[i].count == 0
  {
  }

  lemma TableWellFormed()
    ensures forall i :: 0 <= i < |BuildingData| ==> WellFormed(BuildingData[i])
  {
  }

  lemma TableRising()
    ensures forall i :: 0 < i < |BuildingData| ==> BuildingData[i - 1].unlockAt < BuildingData[i].unlockAt
    ensures forall i :: 0 < i < |BuildingData| ==> BuildingData[i - 1].costBase < BuildingData[i].costBase
  {
  }

  /** Every price is a non-negative whole number for a well-formed building. */
  lemma CostsNonNegative(b: Building)
    requires WellFormed(b)
    ensures BuildingCost(b) >= 0 && BuildingSparkCost(b) >= 0
  {
    CostCurve.CostNonNegative(b.costBase, b.costExp, b.count);
    if Truthy(b.sparkCostBase) && Truthy(b.sparkCostExp) {
      CostCurve.CostNonNegative(b.sparkCostBase.value, b.sparkCostExp.value, b.count);
    }
  }

  /** For a well-formed building, buying one more unit raises the coin price by at least 1. */
  lemma CostStrictlyIncreasing(b: Building)
    requires WellFormed(b)
    ensures BuildingCost(b.(count := b.count + 1)) > BuildingCost(b)
  {
    CostCurve.CostStrictlyIncreasing(b.costBase, b.costExp, b.count);
  }

  /** The spark price is non-decreasing in the owned count. */
  lemma SparkCostMonotone(b: Building, n: nat)
    requires WellFormed(b) && b.count <= n
    ensures BuildingSparkCost(b) <= BuildingSparkCost(b.(count := n))
  {
    if Truthy(b.sparkCostBase) && Truthy(b.sparkCostExp) {
      CostCurve.CostMonotone(b.sparkCostBase.value, b.sparkCostExp.value, b.count, n);
    }
  }

  /** Only the last four buildings charge sparks; the first unit of each costs its integral bases. */
  lemma FirstUnitPrices()
    ensures forall i :: 0 <= i < |BuildingData| ==> BuildingCost(BuildingData[i]) as real == BuildingData[i].costBase
    ensures forall i :: 0 <= i < 5 ==> BuildingSparkCost(BuildingData[i]) == 0
    ensures BuildingSparkCost(BuildingData[5]) == 18 && BuildingData[5].id == "spark-station"
    ensures BuildingSparkCost(BuildingData[6]) == 45 && BuildingData[6].id == "drone-swarm"
    ensures BuildingSparkCost(BuildingData[7]) == 120 && BuildingData[7].id == "luminary"
    ensures BuildingSparkCost(BuildingData[8]) == 260 && BuildingData[8].id == "gravity-temple"
    ensures BuildingData[0].id == "lumen-forge" && BuildingCost(BuildingData[0]) == 12
  {
    CoinPricesAtZero();
    SparkPricesAtZero();
  }

  lemma CoinPricesAtZero()
    ensures forall i :: 0 <= i < |BuildingData| ==> BuildingCost(BuildingData[i]) as real == BuildingData[i].costBase
  {
    forall i | 0 <= i < |BuildingData|
      ensures BuildingCost(BuildingData[i]) as real == BuildingData[i].costBase
    {
      CostCurve.CostAtZero(BuildingData[i].costBase, BuildingData[i].costExp);
    }
  }

  lemma SparkPricesAtZero()
    ensures forall i :: 0 <= i < 5 ==> BuildingSparkCost(BuildingData[i]) == 0
    ensures BuildingSparkCost(BuildingData[5]) == 18 && BuildingSparkCost(BuildingData[6]) == 45
    ensures BuildingSparkCost(BuildingData[7]) == 120 && BuildingSparkCost(BuildingData[8]) == 260
  {
  }

  /** Whatever the owned count, the first five buildings never charge sparks. */
  lemma SparkFreeBuildings(i: nat, n: nat)
    requires i < 5
    ensures BuildingSparkCost(BuildingData[i].(count := n)) == 0
  {
  }
}
