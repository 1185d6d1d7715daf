/**
 * The building table of the earlier Vue/Pinia snapshot (src/modules/buildings.js): one
 * excavator, priced by the same `floor(costBase * costExp ^ count)` curve as the later game.
 */
module PiniaBuildings {
  import CostCurve

  /** A building of the early store; its name and description are display text and not modelled. */
  datatype Building = Building(id: string, baseIncome: real, count: nat, costBase: real, costExp: real, chapter: nat)

  const BuildingData: seq<Building> := [
    Building("excavator", baseIncome := 0.2, count := 0, costBase := 10.0, costExp := 1.15, chapter := 1)
  ]

  /** `getBuildingCost`. */
  function GetBuildingCost(b: Building): int
  {
    CostCurve.Cost(b.costBase, b.costExp, b.count)
  }

  /** The excavator costs 10, 11 and 13 for its first three units, and every unit costs more than the one before. */
  lemma ExcavatorPrices(n: nat)
    ensures |BuildingData| == 1 && BuildingData[0].id == "excavator" && BuildingData[0].count == 0
    ensures GetBuildingCost(BuildingData[0]) == 10
    ensures GetBuildingCost(BuildingData[0].(count := 1)) == 11
    ensures GetBuildingCost(BuildingData[0].(count := 2)) == 13
    ensures GetBuildingCost(BuildingData[0].(count := n + 1)) > GetBuildingCost(BuildingData[0].(count := n))
  {
    var e := BuildingData[0];
    assert CostCurve.Pow(1.15, 1) == 1.15 by {
      assert CostCurve.Pow(1.15, 0) == 1.0;
    }
    assert CostCurve.Pow(1.15, 2) == 1.3225;
    assert (10.0 * 1.15).Floor == 11;
    assert (10.0 * 1.3225).Floor == 13;
    CostCurve.CostStrictlyIncreasing(10.0, 1.15, n);
  }
}
