/**
 * The Pinia store of the earlier Vue snapshot (src/stores/game.js): coins and a mutable copy of
 * the building table, a purchase that spends coins on one more unit, and `coinsPerSec` as the
 * plain sum of `count * baseIncome`.
 */
module PiniaStore {
  import opened Wrappers
  import opened PiniaBuildings

  /** The position of the first building with that id, `|bs|` when there is none (`find`). */
  function IndexOf(bs: seq<Building>, id: string): (k: nat)
    ensures k <= |bs|
    ensures k < |bs| ==> bs[k].id == id
    ensures forall j :: 0 <= j < k ==> bs[j].id != id
  {
    if bs == [] then 0 else if bs[0].id == id then 0 else 1 + IndexOf(bs[1..], id)
  }

  /** Income per second of a building list: `count * baseIncome` summed. */
  function Income(bs: seq<Building>): real
  {
    if bs == [] then 0.0 else bs[0].count as real * bs[0].baseIncome + Income(bs[1..])
  }

  /** One more unit of building `k` adds exactly that building's base income. */
  lemma {:induction false} IncomeAfterPurchase(bs: seq<Building>, k: nat)
    requires k < |bs|
    ensures Income(bs[k := bs[k].(count := bs[k].count + 1)]) == Income(bs) + bs[k].baseIncome
  {
    var bs' := bs[k := bs[k].(count := bs[k].count + 1)];
    if k == 0 {
      assert bs'[1..] == bs[1..];
    } else {
      assert bs'[1..] == bs[1..][k - 1 := bs[k].(count := bs[k].count + 1)];
      IncomeAfterPurchase(bs[1..], k - 1);
    }
  }

  /** With non-negative base incomes the income is non-negative. */
  lemma {:induction false} IncomeNonNegative(bs: seq<Building>)
    requires forall i :: 0 <= i < |bs| ==> bs[i].baseIncome >= 0.0
    ensures Income(bs) >= 0.0
  {
    if bs != [] {
      IncomeNonNegative(bs[1..]);
      assert bs[0].count as real * bs[0].baseIncome >= 0.0;
    }
  }

  /** The store's table is the shipped one, each entry with its own owned count. */
  predicate MatchesTable(bs: seq<Building>)
  {
    |bs| == |BuildingData| && forall i :: 0 <= i < |bs| ==> bs[i] == BuildingData[i].(count := bs[i].count)
  }

  class GameStore {
    var coins: real
    var buildings: seq<Building>

    /** Coins never go negative and the buildings are the table's entries. */
    predicate Valid()
      reads this
    {
      coins >= 0.0 && MatchesTable(buildings)
    }

    /** `coins = ref(0)` and a deep copy of the table. */
    constructor()
      ensures coins == 0.0 && buildings == BuildingData
      ensures Valid()
    {
      coins := 0.0;
      buildings := BuildingData;
    }

    /** `coinsPerSec`. */
    function CoinsPerSec(): real
      reads this
    {
      Income(buildings)
    }

    /** `excavator`: the first building with id `excavator`, if any. */
    function Excavator(): (r: Option<Building>)
      reads this
      ensures r.Some? <==> exists i :: 0 <= i < |buildings| && buildings[i].id == "excavator"
      ensures r.Some? ==> r.value in buildings && r.value.id == "excavator"
    {
      var k := IndexOf(buildings, "excavator");
      if k < |buildings| then Some(buildings[k]) else None
    }

    /**
     * `buyBuilding`: an unknown id or too few coins is refused with `false` and nothing changes;
     * otherwise the price is paid and the first building with that id gains one unit.
     */
    method BuyBuilding(id: string) returns (ok: bool)
      modifies this
      ensures var k := IndexOf(old(buildings), id);
        if k < |old(buildings)| && old(coins) >= GetBuildingCost(old(buildings)[k]) as real then
          && ok
          && coins == old(coins) - GetBuildingCost(old(buildings)[k]) as real
          && buildings == old(buildings)[k := old(buildings)[k].(count := old(buildings)[k].count + 1)]
          && CoinsPerSec() == old(CoinsPerSec()) + old(buildings)[k].baseIncome
        else
          !ok && coins == old(coins) && buildings == old(buildings)
      ensures ok ==> coins >= 0.0
      ensures old(Valid()) ==> Valid()
    {
      var k := IndexOf(buildings, id);
      if k == |buildings| {
        return false;
      }
      var cost := GetBuildingCost(buildings[k]);
      if coins >= cost as real {
        IncomeAfterPurchase(buildings, k);
        coins := coins - cost as real;
        buildings := buildings[k := buildings[k].(count := buildings[k].count + 1)];
        return true;
      }
      return false;
    }

    /** `addCoins`. */
    method AddCoins(amount: real)
      modifies this
      ensures coins == old(coins) + amount && buildings == old(buildings)
      ensures old(Valid()) && amount >= 0.0 ==> Valid()
    {
      coins := coins + amount;
    }
  }

  /** From a fresh store, buying the first excavator needs 10 coins and leaves an income of 0.2 per second. */
  lemma FirstExcavator()
    ensures IndexOf(BuildingData, "excavator") == 0
    ensures GetBuildingCost(BuildingData[0]) == 10
    ensures Income(BuildingData[0 := BuildingData[0].(count := 1)]) == 0.2
  {
    ExcavatorPrices(0);
    IncomeAfterPurchase(BuildingData, 0);
  }
}
