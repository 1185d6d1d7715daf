/**
 * The derived values of src/App.tsx that are recomputed from the state on every change
 * (the `useMemo` blocks): additive upgrade bonuses, the prestige multiplier, the click value,
 * the per-building income map and its totals, and the prestige gain.
 */
module Metrics {
  import opened Wrappers
  import opened Buildings
  import opened Upgrades
  import Game

  const PRESTIGE_THRESHOLD: real := 25000.0
  const PRESTIGE_MULTIPLIER: real := 0.06

  /** `ownedUpgrades`: the owned upgrade ids as a set. */
  function Owned(s: Game.GameState): set<string>
  {
    set id | id in s.upgrades
  }

  /** `prestigeMultiplier`: each prestige point adds 6% to income and clicks. */
  function PrestigeMultiplier(prestige: real): (m: real)
    ensures prestige >= 0.0 ==> m >= 1.0
    ensures prestige == 0.0 ==> m == 1.0
  {
    1.0 + prestige * PRESTIGE_MULTIPLIER
  }

  /** Which bonus field of an upgrade is being summed. */
  datatype Bonus = IncomeBonus | SparkBonus | ClickBonus | AutoClickBonus

  /** Which upgrades take part in a sum: the untargeted ones, those aimed at one building, or all. */
  datatype Scope = Untargeted | TargetOf(buildingId: string) | AnyUpgrade

  predicate InScope(u: Upgrade, scope: Scope)
  {
    match scope
    case Untargeted => !HasTarget(u)
    case TargetOf(id) => u.targetBuildingId == Some(id)
    case AnyUpgrade => true
  }

  /** The bonus field, 0 when absent (adding an absent or zero field leaves a sum unchanged). */
  function BonusOf(u: Upgrade, kind: Bonus): real
  {
    match kind
    case IncomeBonus => u.incomeMultiplier.GetOr(0.0)
    case SparkBonus => u.sparkMultiplier.GetOr(0.0)
    case ClickBonus => u.clickBonus.GetOr(0.0)
    case AutoClickBonus => u.autoClicks.GetOr(0.0)
  }

  /** What one upgrade adds to a sum: its bonus when it is owned and in scope, else nothing. */
  function Contribution(u: Upgrade, owned: set<string>, scope: Scope, kind: Bonus): real
  {
    if u.id in owned && InScope(u, scope) then BonusOf(u, kind) else 0.0
  }

  /** The `upgradeData.reduce` sums: bonuses of owned upgrades in scope, added (never compounded). */
  function BonusSum(ups: seq<Upgrade>, owned: set<string>, scope: Scope, kind: Bonus): real
  {
    if ups == [] then 0.0 else Contribution(ups[0], owned, scope, kind) + BonusSum(ups[1..], owned, scope, kind)
  }

  /** `globalIncomeMultiplier`. */
  function GlobalIncomeMultiplier(owned: set<string>): real
  {
    BonusSum(UpgradeData, owned, Untargeted, IncomeBonus)
  }

  /** `globalSparkMultiplier`. */
  function GlobalSparkMultiplier(owned: set<string>): real
  {
    BonusSum(UpgradeData, owned, Untargeted, SparkBonus)
  }

  /** `clickBonus`: a click is worth 1 plus every owned click bonus. */
  function ClickValue(owned: set<string>): real
  {
    1.0 + BonusSum(UpgradeData, owned, AnyUpgrade, ClickBonus)
  }

  /** Auto-clicks contributed by owned buildings (`(baseAutoClicks ?? 0) * count`). */
  function BuildingAutoClicks(bs: seq<Building>): real
  {
    if bs == [] then 0.0 else bs[0].baseAutoClicks.GetOr(0.0) * bs[0].count as real + BuildingAutoClicks(bs[1..])
  }

  /** `autoClicksPerSec`: building auto-clicks plus owned auto-click upgrades. */
  function AutoClicksPerSec(bs: seq<Building>, owned: set<string>): real
  {
    BuildingAutoClicks(bs) + BonusSum(UpgradeData, owned, AnyUpgrade, AutoClickBonus)
  }

  /** `effectiveClickValue`. */
  function EffectiveClickValue(owned: set<string>, prestigeMult: real, boostMult: real): real
  {
    ClickValue(owned) * prestigeMult * boostMult
  }

  /** One entry of `buildingIncomeMap`. */
  datatype Income = Income(incomePerUnit: real, totalIncome: real, sparkIncomePerUnit: real, sparkTotalIncome: real)

  /**
   * The income of one building: base income scaled by one plus its own and the global additive
   * bonuses, by prestige and by the boost; spark income likewise but never boosted.
   */
  function BuildingIncome(b: Building, owned: set<string>, prestigeMult: real, boostMult: real): Income
  {
    var buildingMultiplier := BonusSum(UpgradeData, owned, TargetOf(b.id), IncomeBonus);
    var sparkMultiplier := BonusSum(UpgradeData, owned, TargetOf(b.id), SparkBonus);
    var incomePerUnit := b.baseIncome * (1.0 + buildingMultiplier + GlobalIncomeMultiplier(owned)) * prestigeMult * boostMult;
    var sparkIncomePerUnit := b.baseSparkIncome.GetOr(0.0) * (1.0 + sparkMultiplier + GlobalSparkMultiplier(owned)) * prestigeMult;
    Income(incomePerUnit, incomePerUnit * b.count as real, sparkIncomePerUnit, sparkIncomePerUnit * b.count as real)
  }

  /** `buildingIncomeMap`: folded over the buildings in order, a later id overwriting an earlier one. */
  function IncomeMap(bs: seq<Building>, owned: set<string>, prestigeMult: real, boostMult: real): map<string, Income>
  {
    if bs == [] then map[]
    else IncomeMap(bs[..|bs| - 1], owned, prestigeMult, boostMult)[bs[|bs| - 1].id := BuildingIncome(bs[|bs| - 1], owned, prestigeMult, boostMult)]
  }

  /** `coinsPerSec`: the buildings' total incomes looked up in the map (0 for a missing id). */
  function CoinsPerSec(bs: seq<Building>, m: map<string, Income>): real
  {
    if bs == [] then 0.0
    else (if bs[0].id in m then m[bs[0].id].totalIncome else 0.0) + CoinsPerSec(bs[1..], m)
  }

  /** `sparksPerSec`: the buildings' total spark incomes looked up in the map. */
  function SparksPerSec(bs: seq<Building>, m: map<string, Income>): real
  {
    if bs == [] then 0.0
    else (if bs[0].id in m then m[bs[0].id].sparkTotalIncome else 0.0) + SparksPerSec(bs[1..], m)
  }

  /** The reference sum of every building's coin income, computed without the map. */
  function TotalIncome(bs: seq<Building>, owned: set<string>, prestigeMult: real, boostMult: real): real
  {
    if bs == [] then 0.0 else BuildingIncome(bs[0], owned, prestigeMult, boostMult).totalIncome + TotalIncome(bs[1..], owned, prestigeMult, boostMult)
  }

  /** The reference sum of every building's spark income, computed without the map. */
  function TotalSparkIncome(bs: seq<Building>, owned: set<string>, prestigeMult: real, boostMult: real): real
  {
    if bs == [] then 0.0 else BuildingIncome(bs[0], owned, prestigeMult, boostMult).sparkTotalIncome + TotalSparkIncome(bs[1..], owned, prestigeMult, boostMult)
  }

  /** The largest `r` with `r * r <= q`, counting up from `n`. */
  function SqrtFloorFrom(n: nat, q: real): (r: nat)
    requires (n * n) as real <= q
    ensures (r * r) as real <= q < ((r + 1) * (r + 1)) as real
    decreases q.Floor - n
  {
    if (((n + 1) * (n + 1)) as real <= q) then
      assert n + 1 <= (n + 1) * (n + 1);
      SqrtFloorFrom(n + 1, q)
    else n
  }

  /** `prestigeGain = floor(sqrt(coins / 25000))`: the largest `n` with `n * n * 25000 <= coins`. */
  function PrestigeGain(coins: real): (n: nat)
    requires coins >= 0.0
    ensures (n * n) as real * PRESTIGE_THRESHOLD <= coins < ((n + 1) * (n + 1)) as real * PRESTIGE_THRESHOLD
  {
    SqrtFloorFrom(0, coins / PRESTIGE_THRESHOLD)
  }

  // ----- Lemmas ------------------------------------------------------------------------------

  /** Nobody gains prestige below 25000 coins, and everyone at or above it gains at least one point. */
  lemma PrestigeGainPositive(coins: real)
    requires coins >= 0.0
    ensures PrestigeGain(coins) > 0 <==> coins >= PRESTIGE_THRESHOLD
  {
    var n := PrestigeGain(coins);
    if n > 0 {
      assert n * n >= 1;
    }
  }

  /** More coins never give less prestige. */
  lemma PrestigeGainMonotone(c: real, d: real)
    requires 0.0 <= c <= d
    ensures PrestigeGain(c) <= PrestigeGain(d)
  {
    var m, n := PrestigeGain(c), PrestigeGain(d);
    assert (m * m) as real < ((n + 1) * (n + 1)) as real;
    SquareMonotone(n + 1, m);
  }

  /** Squaring a natural keeps order. */
  lemma SquareMonotone(a: nat, b: nat)
    ensures a <= b ==> a * a <= b * b
  {
    if a <= b {
      assert a * a <= a * b;
    }
  }

  /** A sum of non-negative bonuses is non-negative. */
  lemma {:induction false} BonusSumNonNegative(ups: seq<Upgrade>, owned: set<string>, scope: Scope, kind: Bonus)
    requires forall i :: 0 <= i < |ups| ==> BonusOf(ups[i], kind) >= 0.0
    ensures BonusSum(ups, owned, scope, kind) >= 0.0
  {
    if ups != [] {
      BonusSumNonNegative(ups[1..], owned, scope, kind);
    }
  }

  /** With nothing owned every bonus sum is zero. */
  lemma {:induction false} BonusSumNothingOwned(ups: seq<Upgrade>, owned: set<string>, scope: Scope, kind: Bonus)
    requires owned == {}
    ensures BonusSum(ups, owned, scope, kind) == 0.0
  {
    if ups != [] {
      BonusSumNothingOwned(ups[1..], owned, scope, kind);
    }
  }

  /** Owning an id that no upgrade carries changes no sum. */
  lemma {:induction false} BonusSumAbsentId(ups: seq<Upgrade>, owned: set<string>, id: string, scope: Scope, kind: Bonus)
    requires forall i :: 0 <= i < |ups| ==> ups[i].id != id
    ensures BonusSum(ups, owned + {id}, scope, kind) == BonusSum(ups, owned, scope, kind)
  {
    if ups != [] {
      BonusSumAbsentId(ups[1..], owned, id, scope, kind);
    }
  }

  /**
   * Bonuses are additive: owning one more upgrade raises every sum by exactly that upgrade's own
   * contribution, whatever else is owned.
   */
  lemma {:induction false} BonusSumAddOwned(ups: seq<Upgrade>, owned: set<string>, id: string, scope: Scope, kind: Bonus)
    requires Upgrades.UniqueIds(ups) && id !in owned
    ensures var k := Upgrades.IndexOf(ups, id);
      BonusSum(ups, owned + {id}, scope, kind) ==
        BonusSum(ups, owned, scope, kind) + (if k < |ups| then Contribution(ups[k], {id}, scope, kind) else 0.0)
  {
    if ups != [] {
      if ups[0].id == id {
        assert forall i :: 0 <= i < |ups| - 1 ==> ups[1..][i].id != id;
        BonusSumAbsentId(ups[1..], owned, id, scope, kind);
      } else {
        BonusSumAddOwned(ups[1..], owned, id, scope, kind);
      }
    }
  }

  /**
   * What each action does to the owned set: an accepted upgrade purchase adds exactly its id, a
   * refused one nothing; reset and prestige empty it; a load takes the payload's; every other
   * action leaves it as it was.
   */
  lemma OwnedAfterAction(s: Game.GameState, a: Game.Action, now: int)
    ensures var r := Game.Reduce(s, a, now);
      && (a.BuyUpgrade? ==> Owned(r) == Owned(s) + (if Game.CanBuyUpgrade(s, a.id) then {a.id} else {}))
      && (a.Reset? || a.Prestige? ==> Owned(r) == {})
      && (a.LoadState? ==> Owned(r) == Owned(a.payload))
      && (!a.BuyUpgrade? && !a.Reset? && !a.Prestige? && !a.LoadState? ==> Owned(r) == Owned(s))
  {
    match a
    case BuyUpgrade(id) =>
      if Game.CanBuyUpgrade(s, id) {
        Game.BuyUpgradeAccepted(s, id, now);
        var r := Game.Reduce(s, a, now);
        assert forall x :: x in r.upgrades <==> x in s.upgrades || x == id;
      } else {
        Game.BuyUpgradeRejected(s, id, now);
      }
    case _ =>
  }

  /**
   * Buying an upgrade adds its bonuses to the running totals: the global income and spark
   * multipliers, the click value and the auto-click rate each rise by exactly that upgrade's share.
   */
  lemma BoughtUpgradeAddsItsBonus(s: Game.GameState, id: string, now: int)
    requires Game.CanBuyUpgrade(s, id)
    ensures var r := Game.Reduce(s, Game.BuyUpgrade(id), now);
      var u := FindUpgrade(UpgradeData, id).value;
      && GlobalIncomeMultiplier(Owned(r)) == GlobalIncomeMultiplier(Owned(s)) + (if HasTarget(u) then 0.0 else BonusOf(u, IncomeBonus))
      && GlobalSparkMultiplier(Owned(r)) == GlobalSparkMultiplier(Owned(s)) + (if HasTarget(u) then 0.0 else BonusOf(u, SparkBonus))
      && ClickValue(Owned(r)) == ClickValue(Owned(s)) + BonusOf(u, ClickBonus)
      && AutoClicksPerSec(r.buildings, Owned(r)) == AutoClicksPerSec(s.buildings, Owned(s)) + BonusOf(u, AutoClickBonus)
  {
    Game.BuyUpgradeAccepted(s, id, now);
    var r := Game.Reduce(s, Game.BuyUpgrade(id), now);
    assert Owned(r) == Owned(s) + {id};
    UpgradeIdsUnique();
    var k := Upgrades.IndexOf(UpgradeData, id);
    assert FindUpgrade(UpgradeData, id).value == UpgradeData[k];
    BonusSumAddOwned(UpgradeData, Owned(s), id, Untargeted, IncomeBonus);
    BonusSumAddOwned(UpgradeData, Owned(s), id, Untargeted, SparkBonus);
    BonusSumAddOwned(UpgradeData, Owned(s), id, AnyUpgrade, ClickBonus);
    BonusSumAddOwned(UpgradeData, Owned(s), id, AnyUpgrade, AutoClickBonus);
  }

  /** With the shipped table a click is always worth at least 1 and every bonus sum is non-negative. */
  lemma ShippedBonusesNonNegative(owned: set<string>, scope: Scope, kind: Bonus)
    ensures BonusSum(UpgradeData, owned, scope, kind) >= 0.0
    ensures ClickValue(owned) >= 1.0
  {
    UpgradePricesAndBonuses();
    assert forall i :: 0 <= i < |UpgradeData| ==> BonusOf(UpgradeData[i], kind) >= 0.0;
    BonusSumNonNegative(UpgradeData, owned, scope, kind);
    assert forall i :: 0 <= i < |UpgradeData| ==> BonusOf(UpgradeData[i], ClickBonus) >= 0.0;
    BonusSumNonNegative(UpgradeData, owned, AnyUpgrade, ClickBonus);
  }

  /** With distinct ids, the map holds every building's own income under its id. */
  lemma {:induction false} IncomeMapLookup(bs: seq<Building>, owned: set<string>, pm: real, bm: real, i: nat)
    requires Buildings.UniqueIds(bs) && i < |bs|
    ensures bs[i].id in IncomeMap(bs, owned, pm, bm)
    ensures IncomeMap(bs, owned, pm, bm)[bs[i].id] == BuildingIncome(bs[i], owned, pm, bm)
  {
    var n := |bs| - 1;
    if i < n {
      IncomeMapLookup(bs[..n], owned, pm, bm, i);
      assert bs[..n][i] == bs[i];
    }
  }

  /** Looking every building up in a map that holds its own income gives the reference sums. */
  lemma {:induction false} PerSecFromMap(bs: seq<Building>, m: map<string, Income>, owned: set<string>, pm: real, bm: real)
    requires forall i :: 0 <= i < |bs| ==> bs[i].id in m && m[bs[i].id] == BuildingIncome(bs[i], owned, pm, bm)
    ensures CoinsPerSec(bs, m) == TotalIncome(bs, owned, pm, bm)
    ensures SparksPerSec(bs, m) == TotalSparkIncome(bs, owned, pm, bm)
  {
    if bs != [] {
      assert forall i :: 0 <= i < |bs| - 1 ==> bs[1..][i] == bs[i + 1];
      PerSecFromMap(bs[1..], m, owned, pm, bm);
    }
  }

  /** `coinsPerSec` and `sparksPerSec` are the sums of the per-building totals. */
  lemma PerSecAreSums(bs: seq<Building>, owned: set<string>, pm: real, bm: real)
    requires Buildings.UniqueIds(bs)
    ensures CoinsPerSec(bs, IncomeMap(bs, owned, pm, bm)) == TotalIncome(bs, owned, pm, bm)
    ensures SparksPerSec(bs, IncomeMap(bs, owned, pm, bm)) == TotalSparkIncome(bs, owned, pm, bm)
  {
    forall i | 0 <= i < |bs|
      ensures bs[i].id in IncomeMap(bs, owned, pm, bm)
      ensures IncomeMap(bs, owned, pm, bm)[bs[i].id] == BuildingIncome(bs[i], owned, pm, bm)
    {
      IncomeMapLookup(bs, owned, pm, bm, i);
    }
    PerSecFromMap(bs, IncomeMap(bs, owned, pm, bm), owned, pm, bm);
  }

  /** The boost scales coin income by exactly its factor and leaves spark income alone. */
  lemma {:induction false} BoostScalesCoinsOnly(bs: seq<Building>, owned: set<string>, pm: real, bm: real)
    ensures TotalIncome(bs, owned, pm, bm) == bm * TotalIncome(bs, owned, pm, 1.0)
    ensures TotalSparkIncome(bs, owned, pm, bm) == TotalSparkIncome(bs, owned, pm, 1.0)
  {
    if bs != [] {
      BoostScalesCoinsOnly(bs[1..], owned, pm, bm);
      BoostScalesBuilding(bs[0], owned, pm, bm);
    }
  }

  lemma BoostScalesBuilding(b: Building, owned: set<string>, pm: real, bm: real)
    ensures BuildingIncome(b, owned, pm, bm).totalIncome == bm * BuildingIncome(b, owned, pm, 1.0).totalIncome
    ensures BuildingIncome(b, owned, pm, bm).sparkTotalIncome == BuildingIncome(b, owned, pm, 1.0).sparkTotalIncome
  {
    var x := b.baseIncome * (1.0 + BonusSum(UpgradeData, owned, TargetOf(b.id), IncomeBonus) + GlobalIncomeMultiplier(owned)) * pm;
    ScaleCommutes(x, bm, b.count as real);
  }

  lemma ScaleCommutes(x: real, bm: real, c: real)
    ensures x * bm * c == bm * (x * 1.0 * c)
  {
  }

  /** Reference sum of `count * baseIncome`, the income formula of the early store. */
  function PlainIncome(bs: seq<Building>): real
  {
    if bs == [] then 0.0 else bs[0].count as real * bs[0].baseIncome + PlainIncome(bs[1..])
  }

  /** Without upgrades, prestige or boost, income is just `count * baseIncome` summed over buildings. */
  lemma {:induction false} BareIncome(bs: seq<Building>, owned: set<string>)
    requires owned == {}
    ensures TotalIncome(bs, owned, PrestigeMultiplier(0.0), 1.0) == PlainIncome(bs)
  {
    if bs != [] {
      BareIncome(bs[1..], owned);
      BareBuildingIncome(bs[0], owned);
    }
  }

  /** Without upgrades, prestige or boost one building earns `count * baseIncome`. */
  lemma BareBuildingIncome(b: Building, owned: set<string>)
    requires owned == {}
    ensures BuildingIncome(b, owned, PrestigeMultiplier(0.0), 1.0).totalIncome == b.count as real * b.baseIncome
  {
    BonusSumNothingOwned(UpgradeData, owned, TargetOf(b.id), IncomeBonus);
    BonusSumNothingOwned(UpgradeData, owned, Untargeted, IncomeBonus);
    var x := BonusSum(UpgradeData, owned, TargetOf(b.id), IncomeBonus);
    var y := GlobalIncomeMultiplier(owned);
    var per := b.baseIncome * (1.0 + x + y) * 1.0 * 1.0;
    assert PrestigeMultiplier(0.0) == 1.0;
    assert BuildingIncome(b, owned, 1.0, 1.0).totalIncome == per * b.count as real;
    assert per == b.baseIncome;
  }

  /** For well-formed buildings and non-negative multipliers every income total is non-negative. */
  lemma {:induction false} TotalsNonNegative(bs: seq<Building>, owned: set<string>, pm: real, bm: real)
    requires forall i :: 0 <= i < |bs| ==> WellFormed(bs[i])
    requires pm >= 0.0 && bm >= 0.0
    ensures TotalIncome(bs, owned, pm, bm) >= 0.0
    ensures TotalSparkIncome(bs, owned, pm, bm) >= 0.0
    ensures BuildingAutoClicks(bs) >= 0.0
  {
    if bs != [] {
      TotalsNonNegative(bs[1..], owned, pm, bm);
      BuildingIncomeNonNegative(bs[0], owned, pm, bm);
    }
  }

  /** One well-formed building earns non-negative coin, spark and auto-click amounts. */
  lemma BuildingIncomeNonNegative(b: Building, owned: set<string>, pm: real, bm: real)
    requires WellFormed(b) && pm >= 0.0 && bm >= 0.0
    ensures BuildingIncome(b, owned, pm, bm).totalIncome >= 0.0
    ensures BuildingIncome(b, owned, pm, bm).sparkTotalIncome >= 0.0
    ensures b.baseAutoClicks.GetOr(0.0) * b.count as real >= 0.0
  {
    ShippedBonusesNonNegative(owned, TargetOf(b.id), IncomeBonus);
    ShippedBonusesNonNegative(owned, TargetOf(b.id), SparkBonus);
    ShippedBonusesNonNegative(owned, Untargeted, IncomeBonus);
    ShippedBonusesNonNegative(owned, Untargeted, SparkBonus);
    var c := b.count as real;
    ScaledNonNegative(b.baseIncome, BonusSum(UpgradeData, owned, TargetOf(b.id), IncomeBonus),
      GlobalIncomeMultiplier(owned), pm, bm, c);
    ScaledNonNegative(b.baseSparkIncome.GetOr(0.0), BonusSum(UpgradeData, owned, TargetOf(b.id), SparkBonus),
      GlobalSparkMultiplier(owned), pm, 1.0, c);
    assert b.baseAutoClicks.GetOr(0.0) * c >= 0.0;
  }

  /** A non-negative base raised by two non-negative bonuses and scaled by non-negative factors. */
  lemma ScaledNonNegative(base: real, x: real, y: real, pm: real, bm: real, c: real)
    requires base >= 0.0 && x >= 0.0 && y >= 0.0 && pm >= 0.0 && bm >= 0.0 && c >= 0.0
    ensures base * (1.0 + x + y) * pm * bm * c >= 0.0
    ensures base * (1.0 + x + y) * pm * c >= 0.0
  {
    MulNonNegative4(base, 1.0 + x + y, pm, bm);
    MulNonNegative4(base, 1.0 + x + y, pm, c);
    assert base * (1.0 + x + y) * pm * bm * c >= 0.0;
  }

  lemma MulNonNegative4(a: real, b: real, c: real, d: real)
    requires a >= 0.0 && b >= 0.0 && c >= 0.0 && d >= 0.0
    ensures a * b * c * d >= 0.0
  {
    assert a * b >= 0.0;
    assert a * b * c >= 0.0;
  }

  /**
   * In a valid state with a boost factor of at least 1, coin and spark income, auto-clicks and the
   * click value are all non-negative, so the periodic tick only ever adds.
   */
  lemma IncomesNonNegative(s: Game.GameState, bm: real)
    requires Game.Valid(s) && bm >= 1.0
    ensures CoinsPerSec(s.buildings, IncomeMap(s.buildings, Owned(s), PrestigeMultiplier(s.prestige), bm)) >= 0.0
    ensures SparksPerSec(s.buildings, IncomeMap(s.buildings, Owned(s), PrestigeMultiplier(s.prestige), bm)) >= 0.0
    ensures AutoClicksPerSec(s.buildings, Owned(s)) >= 0.0
    ensures EffectiveClickValue(Owned(s), PrestigeMultiplier(s.prestige), bm) >= 1.0
  {
    var pm := PrestigeMultiplier(s.prestige);
    MatchesTableWellFormed(s.buildings);
    Game.MatchesTableIds(s.buildings);
    PerSecAreSums(s.buildings, Owned(s), pm, bm);
    TotalsNonNegative(s.buildings, Owned(s), pm, bm);
    ShippedBonusesNonNegative(Owned(s), AnyUpgrade, AutoClickBonus);
    var cv := ClickValue(Owned(s));
    ProductAtLeastOne(cv, pm, bm);
  }

  lemma ProductAtLeastOne(a: real, b: real, c: real)
    requires a >= 1.0 && b >= 1.0 && c >= 1.0
    ensures a * b * c >= 1.0
  {
    assert a * b >= b;
    assert a * b * c >= c;
  }

  /** Every building of a list that matches the table is well formed. */
  lemma MatchesTableWellFormed(bs: seq<Building>)
    requires Game.MatchesTable(bs)
    ensures forall i :: 0 <= i < |bs| ==> WellFormed(bs[i])
  {
    TableWellFormed();
    forall i | 0 <= i < |bs| ensures WellFormed(bs[i]) {
      assert WellFormed(BuildingData[i]);
      assert bs[i] == BuildingData[i].(count := bs[i].count);
    }
  }
}
