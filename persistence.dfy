/**
 * Save rehydration (src/App.tsx, `hydrateState`) and the record a save writes. The JSON text,
 * `localStorage` and the `Number(...)` coercion are outside the model: a save arrives already
 * parsed, with every field optional.
 */
module Persistence {
  import opened Wrappers
  import opened Buildings
  import opened Game

  /** A saved building: only `id` and `count` are ever read back. */
  datatype SavedBuilding = SavedBuilding(id: string, count: Option<nat>)

  /**
   * A parsed save. A missing field is `None`; `buildings` and `upgrades` are `None` as well
   * when the saved value is not an array.
   */
  datatype SavedState = SavedState(
    coins: Option<real>,
    sparks: Option<real>,
    buildings: Option<seq<SavedBuilding>>,
    upgrades: Option<seq<string>>,
    totalClicks: Option<real>,
    prestige: Option<real>,
    lastSavedAt: Option<int>)

  /** The position of the first saved building with id `id`, or `|saved|`. */
  function SavedIndexOf(saved: seq<SavedBuilding>, id: string): (k: nat)
    ensures k <= |saved|
    ensures k < |saved| ==> saved[k].id == id
    ensures forall j :: 0 <= j < k ==> saved[j].id != id
  {
    if saved == [] then 0
    else if saved[0].id == id then 0
    else 1 + SavedIndexOf(saved[1..], id)
  }

  /** `match?.count ?? building.count`: the first saved count for the id, else the table's count. */
  function RestoredCount(saved: seq<SavedBuilding>, b: Building): nat
  {
    var k := SavedIndexOf(saved, b.id);
    if k < |saved| then saved[k].count.GetOr(b.count) else b.count
  }

  /** `buildingData.map(...)`: every table entry, in table order, with its restored count. */
  function RestoreBuildings(table: seq<Building>, saved: seq<SavedBuilding>): (r: seq<Building>)
    ensures |r| == |table|
  {
    if table == [] then []
    else [table[0].(count := RestoredCount(saved, table[0]))] + RestoreBuildings(table[1..], saved)
  }

  /** `hydrateState`: no save gives the default state; otherwise each field falls back to its default. */
  function Hydrate(saved: Option<SavedState>, now: int): GameState
  {
    match saved
    case None => DefaultState(now)
    case Some(rec) =>
      GameState(
        rec.coins.GetOr(0.0),
        rec.sparks.GetOr(0.0),
        RestoreBuildings(BuildingData, rec.buildings.GetOr([])),
        rec.upgrades.GetOr([]),
        rec.totalClicks.GetOr(0.0),
        rec.prestige.GetOr(0.0),
        rec.lastSavedAt.GetOr(now))
  }

  /** The record a save writes: the whole state with the write time as `lastSavedAt`. */
  function SaveRecord(s: GameState, timestamp: int): SavedState
  {
    SavedState(Some(s.coins), Some(s.sparks), Some(SavedBuildings(s.buildings)), Some(s.upgrades),
               Some(s.totalClicks), Some(s.prestige), Some(timestamp))
  }

  /** The saved form of a building list: id and count of each entry. */
  function SavedBuildings(bs: seq<Building>): (r: seq<SavedBuilding>)
    ensures |r| == |bs| && forall i :: 0 <= i < |bs| ==> r[i] == SavedBuilding(bs[i].id, Some(bs[i].count))
  {
    if bs == [] then [] else [SavedBuilding(bs[0].id, Some(bs[0].count))] + SavedBuildings(bs[1..])
  }

  /** Some saved building carries the id. */
  predicate Mentions(saved: seq<SavedBuilding>, id: string)
  {
    exists j :: 0 <= j < |saved| && saved[j].id == id
  }

  /** Entry `i` of the restored list is table entry `i` with the count restored from the save. */
  lemma {:induction false} RestoreBuildingsAt(table: seq<Building>, saved: seq<SavedBuilding>, i: nat)
    requires i < |table|
    ensures RestoreBuildings(table, saved)[i] == table[i].(count := RestoredCount(saved, table[i]))
  {
    if i > 0 {
      RestoreBuildingsAt(table[1..], saved, i - 1);
    }
  }

  /**
   * Rehydration is table-driven: the buildings are always the current table's entries in table
   * order; only the count comes from the save, from the first entry with the same id, and an
   * id the save lacks (or an entry without a count) keeps the table's count of 0.
   */
  lemma HydrateBuildings(saved: Option<SavedState>, now: int)
    ensures var bs := Hydrate(saved, now).buildings;
      && MatchesTable(bs)
      && forall i :: 0 <= i < |BuildingData| ==>
           bs[i].count == if saved.None? then 0 else RestoredCount(saved.value.buildings.GetOr([]), BuildingData[i])
    ensures saved.Some? ==>
              forall i :: 0 <= i < |BuildingData| && !Mentions(saved.value.buildings.GetOr([]), BuildingData[i].id) ==>
                Hydrate(saved, now).buildings[i].count == 0
  {
    BuildingDataInvariants();
    if saved.Some? {
      var sb := saved.value.buildings.GetOr([]);
      forall i | 0 <= i < |BuildingData|
        ensures Hydrate(saved, now).buildings[i] == BuildingData[i].(count := RestoredCount(sb, BuildingData[i]))
      {
        RestoreBuildingsAt(BuildingData, sb, i);
      }
    }
  }

  /** No save at all yields the default state. */
  lemma HydrateNothing(now: int)
    ensures Hydrate(None, now) == DefaultState(now)
    ensures Valid(Hydrate(None, now))
  {
  }

  /** Missing fields take their defaults, and a non-array upgrade list becomes empty. */
  lemma HydrateDefaults(rec: SavedState, now: int)
    ensures var s := Hydrate(Some(rec), now);
      && (rec.coins.None? ==> s.coins == 0.0) && (rec.sparks.None? ==> s.sparks == 0.0)
      && (rec.totalClicks.None? ==> s.totalClicks == 0.0) && (rec.prestige.None? ==> s.prestige == 0.0)
      && (rec.lastSavedAt.None? ==> s.lastSavedAt == now) && (rec.upgrades.None? ==> s.upgrades == [])
      && (rec.buildings.None? ==> s.buildings == BuildingData)
  {
    RestoreNothing(BuildingData);
  }

  /** Restoring from an empty saved list keeps every table entry as it is. */
  lemma {:induction false} RestoreNothing(table: seq<Building>)
    ensures RestoreBuildings(table, []) == table
  {
    if table != [] {
      RestoreNothing(table[1..]);
      assert table == [table[0]] + table[1..];
    }
  }

  /** A saved building whose id is not in the table changes nothing, wherever it sits in the list. */
  lemma {:induction false} UnknownSavedBuildingIgnored(xs: seq<SavedBuilding>, k: nat, extra: SavedBuilding, b: Building)
    requires k <= |xs| && extra.id != b.id
    ensures RestoredCount(xs[..k] + [extra] + xs[k..], b) == RestoredCount(xs, b)
  {
    var ys := xs[..k] + [extra] + xs[k..];
    var i, j := SavedIndexOf(xs, b.id), SavedIndexOf(ys, b.id);
    // The first match in `ys` is the first match in `xs`, shifted by one when it lies after `k`.
    if i < k {
      assert ys[i] == xs[i];
      assert forall m :: 0 <= m < i ==> ys[m] == xs[m];
    } else {
      assert forall m :: 0 <= m < k ==> ys[m] == xs[m];
      assert forall m :: k < m <= i ==> ys[m] == xs[m - 1];
      if i < |xs| {
        assert ys[i + 1] == xs[i];
      }
    }
  }

  /** Hydrating a save with an extra building of unknown id gives the same state as without it. */
  lemma HydrateIgnoresUnknownIds(rec: SavedState, xs: seq<SavedBuilding>, k: nat, extra: SavedBuilding, now: int)
    requires rec.buildings == Some(xs) && k <= |xs|
    requires forall i :: 0 <= i < |BuildingData| ==> BuildingData[i].id != extra.id
    ensures Hydrate(Some(rec.(buildings := Some(xs[..k] + [extra] + xs[k..]))), now) == Hydrate(Some(rec), now)
  {
    var ys := xs[..k] + [extra] + xs[k..];
    var a, b := Hydrate(Some(rec.(buildings := Some(ys))), now).buildings, Hydrate(Some(rec), now).buildings;
    forall i | 0 <= i < |BuildingData| ensures a[i] == b[i] {
      RestoreBuildingsAt(BuildingData, ys, i);
      RestoreBuildingsAt(BuildingData, xs, i);
      UnknownSavedBuildingIgnored(xs, k, extra, BuildingData[i]);
    }
  }

  /** Saving a state whose buildings match the table and hydrating the record gives the state back. */
  lemma SaveThenHydrate(s: GameState, timestamp: int, now: int)
    requires MatchesTable(s.buildings)
    ensures Hydrate(Some(SaveRecord(s, timestamp)), now) == s.(lastSavedAt := timestamp)
  {
    MatchesTableIds(s.buildings);
    var saved := SavedBuildings(s.buildings);
    var r := Hydrate(Some(SaveRecord(s, timestamp)), now).buildings;
    forall i | 0 <= i < |BuildingData| ensures r[i] == s.buildings[i] {
      RestoreBuildingsAt(BuildingData, saved, i);
      assert forall j :: 0 <= j < |saved| ==> saved[j].id == BuildingData[j].id;
    }
  }

  /** A save with non-negative amounts and no repeated upgrade rehydrates into a valid state. */
  lemma HydrateValid(rec: SavedState, now: int)
    requires rec.coins.GetOr(0.0) >= 0.0 && rec.sparks.GetOr(0.0) >= 0.0
    requires rec.totalClicks.GetOr(0.0) >= 0.0 && rec.prestige.GetOr(0.0) >= 0.0
    requires NoDuplicates(rec.upgrades.GetOr([]))
    ensures Valid(Hydrate(Some(rec), now))
  {
    HydrateBuildings(Some(rec), now);
  }
}
