/**
 * The read-only views of src/App.tsx over the state: achievement progress and the split of the
 * buildings into unlocked and locked ones.
 */
module Progress {
  import opened Wrappers
  import opened Buildings
  import opened Achievements
  import Game

  /** `achievementProgress`: the current value of a named metric, 0 for a name it does not know. */
  function AchievementProgress(metric: string, s: Game.GameState, coinsPerSec: real): real
  {
    if metric == "coins" then s.coins
    else if metric == "clicks" then s.totalClicks
    else if metric == "buildings" then Game.TotalBuildings(s.buildings) as real
    else if metric == "upgrades" then |s.upgrades| as real
    else if metric == "coinsPerSec" then coinsPerSec
    else if metric == "sparks" then s.sparks
    else if metric == "prestige" then s.prestige
    else 0.0
  }

  /** An achievement is unlocked once its progress reaches its target. */
  predicate IsUnlocked(a: Achievement, progress: real)
  {
    progress >= a.target
  }

  /** The bar width: `Math.min(100, progress / target * 100)`. */
  function ProgressPercent(a: Achievement, progress: real): real
    requires a.target > 0.0
  {
    var p := progress / a.target * 100.0;
    if p < 100.0 then p else 100.0
  }

  /** The bar lies in [0, 100] and is full exactly when the achievement is unlocked. */
  lemma PercentBounds(a: Achievement, progress: real)
    requires a.target > 0.0 && progress >= 0.0
    ensures 0.0 <= ProgressPercent(a, progress) <= 100.0
    ensures ProgressPercent(a, progress) == 100.0 <==> IsUnlocked(a, progress)
  {
    if progress < a.target {
      assert progress / a.target < 1.0;
    } else {
      assert progress / a.target >= 1.0;
    }
  }

  /**
   * Every shipped achievement reads a metric with its own case, never the default 0; in a valid
   * state with a non-negative income its progress is non-negative.
   */
  lemma TableMetricsHandled(s: Game.GameState, coinsPerSec: real, i: nat)
    requires i < |AchievementList|
    ensures var a := AchievementList[i];
      && (a.metric == "coins" ==> AchievementProgress(a.metric, s, coinsPerSec) == s.coins)
      && (a.metric == "clicks" ==> AchievementProgress(a.metric, s, coinsPerSec) == s.totalClicks)
      && (a.metric == "buildings" ==> AchievementProgress(a.metric, s, coinsPerSec) == Game.TotalBuildings(s.buildings) as real)
      && (a.metric == "upgrades" ==> AchievementProgress(a.metric, s, coinsPerSec) == |s.upgrades| as real)
      && (a.metric == "coinsPerSec" ==> AchievementProgress(a.metric, s, coinsPerSec) == coinsPerSec)
      && a.metric in Achievements.MetricNames
    ensures Game.Valid(s) && coinsPerSec >= 0.0 ==> AchievementProgress(AchievementList[i].metric, s, coinsPerSec) >= 0.0
  {
    AchievementListInvariants();
  }

  /** A building is shown as available once the coins reach its threshold or one is owned. */
  predicate Available(coins: real, b: Building)
  {
    coins >= b.unlockAt || b.count > 0
  }

  /** `buildingsUnlocked`: the available buildings, in order. */
  function UnlockedBuildings(coins: real, bs: seq<Building>): (r: seq<Building>)
    ensures forall b :: b in r ==> b in bs && Available(coins, b)
  {
    if bs == [] then []
    else (if Available(coins, bs[0]) then [bs[0]] else []) + UnlockedBuildings(coins, bs[1..])
  }

  /** `lockedBuildings`: the buildings not among the unlocked ones, in order. */
  function LockedBuildings(bs: seq<Building>, unlocked: seq<Building>): seq<Building>
  {
    if bs == [] then []
    else (if bs[0] !in unlocked then [bs[0]] else []) + LockedBuildings(bs[1..], unlocked)
  }

  /** The complement filter: the buildings that are not available, in order. */
  function Unavailable(coins: real, bs: seq<Building>): seq<Building>
  {
    if bs == [] then []
    else (if !Available(coins, bs[0]) then [bs[0]] else []) + Unavailable(coins, bs[1..])
  }

  lemma {:induction false} UnlockedContainsAvailable(coins: real, bs: seq<Building>, b: Building)
    requires b in bs && Available(coins, b)
    ensures b in UnlockedBuildings(coins, bs)
  {
    if bs[0] != b {
      UnlockedContainsAvailable(coins, bs[1..], b);
    }
  }

  lemma {:induction false} LockedIsUnavailable(coins: real, bs: seq<Building>, all: seq<Building>)
    requires forall b :: b in bs ==> b in all
    ensures LockedBuildings(bs, UnlockedBuildings(coins, all)) == Unavailable(coins, bs)
  {
    if bs != [] {
      if Available(coins, bs[0]) {
        UnlockedContainsAvailable(coins, all, bs[0]);
      }
      LockedIsUnavailable(coins, bs[1..], all);
    }
  }

  /**
   * The split is a partition: the locked list is exactly the unavailable buildings, and the two
   * lists together hold every building exactly as often as the list does.
   */
  lemma {:induction false} SplitPartitions(coins: real, bs: seq<Building>)
    ensures LockedBuildings(bs, UnlockedBuildings(coins, bs)) == Unavailable(coins, bs)
    ensures multiset(UnlockedBuildings(coins, bs)) + multiset(Unavailable(coins, bs)) == multiset(bs)
    ensures |UnlockedBuildings(coins, bs)| + |Unavailable(coins, bs)| == |bs|
    ensures forall b :: b in Unavailable(coins, bs) ==> b in bs && !Available(coins, b)
  {
    LockedIsUnavailable(coins, bs, bs);
    SplitSizes(coins, bs);
  }

  lemma SplitSizes(coins: real, bs: seq<Building>)
    ensures multiset(UnlockedBuildings(coins, bs)) + multiset(Unavailable(coins, bs)) == multiset(bs)
    ensures |UnlockedBuildings(coins, bs)| + |Unavailable(coins, bs)| == |bs|
    ensures forall b :: b in Unavailable(coins, bs) ==> b in bs && !Available(coins, b)
  {
    SplitMultiset(coins, bs);
    assert |multiset(UnlockedBuildings(coins, bs)) + multiset(Unavailable(coins, bs))| == |multiset(bs)|;
    UnavailableMembers(coins, bs);
  }

  lemma {:induction false} SplitMultiset(coins: real, bs: seq<Building>)
    ensures multiset(UnlockedBuildings(coins, bs)) + multiset(Unavailable(coins, bs)) == multiset(bs)
  {
    if bs != [] {
      SplitMultiset(coins, bs[1..]);
      assert bs == [bs[0]] + bs[1..];
    }
  }

  lemma {:induction false} UnavailableMembers(coins: real, bs: seq<Building>)
    ensures forall b :: b in Unavailable(coins, bs) ==> b in bs && !Available(coins, b)
  {
    if bs != [] {
      UnavailableMembers(coins, bs[1..]);
    }
  }

  /** Thresholds strictly rising along the list. */
  predicate ByUnlock(bs: seq<Building>)
  {
    forall i, j :: 0 <= i < j < |bs| ==> bs[i].unlockAt < bs[j].unlockAt
  }

  /** Filtering keeps the order: the unavailable buildings of a rising list rise too. */
  lemma {:induction false} UnavailableByUnlock(coins: real, bs: seq<Building>)
    requires ByUnlock(bs)
    ensures ByUnlock(Unavailable(coins, bs))
  {
    if bs != [] {
      var tail := bs[1..];
      assert ByUnlock(tail);
      UnavailableByUnlock(coins, tail);
      UnavailableAbove(coins, tail, bs[0].unlockAt);
    }
  }

  /** Every unavailable building of a list whose thresholds exceed `lo` exceeds `lo` too. */
  lemma {:induction false} UnavailableAbove(coins: real, bs: seq<Building>, lo: real)
    requires forall i :: 0 <= i < |bs| ==> lo < bs[i].unlockAt
    ensures forall b :: b in Unavailable(coins, bs) ==> lo < b.unlockAt
  {
    if bs != [] {
      UnavailableAbove(coins, bs[1..], lo);
    }
  }

  /**
   * The building list of a valid state is in table order, which is rising thresholds, so the
   * locked list is already sorted by `unlockAt`: sorting it for display changes nothing, and the
   * next building is its head.
   */
  lemma LockedInUnlockOrder(coins: real, bs: seq<Building>)
    requires Game.MatchesTable(bs)
    ensures ByUnlock(Unavailable(coins, bs))
    ensures Unavailable(coins, bs) != [] ==> NextBuilding(Unavailable(coins, bs)) == Some(Unavailable(coins, bs)[0])
  {
    BuildingDataInvariants();
    assert forall i :: 0 <= i < |bs| ==> bs[i].unlockAt == BuildingData[i].unlockAt;
    RisingFromAdjacent(bs, |bs|);
    UnavailableByUnlock(coins, bs);
  }

  /** Adjacent entries rising make the first `n` entries rising pairwise. */
  lemma {:induction false} RisingFromAdjacent(bs: seq<Building>, n: nat)
    requires n <= |bs|
    requires forall i :: 0 < i < |bs| ==> bs[i - 1].unlockAt < bs[i].unlockAt
    ensures forall i, j :: 0 <= i < j < n ==> bs[i].unlockAt < bs[j].unlockAt
  {
    if n > 1 {
      RisingFromAdjacent(bs, n - 1);
      forall i | 0 <= i < n - 1
        ensures bs[i].unlockAt < bs[n - 1].unlockAt
      {
        if i < n - 2 {
          assert bs[i].unlockAt < bs[n - 2].unlockAt;
        }
      }
    }
  }

  /** More coins never hide a building that was shown. */
  lemma UnlockMonotone(c: real, d: real, b: Building)
    requires c <= d && Available(c, b)
    ensures Available(d, b)
  {
  }

  /** The position of the first building of least `unlockAt`. */
  function FirstLeastIndex(bs: seq<Building>): (k: nat)
    requires bs != []
    ensures k < |bs|
    ensures forall j :: 0 <= j < |bs| ==> bs[k].unlockAt <= bs[j].unlockAt
    ensures forall j :: 0 <= j < k ==> bs[j].unlockAt > bs[k].unlockAt
  {
    if |bs| == 1 then 0
    else
      var k := FirstLeastIndex(bs[1..]);
      if bs[0].unlockAt <= bs[1 + k].unlockAt then 0 else 1 + k
  }

  /**
   * `nextBuilding`: the first element of the locked buildings after a stable sort by `unlockAt`,
   * which is the first building of least threshold; none when nothing is locked.
   */
  function NextBuilding(bs: seq<Building>): (r: Option<Building>)
    ensures r.None? <==> bs == []
    ensures r.Some? ==> r.value in bs && forall b :: b in bs ==> r.value.unlockAt <= b.unlockAt
  {
    if bs == [] then None else Some(bs[FirstLeastIndex(bs)])
  }
}
