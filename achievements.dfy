/** The achievement table of the React version (src/modules/achievements.ts). */
module Achievements {

  /** An achievement: reach `target` in the named `metric`. Title and description are not modelled. */
  datatype Achievement = Achievement(id: string, target: real, metric: string)

  /** The metric names an achievement may use. */
  const MetricNames: set<string> := {"coins", "clicks", "buildings", "upgrades", "coinsPerSec"}

  const AchievementList: seq<Achievement> := [
    Achievement("first-scroll", 50.0, "coins"),
    Achievement("steady-hands", 100.0, "clicks"),
    Achievement("camp-master", 8.0, "buildings"),
    Achievement("archive-keeper", 3.0, "upgrades"),
    Achievement("signal-network", 75.0, "coinsPerSec"),
    Achievement("chronicle-legend", 25000.0, "coins")
  ]

  /** Table invariants: distinct ids, positive targets, every metric one of the declared names. */
  lemma AchievementListInvariants()
    ensures forall i, j :: 0 <= i < j < |AchievementList| ==> AchievementList[i].id != AchievementList[j].id
    ensures forall i :: 0 <= i < |AchievementList| ==> AchievementList[i].target > 0.0
    ensures forall i :: 0 <= i < |AchievementList| ==> AchievementList[i].metric in MetricNames
  {
  }
}
