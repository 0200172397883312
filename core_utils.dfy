/** The daily goal and the status marker of a task, from threeaday-core's utils. */
module CoreUtils {

  /** The daily goal: three completed tasks. */
  const DailyGoalCompletionCount: nat := 3

  /** Whether `completedCount` completed tasks meet the daily goal. */
  predicate IsDailyGoalAchieved(completedCount: nat) {
    completedCount >= DailyGoalCompletionCount
  }

  /** The goal is met from three completed tasks on, and not before. */
  lemma GoalThreshold(n: nat)
    ensures DailyGoalCompletionCount == 3
    ensures IsDailyGoalAchieved(n) <==> n >= 3
    ensures !IsDailyGoalAchieved(0) && !IsDailyGoalAchieved(1) && !IsDailyGoalAchieved(2)
  {
  }

  /** Completing more tasks never loses the goal. */
  lemma GoalMonotone(n: nat, m: nat)
    requires n <= m && IsDailyGoalAchieved(n)
    ensures IsDailyGoalAchieved(m)
  {
  }

  /** The marker shown in a task list: a check mark for a completed task, a blank otherwise. */
  function FormatTaskStatus(completed: bool): (s: string)
    ensures |s| == 1
    ensures completed ==> s == "✓"
    ensures !completed ==> s == " "
  {
    if completed then "✓" else " "
  }
}
