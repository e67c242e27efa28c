/** The overview chart of src/components/dashboard/progress-charts.tsx:
    how many goals are completed and how many are still in progress. */
module ProgressCharts {
  import opened Types
  import opened GoalStore

  datatype ChartRow = ChartRow(name: string, value: int)

  /** The positions of the completed goals: an independent count. */
  function CompletedPositions(s: seq<Goal>): set<nat> {
    set i: nat | i < |s| && s[i].isCompleted
  }

  lemma {:induction false} CompletedAppend(s: seq<Goal>, g: Goal)
    ensures Completed(s + [g]) == Completed(s) + (if g.isCompleted then [g] else [])
  {
    if s != [] {
      assert (s + [g])[1..] == s[1..] + [g];
      CompletedAppend(s[1..], g);
    }
  }

  lemma {:induction false} CompletedCountsPositions(s: seq<Goal>)
    ensures |Completed(s)| == |CompletedPositions(s)|
  {
    if s != [] {
      var n := |s| - 1;
      var t := s[..n];
      assert s == t + [s[n]];
      CompletedAppend(t, s[n]);
      CompletedCountsPositions(t);
      if s[n].isCompleted {
        assert CompletedPositions(s) == CompletedPositions(t) + {n};
      } else {
        assert CompletedPositions(s) == CompletedPositions(t);
      }
    }
  }

  /** `goals.filter(g => g.isCompleted).length`. */
  function CompletedGoals(goals: seq<Goal>): (n: int)
    ensures 0 <= n <= |goals|
    ensures n == |CompletedPositions(goals)|
  {
    CompletedCountsPositions(goals);
    |Completed(goals)|
  }

  /** `goals.length - completedGoals`: exactly the goals the in-progress
      list shows. */
  function InProgressGoals(goals: seq<Goal>): (n: int)
    ensures 0 <= n <= |goals|
    ensures n + CompletedGoals(goals) == |goals|
    ensures n == |InProgress(goals)|
  {
    ViewsPartition(goals);
    |goals| - CompletedGoals(goals)
  }

  /** The two bars, "In Progress" first. */
  function ChartData(goals: seq<Goal>): (rows: seq<ChartRow>)
    ensures |rows| == 2
    ensures rows[0].name == "In Progress" && rows[1].name == "Completed"
    ensures rows[0].value + rows[1].value == |goals|
    ensures rows[1].value == |CompletedPositions(goals)|
    ensures rows[0].value == |InProgress(goals)|
  {
    [ChartRow("In Progress", InProgressGoals(goals)), ChartRow("Completed", CompletedGoals(goals))]
  }
}
