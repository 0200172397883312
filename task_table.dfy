/** What the SQL of both task stores computes over the `tasks` table, kept as a
    sequence of rows in rowid order. */
module TaskTable {
  import opened Wrappers
  import opened Clock
  import opened CoreTask

  /** Row ids strictly increase along the table, so no id occurs twice. */
  ghost predicate IdsIncreasing(rows: seq<Task>) {
    forall i, j :: 0 <= i < j < |rows| ==> rows[i].id < rows[j].id
  }

  /** `SELECT ... WHERE created_at = today ORDER BY id`, for a table already in id order. */
  function TodayTasks(rows: seq<Task>, today: Date): (r: seq<Task>)
    ensures |r| <= |rows|
    ensures forall t :: t in r <==> t in rows && t.createdAt == today
  {
    if rows == [] then []
    else
      var init, last := rows[..|rows| - 1], rows[|rows| - 1];
      assert rows == init + [last];
      TodayTasks(init, today) + (if last.createdAt == today then [last] else [])
  }

  /** `tasks.iter().filter(|t| t.completed).count()`. */
  function CountCompleted(tasks: seq<Task>): (n: nat)
    ensures n <= |tasks|
    ensures n == 0 <==> forall i :: 0 <= i < |tasks| ==> !tasks[i].completed
    ensures n == |tasks| <==> forall i :: 0 <= i < |tasks| ==> tasks[i].completed
  {
    if tasks == [] then 0
    else
      var init := tasks[..|tasks| - 1];
      assert forall i :: 0 <= i < |init| ==> init[i] == tasks[i];
      CountCompleted(init) + (if tasks[|tasks| - 1].completed then 1 else 0)
  }

  /** `get_today_summary`: (completed, total) over today's tasks. */
  function Summary(tasks: seq<Task>): (s: (nat, nat))
    ensures s.0 <= s.1 && s.1 == |tasks|
    ensures s.0 == CountCompleted(tasks)
  {
    (CountCompleted(tasks), |tasks|)
  }

  /** The position of the row with id `id`, if there is one. */
  function FindById(rows: seq<Task>, id: int): (k: Option<nat>)
    ensures k.Some? ==> k.value < |rows| && rows[k.value].id == id
    ensures k.None? ==> forall i :: 0 <= i < |rows| ==> rows[i].id != id
  {
    if rows == [] then None
    else if rows[|rows| - 1].id == id then Some(|rows| - 1)
    else FindById(rows[..|rows| - 1], id)
  }

  /** `UPDATE tasks SET completed = TRUE WHERE id = ?1`: every row with that id is
      marked completed and every other row is left as it was. */
  function CompleteRows(rows: seq<Task>, id: int): (r: seq<Task>)
    ensures |r| == |rows|
    ensures forall i :: 0 <= i < |rows| ==> r[i] == if rows[i].id == id then rows[i].MarkCompleted() else rows[i]
  {
    if rows == [] then []
    else
      var last := rows[|rows| - 1];
      CompleteRows(rows[..|rows| - 1], id) + [if last.id == id then last.MarkCompleted() else last]
  }

  /** Today's tasks keep the id order of the table. */
  lemma {:induction false} TodayTasksIdsIncrease(rows: seq<Task>, today: Date)
    requires IdsIncreasing(rows)
    ensures IdsIncreasing(TodayTasks(rows, today))
  {
    if rows != [] {
      var init, last := rows[..|rows| - 1], rows[|rows| - 1];
      TodayTasksIdsIncrease(init, today);
      var r := TodayTasks(init, today);
      forall t | t in r ensures t.id < last.id {
        var i :| 0 <= i < |init| && init[i] == t;
      }
      if last.createdAt == today {
        forall i, j | 0 <= i < j < |r| + 1 ensures (r + [last])[i].id < (r + [last])[j].id {
          if j == |r| {
            assert r[i] in r;
          }
        }
      }
    }
  }

  /** When every row was created on `today`, today's tasks are the whole table. */
  lemma {:induction false} TodayTasksOfToday(rows: seq<Task>, today: Date)
    requires forall i :: 0 <= i < |rows| ==> rows[i].createdAt == today
    ensures TodayTasks(rows, today) == rows
  {
    if rows != [] {
      var init, last := rows[..|rows| - 1], rows[|rows| - 1];
      assert rows == init + [last];
      assert forall i :: 0 <= i < |init| ==> init[i] == rows[i];
      TodayTasksOfToday(init, today);
      TodayTasksSnoc(init, last, today);
    }
  }

  /** Whether the table holds an open task with id `id` created on `today`. */
  ghost predicate HasOpenTaskToday(rows: seq<Task>, id: int, today: Date) {
    exists i :: 0 <= i < |rows| && rows[i].id == id && !rows[i].completed && rows[i].createdAt == today
  }

  lemma TodayTasksSnoc(rows: seq<Task>, t: Task, today: Date)
    ensures TodayTasks(rows + [t], today) == TodayTasks(rows, today) + (if t.createdAt == today then [t] else [])
  {
    assert (rows + [t])[..|rows|] == rows;
  }

  lemma CountCompletedSnoc(tasks: seq<Task>, t: Task)
    ensures CountCompleted(tasks + [t]) == CountCompleted(tasks) + (if t.completed then 1 else 0)
  {
    assert (tasks + [t])[..|tasks|] == tasks;
  }

  /** Completing a task leaves the day's task count alone and raises the day's
      completed count by one exactly when it closed an open task of today. */
  lemma {:induction false} SummaryAfterComplete(rows: seq<Task>, id: int, today: Date)
    requires IdsIncreasing(rows)
    ensures |TodayTasks(CompleteRows(rows, id), today)| == |TodayTasks(rows, today)|
    ensures CountCompleted(TodayTasks(CompleteRows(rows, id), today))
         == CountCompleted(TodayTasks(rows, today)) + (if HasOpenTaskToday(rows, id, today) then 1 else 0)
  {
    if rows != [] {
      var init, last := rows[..|rows| - 1], rows[|rows| - 1];
      assert rows == init + [last];
      IdsIncreasingPrefix(init, last);
      SummaryAfterComplete(init, id, today);
      SummaryAfterCompleteSnoc(init, last, id, today);
    }
  }

  /** The inductive step of `SummaryAfterComplete`: from the table without its last row to the whole table. */
  lemma SummaryAfterCompleteSnoc(init: seq<Task>, last: Task, id: int, today: Date)
    requires IdsIncreasing(init + [last])
    requires |TodayTasks(CompleteRows(init, id), today)| == |TodayTasks(init, today)|
    requires CountCompleted(TodayTasks(CompleteRows(init, id), today))
          == CountCompleted(TodayTasks(init, today)) + (if HasOpenTaskToday(init, id, today) then 1 else 0)
    ensures |TodayTasks(CompleteRows(init + [last], id), today)| == |TodayTasks(init + [last], today)|
    ensures CountCompleted(TodayTasks(CompleteRows(init + [last], id), today))
         == CountCompleted(TodayTasks(init + [last], today)) + (if HasOpenTaskToday(init + [last], id, today) then 1 else 0)
  {
    var rows := init + [last];
    var last' := if last.id == id then last.MarkCompleted() else last;
    CompleteRowsSnoc(init, last, id);
    TodayTasksSnoc(CompleteRows(init, id), last', today);
    TodayTasksSnoc(init, last, today);
    OpenTaskTodaySnoc(init, last, id, today);
    var a := TodayTasks(CompleteRows(init, id), today);
    var b := TodayTasks(init, today);
    if last.createdAt == today {
      CountCompletedSnoc(a, last');
      CountCompletedSnoc(b, last);
    } else {
      assert a + [] == a && b + [] == b;
    }
  }

  lemma CompleteRowsSnoc(init: seq<Task>, last: Task, id: int)
    ensures CompleteRows(init + [last], id) == CompleteRows(init, id) + [if last.id == id then last.MarkCompleted() else last]
  {
    assert (init + [last])[..|init|] == init;
  }

  lemma IdsIncreasingPrefix(init: seq<Task>, last: Task)
    requires IdsIncreasing(init + [last])
    ensures IdsIncreasing(init)
  {
    forall i, j | 0 <= i < j < |init| ensures init[i].id < init[j].id {
      assert (init + [last])[i] == init[i] && (init + [last])[j] == init[j];
    }
  }

  lemma OpenTaskTodaySnoc(init: seq<Task>, last: Task, id: int, today: Date)
    requires IdsIncreasing(init + [last])
    ensures last.id == id ==> !HasOpenTaskToday(init, id, today)
    ensures HasOpenTaskToday(init + [last], id, today)
        <==> HasOpenTaskToday(init, id, today) || (last.id == id && !last.completed && last.createdAt == today)
  {
    var rows := init + [last];
    assert rows[|init|] == last;
    if last.id == id {
      forall i | 0 <= i < |init| ensures init[i].id != id {
        assert rows[i] == init[i];
      }
    }
    if HasOpenTaskToday(rows, id, today) {
      var i :| 0 <= i < |rows| && rows[i].id == id && !rows[i].completed && rows[i].createdAt == today;
      if i < |init| {
        assert init[i] == rows[i];
      }
    }
    if HasOpenTaskToday(init, id, today) {
      var i :| 0 <= i < |init| && init[i].id == id && !init[i].completed && init[i].createdAt == today;
      assert rows[i] == init[i];
    }
  }
}
