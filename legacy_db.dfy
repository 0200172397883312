/** Task store of the first, single-crate version, on an in-memory `tasks`
    table. Its `Task` struct has the same four fields as threeaday-core's, so
    rows are `CoreTask.Task` values. */
module LegacyDb {
  import opened Clock
  import opened CoreTask
  import opened TaskTable

  /** The rowid SQLite gives a new row of an `INTEGER PRIMARY KEY` table without
      AUTOINCREMENT: one more than the largest rowid present, 1 for an empty table. */
  function NextRowId(rows: seq<Task>): (id: int)
    requires IdsIncreasing(rows)
    requires forall i :: 0 <= i < |rows| ==> rows[i].id > 0
    ensures id > 0
    ensures forall i :: 0 <= i < |rows| ==> rows[i].id < id
  {
    if rows == [] then 1 else rows[|rows| - 1].id + 1
  }

  /** A `Database`: the rows of its `tasks` table in id order. */
  class Database {
    var rows: seq<Task>

    ghost predicate Valid()
      reads this
    {
      IdsIncreasing(rows) && forall i :: 0 <= i < |rows| ==> rows[i].id > 0
    }

    /** A database whose `tasks` table was just created. */
    constructor ()
      ensures Valid() && rows == []
    {
      rows := [];
    }

    /** `add_task`: insert an open task dated `today` and return its new rowid. */
    method AddTask(text: string, today: Date) returns (id: int)
      requires Valid()
      modifies this
      ensures Valid()
      ensures id > 0 && id == NextRowId(old(rows))
      ensures rows == old(rows) + [Task(id, text, false, today)]
    {
      id := NextRowId(rows);
      rows := rows + [Task(id, text, false, today)];
    }

    /** `get_today_tasks`: the tasks created on `today`, in increasing id order. */
    method GetTodayTasks(today: Date) returns (tasks: seq<Task>)
      requires Valid()
      ensures tasks == TodayTasks(rows, today)
      ensures forall t :: t in tasks <==> t in rows && t.createdAt == today
      ensures IdsIncreasing(tasks)
    {
      var table := rows;
      tasks := [];
      for i := 0 to |table|
        invariant tasks == TodayTasks(table[..i], today)
      {
        var row := table[i];
        assert table[..i + 1] == table[..i] + [row];
        TodayTasksSnoc(table[..i], row, today);
        if row.createdAt == today {
          tasks := tasks + [row];
        }
      }
      assert table[..|table|] == table;
      TodayTasksIdsIncrease(table, today);
    }

    /** `complete_task`: mark the row with id `id` completed when it exists and is
        still open, and report whether a row changed. */
    method CompleteTask(id: int) returns (updated: bool)
      requires Valid()
      modifies this
      ensures Valid()
      ensures updated <==> exists i :: 0 <= i < |old(rows)| && old(rows)[i].id == id && !old(rows)[i].completed
      ensures rows == CompleteRows(old(rows), id)
      ensures !updated ==> rows == old(rows)
    {
      var k := FindById(rows, id);
      updated := k.Some? && !rows[k.value].completed;
      if updated {
        forall i | 0 <= i < |rows| && i != k.value ensures rows[i].id != id {
        }
        rows := rows[k.value := rows[k.value].(completed := true)];
      }
      assert rows == CompleteRows(old(rows), id);
    }

    /** `get_today_summary`: (completed, total) over the tasks created on `today`. */
    method GetTodaySummary(today: Date) returns (completed: nat, total: nat)
      requires Valid()
      ensures (completed, total) == Summary(TodayTasks(rows, today))
      ensures completed <= total
    {
      var tasks := GetTodayTasks(today);
      completed, total := CountCompleted(tasks), |tasks|;
    }
  }

  /** An empty store reports (0, 0); three new tasks give (0, 3); completing one gives (1, 3). */
  method SummaryScenario(today: Date) returns (empty: (nat, nat), added: (nat, nat), oneDone: (nat, nat))
    ensures empty == (0, 0) && added == (0, 3) && oneDone == (1, 3)
  {
    var db := new Database();
    var c, t := db.GetTodaySummary(today);
    empty := (c, t);
    var id1 := db.AddTask("task 1", today);
    var id2 := db.AddTask("task 2", today);
    var id3 := db.AddTask("task 3", today);
    ghost var before := db.rows;
    ThreeOpenTasks(before, today);
    c, t := db.GetTodaySummary(today);
    added := (c, t);
    var ok := db.CompleteTask(id1);
    assert before[0].id == id1;
    c, t := db.GetTodaySummary(today);
    oneDone := (c, t);
  }

  /** Three open tasks of `today`: the summary is (0, 3) before, and (1, 3) after, the first is completed. */
  lemma ThreeOpenTasks(rows: seq<Task>, today: Date)
    requires |rows| == 3 && IdsIncreasing(rows)
    requires forall i :: 0 <= i < 3 ==> !rows[i].completed && rows[i].createdAt == today
    ensures Summary(TodayTasks(rows, today)) == (0, 3)
    ensures Summary(TodayTasks(CompleteRows(rows, rows[0].id), today)) == (1, 3)
  {
    TodayTasksOfToday(rows, today);
    assert CountCompleted(rows) == 0;
    SummaryAfterComplete(rows, rows[0].id, today);
    assert HasOpenTaskToday(rows, rows[0].id, today) by {
      assert rows[0].createdAt == today && !rows[0].completed;
    }
  }

  /** A task can be completed once: the second attempt reports false and that task stays completed. */
  method CompleteTwiceScenario(today: Date) returns (first: bool, second: bool, stillCompleted: bool)
    ensures first && !second && stillCompleted
  {
    var db := new Database();
    var id := db.AddTask("test task", today);
    first := db.CompleteTask(id);
    ghost var done := db.rows;
    assert |done| == 1 && done[0].id == id && done[0].completed && done[0].createdAt == today;
    second := db.CompleteTask(id);
    assert db.rows == done;
    var tasks := db.GetTodayTasks(today);
    TodayTasksSnoc([], done[0], today);
    assert done == [] + [done[0]];
    stillCompleted := |tasks| == 1 && tasks[0].completed;
  }

  /** Completing an id that was never issued reports false. */
  method CompleteUnknownScenario(today: Date) returns (updated: bool)
    ensures !updated
  {
    var db := new Database();
    updated := db.CompleteTask(999);
  }

  /** Today's tasks come back in the order they were added. */
  method OrderingScenario(today: Date) returns (texts: seq<string>)
    ensures texts == ["first", "second", "third"]
  {
    var db := new Database();
    var id1 := db.AddTask("first", today);
    var id2 := db.AddTask("second", today);
    var id3 := db.AddTask("third", today);
    TodayTasksSnoc([], db.rows[0], today);
    TodayTasksSnoc([db.rows[0]], db.rows[1], today);
    TodayTasksSnoc([db.rows[0], db.rows[1]], db.rows[2], today);
    var tasks := db.GetTodayTasks(today);
    texts := [tasks[0].text, tasks[1].text, tasks[2].text];
  }
}
