/** Task store of threeaday-core, on an in-memory `tasks` table. */
module CoreDb {
  import opened Clock
  import opened CoreTask
  import opened TaskTable

  /** A `Database`: the rows of its `tasks` table in id order, and the next id
      AUTOINCREMENT hands out (one more than the largest id ever issued). */
  class Database {
    var rows: seq<Task>
    var nextId: int

    ghost predicate Valid()
      reads this
    {
      && nextId >= 1
      && IdsIncreasing(rows)
      && forall i :: 0 <= i < |rows| ==> 0 < rows[i].id < nextId
    }

    /** A database whose `tasks` table was just created. */
    constructor ()
      ensures Valid() && rows == [] && nextId == 1
    {
      rows := [];
      nextId := 1;
    }

    /** `add_task`: insert an open task dated `today` under a fresh id and return that id. */
    method AddTask(text: string, today: Date) returns (id: int)
      requires Valid()
      modifies this
      ensures Valid()
      ensures id > 0 && id == old(nextId) && nextId == id + 1
      ensures forall i :: 0 <= i < |old(rows)| ==> old(rows)[i].id < id
      ensures rows == old(rows) + [Task.New(id, text, false, today)]
    {
      id := nextId;
      rows := rows + [Task.New(id, text, false, today)];
      nextId := nextId + 1;
    }

    /** `get_today_tasks`: the tasks created on `today`, in increasing id order. */
    method GetTodayTasks(today: Date) returns (tasks: seq<Task>)
      requires Valid()
      ensures tasks == TodayTasks(rows, today)
      ensures forall t :: t in tasks <==> t in rows && t.createdAt == today
      ensures IdsIncreasing(tasks)
    {
      tasks := [];
      var i := 0;
      while i < |rows|
        invariant 0 <= i <= |rows|
        invariant tasks == TodayTasks(rows[..i], today)
      {
        assert rows[..i + 1] == rows[..i] + [rows[i]];
        TodayTasksSnoc(rows[..i], rows[i], today);
        if rows[i].createdAt == today {
          tasks := tasks + [rows[i]];
        }
        i := i + 1;
      }
      assert rows[..i] == rows;
      TodayTasksIdsIncrease(rows, today);
    }

    /** `complete_task`: mark the row with id `id` completed when it exists and is
        still open, and report whether a row changed. */
    method CompleteTask(id: int) returns (updated: bool)
      requires Valid()
      modifies this
      ensures Valid() && nextId == old(nextId)
      ensures updated <==> exists i :: 0 <= i < |old(rows)| && old(rows)[i].id == id && !old(rows)[i].completed
      ensures rows == CompleteRows(old(rows), id)
      ensures !updated ==> rows == old(rows)
    {
      var k := FindById(rows, id);
      if k.Some? && !rows[k.value].completed {
        forall i | 0 <= i < |rows| && i != k.value ensures rows[i].id != id {
        }
        rows := rows[k.value := rows[k.value].MarkCompleted()];
        updated := true;
      } else {
        updated := false;
        assert forall i :: 0 <= i < |rows| && rows[i].id == id ==> rows[i].completed by {
          forall i | 0 <= i < |rows| && rows[i].id == id ensures rows[i].completed {
            assert k.Some?;
            assert i == k.value;
          }
        }
      }
      assert rows == CompleteRows(old(rows), id);
    }

    /** `get_today_summary`: (completed, total) over the tasks created on `today`. */
    method GetTodaySummary(today: Date) returns (completed: nat, total: nat)
      requires Valid()
      ensures (completed, total) == Summary(TodayTasks(rows, today))
      ensures completed <= total
    {
      var tasks := GetTodayTasks(today);
      completed, total := CountCompleted(tasks), |tasks|;
    }
  }
}
