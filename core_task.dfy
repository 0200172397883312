/** Task record of threeaday-core. */
module CoreTask {
  import opened Clock

  /** A task: its row id, text, completion flag and creation date. Rust's `Task`
      is a cloneable value, so it is a datatype here and `mark_completed`
      yields the updated value. */
  datatype Task = Task(id: int, text: string, completed: bool, createdAt: Date) {

    /** `Task::new`: a task holding exactly the given fields. */
    static function New(id: int, text: string, completed: bool, createdAt: Date): (t: Task)
      ensures t.id == id && t.text == text && t.completed == completed && t.createdAt == createdAt
    {
      Task(id, text, completed, createdAt)
    }

    function IsCompleted(): (r: bool)
      ensures r == completed
    {
      completed
    }

    /** `mark_completed`: the same task with its flag set; an already completed task is unchanged. */
    function MarkCompleted(): (t: Task)
      ensures t.IsCompleted()
      ensures t.id == id && t.text == text && t.createdAt == createdAt
      ensures IsCompleted() ==> t == this
    {
      this.(completed := true)
    }
  }

  /** Marking twice is the same as marking once. */
  lemma MarkCompletedIdempotent(t: Task)
    ensures t.MarkCompleted().MarkCompleted() == t.MarkCompleted()
  {
  }
}
