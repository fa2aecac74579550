/** The entities the client holds, and the outcome of an awaited request. */
module Domain {
  import opened Wrappers
  import Seqs

  type Id = string

  /** A `board_columns` row as the client sees it. */
  datatype Column = Column(id: Id, name: string, boardId: Id)

  /**
   * A board. `columns` is the nested `board_columns` array; it is absent
   * when the board is the bare row that POST /api/boards answers with.
   */
  datatype Board = Board(id: Id, name: string, columns: Option<seq<Column>>)

  datatype Subtask = Subtask(id: Id, title: string, completed: bool, taskId: Id)

  datatype Task = Task(
    id: Id,
    title: string,
    description: Option<string>,
    columnId: Id,
    boardId: Id,
    createdById: string,
    subtasks: seq<Subtask>)

  /**
   * What an awaited `fetch` gives a handler: an ok response and its JSON
   * body, a non-ok response and the `error` field of its body (if it has
   * one), or a thrown error and its message.
   */
  datatype Response<T> = Ok(body: T) | NotOk(error: Option<string>) | Failed(message: string)

  /** JavaScript truthiness of an optional string: present and not empty. */
  predicate Present(s: Option<string>) {
    s.Some? && s.value != ""
  }

  /** An optional string, with absence read as "". */
  function OrEmpty(s: Option<string>): string {
    s.GetOr("")
  }

  predicate IsCompleted(s: Subtask) {
    s.completed
  }

  /** `subtasks.filter(s => s.completed).length`, which never exceeds the number of subtasks. */
  function CompletedCount(subtasks: seq<Subtask>): (n: nat)
    ensures n <= |subtasks|
  {
    |Seqs.Filter(IsCompleted, subtasks)|
  }
}
