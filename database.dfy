/**
 * The hosted database as the route handlers use it: four tables held as
 * sequences of rows in insertion order (so "newest first" is reverse table
 * order), the outcomes of database calls, and the HTTP replies.
 */
module Database {
  import opened Wrappers
  import opened Domain
  import Seqs

  datatype BoardRow = BoardRow(id: Id, name: string)
  datatype ColumnRow = ColumnRow(id: Id, name: string, boardId: Id)
  datatype TaskRow = TaskRow(
    id: Id,
    title: string,
    description: Option<string>,
    columnId: Id,
    boardId: Id,
    status: string,
    createdById: string)
  datatype SubtaskRow = SubtaskRow(id: Id, title: string, completed: bool, taskId: Id)

  /** A JSON response body: a value, `null`, or `{ error }`. */
  datatype Body<T> = Json(value: T) | Null | ErrorJson(error: string)

  /** An HTTP response: status and body. */
  datatype Reply<T> = Reply(status: int, body: Body<T>)

  /** What `insert(row).select().single()` yields: the new row's id, no row, or an error. */
  datatype Insert = Inserted(id: Id) | NoRow | DbError(message: string)

  const InternalError := "Internal server error"

  class Tables {
    var boards: seq<BoardRow>
    var columns: seq<ColumnRow>
    var tasks: seq<TaskRow>
    var subtasks: seq<SubtaskRow>

    constructor (boards: seq<BoardRow>, columns: seq<ColumnRow>, tasks: seq<TaskRow>, subtasks: seq<SubtaskRow>)
      ensures this.boards == boards && this.columns == columns
      ensures this.tasks == tasks && this.subtasks == subtasks
    {
      this.boards := boards;
      this.columns := columns;
      this.tasks := tasks;
      this.subtasks := subtasks;
    }
  }

  /** The `board_columns (*)` embedding: the column rows of one board, in table order. */
  function ColumnsOf(columns: seq<ColumnRow>, boardId: Id): (r: seq<Column>)
    ensures forall c :: c in r ==> c.boardId == boardId && ColumnRow(c.id, c.name, c.boardId) in columns
  {
    var own := Seqs.Filter((c: ColumnRow) => c.boardId == boardId, columns);
    var r := Seqs.Map((c: ColumnRow) => Column(c.id, c.name, c.boardId), own);
    assert forall c :: c in r ==> c.boardId == boardId && ColumnRow(c.id, c.name, c.boardId) in columns by {
      forall c | c in r ensures c.boardId == boardId && ColumnRow(c.id, c.name, c.boardId) in columns {
        var i :| 0 <= i < |r| && r[i] == c;
        assert own[i] in own;
      }
    }
    r
  }

  /** The `subtasks (*)` embedding: the subtask rows of one task, in table order. */
  function SubtasksOf(subtasks: seq<SubtaskRow>, taskId: Id): (r: seq<Subtask>)
    ensures forall s :: s in r ==> s.taskId == taskId && SubtaskRow(s.id, s.title, s.completed, s.taskId) in subtasks
  {
    var own := Seqs.Filter((s: SubtaskRow) => s.taskId == taskId, subtasks);
    var r := Seqs.Map((s: SubtaskRow) => Subtask(s.id, s.title, s.completed, s.taskId), own);
    assert forall s :: s in r ==> s.taskId == taskId && SubtaskRow(s.id, s.title, s.completed, s.taskId) in subtasks by {
      forall s | s in r ensures s.taskId == taskId && SubtaskRow(s.id, s.title, s.completed, s.taskId) in subtasks {
        var i :| 0 <= i < |r| && r[i] == s;
        assert own[i] in own;
      }
    }
    r
  }

  /** Every column row of the board appears in its embedding: the embedding loses none. */
  lemma ColumnsOfComplete(columns: seq<ColumnRow>, boardId: Id, row: ColumnRow)
    requires row in columns && row.boardId == boardId
    ensures Column(row.id, row.name, row.boardId) in ColumnsOf(columns, boardId)
  {
    var p := (c: ColumnRow) => c.boardId == boardId;
    Seqs.FilterKeeps(p, columns, row);
    var own := Seqs.Filter(p, columns);
    var i :| 0 <= i < |own| && own[i] == row;
    assert Seqs.Map((c: ColumnRow) => Column(c.id, c.name, c.boardId), own)[i] == Column(row.id, row.name, row.boardId);
  }

  /** Every subtask row of the task appears in its embedding: the embedding loses none. */
  lemma SubtasksOfComplete(subtasks: seq<SubtaskRow>, taskId: Id, row: SubtaskRow)
    requires row in subtasks && row.taskId == taskId
    ensures Subtask(row.id, row.title, row.completed, row.taskId) in SubtasksOf(subtasks, taskId)
  {
    var p := (s: SubtaskRow) => s.taskId == taskId;
    Seqs.FilterKeeps(p, subtasks, row);
    var own := Seqs.Filter(p, subtasks);
    var i :| 0 <= i < |own| && own[i] == row;
    assert Seqs.Map((s: SubtaskRow) => Subtask(s.id, s.title, s.completed, s.taskId), own)[i] == Subtask(row.id, row.title, row.completed, row.taskId);
  }

  /** A task row with its subtasks embedded, as `select("*, subtasks (*)")` returns it. */
  function WithSubtasks(row: TaskRow, subtasks: seq<SubtaskRow>): (t: Task)
    ensures t.id == row.id && t.boardId == row.boardId && t.createdById == row.createdById
    ensures forall s :: s in t.subtasks ==> s.taskId == row.id
  {
    Task(row.id, row.title, row.description, row.columnId, row.boardId, row.createdById,
      SubtasksOf(subtasks, row.id))
  }
}
