/**
 * What happens when the forms' requests reach the route handlers: the JSON
 * bodies the client sends, read back as the server's request bodies, and
 * how the server's validation and row building treat them.
 */
module Flows {
  import opened Wrappers
  import opened Domain
  import Seqs
  import Text
  import BoardsContext
  import AddBoardModal
  import AddColumnModal
  import AddTaskModal
  import EditTaskModal
  import Database
  import TaskModal
  import BoardsRoute
  import ColumnsRoute
  import TasksRoute

  /** A list of strings as it arrives in JSON: every entry present. */
  function Sent(names: seq<string>): (r: seq<Option<string>>)
    ensures |r| == |names| && forall k :: 0 <= k < |r| ==> r[k] == Some(names[k])
  {
    Seqs.Map((n: string) => Some(n), names)
  }

  /** Reading the sent list back with the server's `?? ""` gives the list itself. */
  lemma SentReadBack(names: seq<string>)
    ensures Seqs.Map(OrEmpty, Sent(names)) == names
  {
  }

  /** The body `createBoard` posts, as the route reads it. */
  function BoardBody(request: BoardsContext.BoardRequest): (body: BoardsRoute.CreateBoardBody)
    ensures body.name == Some(request.name) && body.columns == Some(Sent(request.columns))
  {
    BoardsRoute.CreateBoardBody(Some(request.name), Some(Sent(request.columns)))
  }

  /**
   * A board submitted from the form passes the server's check exactly when
   * its name and at least one column name are not blank; every column
   * then has a name, and the columns created carry exactly the non-blank
   * names typed, trimmed, in order.
   */
  lemma BoardFormToRows(boardName: string, columns: seq<string>, boardId: Id, ids: nat -> Id)
    ensures var body := BoardBody(AddBoardModal.BoardData(boardName, columns));
      && (BoardsRoute.HasNameAndColumns(body) <==> !Text.IsBlank(boardName) && Text.NonBlankTrimmed(columns) != [])
      && BoardsRoute.AllNamed(body.columns.value)
      && var rows := BoardsRoute.ColumnRows(Seqs.Map(OrEmpty, body.columns.value), boardId, ids);
         |rows| == |Text.NonBlankTrimmed(columns)|
         && forall k :: 0 <= k < |rows| ==> rows[k].name == Text.NonBlankTrimmed(columns)[k]
  {
    var names := Text.NonBlankTrimmed(columns);
    SentReadBack(names);
    forall k | 0 <= k < |names|
      ensures Text.Trim(names[k]) == names[k]
    {
      assert names[k] in names;
    }
  }

  /** The body `createColumn` posts, as the route reads it. */
  function ColumnBody(request: BoardsContext.ColumnRequest): (body: ColumnsRoute.CreateColumnBody)
    ensures body.name == Some(request.name) && body.boardId == Some(request.boardId)
  {
    ColumnsRoute.CreateColumnBody(Some(request.name), Some(request.boardId))
  }

  /** A column submitted from the form passes the server's check exactly when its name is not blank and the board has an id. */
  lemma ColumnFormAccepted(columnName: string, board: Board)
    ensures var body := ColumnBody(AddColumnModal.ColumnData(columnName, board));
      (ColumnsRoute.HasNameAndBoard(body) <==> !Text.IsBlank(columnName) && board.id != "")
      && (ColumnsRoute.HasNameAndBoard(body) ==> Text.Trim(body.name.value) == Text.Trim(columnName))
  {
    Text.TrimIdempotent(columnName);
  }

  /** The body the add-task form posts, as the route reads it. */
  function TaskBody(payload: AddTaskModal.TaskPayload): (body: TasksRoute.CreateTaskBody)
    ensures body.title == Some(payload.title) && body.description == Some(payload.description)
    ensures body.columnId == Some(payload.columnId) && body.boardId == payload.boardId
    ensures body.subtasks == Some(Sent(payload.subtasks))
  {
    TasksRoute.CreateTaskBody(Some(payload.title), Some(payload.description), Some(payload.columnId),
                              payload.boardId, Some(Sent(payload.subtasks)))
  }

  /**
   * A task submitted from the add-task form passes the server's check
   * exactly when its title is not blank, a column is chosen and a current
   * board with an id exists; the server then keeps exactly the subtask
   * titles the client sent, which are the non-blank ones typed, trimmed.
   */
  lemma TaskFormAccepted(title: string, description: string, columnId: Id, subtasks: seq<string>,
                         current: Option<Board>)
    ensures var body := TaskBody(AddTaskModal.TaskData(title, description, columnId, subtasks, current));
      && (TasksRoute.HasRequiredFields(body) <==>
            !Text.IsBlank(title) && columnId != "" && current.Some? && current.value.id != "")
      && TasksRoute.SubtaskTitles(body.subtasks.value) == Text.NonBlankTrimmed(subtasks)
  {
    SentReadBack(Text.NonBlankTrimmed(subtasks));
    Text.NonBlankTrimmedIdempotent(subtasks);
  }

  /** A blank subtask input, wherever it sits among the others, is dropped without a trace. */
  lemma BlankInputDropped(before: seq<string>, x: string, after: seq<string>)
    requires Text.IsBlank(x)
    ensures Text.NonBlankTrimmed(before + [x] + after) == Text.NonBlankTrimmed(before + after)
  {
    Text.NonBlankTrimmedAppend(before + [x], after);
    Text.NonBlankTrimmedAppend(before, [x]);
    Text.NonBlankTrimmedSingle(x);
    Text.NonBlankTrimmedAppend(before, after);
  }

  /**
   * POST /api/boards answers with the bare board row, without `board_columns`;
   * `createBoard` makes that board current, so neither task form renders for
   * it until the boards are fetched again.
   */
  lemma CreatedBoardHidesTaskForms(row: Database.BoardRow, selected: Option<Task>)
    ensures !AddTaskModal.Renders(Some(Board(row.id, row.name, None)))
    ensures !EditTaskModal.Renders(selected, Some(Board(row.id, row.name, None)))
  {
  }

  /** A board as GET /api/boards lists it shows the task forms exactly when some column row belongs to it. */
  lemma ListedBoardShowsTaskForms(row: Database.BoardRow, columns: seq<Database.ColumnRow>, selected: Option<Task>)
    ensures AddTaskModal.Renders(Some(BoardsRoute.WithColumns(row, columns)))
      <==> exists c :: c in columns && c.boardId == row.id
    ensures EditTaskModal.Renders(selected, Some(BoardsRoute.WithColumns(row, columns)))
      <==> selected.Some? && exists c :: c in columns && c.boardId == row.id
  {
    var own := BoardsRoute.WithColumns(row, columns).columns.value;
    if |own| > 0 {
      var c := own[0];
      assert c in own;
      assert Database.ColumnRow(c.id, c.name, c.boardId) in columns;
    }
    if c :| c in columns && c.boardId == row.id {
      Database.ColumnsOfComplete(columns, row.id, c);
    }
  }

  /** The body the older task form posts: no column and no board. */
  function LegacyTaskBody(payload: TaskModal.LegacyTaskPayload): (body: TasksRoute.CreateTaskBody)
    ensures body.title == Some(payload.title) && body.description == Some(payload.description)
    ensures body.columnId == None && body.boardId == None
  {
    TasksRoute.CreateTaskBody(Some(payload.title), Some(payload.description), None, None,
                              Some(Sent(payload.subtasks)))
  }

  /** Whatever is typed into the older task form, the route rejects it for lacking a column and a board. */
  lemma LegacyTaskAlwaysRejected(title: string, description: string, status: string, subtasks: seq<string>)
    ensures !TasksRoute.HasRequiredFields(LegacyTaskBody(TaskModal.LegacyTaskData(title, description, status, subtasks)))
  {
  }
}
