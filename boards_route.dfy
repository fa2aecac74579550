/**
 * /api/boards: POST validates, inserts the board row, then its column rows,
 * deleting the board again when the column insert fails; GET lists every
 * board, newest first, with its columns embedded.
 */
module BoardsRoute {
  import opened Wrappers
  import opened Domain
  import opened Database
  import Seqs
  import Text

  const NameAndColumnsRequired := "Board name and at least one column are required"
  const CreateFailed := "Failed to create board"
  const ColumnsFailed := "Failed to create board columns"
  const FetchFailed := "Failed to fetch boards"

  /** The JSON body of a POST: a missing field is `None`, as is a column object without a name. */
  datatype CreateBoardBody = CreateBoardBody(name: Option<string>, columns: Option<seq<Option<string>>>)

  /** What the database answers during one POST: the board insert, the ids of new column rows, and the errors of the column insert and of the rollback delete. */
  datatype PostOutcomes = PostOutcomes(
    boardInsert: Insert,
    columnId: nat -> Id,
    columnsError: Option<string>,
    rollbackError: Option<string>)

  /** `!name || !columns || columns.length === 0` fails. */
  predicate HasNameAndColumns(body: CreateBoardBody) {
    Present(body.name) && body.columns.Some? && |body.columns.value| > 0
  }

  /** Every column object carries a name; `column.name.trim()` throws on one that does not. */
  predicate AllNamed(columns: seq<Option<string>>) {
    forall k :: 0 <= k < |columns| ==> columns[k].Some?
  }

  /** `columnsData`: one row per submitted column, in order, with the trimmed name and the new board's id. */
  function ColumnRows(names: seq<string>, boardId: Id, ids: nat -> Id): (rows: seq<ColumnRow>)
    ensures |rows| == |names|
    ensures forall k :: 0 <= k < |rows| ==> rows[k] == ColumnRow(ids(k), Text.Trim(names[k]), boardId)
  {
    seq(|names|, k requires 0 <= k < |names| => ColumnRow(ids(k), Text.Trim(names[k]), boardId))
  }

  predicate HasOtherId(id: Id, b: BoardRow) {
    b.id != id
  }

  /** `delete().eq("id", id)` on the boards table. */
  function DeleteBoard(boards: seq<BoardRow>, id: Id): (r: seq<BoardRow>)
    ensures forall b :: b in r ==> b in boards && b.id != id
  {
    Seqs.Filter(b => HasOtherId(id, b), boards)
  }

  /** Deleting a freshly inserted board (whose id was new) restores the table as it was before the insert. */
  lemma RollbackRestores(boards: seq<BoardRow>, row: BoardRow)
    requires forall b :: b in boards ==> b.id != row.id
    ensures DeleteBoard(boards + [row], row.id) == boards
  {
    var p := (b: BoardRow) => HasOtherId(row.id, b);
    Seqs.FilterAppend(p, boards, [row]);
    assert forall i :: 0 <= i < |boards| ==> p(boards[i]) by {
      forall i | 0 <= i < |boards| ensures p(boards[i]) {
        assert boards[i] in boards;
      }
    }
    Seqs.FilterAll(p, boards);
    assert Seqs.Filter(p, [row]) == [] by {
      assert [row][1..] == [];
    }
  }

  /** A board with its columns embedded, as `select("*, board_columns (*)")` returns it. */
  function WithColumns(row: BoardRow, columns: seq<ColumnRow>): (b: Board)
    ensures b.id == row.id && b.name == row.name && b.columns.Some?
    ensures forall c :: c in b.columns.value ==> c.boardId == row.id && ColumnRow(c.id, c.name, c.boardId) in columns
  {
    Board(row.id, row.name, Some(ColumnsOf(columns, row.id)))
  }

  /** The GET result: every board, newest (last inserted) first, each with its own columns. */
  function BoardListing(boards: seq<BoardRow>, columns: seq<ColumnRow>): (r: seq<Board>)
    ensures |r| == |boards|
    ensures forall i :: 0 <= i < |r| ==> r[i].id == boards[|boards| - 1 - i].id && r[i].name == boards[|boards| - 1 - i].name
    ensures forall i :: 0 <= i < |r| ==> r[i].columns.Some?
    ensures forall i, c :: 0 <= i < |r| && c in r[i].columns.value ==>
      c.boardId == r[i].id && ColumnRow(c.id, c.name, c.boardId) in columns
    ensures forall i, c :: 0 <= i < |r| && c in columns && c.boardId == r[i].id ==>
      Column(c.id, c.name, c.boardId) in r[i].columns.value
  {
    var r := seq(|boards|, i requires 0 <= i < |boards| => WithColumns(boards[|boards| - 1 - i], columns));
    forall i, c | 0 <= i < |r| && c in columns && c.boardId == r[i].id
      ensures Column(c.id, c.name, c.boardId) in r[i].columns.value
    {
      ColumnsOfComplete(columns, r[i].id, c);
    }
    r
  }

  /** GET /api/boards: reads only; a query error answers 500. */
  method Get(db: Tables, queryError: Option<string>) returns (reply: Reply<seq<Board>>)
    ensures queryError.Some? ==> reply == Reply(500, ErrorJson(FetchFailed))
    ensures queryError.None? ==> reply == Reply(200, Json(BoardListing(db.boards, db.columns)))
  {
    if queryError.Some? {
      return Reply(500, ErrorJson(FetchFailed));
    }
    return Reply(200, Json(BoardListing(db.boards, db.columns)));
  }

  /** POST /api/boards. */
  method Post(db: Tables, body: CreateBoardBody, outcomes: PostOutcomes) returns (reply: Reply<BoardRow>)
    modifies db
    ensures db.tasks == old(db.tasks) && db.subtasks == old(db.subtasks)
    // validation: 400 and nothing inserted
    ensures !HasNameAndColumns(body) ==>
      reply == Reply(400, ErrorJson(NameAndColumnsRequired))
      && db.boards == old(db.boards) && db.columns == old(db.columns)
    // board insert failed: 500 and no column insert attempted
    ensures HasNameAndColumns(body) && !outcomes.boardInsert.Inserted? ==>
      db.boards == old(db.boards) && db.columns == old(db.columns)
      && reply == Reply(500, ErrorJson(if outcomes.boardInsert.DbError? then CreateFailed else InternalError))
    // board inserted
    ensures HasNameAndColumns(body) && outcomes.boardInsert.Inserted? ==>
      var row := BoardRow(outcomes.boardInsert.id, Text.Trim(body.name.value));
      var rows := ColumnRows(Seqs.Map(OrEmpty, body.columns.value), row.id, outcomes.columnId);
      if !AllNamed(body.columns.value) then
        // the mapping throws after the insert: the board stays, without columns
        reply == Reply(500, ErrorJson(InternalError))
        && db.boards == old(db.boards) + [row] && db.columns == old(db.columns)
      else if outcomes.columnsError.Some? then
        reply == Reply(500, ErrorJson(ColumnsFailed)) && db.columns == old(db.columns)
        && db.boards == if outcomes.rollbackError.None? then DeleteBoard(old(db.boards) + [row], row.id)
                        else old(db.boards) + [row]
      else
        reply == Reply(201, Json(row))
        && db.boards == old(db.boards) + [row] && db.columns == old(db.columns) + rows
  {
    if !HasNameAndColumns(body) {
      return Reply(400, ErrorJson(NameAndColumnsRequired));
    }
    match outcomes.boardInsert {
      case DbError(_) =>
        return Reply(500, ErrorJson(CreateFailed));
      case NoRow =>
        // `board.id` on a null board throws inside the column mapping
        return Reply(500, ErrorJson(InternalError));
      case Inserted(id) =>
        var board := BoardRow(id, Text.Trim(body.name.value));
        db.boards := db.boards + [board];
        if !AllNamed(body.columns.value) {
          return Reply(500, ErrorJson(InternalError));
        }
        var columnsData := ColumnRows(Seqs.Map(OrEmpty, body.columns.value), id, outcomes.columnId);
        if outcomes.columnsError.Some? {
          if outcomes.rollbackError.None? {
            db.boards := DeleteBoard(db.boards, id);
          }
          return Reply(500, ErrorJson(ColumnsFailed));
        }
        db.columns := db.columns + columnsData;
        return Reply(201, Json(board));
    }
  }
}
