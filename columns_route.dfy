/** /api/columns: POST validates and inserts one column row. */
module ColumnsRoute {
  import opened Wrappers
  import opened Domain
  import opened Database
  import Text

  const NameAndBoardRequired := "Column name and board ID are required"
  const CreateFailed := "Failed to create column"

  /** The JSON body of a POST; a missing field is `None`. */
  datatype CreateColumnBody = CreateColumnBody(name: Option<string>, boardId: Option<Id>)

  /** `!name || !board_id` fails. */
  predicate HasNameAndBoard(body: CreateColumnBody) {
    Present(body.name) && Present(body.boardId)
  }

  /** The inserted row: the trimmed name under the given board. */
  function NewColumnRow(id: Id, body: CreateColumnBody): (row: ColumnRow)
    requires HasNameAndBoard(body)
    ensures row.id == id && row.name == Text.Trim(body.name.value) && row.boardId == body.boardId.value
  {
    ColumnRow(id, Text.Trim(body.name.value), body.boardId.value)
  }

  /** POST /api/columns. */
  method Post(db: Tables, body: CreateColumnBody, insert: Insert) returns (reply: Reply<ColumnRow>)
    modifies db
    ensures db.boards == old(db.boards) && db.tasks == old(db.tasks) && db.subtasks == old(db.subtasks)
    ensures !HasNameAndBoard(body) ==>
      reply == Reply(400, ErrorJson(NameAndBoardRequired)) && db.columns == old(db.columns)
    ensures HasNameAndBoard(body) && insert.DbError? ==>
      reply == Reply(500, ErrorJson(CreateFailed)) && db.columns == old(db.columns)
    // an insert that yields no row answers 201 with a null body
    ensures HasNameAndBoard(body) && insert.NoRow? ==>
      reply == Reply(201, Null) && db.columns == old(db.columns)
    ensures HasNameAndBoard(body) && insert.Inserted? ==>
      reply == Reply(201, Json(NewColumnRow(insert.id, body)))
      && db.columns == old(db.columns) + [NewColumnRow(insert.id, body)]
  {
    if !HasNameAndBoard(body) {
      return Reply(400, ErrorJson(NameAndBoardRequired));
    }
    match insert {
      case DbError(_) =>
        return Reply(500, ErrorJson(CreateFailed));
      case NoRow =>
        return Reply(201, Null);
      case Inserted(id) =>
        var column := NewColumnRow(id, body);
        db.columns := db.columns + [column];
        return Reply(201, Json(column));
    }
  }
}
