/**
 * /api/tasks: GET lists the placeholder owner's tasks, optionally for one
 * board, newest first; POST validates, inserts the task row, inserts its
 * non-blank subtasks (a failure there is only logged) and answers with the
 * task as read back.
 */
module TasksRoute {
  import opened Wrappers
  import opened Domain
  import opened Database
  import Seqs
  import Text

  const Owner := "anonymous"
  const DefaultStatus := "todo"
  const RequiredFields := "Title, column_id, and board_id are required"
  const CreateFailed := "Failed to create task"
  const FetchFailed := "Failed to fetch tasks"
  const RefetchFailed := "Task created but failed to fetch complete data"

  /** The JSON body of a POST; a field the client left out is `None`, as is a subtask without a title. */
  datatype CreateTaskBody = CreateTaskBody(
    title: Option<string>,
    description: Option<string>,
    columnId: Option<Id>,
    boardId: Option<Id>,
    subtasks: Option<seq<Option<string>>>)

  /** What the database answers during one POST: the task insert, the ids it gives new subtask rows, and the errors of the subtask insert and of the read-back. */
  datatype PostOutcomes = PostOutcomes(
    taskInsert: Insert,
    subtaskId: nat -> Id,
    subtaskInsertError: Option<string>,
    fetchError: Option<string>)

  /** `!title || !column_id || !board_id` fails; the title is tested before trimming. */
  predicate HasRequiredFields(body: CreateTaskBody) {
    Present(body.title) && Present(body.columnId) && Present(body.boardId)
  }

  /**
   * `subtasks.filter(s => s.title?.trim()).map(s => s.title.trim())`: the
   * titles that are present and not blank, trimmed, in order.
   */
  function SubtaskTitles(titles: seq<Option<string>>): (r: seq<string>)
    ensures |r| <= |titles|
    ensures forall t :: t in r ==> t != "" && Text.IsTrimmed(t)
  {
    Text.NonBlankTrimmed(Seqs.Map(OrEmpty, titles))
  }

  /** The subtask rows inserted for task `taskId`: one per valid title, in order, not completed. */
  function SubtaskRows(titles: seq<string>, taskId: Id, ids: nat -> Id): (rows: seq<SubtaskRow>)
    ensures |rows| == |titles|
    ensures forall k :: 0 <= k < |rows| ==> rows[k] == SubtaskRow(ids(k), titles[k], false, taskId)
  {
    seq(|titles|, k requires 0 <= k < |titles| => SubtaskRow(ids(k), titles[k], false, taskId))
  }

  /** The inserted task row: trimmed title, trimmed description or null, status "todo", owner "anonymous". */
  function NewTaskRow(id: Id, body: CreateTaskBody): (row: TaskRow)
    requires HasRequiredFields(body)
    ensures row.id == id && row.title == Text.Trim(body.title.value)
    ensures row.description == if body.description.Some? then Some(Text.Trim(body.description.value)) else None
    ensures row.columnId == body.columnId.value && row.boardId == body.boardId.value
    ensures row.status == DefaultStatus && row.createdById == Owner
  {
    TaskRow(id, Text.Trim(body.title.value),
      if body.description.Some? then Some(Text.Trim(body.description.value)) else None,
      body.columnId.value, body.boardId.value, DefaultStatus, Owner)
  }

  /** The GET filter: the placeholder owner's rows, and only the given board's when a board id is given. */
  predicate Listed(row: TaskRow, boardId: Option<Id>) {
    row.createdById == Owner && (Present(boardId) ==> row.boardId == boardId.value)
  }

  /** The GET result: the listed rows with their subtasks, newest (last inserted) first. */
  function Listing(rows: seq<TaskRow>, subtasks: seq<SubtaskRow>, boardId: Option<Id>): (r: seq<Task>)
    ensures |r| <= |rows|
    ensures forall t :: t in r ==> t.createdById == Owner && (Present(boardId) ==> t.boardId == boardId.value)
  {
    if rows == [] then []
    else
      var last := rows[|rows| - 1];
      var prefix := rows[..|rows| - 1];
      (if Listed(last, boardId) then [WithSubtasks(last, subtasks)] else [])
      + Listing(prefix, subtasks, boardId)
  }

  /** Every row that passes the filter is listed. */
  lemma {:induction false} ListingComplete(rows: seq<TaskRow>, subtasks: seq<SubtaskRow>, boardId: Option<Id>, row: TaskRow)
    requires row in rows && Listed(row, boardId)
    ensures WithSubtasks(row, subtasks) in Listing(rows, subtasks, boardId)
  {
    if rows[|rows| - 1] != row {
      var prefix := rows[..|rows| - 1];
      assert row in prefix by {
        var i :| 0 <= i < |rows| && rows[i] == row;
        assert prefix[i] == row;
      }
      ListingComplete(prefix, subtasks, boardId, row);
    }
  }

  /** Every listed task is a row that passes the filter, with its subtasks: the listing invents nothing. */
  lemma {:induction false} ListingSound(rows: seq<TaskRow>, subtasks: seq<SubtaskRow>, boardId: Option<Id>, t: Task)
    requires t in Listing(rows, subtasks, boardId)
    ensures exists row :: row in rows && Listed(row, boardId) && t == WithSubtasks(row, subtasks)
  {
    var last := rows[|rows| - 1];
    var prefix := rows[..|rows| - 1];
    if Listed(last, boardId) && t == WithSubtasks(last, subtasks) {
      assert last in rows;
    } else {
      ListingSound(prefix, subtasks, boardId, t);
      var row :| row in prefix && Listed(row, boardId) && t == WithSubtasks(row, subtasks);
      var i :| 0 <= i < |prefix| && prefix[i] == row;
      assert rows[i] == row;
    }
  }

  /** One unfolding of the listing: the last row's entry, if listed, then the listing of the rest. */
  lemma ListingLast(rows: seq<TaskRow>, subtasks: seq<SubtaskRow>, boardId: Option<Id>, row: TaskRow)
    ensures Listing(rows + [row], subtasks, boardId)
      == (if Listed(row, boardId) then [WithSubtasks(row, subtasks)] else []) + Listing(rows, subtasks, boardId)
  {
    assert (rows + [row])[..|rows|] == rows;
  }

  /** Rows inserted later are listed before rows inserted earlier: the listing reverses insertion order. */
  lemma {:induction false} ListingAppend(older: seq<TaskRow>, newer: seq<TaskRow>, subtasks: seq<SubtaskRow>, boardId: Option<Id>)
    ensures Listing(older + newer, subtasks, boardId) == Listing(newer, subtasks, boardId) + Listing(older, subtasks, boardId)
  {
    if newer == [] {
      assert older + newer == older;
    } else {
      var rest := newer[..|newer| - 1];
      var last := newer[|newer| - 1];
      var head: seq<Task> := if Listed(last, boardId) then [WithSubtasks(last, subtasks)] else [];
      calc {
        Listing(older + newer, subtasks, boardId);
        { assert older + newer == (older + rest) + [last]; }
        Listing((older + rest) + [last], subtasks, boardId);
        { ListingLast(older + rest, subtasks, boardId, last); }
        head + Listing(older + rest, subtasks, boardId);
        { ListingAppend(older, rest, subtasks, boardId); }
        head + (Listing(rest, subtasks, boardId) + Listing(older, subtasks, boardId));
        (head + Listing(rest, subtasks, boardId)) + Listing(older, subtasks, boardId);
        { ListingLast(rest, subtasks, boardId, last); assert rest + [last] == newer; }
        Listing(newer, subtasks, boardId) + Listing(older, subtasks, boardId);
      }
    }
  }

  /** A row inserted after all others comes first when it passes the filter. */
  lemma NewestFirst(rows: seq<TaskRow>, subtasks: seq<SubtaskRow>, boardId: Option<Id>, row: TaskRow)
    requires Listed(row, boardId)
    ensures Listing(rows + [row], subtasks, boardId)[0] == WithSubtasks(row, subtasks)
  {
    ListingLast(rows, subtasks, boardId, row);
  }

  /** GET /api/tasks?board_id=…: reads only; a query error answers 500. */
  method Get(db: Tables, boardId: Option<Id>, queryError: Option<string>) returns (reply: Reply<seq<Task>>)
    ensures queryError.Some? ==> reply == Reply(500, ErrorJson(FetchFailed))
    ensures queryError.None? ==> reply == Reply(200, Json(Listing(db.tasks, db.subtasks, boardId)))
  {
    if queryError.Some? {
      return Reply(500, ErrorJson(FetchFailed));
    }
    return Reply(200, Json(Listing(db.tasks, db.subtasks, boardId)));
  }

  /**
   * The subtask step of a POST: when subtasks were sent and some are valid,
   * one batch insert; its failure is only logged.
   */
  method InsertSubtasks(db: Tables, subtasks: Option<seq<Option<string>>>, taskId: Id, outcomes: PostOutcomes)
    modifies db
    ensures db.boards == old(db.boards) && db.columns == old(db.columns) && db.tasks == old(db.tasks)
    ensures var titles := if subtasks.Some? then SubtaskTitles(subtasks.value) else [];
      db.subtasks == old(db.subtasks)
        + (if outcomes.subtaskInsertError.None? then SubtaskRows(titles, taskId, outcomes.subtaskId) else [])
  {
    if subtasks.Some? && |subtasks.value| > 0 {
      var valid := SubtaskRows(SubtaskTitles(subtasks.value), taskId, outcomes.subtaskId);
      if |valid| > 0 {
        if outcomes.subtaskInsertError.None? {
          db.subtasks := db.subtasks + valid;
        }
      } else {
        assert db.subtasks == old(db.subtasks) + valid;
      }
    } else {
      assert db.subtasks == old(db.subtasks) + [];
    }
  }

  /** POST /api/tasks. */
  method Post(db: Tables, body: CreateTaskBody, outcomes: PostOutcomes) returns (reply: Reply<Task>)
    modifies db
    ensures db.boards == old(db.boards) && db.columns == old(db.columns)
    // validation: 400 and nothing inserted
    ensures !HasRequiredFields(body) ==>
      reply == Reply(400, ErrorJson(RequiredFields)) && db.tasks == old(db.tasks) && db.subtasks == old(db.subtasks)
    // task insert failed: 500 and no subtask insert attempted
    ensures HasRequiredFields(body) && !outcomes.taskInsert.Inserted? ==>
      db.tasks == old(db.tasks) && db.subtasks == old(db.subtasks)
      && reply == Reply(500, ErrorJson(
           if outcomes.taskInsert.DbError? then "Failed to create task: " + outcomes.taskInsert.message else CreateFailed))
    // task inserted
    ensures HasRequiredFields(body) && outcomes.taskInsert.Inserted? ==>
      var id := outcomes.taskInsert.id;
      var titles := if body.subtasks.Some? then SubtaskTitles(body.subtasks.value) else [];
      && db.tasks == old(db.tasks) + [NewTaskRow(id, body)]
      && db.subtasks == old(db.subtasks)
           + (if outcomes.subtaskInsertError.None? then SubtaskRows(titles, id, outcomes.subtaskId) else [])
      && reply == if outcomes.fetchError.Some? then Reply(500, ErrorJson(RefetchFailed))
                  else Reply(201, Json(WithSubtasks(NewTaskRow(id, body), db.subtasks)))
  {
    if !HasRequiredFields(body) {
      return Reply(400, ErrorJson(RequiredFields));
    }
    match outcomes.taskInsert {
      case DbError(message) =>
        return Reply(500, ErrorJson("Failed to create task: " + message));
      case NoRow =>
        return Reply(500, ErrorJson(CreateFailed));
      case Inserted(id) =>
        var row := NewTaskRow(id, body);
        db.tasks := db.tasks + [row];
        InsertSubtasks(db, body.subtasks, id, outcomes);
        if outcomes.fetchError.Some? {
          return Reply(500, ErrorJson(RefetchFailed));
        }
        return Reply(201, Json(WithSubtasks(row, db.subtasks)));
    }
  }
}
