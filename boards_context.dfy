/**
 * The board store: the cached list of boards, the current board, a loading
 * flag and the last fetch error, with the transitions that fetch the list,
 * create a board and add a column. Each async handler is one atomic step;
 * the server's answer is a function of the request it is sent.
 */
module BoardsContext {
  import opened Wrappers
  import opened Domain
  import Seqs

  const FetchBoardsFailed := "Failed to fetch boards"
  const CreateBoardFailed := "Failed to create board"
  const CreateColumnFailed := "Failed to create column"
  /** The TypeError raised by spreading an absent `board_columns` array. */
  const ColumnsNotIterable := "currentBoard.board_columns is not iterable"

  /** The JSON body `{ name, columns }` that `createBoard` posts to /api/boards. */
  datatype BoardRequest = BoardRequest(name: string, columns: seq<string>)

  /** The JSON body `{ name, board_id }` that `createColumn` posts to /api/columns. */
  datatype ColumnRequest = ColumnRequest(name: string, boardId: Id)

  /**
   * The `error` a failed fetch records: a non-ok response always throws
   * "Failed to fetch boards"; a thrown error keeps its own message.
   */
  function FetchError(response: Response<seq<Board>>): (m: string)
    requires !response.Ok?
    ensures response.NotOk? ==> m == FetchBoardsFailed
    ensures response.Failed? ==> m == response.message
  {
    if response.NotOk? then FetchBoardsFailed else response.message
  }

  /**
   * The message a failed create rethrows: the `error` field of a non-ok
   * body, or `fallback` when the body has none; a thrown error keeps its own.
   */
  function RethrownError<T>(response: Response<T>, fallback: string): (m: string)
    requires !response.Ok?
    ensures response.NotOk? ==> m == response.error.GetOr(fallback)
    ensures response.Failed? ==> m == response.message
  {
    match response
    case NotOk(e) => e.GetOr(fallback)
    case Failed(msg) => msg
  }

  /**
   * The current board after a successful fetch: a board that was already
   * current stays current; otherwise the first fetched board, if any.
   */
  function SelectAfterFetch(current: Option<Board>, fetched: seq<Board>): (r: Option<Board>)
    ensures current.Some? ==> r == current
    ensures current.None? ==> (r.Some? <==> |fetched| > 0)
    ensures r.Some? && current.None? ==> r.value == fetched[0]
  {
    if |fetched| > 0 && current.None? then Some(fetched[0]) else current
  }

  /** `prev.map(board => board.id === boardId ? updated : board)`. */
  function ReplaceBoard(boards: seq<Board>, boardId: Id, updated: Board): (r: seq<Board>)
    ensures |r| == |boards|
    ensures forall i :: 0 <= i < |boards| ==> r[i] == if boards[i].id == boardId then updated else boards[i]
  {
    Seqs.Map((b: Board) => if b.id == boardId then updated else b, boards)
  }

  /**
   * `{ ...board, board_columns: [...board.board_columns, column] }`: the
   * column is appended after the existing ones; spreading an absent array
   * throws.
   */
  function WithColumn(board: Board, column: Column): (r: Result<Board>)
    ensures board.columns.None? <==> r.Failure?
    ensures r.Success? ==> r.value.id == board.id && r.value.name == board.name
    ensures r.Success? ==> r.value.columns == Some(board.columns.value + [column])
  {
    match board.columns
    case None => Failure(ColumnsNotIterable)
    case Some(cs) => Success(board.(columns := Some(cs + [column])))
  }

  /** When ids are unique, replacing by id touches exactly the one board with that id. */
  lemma ReplaceBoardTouchesOne(boards: seq<Board>, k: nat, updated: Board)
    requires k < |boards|
    requires forall i, j :: 0 <= i < j < |boards| ==> boards[i].id != boards[j].id
    ensures ReplaceBoard(boards, boards[k].id, updated)[k] == updated
    ensures forall i :: 0 <= i < |boards| && i != k ==> ReplaceBoard(boards, boards[k].id, updated)[i] == boards[i]
  {
    var r := ReplaceBoard(boards, boards[k].id, updated);
    forall i | 0 <= i < |boards| && i != k ensures r[i] == boards[i] {
      if i < k {
        assert boards[i].id != boards[k].id;
      } else {
        assert boards[k].id != boards[i].id;
      }
    }
  }

  class BoardStore {
    var boards: seq<Board>
    var currentBoard: Option<Board>
    var isLoading: bool
    var error: Option<string>

    /** The provider's initial state, before its mount effect fetches the boards. */
    constructor ()
      ensures boards == [] && currentBoard == None && isLoading && error == None
    {
      boards := [];
      currentBoard := None;
      isLoading := true;
      error := None;
    }

    /** `setCurrentBoard`, as exposed to consumers (which also pass null). */
    method SetCurrentBoard(board: Option<Board>)
      modifies this
      ensures currentBoard == board
      ensures boards == old(boards) && isLoading == old(isLoading) && error == old(error)
    {
      currentBoard := board;
    }

    /**
     * `fetchBoards` (and `refreshBoards`, which awaits it). A success replaces
     * the list wholesale and clears the error; a failure keeps the list and
     * the current board and records the error. Loading ends either way.
     */
    method FetchBoards(server: () -> Response<seq<Board>>)
      modifies this
      ensures !isLoading
      ensures server().Ok? ==> boards == server().body && error == None
      ensures server().Ok? ==> currentBoard == SelectAfterFetch(old(currentBoard), server().body)
      ensures !server().Ok? ==> boards == old(boards) && currentBoard == old(currentBoard)
      ensures !server().Ok? ==> error == Some(FetchError(server()))
    {
      isLoading := true;
      error := None;
      var response := server();
      if response.Ok? {
        var fetched := response.body;
        boards := fetched;
        if |fetched| > 0 && currentBoard.None? {
          currentBoard := Some(fetched[0]);
        }
      } else {
        error := Some(FetchError(response));
      }
      isLoading := false;
    }

    /**
     * `createBoard(name, columns)`: on success the new board is prepended
     * and becomes current and is returned; on failure nothing changes and
     * the error is rethrown.
     */
    method CreateBoard(name: string, columns: seq<string>, server: BoardRequest -> Response<Board>)
      returns (result: Result<Board>)
      modifies this
      ensures var response := server(BoardRequest(name, columns));
        && (response.Ok? ==> result == Success(response.body))
        && (!response.Ok? ==> result == Failure(RethrownError(response, CreateBoardFailed)))
      ensures result.Success? ==> boards == [result.value] + old(boards) && currentBoard == Some(result.value)
      ensures result.Failure? ==> boards == old(boards) && currentBoard == old(currentBoard)
      ensures isLoading == old(isLoading) && error == old(error)
    {
      var response := server(BoardRequest(name, columns));
      if !response.Ok? {
        return Failure(RethrownError(response, CreateBoardFailed));
      }
      var newBoard := response.body;
      boards := [newBoard] + boards;
      currentBoard := Some(newBoard);
      return Success(newBoard);
    }

    /**
     * `createColumn(name, boardId)`: on success, if `boardId` is the current
     * board's id, that board gets the column appended and replaces every
     * board with that id in the list; otherwise the store is untouched. The
     * created column is returned either way. A failed request, or a current
     * board without a columns array, changes nothing and is rethrown.
     */
    method CreateColumn(name: string, boardId: Id, server: ColumnRequest -> Response<Column>)
      returns (result: Result<Column>)
      modifies this
      ensures var response := server(ColumnRequest(name, boardId));
        var target := old(currentBoard).Some? && old(currentBoard).value.id == boardId;
        if !response.Ok? then
          result == Failure(RethrownError(response, CreateColumnFailed))
          && currentBoard == old(currentBoard) && boards == old(boards)
        else if !target then
          result == Success(response.body)
          && currentBoard == old(currentBoard) && boards == old(boards)
        else
          match WithColumn(old(currentBoard).value, response.body)
          case Failure(e) =>
            result == Failure(e) && currentBoard == old(currentBoard) && boards == old(boards)
          case Success(updated) =>
            result == Success(response.body)
            && currentBoard == Some(updated) && boards == ReplaceBoard(old(boards), boardId, updated)
      ensures isLoading == old(isLoading) && error == old(error)
    {
      var response := server(ColumnRequest(name, boardId));
      if !response.Ok? {
        return Failure(RethrownError(response, CreateColumnFailed));
      }
      var newColumn := response.body;
      if currentBoard.Some? && currentBoard.value.id == boardId {
        var updated := WithColumn(currentBoard.value, newColumn);
        if updated.Failure? {
          return Failure(updated.error);
        }
        currentBoard := Some(updated.value);
        boards := ReplaceBoard(boards, boardId, updated.value);
      }
      return Success(newColumn);
    }
  }
}
