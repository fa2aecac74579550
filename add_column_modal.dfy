/**
 * The add-column form. Submitting needs a current board; the trimmed name
 * goes to the board store. The close function this form asks the modal
 * context for does not exist there, so after a successful creation the
 * call to it throws: the name has already been cleared, the error lands in
 * the form's own catch, and no modal flag changes.
 */
module AddColumnModal {
  import opened Wrappers
  import opened Domain
  import Text
  import BoardsContext

  /** The request `handleSubmit` sends for a form holding `columnName`. */
  function ColumnData(columnName: string, board: Board): (r: BoardsContext.ColumnRequest)
    ensures Text.IsTrimmed(r.name) && r.boardId == board.id
    ensures Text.IsBlank(columnName) <==> r.name == ""
  {
    BoardsContext.ColumnRequest(Text.Trim(columnName), board.id)
  }

  class AddColumnForm {
    var columnName: string
    var isLoading: bool

    constructor ()
      ensures columnName == "" && !isLoading
    {
      columnName := "";
      isLoading := false;
    }

    method SetColumnName(name: string)
      modifies this`columnName
      ensures columnName == name
    {
      columnName := name;
    }

    /**
     * `handleSubmit`: without a current board nothing is sent and nothing
     * changes. Otherwise the store creates the column; on success the name
     * is cleared, on failure it is kept. Loading ends either way.
     */
    method Submit(store: BoardsContext.BoardStore, server: BoardsContext.ColumnRequest -> Response<Column>)
      modifies this, store
      ensures old(store.currentBoard).None? ==>
        columnName == old(columnName) && isLoading == old(isLoading) && store.boards == old(store.boards)
        && store.currentBoard == old(store.currentBoard)
      ensures old(store.currentBoard).Some? ==>
        var request := ColumnData(old(columnName), old(store.currentBoard).value);
        var response := server(request);
        var created := response.Ok? && old(store.currentBoard).value.columns.Some?;
        && !isLoading
        && (columnName == if created then "" else old(columnName))
        && (created ==>
              && store.currentBoard == Some(old(store.currentBoard).value.(columns := Some(old(store.currentBoard).value.columns.value + [response.body])))
              && store.boards == BoardsContext.ReplaceBoard(old(store.boards), request.boardId, store.currentBoard.value))
        && (!created ==> store.boards == old(store.boards) && store.currentBoard == old(store.currentBoard))
      ensures store.isLoading == old(store.isLoading) && store.error == old(store.error)
    {
      if store.currentBoard.None? {
        return;
      }
      isLoading := true;
      var request := ColumnData(columnName, store.currentBoard.value);
      var result := store.CreateColumn(request.name, request.boardId, server);
      if result.Success? {
        columnName := "";
      }
      isLoading := false;
    }
  }
}
