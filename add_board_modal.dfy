/**
 * The add-board form: a board name and an editable list of column names
 * that never becomes empty; submitting sends the trimmed name and the
 * non-blank column names, trimmed, to the board store, and resets the form
 * only on success.
 */
module AddBoardModal {
  import opened Wrappers
  import opened Domain
  import Seqs
  import Text
  import BoardsContext
  import ModalContext

  const DefaultColumns: seq<string> := ["Todo", "Doing"]

  /** `addColumn`: one empty entry at the end. */
  function AddColumn(columns: seq<string>): (r: seq<string>)
    ensures |r| == |columns| + 1 && r[..|columns|] == columns && r[|columns|] == ""
  {
    columns + [""]
  }

  /** `removeColumn(index)`: drops entry `index` only while more than one entry is left. */
  function RemoveColumn(columns: seq<string>, index: int): (r: seq<string>)
    ensures |columns| <= 1 ==> r == columns
    ensures |columns| > 1 && 0 <= index < |columns| ==> r == columns[..index] + columns[index + 1..]
    ensures |columns| > 1 && !(0 <= index < |columns|) ==> r == columns
    ensures |columns| >= 1 ==> |r| >= 1
  {
    if |columns| > 1 then Seqs.RemoveAt(columns, index) else columns
  }

  /** `updateColumn(index, name)`: entry `index` becomes `name`, the rest and the length stay. */
  function UpdateColumn(columns: seq<string>, index: nat, name: string): (r: seq<string>)
    requires index < |columns|
    ensures |r| == |columns| && r[index] == name
    ensures forall k :: 0 <= k < |columns| && k != index ==> r[k] == columns[k]
  {
    Seqs.ReplaceAt(columns, index, name)
  }

  /** What `boardData` sends: the trimmed name and the non-blank column names, trimmed, in order. */
  function BoardData(boardName: string, columns: seq<string>): (r: BoardsContext.BoardRequest)
    ensures Text.IsTrimmed(r.name)
    ensures |r.columns| <= |columns| && forall c :: c in r.columns ==> c != "" && Text.IsTrimmed(c)
    ensures Text.IsBlank(boardName) <==> r.name == ""
  {
    BoardsContext.BoardRequest(Text.Trim(boardName), Text.NonBlankTrimmed(columns))
  }

  class AddBoardForm {
    var boardName: string
    var columns: seq<string>
    var isLoading: bool

    /** The list of column inputs is never empty. */
    ghost predicate Valid()
      reads this
    {
      |columns| >= 1
    }

    constructor ()
      ensures Valid() && boardName == "" && columns == DefaultColumns && !isLoading
    {
      boardName := "";
      columns := DefaultColumns;
      isLoading := false;
    }

    method SetBoardName(name: string)
      requires Valid()
      modifies this`boardName
      ensures Valid() && boardName == name
    {
      boardName := name;
    }

    method AddColumnInput()
      requires Valid()
      modifies this`columns
      ensures Valid() && columns == AddColumn(old(columns))
    {
      columns := columns + [""];
    }

    method RemoveColumnInput(index: int)
      requires Valid()
      modifies this`columns
      ensures Valid() && columns == RemoveColumn(old(columns), index)
    {
      if |columns| > 1 {
        columns := Seqs.RemoveAt(columns, index);
      }
    }

    /** Called with the index of a rendered input, so always in range. */
    method UpdateColumnInput(index: nat, name: string)
      requires Valid() && index < |columns|
      modifies this`columns
      ensures Valid() && columns == UpdateColumn(old(columns), index, name)
    {
      columns := columns[index := name];
    }

    /**
     * `handleSubmit`: creates the board through the store; on success resets
     * the form to its initial contents and closes the modal; on failure keeps
     * everything. Loading ends either way.
     */
    method Submit(store: BoardsContext.BoardStore, modals: ModalContext.Modals,
                  server: BoardsContext.BoardRequest -> Response<Board>)
      requires Valid()
      modifies this, store, modals
      ensures Valid() && !isLoading
      ensures var response := server(BoardData(old(boardName), old(columns)));
        if response.Ok? then
          && boardName == "" && columns == DefaultColumns
          && store.boards == [response.body] + old(store.boards)
          && store.currentBoard == Some(response.body)
          && modals.Valid() && modals.State() == old(modals.State()).(addBoardModal := false)
        else
          && boardName == old(boardName) && columns == old(columns)
          && store.boards == old(store.boards) && store.currentBoard == old(store.currentBoard)
          && modals.State() == old(modals.State()) && modals.scrollLocked == old(modals.scrollLocked)
      ensures store.isLoading == old(store.isLoading) && store.error == old(store.error)
    {
      isLoading := true;
      var data := BoardData(boardName, columns);
      var result := store.CreateBoard(data.name, data.columns, server);
      if result.Success? {
        boardName := "";
        columns := DefaultColumns;
        modals.CloseAddBoardModal();
      }
      isLoading := false;
    }
  }
}
