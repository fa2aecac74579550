/**
 * The delete-board confirmation. After the server deletes the selected
 * board, the store's current board moves to the first other board when the
 * list held more than one board, and to none otherwise; then the boards are
 * fetched again and the modal closes.
 */
module DeleteBoardModal {
  import opened Wrappers
  import opened Domain
  import Seqs
  import BoardsContext
  import ModalContext

  /** Index of the first board whose id is not `id`, or `|boards|` when there is none. */
  function FirstOtherIndex(boards: seq<Board>, id: Id): (k: nat)
    ensures k <= |boards|
    ensures forall j :: 0 <= j < k ==> boards[j].id == id
    ensures k < |boards| ==> boards[k].id != id
  {
    if |boards| == 0 then 0
    else if boards[0].id != id then 0
    else 1 + FirstOtherIndex(boards[1..], id)
  }

  /** The first element kept by the filter is the first board with another id. */
  lemma {:induction false} FilterFirstOther(boards: seq<Board>, id: Id)
    ensures var kept := Seqs.Filter((b: Board) => b.id != id, boards);
      var k := FirstOtherIndex(boards, id);
      (|kept| > 0 <==> k < |boards|) && (k < |boards| ==> kept[0] == boards[k])
  {
    if |boards| > 0 && boards[0].id == id {
      FilterFirstOther(boards[1..], id);
    }
  }

  /** The board `handleDelete` makes current once `deletedId` is gone. */
  function NextCurrent(boards: seq<Board>, deletedId: Id): (r: Option<Board>)
    ensures |boards| <= 1 ==> r == None
    ensures |boards| > 1 ==>
      var k := FirstOtherIndex(boards, deletedId);
      r == if k < |boards| then Some(boards[k]) else None
  {
    if |boards| > 1 then
      var remaining := Seqs.Filter((b: Board) => b.id != deletedId, boards);
      FilterFirstOther(boards, deletedId);
      if |remaining| > 0 then Some(remaining[0]) else None
    else None
  }

  /**
   * With distinct ids and at least two boards, deleting any board leaves
   * another existing board current.
   */
  lemma NextCurrentIsAnotherBoard(boards: seq<Board>, deletedId: Id)
    requires |boards| > 1
    requires forall i, j :: 0 <= i < j < |boards| ==> boards[i].id != boards[j].id
    ensures var r := NextCurrent(boards, deletedId);
      r.Some? && r.value in boards && r.value.id != deletedId
  {
    var i := if boards[0].id != deletedId then 0 else 1;
    assert boards[i].id != deletedId;
  }

  /**
   * `handleDelete`. `deleted(id)` is whether the DELETE request for board
   * `id` answered ok; `server` answers the following boards fetch. Without
   * a selected board, or when the delete fails, nothing changes.
   */
  method HandleDelete(modals: ModalContext.Modals, store: BoardsContext.BoardStore,
                      deleted: Id -> bool, server: () -> Response<seq<Board>>)
    modifies modals, store
    ensures var selected := old(modals.selectedBoard);
      if selected.None? || !deleted(selected.value.id) then
        && store.boards == old(store.boards) && store.currentBoard == old(store.currentBoard)
        && store.isLoading == old(store.isLoading) && store.error == old(store.error)
        && modals.State() == old(modals.State()) && modals.scrollLocked == old(modals.scrollLocked)
      else
        var next := NextCurrent(old(store.boards), selected.value.id);
        && !store.isLoading
        && (server().Ok? ==> store.boards == server().body
                             && store.currentBoard == BoardsContext.SelectAfterFetch(next, server().body))
        && (!server().Ok? ==> store.boards == old(store.boards) && store.currentBoard == next)
        && (server().Ok? ==> store.error == None)
        && (!server().Ok? ==> store.error == Some(BoardsContext.FetchError(server())))
        && modals.Valid() && modals.State() == old(modals.State()).(deleteBoardModal := false)
  {
    if modals.selectedBoard.None? {
      return;
    }
    var id := modals.selectedBoard.value.id;
    if !deleted(id) {
      return;
    }
    store.SetCurrentBoard(NextCurrent(store.boards, id));
    store.FetchBoards(server);
    modals.CloseDeleteBoardModal();
  }
}
