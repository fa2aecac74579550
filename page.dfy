/**
 * The board page: which screen shows, the grid of column lanes with their
 * tasks and colours, the task cards, and which modals are mounted.
 */
module Page {
  import opened Wrappers
  import opened Domain
  import Seqs
  import ModalContext

  /** The column indicator colours, used in turn. */
  const Palette: seq<string> :=
    ["#49C4E5", "#8471F2", "#67E2AE", "#FF6B6B", "#4ECDC4", "#45B7D1", "#96CEB4", "#FFEAA7"]

  datatype Screen = LoadingScreen | NoBoardScreen | BoardGrid(board: Board)

  /** Loading takes precedence over a missing board; the grid needs both settled. */
  function ScreenFor(isLoading: bool, current: Option<Board>): (r: Screen)
    ensures isLoading <==> r == LoadingScreen
    ensures r == NoBoardScreen <==> !isLoading && current.None?
    ensures r.BoardGrid? ==> current == Some(r.board)
  {
    if isLoading then LoadingScreen
    else if current.None? then NoBoardScreen
    else BoardGrid(current.value)
  }

  /** `getTasksByColumn(columnId)`: the cached tasks in that column, in cache order. */
  function TasksByColumn(tasks: seq<Task>, columnId: Id): (r: seq<Task>)
    ensures |r| <= |tasks|
    ensures forall t :: t in r ==> t in tasks && t.columnId == columnId
  {
    Seqs.Filter((t: Task) => t.columnId == columnId, tasks)
  }

  /** Every cached task in a column appears in that column's lane. */
  lemma TasksByColumnComplete(tasks: seq<Task>, t: Task)
    requires t in tasks
    ensures t in TasksByColumn(tasks, t.columnId)
  {
    Seqs.FilterKeeps((u: Task) => u.columnId == t.columnId, tasks, t);
  }

  /** The colour of the lane at position `index`, cycling through the palette. */
  function ColumnColor(index: nat): (r: string)
    ensures r in Palette
    ensures r == Palette[index % |Palette|]
  {
    Palette[index % |Palette|]
  }

  /** Any eight consecutive lanes get eight different colours. */
  lemma NearbyColorsDiffer(i: nat, j: nat)
    requires i < j < i + |Palette|
    ensures ColumnColor(i) != ColumnColor(j)
  {
    var a, b := i % 8, j % 8;
    if a < b {
      PaletteDistinct(a, b);
    } else {
      PaletteDistinct(b, a);
    }
  }

  /** The palette has no repeated colour. */
  lemma PaletteDistinct(a: nat, b: nat)
    requires a < b < |Palette|
    ensures Palette[a] != Palette[b]
  {
    if a == 0 {} else if a == 1 {} else if a == 2 {} else if a == 3 {}
    else if a == 4 {} else if a == 5 {} else if a == 6 {}
  }

  /** A lane: a column, its colour and its tasks. */
  datatype Lane = Lane(column: Column, color: string, tasks: seq<Task>)

  /** The lanes of the grid, one per column of the board, in column order. */
  function Lanes(board: Board, tasks: seq<Task>): (r: seq<Lane>)
    ensures |r| + 1 == GridTracks(board)
    ensures board.columns.Some? ==> forall k :: 0 <= k < |r| ==>
      r[k] == Lane(board.columns.value[k], ColumnColor(k), TasksByColumn(tasks, board.columns.value[k].id))
  {
    var columns := if board.columns.Some? then board.columns.value else [];
    seq(|columns|, k requires 0 <= k < |columns| =>
      Lane(columns[k], ColumnColor(k), TasksByColumn(tasks, columns[k].id)))
  }

  /** `(board_columns?.length || 0) + 1`: one track per column plus the new-column button. */
  function GridTracks(board: Board): (r: nat)
    ensures r >= 1
    ensures board.columns.None? ==> r == 1
  {
    (if board.columns.Some? then |board.columns.value| else 0) + 1
  }

  /** The number of cards shown over the given lanes' columns. */
  function ShownCount(columns: seq<Column>, tasks: seq<Task>): nat {
    if columns == [] then 0
    else |TasksByColumn(tasks, columns[0].id)| + ShownCount(columns[1..], tasks)
  }

  /** How many of the columns carry the id. */
  function Matching(columns: seq<Column>, id: Id): (n: nat)
    ensures n <= |columns|
  {
    if columns == [] then 0
    else (if columns[0].id == id then 1 else 0) + Matching(columns[1..], id)
  }

  /** A task in front of the cache adds one card per column carrying its column id. */
  lemma {:induction false} ShownCountCons(columns: seq<Column>, t: Task, rest: seq<Task>)
    ensures ShownCount(columns, [t] + rest) == Matching(columns, t.columnId) + ShownCount(columns, rest)
  {
    if columns != [] {
      assert ([t] + rest)[1..] == rest;
      ShownCountCons(columns[1..], t, rest);
    }
  }

  /** With distinct column ids, exactly one column carries an id that occurs among them. */
  lemma {:induction false} MatchingUnique(columns: seq<Column>, id: Id)
    requires forall i, j :: 0 <= i < j < |columns| ==> columns[i].id != columns[j].id
    requires exists k :: 0 <= k < |columns| && columns[k].id == id
    ensures Matching(columns, id) == 1
  {
    if columns[0].id == id {
      MatchingNone(columns[1..], id);
    } else {
      var k :| 0 <= k < |columns| && columns[k].id == id;
      assert columns[1..][k - 1].id == id;
      MatchingUnique(columns[1..], id);
    }
  }

  lemma {:induction false} MatchingNone(columns: seq<Column>, id: Id)
    requires forall k :: 0 <= k < |columns| ==> columns[k].id != id
    ensures Matching(columns, id) == 0
  {
    if columns != [] {
      MatchingNone(columns[1..], id);
    }
  }

  /**
   * When the board's column ids are distinct and every cached task sits in
   * one of them, the grid shows every cached task exactly once: the lanes
   * hold as many cards as the cache holds tasks.
   */
  lemma {:induction false} EveryTaskShownOnce(columns: seq<Column>, tasks: seq<Task>)
    requires forall i, j :: 0 <= i < j < |columns| ==> columns[i].id != columns[j].id
    requires forall t :: t in tasks ==> exists k :: 0 <= k < |columns| && columns[k].id == t.columnId
    ensures ShownCount(columns, tasks) == |tasks|
  {
    if tasks == [] {
      ShownCountEmpty(columns);
    } else {
      assert tasks == [tasks[0]] + tasks[1..];
      ShownCountCons(columns, tasks[0], tasks[1..]);
      MatchingUnique(columns, tasks[0].columnId);
      EveryTaskShownOnce(columns, tasks[1..]);
    }
  }

  lemma {:induction false} ShownCountEmpty(columns: seq<Column>)
    ensures ShownCount(columns, []) == 0
  {
    if columns != [] {
      ShownCountEmpty(columns[1..]);
    }
  }

  /** The "{completed} of {total} subtasks" line of a card, shown only for a task with subtasks. */
  function CardProgress(task: Task): (r: Option<(nat, nat)>)
    ensures r.Some? <==> |task.subtasks| > 0
    ensures r.Some? ==> r.value.0 <= r.value.1 == |task.subtasks|
  {
    if |task.subtasks| > 0 then Some((CompletedCount(task.subtasks), |task.subtasks|)) else None
  }

  /** The overlays the page can mount, in the order the grid screen mounts them. */
  datatype Overlay =
    | BoardsOverlay | TaskDetailsOverlay | EditTaskOverlay | AddTaskOverlay
    | DeleteTaskOverlay | DeleteBoardOverlay | AddBoardOverlay | AddColumnOverlay

  /**
   * The overlays mounted for a modal state. The add-column overlay's flag
   * is read from a field the modal context does not define, so it is never
   * mounted.
   */
  function Mounted(s: ModalContext.ModalState): (r: set<Overlay>)
    ensures AddColumnOverlay !in r
    ensures r == {} <==> !s.AnyOpen()
    ensures AddTaskOverlay in r <==> s.tasksModal
    ensures DeleteBoardOverlay in r <==> s.deleteBoardModal
  {
    (if s.boardsModal then {BoardsOverlay} else {})
    + (if s.taskDetailsModal then {TaskDetailsOverlay} else {})
    + (if s.editTaskModal then {EditTaskOverlay} else {})
    + (if s.tasksModal then {AddTaskOverlay} else {})
    + (if s.deleteTaskModal then {DeleteTaskOverlay} else {})
    + (if s.deleteBoardModal then {DeleteBoardOverlay} else {})
    + (if s.addBoardModal then {AddBoardOverlay} else {})
  }
}
