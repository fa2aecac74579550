/**
 * The add-task form: title, description, column and a list of subtask
 * titles. Submitting posts the trimmed fields and the non-blank subtask
 * titles, trimmed; on success the form is reset, the current board's tasks
 * are fetched again and the tasks modal closes.
 */
module AddTaskModal {
  import opened Wrappers
  import opened Domain
  import Seqs
  import Text
  import BoardsContext
  import TasksContext
  import ModalContext

  /** The JSON body `handleSubmit` posts to /api/tasks. */
  datatype TaskPayload = TaskPayload(
    title: string,
    description: string,
    columnId: Id,
    boardId: Option<Id>,
    subtasks: seq<string>)

  /** `currentBoard?.id`. */
  function CurrentId(current: Option<Board>): (r: Option<Id>)
    ensures r.Some? <==> current.Some?
    ensures r.Some? ==> r.value == current.value.id
  {
    if current.Some? then Some(current.value.id) else None
  }

  /** `taskData`: trimmed title and description, the chosen column, the current board, the non-blank subtask titles trimmed. */
  function TaskData(title: string, description: string, columnId: Id, subtasks: seq<string>,
                    current: Option<Board>): (r: TaskPayload)
    ensures Text.IsTrimmed(r.title) && Text.IsTrimmed(r.description)
    ensures r.title == "" <==> Text.IsBlank(title)
    ensures r.columnId == columnId && r.boardId == CurrentId(current)
    ensures |r.subtasks| <= |subtasks| && forall t :: t in r.subtasks ==> t != "" && Text.IsTrimmed(t)
  {
    TaskPayload(Text.Trim(title), Text.Trim(description), columnId, CurrentId(current),
                Text.NonBlankTrimmed(subtasks))
  }

  /** The form renders only for a current board that has at least one column. */
  predicate Renders(current: Option<Board>) {
    current.Some? && current.value.columns.Some? && |current.value.columns.value| > 0
  }

  /** `removeSubtask(index)`: unguarded, so the last input can be removed too. */
  function RemoveSubtask(subtasks: seq<string>, index: int): (r: seq<string>)
    ensures 0 <= index < |subtasks| ==> r == subtasks[..index] + subtasks[index + 1..]
    ensures !(0 <= index < |subtasks|) ==> r == subtasks
  {
    Seqs.RemoveAt(subtasks, index)
  }

  class AddTaskForm {
    var title: string
    var description: string
    var columnId: Id
    var subtasks: seq<string>
    var isLoading: bool

    /** The form's initial and reset contents. */
    predicate IsReset()
      reads this
    {
      title == "" && description == "" && columnId == "" && subtasks == [""]
    }

    constructor ()
      ensures IsReset() && !isLoading
    {
      title, description, columnId, subtasks := "", "", "", [""];
      isLoading := false;
    }

    method SetFields(newTitle: string, newDescription: string, newColumnId: Id)
      modifies this`title, this`description, this`columnId
      ensures title == newTitle && description == newDescription && columnId == newColumnId
    {
      title, description, columnId := newTitle, newDescription, newColumnId;
    }

    method AddSubtaskInput()
      modifies this`subtasks
      ensures subtasks == old(subtasks) + [""]
    {
      subtasks := subtasks + [""];
    }

    method RemoveSubtaskInput(index: int)
      modifies this`subtasks
      ensures subtasks == RemoveSubtask(old(subtasks), index)
    {
      subtasks := Seqs.RemoveAt(subtasks, index);
    }

    /** Called with the index of a rendered input. */
    method UpdateSubtaskInput(index: nat, newTitle: string)
      requires index < |subtasks|
      modifies this`subtasks
      ensures |subtasks| == |old(subtasks)| && subtasks[index] == newTitle
      ensures forall k :: 0 <= k < |subtasks| && k != index ==> subtasks[k] == old(subtasks)[k]
    {
      subtasks := subtasks[index := newTitle];
    }

    /**
     * `handleSubmit`. `server` answers the POST. On an ok answer the form is
     * reset, the tasks of the current board are fetched (`tasksServer`
     * answers) and the tasks modal closes; otherwise only loading changes.
     */
    method Submit(boards: BoardsContext.BoardStore, tasks: TasksContext.TaskStore,
                  modals: ModalContext.Modals,
                  server: TaskPayload -> Response<Task>, tasksServer: string -> Response<seq<Task>>)
      returns (payload: TaskPayload)
      modifies this, tasks, modals
      ensures payload == TaskData(old(title), old(description), old(columnId), old(subtasks), boards.currentBoard)
      ensures !isLoading
      ensures server(payload).Ok? ==>
        && IsReset()
        && tasks.tasks == TasksContext.CacheAfter(old(tasks.tasks), tasksServer(TasksContext.TasksUrl(payload.boardId)))
        && !tasks.isLoading
        && modals.Valid() && modals.State() == old(modals.State()).(tasksModal := false)
      ensures !server(payload).Ok? ==>
        && title == old(title) && description == old(description)
        && columnId == old(columnId) && subtasks == old(subtasks)
        && tasks.tasks == old(tasks.tasks) && tasks.isLoading == old(tasks.isLoading)
        && modals.State() == old(modals.State()) && modals.scrollLocked == old(modals.scrollLocked)
    {
      isLoading := true;
      payload := TaskData(title, description, columnId, subtasks, boards.currentBoard);
      if server(payload).Ok? {
        Reset();
        RefreshAndClose(tasks, modals, payload.boardId, tasksServer);
      }
      isLoading := false;
    }

    method Reset()
      modifies this`title, this`description, this`columnId, this`subtasks
      ensures IsReset()
    {
      title, description, columnId, subtasks := "", "", "", [""];
    }

    /** The success path's last two steps: refresh the board's tasks, close the tasks modal. */
    static method RefreshAndClose(tasks: TasksContext.TaskStore, modals: ModalContext.Modals,
                                  boardId: Option<Id>, tasksServer: string -> Response<seq<Task>>)
      modifies tasks, modals
      ensures tasks.tasks == TasksContext.CacheAfter(old(tasks.tasks), tasksServer(TasksContext.TasksUrl(boardId)))
      ensures !tasks.isLoading
      ensures modals.Valid() && modals.State() == old(modals.State()).(tasksModal := false)
    {
      var _ := tasks.RefreshTasks(boardId, tasksServer);
      modals.CloseTasksModal();
    }
  }
}
