/**
 * The edit-task form. It is filled from the selected task whenever that
 * changes; submitting sends only the trimmed title and description and the
 * column to PUT /api/tasks/{id}. Subtask edits stay in the form and are
 * never sent. On success the current board's tasks are fetched again and
 * the edit modal closes.
 */
module EditTaskModal {
  import opened Wrappers
  import opened Domain
  import Seqs
  import Text
  import BoardsContext
  import TasksContext
  import ModalContext
  import AddTaskModal

  /** A subtask input: existing subtasks carry their id and completion, added ones neither. */
  datatype SubtaskForm = SubtaskForm(id: Option<Id>, title: string, completed: Option<bool>)

  /** The JSON body of the PUT. */
  datatype TaskUpdate = TaskUpdate(title: string, description: string, columnId: Id)

  /** The subtask inputs hydrated from a task: one per subtask, same order, id and completion kept. */
  function HydratedSubtasks(subtasks: seq<Subtask>): (r: seq<SubtaskForm>)
    ensures |r| == |subtasks|
    ensures forall k :: 0 <= k < |r| ==>
      r[k] == SubtaskForm(Some(subtasks[k].id), subtasks[k].title, Some(subtasks[k].completed))
  {
    Seqs.Map((s: Subtask) => SubtaskForm(Some(s.id), s.title, Some(s.completed)), subtasks)
  }

  /** `updateSubtask(index, title)`: retitles input `index` and keeps its id and completion; an index out of range changes nothing. */
  function RetitleAt(subtasks: seq<SubtaskForm>, index: int, title: string): (r: seq<SubtaskForm>)
    ensures |r| == |subtasks|
    ensures forall k :: 0 <= k < |r| ==>
      r[k] == if k == index then subtasks[k].(title := title) else subtasks[k]
  {
    Seqs.Map((p: (int, SubtaskForm)) => if p.0 == index then p.1.(title := title) else p.1,
             seq(|subtasks|, k requires 0 <= k < |subtasks| => (k, subtasks[k])))
  }

  /** The PUT body for the form's fields. */
  function EditData(title: string, description: string, columnId: Id): (r: TaskUpdate)
    ensures Text.IsTrimmed(r.title) && Text.IsTrimmed(r.description) && r.columnId == columnId
    ensures r.title == "" <==> Text.IsBlank(title)
  {
    TaskUpdate(Text.Trim(title), Text.Trim(description), columnId)
  }

  /** The form renders for a selected task on a current board with at least one column. */
  predicate Renders(selected: Option<Task>, current: Option<Board>) {
    selected.Some? && AddTaskModal.Renders(current)
  }

  /** Opening a task and submitting unchanged sends its own fields, trimmed, with a missing description as "". */
  lemma UnchangedSubmitKeepsFields(task: Task)
    requires Text.IsTrimmed(task.title)
    requires task.description.Some? ==> Text.IsTrimmed(task.description.value)
    ensures EditData(task.title, OrEmpty(task.description), task.columnId)
         == TaskUpdate(task.title, OrEmpty(task.description), task.columnId)
  {
    if task.description.None? {
      assert Text.IsTrimmed("");
    }
  }

  class EditTaskForm {
    var title: string
    var description: string
    var columnId: Id
    var subtasks: seq<SubtaskForm>
    var isLoading: bool

    constructor ()
      ensures title == "" && description == "" && columnId == "" && subtasks == [] && !isLoading
    {
      title, description, columnId, subtasks := "", "", "", [];
      isLoading := false;
    }

    /** The effect run when the selected task changes: without one the form is left as it is. */
    method Hydrate(selected: Option<Task>)
      modifies this`title, this`description, this`columnId, this`subtasks
      ensures selected.None? ==>
        title == old(title) && description == old(description)
        && columnId == old(columnId) && subtasks == old(subtasks)
      ensures selected.Some? ==>
        title == selected.value.title && description == OrEmpty(selected.value.description)
        && columnId == selected.value.columnId && subtasks == HydratedSubtasks(selected.value.subtasks)
    {
      if selected.None? {
        return;
      }
      var task := selected.value;
      title := task.title;
      description := OrEmpty(task.description);
      columnId := task.columnId;
      subtasks := HydratedSubtasks(task.subtasks);
    }

    method SetFields(newTitle: string, newDescription: string, newColumnId: Id)
      modifies this`title, this`description, this`columnId
      ensures title == newTitle && description == newDescription && columnId == newColumnId
    {
      title, description, columnId := newTitle, newDescription, newColumnId;
    }

    method AddSubtaskInput()
      modifies this`subtasks
      ensures subtasks == old(subtasks) + [SubtaskForm(None, "", None)]
    {
      subtasks := subtasks + [SubtaskForm(None, "", None)];
    }

    method RemoveSubtaskInput(index: int)
      modifies this`subtasks
      ensures subtasks == Seqs.RemoveAt(old(subtasks), index)
    {
      subtasks := Seqs.RemoveAt(subtasks, index);
    }

    method UpdateSubtaskInput(index: int, newTitle: string)
      modifies this`subtasks
      ensures subtasks == RetitleAt(old(subtasks), index, newTitle)
    {
      subtasks := RetitleAt(subtasks, index, newTitle);
    }

    /**
     * `handleSubmit`. Without a selected task nothing happens. Otherwise
     * `server(id, body)` answers the PUT; on an ok answer the current
     * board's tasks are fetched (`tasksServer` answers) and the edit modal
     * closes. The form's fields are never reset.
     */
    method Submit(boards: BoardsContext.BoardStore, tasks: TasksContext.TaskStore,
                  modals: ModalContext.Modals,
                  server: (Id, TaskUpdate) -> Response<Task>, tasksServer: string -> Response<seq<Task>>)
      modifies this`isLoading, tasks, modals
      ensures isLoading == (old(isLoading) && old(modals.selectedTask).None?)
      ensures var ok := old(modals.selectedTask).Some?
          && server(old(modals.selectedTask).value.id, EditData(title, description, columnId)).Ok?;
        if ok then
          && tasks.tasks == TasksContext.CacheAfter(old(tasks.tasks),
               tasksServer(TasksContext.TasksUrl(AddTaskModal.CurrentId(boards.currentBoard))))
          && !tasks.isLoading
          && modals.Valid() && modals.State() == old(modals.State()).(editTaskModal := false)
        else
          && tasks.tasks == old(tasks.tasks) && tasks.isLoading == old(tasks.isLoading)
          && modals.State() == old(modals.State()) && modals.scrollLocked == old(modals.scrollLocked)
    {
      if modals.selectedTask.None? {
        return;
      }
      isLoading := true;
      var response := server(modals.selectedTask.value.id, EditData(title, description, columnId));
      if response.Ok? {
        var _ := tasks.RefreshTasks(AddTaskModal.CurrentId(boards.currentBoard), tasksServer);
        modals.CloseEditTaskModal();
      }
      isLoading := false;
    }
  }
}
