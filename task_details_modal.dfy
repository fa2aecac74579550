/**
 * The task-details view: the selected task's subtasks with a completed
 * count, a checkbox per subtask that toggles it on the server, and a menu
 * leading to the edit and delete modals.
 */
module TaskDetailsModal {
  import opened Wrappers
  import opened Domain
  import Seqs
  import TasksContext
  import ModalContext

  /** No two subtasks of a task share an id. */
  predicate UniqueIds(subtasks: seq<Subtask>) {
    forall i, j :: 0 <= i < j < |subtasks| ==> subtasks[i].id != subtasks[j].id
  }

  /** The "({completed} of {total})" heading. */
  function Progress(task: Task): (r: (nat, nat))
    ensures r.0 <= r.1 == |task.subtasks|
    ensures r.0 == |task.subtasks| <==> forall k :: 0 <= k < |task.subtasks| ==> task.subtasks[k].completed
  {
    var n := CompletedCount(task.subtasks);
    CountAllCompleted(task.subtasks);
    (n, |task.subtasks|)
  }

  /** Every subtask is completed exactly when the count reaches the total. */
  lemma {:induction false} CountAllCompleted(subtasks: seq<Subtask>)
    ensures CompletedCount(subtasks) == |subtasks| <==> forall k :: 0 <= k < |subtasks| ==> subtasks[k].completed
  {
    if subtasks != [] {
      CountAllCompleted(subtasks[1..]);
      assert forall k :: 1 <= k < |subtasks| ==> subtasks[k] == subtasks[1..][k - 1];
    }
  }

  /** The optimistic update: every subtask with id `id` gets completion `completed`, every other one is kept. */
  function PatchSubtasks(subtasks: seq<Subtask>, id: Id, completed: bool): (r: seq<Subtask>)
    ensures |r| == |subtasks|
    ensures forall k :: 0 <= k < |r| ==>
      r[k] == if subtasks[k].id == id then subtasks[k].(completed := completed) else subtasks[k]
  {
    Seqs.Map((s: Subtask) => if s.id == id then s.(completed := completed) else s, subtasks)
  }

  /** The selected task after toggling subtask `id` to `completed`. */
  function PatchTask(task: Task, id: Id, completed: bool): (r: Task)
    ensures r == task.(subtasks := PatchSubtasks(task.subtasks, id, completed))
  {
    task.(subtasks := PatchSubtasks(task.subtasks, id, completed))
  }

  /** A one-element list adds one to the count exactly when that element is completed. */
  lemma CountSingle(s: Subtask)
    ensures CompletedCount([s]) == if s.completed then 1 else 0
  {
    assert [s][1..] == [];
  }

  /** The count of a list split around position `k`. */
  lemma CountSplit(subtasks: seq<Subtask>, k: nat)
    requires k < |subtasks|
    ensures CompletedCount(subtasks)
         == CompletedCount(subtasks[..k]) + (if subtasks[k].completed then 1 else 0) + CompletedCount(subtasks[k + 1..])
  {
    assert subtasks == subtasks[..k] + [subtasks[k]] + subtasks[k + 1..];
    Seqs.FilterAppend(IsCompleted, subtasks[..k] + [subtasks[k]], subtasks[k + 1..]);
    Seqs.FilterAppend(IsCompleted, subtasks[..k], [subtasks[k]]);
    CountSingle(subtasks[k]);
  }

  /**
   * With distinct ids, toggling subtask `k` changes that subtask alone and
   * moves the completed count by exactly one, up when it becomes completed.
   */
  lemma ToggleMovesCountByOne(subtasks: seq<Subtask>, k: nat, completed: bool)
    requires UniqueIds(subtasks) && k < |subtasks| && subtasks[k].completed != completed
    ensures var r := PatchSubtasks(subtasks, subtasks[k].id, completed);
      && r[k] == subtasks[k].(completed := completed)
      && (forall j :: 0 <= j < |r| && j != k ==> r[j] == subtasks[j])
      && CompletedCount(r) == CompletedCount(subtasks) + (if completed then 1 else -1)
  {
    var r := PatchSubtasks(subtasks, subtasks[k].id, completed);
    assert r[..k] == subtasks[..k];
    assert r[k + 1..] == subtasks[k + 1..];
    CountSplit(subtasks, k);
    CountSplit(r, k);
  }

  /** Toggling twice restores the subtask list. */
  lemma ToggleTwice(subtasks: seq<Subtask>, k: nat)
    requires UniqueIds(subtasks) && k < |subtasks|
    ensures var id := subtasks[k].id;
      PatchSubtasks(PatchSubtasks(subtasks, id, !subtasks[k].completed), id, subtasks[k].completed) == subtasks
  {
  }

  class DetailsView {
    var menuOpen: bool

    constructor ()
      ensures !menuOpen
    {
      menuOpen := false;
    }

    method ToggleMenu()
      modifies this
      ensures menuOpen == !old(menuOpen)
    {
      menuOpen := !menuOpen;
    }

    /**
     * `handleSubtaskToggle(id, currentStatus)`: `server(id, completed)` is
     * whether the PUT answered ok. On ok the selected task gets the
     * subtask's new completion and all tasks are fetched again, unscoped;
     * otherwise nothing changes.
     */
    method HandleSubtaskToggle(modals: ModalContext.Modals, tasks: TasksContext.TaskStore,
                               id: Id, currentStatus: bool,
                               server: (Id, bool) -> bool, tasksServer: string -> Response<seq<Task>>)
      requires modals.selectedTask.Some?
      modifies modals, tasks
      ensures if server(id, !currentStatus) then
          && modals.Valid()
          && modals.State() == old(modals.State()).(selectedTask := Some(PatchTask(old(modals.selectedTask).value, id, !currentStatus)))
          && tasks.tasks == TasksContext.CacheAfter(old(tasks.tasks), tasksServer(TasksContext.TasksPath))
          && !tasks.isLoading
        else
          && modals.State() == old(modals.State()) && modals.scrollLocked == old(modals.scrollLocked)
          && tasks.tasks == old(tasks.tasks) && tasks.isLoading == old(tasks.isLoading)
    {
      if !server(id, !currentStatus) {
        return;
      }
      modals.UpdateSelectedTask(PatchTask(modals.selectedTask.value, id, !currentStatus));
      var _ := tasks.RefreshTasks(None, tasksServer);
    }

    /** `handleEdit`: the menu and the details close, the edit modal opens on the same task. */
    method HandleEdit(modals: ModalContext.Modals)
      requires modals.selectedTask.Some?
      modifies this, modals
      ensures !menuOpen
      ensures modals.Valid() && modals.scrollLocked
      ensures modals.State() == old(modals.State()).(taskDetailsModal := false, editTaskModal := true)
    {
      menuOpen := false;
      var task := modals.selectedTask.value;
      modals.CloseTaskDetailsModal();
      modals.OpenEditTaskModal(task);
    }

    /** `handleDelete`: the delete modal opens over the details, which stay open, as does the menu. */
    method HandleDelete(modals: ModalContext.Modals)
      requires modals.selectedTask.Some?
      modifies modals
      ensures modals.Valid() && modals.scrollLocked
      ensures modals.State() == old(modals.State()).(deleteTaskModal := true)
    {
      modals.OpenDeleteTaskModal(modals.selectedTask.value);
    }
  }
}
