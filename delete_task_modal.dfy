/**
 * The delete-task confirmation: after the server deletes the selected task,
 * all tasks are fetched again and both the confirmation and the details
 * view close; a failed delete leaves everything open.
 */
module DeleteTaskModal {
  import opened Wrappers
  import opened Domain
  import TasksContext
  import ModalContext

  /**
   * `handleDelete`: `deleted(id)` is whether the DELETE request for task
   * `id` answered ok. Without a selected task, or when the delete fails,
   * nothing changes.
   */
  method HandleDelete(modals: ModalContext.Modals, tasks: TasksContext.TaskStore,
                      deleted: Id -> bool, tasksServer: string -> Response<seq<Task>>)
    modifies modals, tasks
    ensures var selected := old(modals.selectedTask);
      if selected.Some? && deleted(selected.value.id) then
        && tasks.tasks == TasksContext.CacheAfter(old(tasks.tasks), tasksServer(TasksContext.TasksPath))
        && !tasks.isLoading
        && modals.Valid()
        && modals.State() == old(modals.State()).(deleteTaskModal := false, taskDetailsModal := false)
      else
        && tasks.tasks == old(tasks.tasks) && tasks.isLoading == old(tasks.isLoading)
        && modals.State() == old(modals.State()) && modals.scrollLocked == old(modals.scrollLocked)
  {
    if modals.selectedTask.None? || !deleted(modals.selectedTask.value.id) {
      return;
    }
    var _ := tasks.RefreshTasks(None, tasksServer);
    modals.CloseDeleteTaskModal();
    modals.CloseTaskDetailsModal();
  }

  /** The Cancel button: only the confirmation closes. */
  method Cancel(modals: ModalContext.Modals)
    modifies modals
    ensures modals.Valid() && modals.State() == old(modals.State()).(deleteTaskModal := false)
  {
    modals.CloseDeleteTaskModal();
  }
}
