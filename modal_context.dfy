/**
 * The modal coordinator: seven visibility flags, the selected task and the
 * selected board, and the body scroll lock that follows the flags. (The
 * coordinator declares no add-column flag; see the README.)
 */
module ModalContext {
  import opened Wrappers
  import opened Domain

  /** A snapshot of the coordinator's nine state fields. */
  datatype ModalState = ModalState(
    tasksModal: bool,
    boardsModal: bool,
    taskDetailsModal: bool,
    editTaskModal: bool,
    deleteTaskModal: bool,
    addBoardModal: bool,
    deleteBoardModal: bool,
    selectedTask: Option<Task>,
    selectedBoard: Option<Board>)
  {
    /** `isAnyModalOpen`: the OR of the seven flags. */
    predicate AnyOpen() {
      tasksModal || boardsModal || taskDetailsModal || editTaskModal
      || deleteTaskModal || addBoardModal || deleteBoardModal
    }
  }

  const Closed := ModalState(false, false, false, false, false, false, false, None, None)

  class Modals {
    var isTasksModalOpen: bool
    var isBoardsModalOpen: bool
    var isTaskDetailsModalOpen: bool
    var isEditTaskModalOpen: bool
    var isDeleteTaskModalOpen: bool
    var isAddBoardModalOpen: bool
    var isDeleteBoardModalOpen: bool
    var selectedTask: Option<Task>
    var selectedBoard: Option<Board>
    /** Whether the body carries the `overflow-hidden` class. */
    var scrollLocked: bool

    function State(): ModalState
      reads this
    {
      ModalState(
        isTasksModalOpen, isBoardsModalOpen, isTaskDetailsModalOpen, isEditTaskModalOpen,
        isDeleteTaskModalOpen, isAddBoardModalOpen, isDeleteBoardModalOpen,
        selectedTask, selectedBoard)
    }

    /** The scroll-lock effect has run: the body is locked iff some modal is open. */
    ghost predicate Valid()
      reads this
    {
      scrollLocked == State().AnyOpen()
    }

    /** Every flag false, nothing selected, scroll unlocked. */
    constructor ()
      ensures Valid() && State() == Closed && !scrollLocked
    {
      isTasksModalOpen, isBoardsModalOpen, isTaskDetailsModalOpen := false, false, false;
      isEditTaskModalOpen, isDeleteTaskModalOpen := false, false;
      isAddBoardModalOpen, isDeleteBoardModalOpen := false, false;
      selectedTask, selectedBoard := None, None;
      scrollLocked := false;
    }

    /** The effect that re-runs after every flag change. */
    method ApplyScrollLock()
      modifies this`scrollLocked
      ensures Valid()
    {
      scrollLocked := State().AnyOpen();
    }

    method OpenTasksModal()
      modifies this
      ensures Valid() && State() == old(State()).(tasksModal := true) && scrollLocked
    {
      isTasksModalOpen := true;
      ApplyScrollLock();
    }

    method CloseTasksModal()
      modifies this
      ensures Valid() && State() == old(State()).(tasksModal := false)
    {
      isTasksModalOpen := false;
      ApplyScrollLock();
    }

    method OpenBoardsModal()
      modifies this
      ensures Valid() && State() == old(State()).(boardsModal := true) && scrollLocked
    {
      isBoardsModalOpen := true;
      ApplyScrollLock();
    }

    method CloseBoardsModal()
      modifies this
      ensures Valid() && State() == old(State()).(boardsModal := false)
    {
      isBoardsModalOpen := false;
      ApplyScrollLock();
    }

    method ToggleBoardsModal()
      modifies this
      ensures Valid() && State() == old(State()).(boardsModal := !old(isBoardsModalOpen))
    {
      isBoardsModalOpen := !isBoardsModalOpen;
      ApplyScrollLock();
    }

    method OpenTaskDetailsModal(task: Task)
      modifies this
      ensures Valid() && State() == old(State()).(taskDetailsModal := true, selectedTask := Some(task))
      ensures scrollLocked
    {
      selectedTask := Some(task);
      isTaskDetailsModalOpen := true;
      ApplyScrollLock();
    }

    method CloseTaskDetailsModal()
      modifies this
      ensures Valid() && State() == old(State()).(taskDetailsModal := false)
    {
      isTaskDetailsModalOpen := false;
      ApplyScrollLock();
    }

    method OpenEditTaskModal(task: Task)
      modifies this
      ensures Valid() && State() == old(State()).(editTaskModal := true, selectedTask := Some(task))
      ensures scrollLocked
    {
      selectedTask := Some(task);
      isEditTaskModalOpen := true;
      ApplyScrollLock();
    }

    method CloseEditTaskModal()
      modifies this
      ensures Valid() && State() == old(State()).(editTaskModal := false)
    {
      isEditTaskModalOpen := false;
      ApplyScrollLock();
    }

    method OpenDeleteTaskModal(task: Task)
      modifies this
      ensures Valid() && State() == old(State()).(deleteTaskModal := true, selectedTask := Some(task))
      ensures scrollLocked
    {
      selectedTask := Some(task);
      isDeleteTaskModalOpen := true;
      ApplyScrollLock();
    }

    method CloseDeleteTaskModal()
      modifies this
      ensures Valid() && State() == old(State()).(deleteTaskModal := false)
    {
      isDeleteTaskModalOpen := false;
      ApplyScrollLock();
    }

    method OpenAddBoardModal()
      modifies this
      ensures Valid() && State() == old(State()).(addBoardModal := true) && scrollLocked
    {
      isAddBoardModalOpen := true;
      ApplyScrollLock();
    }

    method CloseAddBoardModal()
      modifies this
      ensures Valid() && State() == old(State()).(addBoardModal := false)
    {
      isAddBoardModalOpen := false;
      ApplyScrollLock();
    }

    method OpenDeleteBoardModal(board: Board)
      modifies this
      ensures Valid() && State() == old(State()).(deleteBoardModal := true, selectedBoard := Some(board))
      ensures scrollLocked
    {
      selectedBoard := Some(board);
      isDeleteBoardModalOpen := true;
      ApplyScrollLock();
    }

    method CloseDeleteBoardModal()
      modifies this
      ensures Valid() && State() == old(State()).(deleteBoardModal := false)
    {
      isDeleteBoardModalOpen := false;
      ApplyScrollLock();
    }

    /** Replaces the selected task; no flag changes. */
    method UpdateSelectedTask(task: Task)
      modifies this
      ensures Valid() && State() == old(State()).(selectedTask := Some(task))
    {
      selectedTask := Some(task);
      ApplyScrollLock();
    }
  }
}
