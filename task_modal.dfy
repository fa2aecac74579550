/**
 * The older add-task form. It posts a status instead of a column and a
 * board, resets and closes on success, and does not fetch the tasks again.
 */
module TaskModal {
  import opened Wrappers
  import opened Domain
  import Seqs
  import Text
  import ModalContext

  const DefaultStatus := "todo"

  /** The JSON body this form posts to /api/tasks. */
  datatype LegacyTaskPayload = LegacyTaskPayload(
    title: string,
    description: string,
    status: string,
    subtasks: seq<string>)

  /** `taskData` of this form: trimmed title and description, the status as chosen, the non-blank subtask titles trimmed. */
  function LegacyTaskData(title: string, description: string, status: string, subtasks: seq<string>): (r: LegacyTaskPayload)
    ensures Text.IsTrimmed(r.title) && Text.IsTrimmed(r.description) && r.status == status
    ensures r.title == "" <==> Text.IsBlank(title)
    ensures |r.subtasks| <= |subtasks| && forall t :: t in r.subtasks ==> t != "" && Text.IsTrimmed(t)
  {
    LegacyTaskPayload(Text.Trim(title), Text.Trim(description), status, Text.NonBlankTrimmed(subtasks))
  }

  class LegacyTaskForm {
    var title: string
    var description: string
    var status: string
    var subtasks: seq<string>
    var isLoading: bool

    predicate IsReset()
      reads this
    {
      title == "" && description == "" && status == DefaultStatus && subtasks == [""]
    }

    constructor ()
      ensures IsReset() && !isLoading
    {
      title, description, status, subtasks := "", "", DefaultStatus, [""];
      isLoading := false;
    }

    method Reset()
      modifies this`title, this`description, this`status, this`subtasks
      ensures IsReset()
    {
      title, description, status, subtasks := "", "", DefaultStatus, [""];
    }

    method SetFields(newTitle: string, newDescription: string, newStatus: string)
      modifies this`title, this`description, this`status
      ensures title == newTitle && description == newDescription && status == newStatus
    {
      title, description, status := newTitle, newDescription, newStatus;
    }

    method AddSubtaskInput()
      modifies this`subtasks
      ensures subtasks == old(subtasks) + [""]
    {
      subtasks := subtasks + [""];
    }

    method RemoveSubtaskInput(index: int)
      modifies this`subtasks
      ensures subtasks == Seqs.RemoveAt(old(subtasks), index)
    {
      subtasks := Seqs.RemoveAt(subtasks, index);
    }

    method UpdateSubtaskInput(index: nat, newTitle: string)
      requires index < |subtasks|
      modifies this`subtasks
      ensures subtasks == Seqs.ReplaceAt(old(subtasks), index, newTitle)
    {
      subtasks := subtasks[index := newTitle];
    }

    /**
     * `handleSubmit`: on an ok answer the form is reset and the tasks modal
     * closes; otherwise only loading changes. No tasks are fetched.
     */
    method Submit(modals: ModalContext.Modals, server: LegacyTaskPayload -> Response<Task>)
      returns (payload: LegacyTaskPayload)
      modifies this, modals
      ensures payload == LegacyTaskData(old(title), old(description), old(status), old(subtasks))
      ensures !isLoading
      ensures server(payload).Ok? ==>
        IsReset() && modals.Valid() && modals.State() == old(modals.State()).(tasksModal := false)
      ensures !server(payload).Ok? ==>
        && title == old(title) && description == old(description)
        && status == old(status) && subtasks == old(subtasks)
        && modals.State() == old(modals.State()) && modals.scrollLocked == old(modals.scrollLocked)
    {
      isLoading := true;
      payload := LegacyTaskData(title, description, status, subtasks);
      if server(payload).Ok? {
        Reset();
        modals.CloseTasksModal();
      }
      isLoading := false;
    }
  }
}
