# Kanban board: verified model

This project models the core of a small kanban application in Dafny:
boards with columns, tasks with subtasks, and the code that keeps them in
step on both sides of HTTP.

- **Client stores.** The boards store keeps the board list, the current board, a loading flag and an error. The tasks store caches the fetched tasks. The modal coordinator holds seven open flags, the selected task, the selected board and the scroll lock. The theme store holds the theme and writes it through to storage and the document.
- **Forms and dialogs.** These are the add-board, add-column, add-task, edit-task, task-details, delete-task and delete-board components, plus the older add-task form. Each has its local form state and its submit, confirm and list-editing handlers.
- **Page.** The board page chooses its screen, lays out the column lanes with their tasks and colours, shows each card's progress, and decides which overlays are mounted.
- **Route handlers.** These are `GET`/`POST /api/tasks`, `GET`/`POST /api/boards` and `POST /api/columns`, working over a database of four tables.

Anything whose state the source updates in place is a `class` with
`modifies` clauses: the stores, each form and the database tables. Every
method states its whole new state in terms of its old state and its
inputs. Every HTTP exchange and every database call is an input to the
step that makes it:

- a client `fetch` is a function from the request to its response;
- a database call is an outcome value such as an insert result or an error.

Each asynchronous handler is modelled as one atomic step.

JavaScript semantics are written out:

- `String.prototype.trim` uses the ECMAScript white-space and line-terminator set.
- Truthiness of an optional string is "present and non-empty".
- `??` is `GetOr`.
- `filter((_, i) => i !== index)` removes nothing when the index is out of range.
- "Newest first" is reverse insertion order.

Points where the code behaves differently from what its names suggest:

- `src/contexts/ModalContext.tsx` defines no add-column flag and no add-column open or close function. Yet `src/app/page.tsx:31-32` and `src/components/AddColumnModal.tsx:11` destructure `isAddColumnModalOpen`, `openAddColumnModal` and `closeAddColumnModal` from it. So the add-column form's close call (`AddColumnModal.tsx:29`) throws after a successful creation, the page's "+ New Column" button (`page.tsx:146`) has no handler, and the add-column overlay is never mounted.
- `src/contexts/ThemeContext.tsx:26-28` adopts any non-empty stored theme value without checking that it names a theme.
- `src/app/api/boards/route.ts:59` answers a created board with the bare board row, without `board_columns`. So a board the client has just created has no column array. Adding a column to it fails in the client after the server has already stored the column, and neither task form renders for it (`Flows.CreatedBoardHidesTaskForms`).
- `src/app/page.tsx:4` imports `AddTaskModal` under the name `TaskModal`. The older `TaskModal` form is never mounted; it is modelled anyway.

## Model

| member | source | states |
|---|---|---|
| Text.Trim | src/components/AddBoardModal.tsx:37 | the result is trimmed and no longer than the input; it is empty exactly when the input is all white space; an already trimmed string is unchanged |
| Text.TrimIdempotent | src/app/api/boards/route.ts:23 | trimming a second time, as the server does with a name the client already trimmed, changes nothing |
| Text.TrimStripsPadding | src/app/api/columns/route.ts:23 | trimming removes exactly the white space around a trimmed core |
| Text.NonBlankTrimmed | src/components/AddBoardModal.tsx:38-40 | keeps at most as many names as given; each kept name is non-empty and trimmed |
| Text.NonBlankTrimmedSingle | src/components/AddTaskModal.tsx:70-72 | one input yields nothing when it is blank, and its trimmed text otherwise |
| Text.NonBlankTrimmedAppend | src/components/AddTaskModal.tsx:70-72 | filtering and trimming a list works piecewise over concatenation |
| Text.NonBlankTrimmedIdempotent | src/app/api/tasks/route.ts:112-118 | the server's second filter-and-trim of titles the client already cleaned changes nothing |
| Domain.CompletedCount | src/app/page.tsx:132 | the completed subtasks are never more than all subtasks |
| BoardsContext.FetchError | src/contexts/BoardsContext.tsx:52-65 | a non-ok answer records "Failed to fetch boards"; a thrown error records its own message |
| BoardsContext.RethrownError | src/contexts/BoardsContext.tsx:88-90 | the error is the answer's `error` field, or the fallback message when that field is missing; a thrown error keeps its message |
| BoardsContext.SelectAfterFetch | src/contexts/BoardsContext.tsx:59-62 | an existing current board is kept; with none, the first fetched board becomes current, if there is one |
| BoardsContext.ReplaceBoard | src/contexts/BoardsContext.tsx:137-139 | every board with the id is replaced by the updated board; the others and the length are kept |
| BoardsContext.WithColumn | src/contexts/BoardsContext.tsx:130-133 | fails exactly when the board has no column array; otherwise the column is appended and the id and name are kept |
| BoardsContext.ReplaceBoardTouchesOne | src/contexts/BoardsContext.tsx:137-139 | with distinct ids, only the board at that position changes |
| BoardsContext.BoardStore.constructor | src/contexts/BoardsContext.tsx:40-43 | no boards, no current board, loading, no error |
| BoardsContext.BoardStore.SetCurrentBoard | src/contexts/BoardsContext.tsx:41 | the current board becomes the given one; nothing else changes |
| BoardsContext.BoardStore.FetchBoards | src/contexts/BoardsContext.tsx:45-73 | ok: the list is replaced and the current board chosen as `SelectAfterFetch` says; failure: list and current board are kept and the error is recorded; loading ends either way |
| BoardsContext.BoardStore.CreateBoard | src/contexts/BoardsContext.tsx:75-106 | ok: the new board is put in front of the list and made current; failure: the rethrown error, and the store is unchanged |
| BoardsContext.BoardStore.CreateColumn | src/contexts/BoardsContext.tsx:108-147 | ok on the current board: the column is appended there and in the list; ok on another board: the store is unchanged; failure, or a current board without a column array: an error, and the store is unchanged |
| TasksContext.TasksUrl | src/contexts/TasksContext.tsx:44 | the URL starts with /api/tasks and is scoped to the given board exactly when a non-empty id is given |
| TasksContext.CacheAfter | src/contexts/TasksContext.tsx:46-51 | an ok answer replaces the cache; any other answer keeps it |
| TasksContext.CacheForgetsOld | src/contexts/TasksContext.tsx:48 | after an ok answer nothing of the old cache remains |
| TasksContext.RefreshIdempotent | src/contexts/TasksContext.tsx:42-61 | two refreshes answered alike leave the cache as one does |
| TasksContext.TaskStore.constructor | src/contexts/TasksContext.tsx:39-40 | no tasks, loading |
| TasksContext.TaskStore.RefreshTasks | src/contexts/TasksContext.tsx:42-61 | requests `TasksUrl`, updates the cache as `CacheAfter` says, and ends loading |
| TasksContext.TaskStore.Mount | src/contexts/TasksContext.tsx:63-65 | the first fetch is unscoped |
| ModalContext.Modals.constructor | src/contexts/ModalContext.tsx:85-93 | all closed, nothing selected, scroll unlocked |
| ModalContext.Modals.ApplyScrollLock | src/contexts/ModalContext.tsx:136-171 | the scroll lock holds exactly when some modal is open |
| ModalContext.Modals.OpenTasksModal | src/contexts/ModalContext.tsx:95 | only the tasks flag changes, to open; scroll locked |
| ModalContext.Modals.CloseTasksModal | src/contexts/ModalContext.tsx:96 | only the tasks flag changes, to closed; lock follows |
| ModalContext.Modals.OpenBoardsModal | src/contexts/ModalContext.tsx:104 | only the boards flag changes, to open |
| ModalContext.Modals.CloseBoardsModal | src/contexts/ModalContext.tsx:105 | only the boards flag changes, to closed |
| ModalContext.Modals.ToggleBoardsModal | src/contexts/ModalContext.tsx:106 | only the boards flag changes, to its negation |
| ModalContext.Modals.OpenTaskDetailsModal | src/contexts/ModalContext.tsx:98-101 | selects the task and opens the details flag; nothing else changes |
| ModalContext.Modals.CloseTaskDetailsModal | src/contexts/ModalContext.tsx:102 | only the details flag changes; the selection stays |
| ModalContext.Modals.OpenEditTaskModal | src/contexts/ModalContext.tsx:108-111 | selects the task and opens the edit flag |
| ModalContext.Modals.CloseEditTaskModal | src/contexts/ModalContext.tsx:112-114 | only the edit flag changes |
| ModalContext.Modals.OpenDeleteTaskModal | src/contexts/ModalContext.tsx:116-119 | selects the task and opens the delete-task flag |
| ModalContext.Modals.CloseDeleteTaskModal | src/contexts/ModalContext.tsx:120 | only the delete-task flag changes |
| ModalContext.Modals.OpenAddBoardModal | src/contexts/ModalContext.tsx:122 | only the add-board flag changes, to open |
| ModalContext.Modals.CloseAddBoardModal | src/contexts/ModalContext.tsx:123 | only the add-board flag changes, to closed |
| ModalContext.Modals.OpenDeleteBoardModal | src/contexts/ModalContext.tsx:125-128 | selects the board and opens the delete-board flag |
| ModalContext.Modals.CloseDeleteBoardModal | src/contexts/ModalContext.tsx:129 | only the delete-board flag changes; the selected board stays |
| ModalContext.Modals.UpdateSelectedTask | src/contexts/ModalContext.tsx:131-133 | only the selected task changes |
| ThemeContext.InitialTheme | src/contexts/ThemeContext.tsx:25-35 | a non-empty saved value wins, unchecked; otherwise dark exactly when the system prefers dark |
| ThemeContext.Toggled | src/contexts/ThemeContext.tsx:44-46 | always a theme, and dark exactly when the previous one was light |
| ThemeContext.ToggleTwice | src/contexts/ThemeContext.tsx:44-46 | on the two themes toggling twice gives back the theme; any other value toggles into light |
| ThemeContext.ThemeStore.constructor | src/contexts/ThemeContext.tsx:22 | starts light; storage keeps what was saved before |
| ThemeContext.ThemeStore.Persist | src/contexts/ThemeContext.tsx:39-42 | storage and the `data-theme` attribute both equal the theme |
| ThemeContext.ThemeStore.Mount | src/contexts/ThemeContext.tsx:25-42 | the theme becomes `InitialTheme` of what storage held, and is written through |
| ThemeContext.ThemeStore.ToggleTheme | src/contexts/ThemeContext.tsx:44-46 | the theme becomes `Toggled` of the old one, and is written through |
| ThemeContext.ThemeStore.SetTheme | src/contexts/ThemeContext.tsx:48-50 | the theme becomes the given one, and is written through |
| Database.ColumnsOf | src/app/api/boards/route.ts:74-79 | every embedded column belongs to the board and comes from the columns table |
| Database.SubtasksOf | src/app/api/tasks/route.ts:19-26 | every embedded subtask belongs to the task and comes from the subtasks table |
| Database.ColumnsOfComplete | src/app/api/boards/route.ts:74-79 | every column row of the board is embedded: the embedding loses none |
| Database.SubtasksOfComplete | src/app/api/tasks/route.ts:19-26 | every subtask row of the task is embedded: the embedding loses none |
| TasksRoute.SubtaskTitles | src/app/api/tasks/route.ts:112-118 | at most one title per submitted subtask; each is non-empty and trimmed |
| TasksRoute.SubtaskRows | src/app/api/tasks/route.ts:113-118 | one row per valid title, in order, under the new task |
| TasksRoute.NewTaskRow | src/app/api/tasks/route.ts:83-93 | trimmed title, trimmed description or null, the given column and board, status "todo", owner "anonymous" |
| TasksRoute.Listing | src/app/api/tasks/route.ts:19-33 | every listed task belongs to the placeholder owner and, when a board is given, to that board |
| TasksRoute.ListingSound | src/app/api/tasks/route.ts:19-33 | every listed task is a row that passes the filter, with its subtasks embedded |
| TasksRoute.ListingComplete | src/app/api/tasks/route.ts:27-33 | every row that passes the filter is listed, with its subtasks |
| TasksRoute.ListingLast | src/app/api/tasks/route.ts:28 | the row inserted last, if it passes the filter, heads the listing of the rows before it |
| TasksRoute.ListingAppend | src/app/api/tasks/route.ts:28 | for any split of the table into older and newer rows, the newer rows' listing comes before the older rows' listing |
| TasksRoute.NewestFirst | src/app/api/tasks/route.ts:28 | a row inserted last is listed first |
| TasksRoute.Get | src/app/api/tasks/route.ts:14-53 | 200 with `Listing`, or 500 "Failed to fetch tasks" on a query error; nothing is written |
| TasksRoute.InsertSubtasks | src/app/api/tasks/route.ts:111-130 | appends `SubtaskRows` unless no titles are valid or the insert fails; other tables unchanged |
| TasksRoute.Post | src/app/api/tasks/route.ts:56-160 | 400 without title, column or board; 500 when the task insert fails or yields no row; otherwise the task row is stored and the answer is 201 with the read-back task, or 500 if the read-back fails |
| BoardsRoute.ColumnRows | src/app/api/boards/route.ts:39-42 | one row per submitted column, in order, with the trimmed name and the new board's id |
| BoardsRoute.DeleteBoard | src/app/api/boards/route.ts:52 | only boards with another id remain |
| BoardsRoute.RollbackRestores | src/app/api/boards/route.ts:49-57 | deleting the board just inserted restores the table |
| BoardsRoute.WithColumns | src/app/api/boards/route.ts:74-79 | the board keeps its row's id and name and carries a column array holding only its own columns |
| BoardsRoute.BoardListing | src/app/api/boards/route.ts:69-93 | one entry per board, newest first, each with a column array holding exactly its own column rows: none from another board, none missing |
| BoardsRoute.Get | src/app/api/boards/route.ts:69-101 | 200 with `BoardListing`, or 500 "Failed to fetch boards" |
| BoardsRoute.Post | src/app/api/boards/route.ts:4-67 | 400 without name or columns; 500 when the board insert fails; when a column has no name, 500 with the board kept; when the column insert fails, 500 and the board removed again unless that delete fails; otherwise 201 with board and columns stored |
| ColumnsRoute.NewColumnRow | src/app/api/columns/route.ts:19-27 | the trimmed name under the given board |
| ColumnsRoute.Post | src/app/api/columns/route.ts:4-48 | 400 without name or board; 500 "Failed to create column" on an insert error; otherwise 201 with the row appended |
| AddBoardModal.AddColumn | src/components/AddBoardModal.tsx:15-17 | one more entry, empty, at the end; the others kept |
| AddBoardModal.RemoveColumn | src/components/AddBoardModal.tsx:19-23 | with more than one entry the indexed one is dropped and an index out of range drops nothing; a single entry is never removed |
| AddBoardModal.UpdateColumn | src/components/AddBoardModal.tsx:25-29 | only the indexed entry changes |
| AddBoardModal.BoardData | src/components/AddBoardModal.tsx:36-41 | trimmed name, empty exactly when the typed name is blank; the non-blank column names, trimmed |
| AddBoardModal.AddBoardForm.constructor | src/components/AddBoardModal.tsx:8-10 | empty name, columns "Todo" and "Doing", not loading |
| AddBoardModal.AddBoardForm.SetBoardName | src/components/AddBoardModal.tsx:8 | the name becomes the typed text; the column list stays non-empty |
| AddBoardModal.AddBoardForm.AddColumnInput | src/components/AddBoardModal.tsx:15-17 | the list becomes `AddColumn` of the old list |
| AddBoardModal.AddBoardForm.RemoveColumnInput | src/components/AddBoardModal.tsx:19-23 | the list becomes `RemoveColumn` of the old list and stays non-empty |
| AddBoardModal.AddBoardForm.UpdateColumnInput | src/components/AddBoardModal.tsx:25-29 | the list becomes `UpdateColumn` of the old list |
| AddBoardModal.AddBoardForm.Submit | src/components/AddBoardModal.tsx:31-58 | ok: the board is in front and current, the form is reset and the modal closed; failure: form, store and modals unchanged; loading ends |
| AddColumnModal.ColumnData | src/components/AddColumnModal.tsx:25 | the trimmed name, empty exactly when blank, under the current board's id |
| AddColumnModal.AddColumnForm.constructor | src/components/AddColumnModal.tsx:8-9 | empty name, not loading |
| AddColumnModal.AddColumnForm.SetColumnName | src/components/AddColumnModal.tsx:8 | the name becomes the typed text |
| AddColumnModal.AddColumnForm.Submit | src/components/AddColumnModal.tsx:14-36 | no current board: nothing changes; success: the store gains the column and the name is cleared; failure: name and store kept |
| DeleteBoardModal.FirstOtherIndex | src/components/DeleteBoardModal.tsx:21-23 | every board before the index has the deleted id; the board at it, if any, does not |
| DeleteBoardModal.FilterFirstOther | src/components/DeleteBoardModal.tsx:21-24 | the first board the filter keeps is the board at `FirstOtherIndex` |
| DeleteBoardModal.NextCurrent | src/components/DeleteBoardModal.tsx:20-27 | none for at most one board; otherwise the first board with another id, if any |
| DeleteBoardModal.NextCurrentIsAnotherBoard | src/components/DeleteBoardModal.tsx:19-24 | with distinct ids and at least two boards, another existing board becomes current |
| DeleteBoardModal.HandleDelete | src/components/DeleteBoardModal.tsx:12-35 | no selection or a failed delete: nothing changes; otherwise the current board becomes `NextCurrent`, boards are fetched again (their result or the fetch error is stored) and only the delete-board flag closes |
| AddTaskModal.CurrentId | src/components/AddTaskModal.tsx:68 | the current board's id exactly when there is a current board |
| AddTaskModal.TaskData | src/components/AddTaskModal.tsx:64-73 | trimmed title, empty exactly when blank; trimmed description; the chosen column and the current board; the non-blank subtask titles, trimmed |
| AddTaskModal.RemoveSubtask | src/components/AddTaskModal.tsx:43-45 | drops the indexed input, even the last one; an index out of range drops nothing |
| AddTaskModal.AddTaskForm.constructor | src/components/AddTaskModal.tsx:29-33 | empty fields, one empty subtask input, not loading |
| AddTaskModal.AddTaskForm.SetFields | src/components/AddTaskModal.tsx:29-31 | the fields become the typed values |
| AddTaskModal.AddTaskForm.AddSubtaskInput | src/components/AddTaskModal.tsx:39-41 | one empty input appended |
| AddTaskModal.AddTaskForm.RemoveSubtaskInput | src/components/AddTaskModal.tsx:43-45 | the inputs become `RemoveSubtask` of the old ones |
| AddTaskModal.AddTaskForm.UpdateSubtaskInput | src/components/AddTaskModal.tsx:47-51 | only the indexed input changes |
| AddTaskModal.AddTaskForm.Reset | src/components/AddTaskModal.tsx:93-96 | empty title, description and column, one empty subtask input |
| AddTaskModal.AddTaskForm.RefreshAndClose | src/components/AddTaskModal.tsx:98-99 | the cache is updated from the scoped fetch, loading ends, and only the tasks flag closes |
| AddTaskModal.AddTaskForm.Submit | src/components/AddTaskModal.tsx:53-106 | posts `TaskData`; ok: the form is reset, the current board's tasks are fetched and only the tasks flag closes; failure: form, cache and modals unchanged; loading ends |
| EditTaskModal.HydratedSubtasks | src/components/EditTaskModal.tsx:31-37 | one input per subtask, same order, id and completion kept |
| EditTaskModal.RetitleAt | src/components/EditTaskModal.tsx:42-45 | only the indexed input's title changes; its id and completion stay |
| EditTaskModal.EditData | src/components/EditTaskModal.tsx:57-61 | trimmed title, empty exactly when blank; trimmed description; the column |
| EditTaskModal.UnchangedSubmitKeepsFields | src/components/EditTaskModal.tsx:26-61 | submitting a hydrated form unchanged sends the task's own fields, with a missing description as "" |
| EditTaskModal.EditTaskForm.constructor | src/components/EditTaskModal.tsx:19-23 | empty fields, no subtask inputs, not loading |
| EditTaskModal.EditTaskForm.Hydrate | src/components/EditTaskModal.tsx:26-38 | no selected task: the form is kept; otherwise the task's fields and `HydratedSubtasks` |
| EditTaskModal.EditTaskForm.SetFields | src/components/EditTaskModal.tsx:19-21 | the fields become the typed values |
| EditTaskModal.EditTaskForm.AddSubtaskInput | src/components/EditTaskModal.tsx:40 | an input with no id and no completion appended |
| EditTaskModal.EditTaskForm.RemoveSubtaskInput | src/components/EditTaskModal.tsx:41-42 | the indexed input dropped; out of range drops nothing |
| EditTaskModal.EditTaskForm.UpdateSubtaskInput | src/components/EditTaskModal.tsx:43-46 | the inputs become `RetitleAt` of the old ones |
| EditTaskModal.EditTaskForm.Submit | src/components/EditTaskModal.tsx:48-80 | no selected task: nothing happens; ok: the current board's tasks are fetched and only the edit flag closes; failure: cache and modals unchanged; subtasks are never sent |
| TaskDetailsModal.Progress | src/components/TaskDetailsModal.tsx:23-25 | completed is at most the total, and equals it exactly when every subtask is completed |
| TaskDetailsModal.CountAllCompleted | src/components/TaskDetailsModal.tsx:23-25 | the count reaches the total exactly when all subtasks are completed |
| TaskDetailsModal.PatchSubtasks | src/components/TaskDetailsModal.tsx:42-44 | subtasks with the id get the new completion; the others are kept |
| TaskDetailsModal.PatchTask | src/components/TaskDetailsModal.tsx:47 | the task with its subtasks patched |
| TaskDetailsModal.CountSingle | src/components/TaskDetailsModal.tsx:23-24 | a single subtask counts one exactly when completed |
| TaskDetailsModal.CountSplit | src/components/TaskDetailsModal.tsx:23-24 | the count adds up over the parts of a split list |
| TaskDetailsModal.ToggleMovesCountByOne | src/components/TaskDetailsModal.tsx:27-56 | with distinct ids a toggle changes one subtask alone and moves the count by exactly one |
| TaskDetailsModal.ToggleTwice | src/components/TaskDetailsModal.tsx:42-44 | toggling a subtask and toggling it back restores the list |
| TaskDetailsModal.DetailsView.constructor | src/components/TaskDetailsModal.tsx:19 | the menu starts closed |
| TaskDetailsModal.DetailsView.ToggleMenu | src/components/TaskDetailsModal.tsx:78 | the menu flag is negated |
| TaskDetailsModal.DetailsView.HandleSubtaskToggle | src/components/TaskDetailsModal.tsx:27-56 | ok: only the selected task changes, to `PatchTask`, and all tasks are fetched; failure: nothing changes |
| TaskDetailsModal.DetailsView.HandleEdit | src/components/TaskDetailsModal.tsx:60-64 | the menu and details close and the edit modal opens; nothing else changes |
| TaskDetailsModal.DetailsView.HandleDelete | src/components/TaskDetailsModal.tsx:58 | the delete modal opens over the details, which stay open |
| DeleteTaskModal.HandleDelete | src/components/DeleteTaskModal.tsx:13-26 | no selection or a failed delete: nothing changes; otherwise all tasks are fetched and the delete and details flags close |
| DeleteTaskModal.Cancel | src/components/DeleteTaskModal.tsx:46 | only the delete flag closes |
| TaskModal.LegacyTaskData | src/components/TaskModal.tsx:62-69 | trimmed title, empty exactly when blank; trimmed description; the status; the non-blank subtask titles, trimmed |
| TaskModal.LegacyTaskForm.constructor | src/components/TaskModal.tsx:26-30 | empty fields, status "todo", one empty subtask input |
| TaskModal.LegacyTaskForm.SetFields | src/components/TaskModal.tsx:26-28 | the fields become the chosen values |
| TaskModal.LegacyTaskForm.AddSubtaskInput | src/components/TaskModal.tsx:34-36 | one empty input appended |
| TaskModal.LegacyTaskForm.RemoveSubtaskInput | src/components/TaskModal.tsx:38-40 | the indexed input dropped; out of range drops nothing |
| TaskModal.LegacyTaskForm.UpdateSubtaskInput | src/components/TaskModal.tsx:42-46 | only the indexed input changes |
| TaskModal.LegacyTaskForm.Reset | src/components/TaskModal.tsx:90-93 | empty title and description, status "todo", one empty subtask input |
| TaskModal.LegacyTaskForm.Submit | src/components/TaskModal.tsx:50-103 | ok: the form is reset and only the tasks flag closes, with no refetch; failure: form and modals unchanged |
| Page.ScreenFor | src/app/page.tsx:39-75 | loading first, then the no-board screen, then the grid of the current board |
| Page.TasksByColumn | src/app/page.tsx:35-37 | only cached tasks of that column |
| Page.TasksByColumnComplete | src/app/page.tsx:35-37 | every cached task of that column is in its lane |
| Page.ColumnColor | src/app/page.tsx:78-107 | a palette colour, cycling with the lane index |
| Page.NearbyColorsDiffer | src/app/page.tsx:107 | any eight consecutive lanes have different colours |
| Page.PaletteDistinct | src/app/page.tsx:78-87 | the palette has no repeated colour |
| Page.Lanes | src/app/page.tsx:101-141 | one lane per board column, with its colour and tasks; the lanes fill all grid tracks but one |
| Page.GridTracks | src/app/page.tsx:98 | one track per column plus one; one track for a board without a column array |
| Page.EveryTaskShownOnce | src/app/page.tsx:101-115 | with distinct column ids and every task in one of them, the lanes hold exactly as many cards as the cache holds tasks |
| Page.ShownCountCons | src/app/page.tsx:115 | one more task adds one card per column carrying its column id |
| Page.MatchingUnique | src/app/page.tsx:101 | with distinct column ids, exactly one column has a given existing id |
| Page.CardProgress | src/app/page.tsx:129-136 | shown exactly when the task has subtasks, and never more completed than total |
| Page.Mounted | src/app/page.tsx:171-178 | nothing is mounted exactly when no flag is open; the add-task overlay follows the tasks flag; the add-column overlay is never mounted |
| Flows.BoardFormToRows | src/app/api/boards/route.ts:9-42 | a submitted board passes the server check exactly when its name and some column name are not blank; the created columns carry exactly the non-blank typed names, trimmed, in order |
| Flows.ColumnFormAccepted | src/app/api/columns/route.ts:9-23 | a submitted column passes exactly when its name is not blank and the board has an id |
| Flows.TaskFormAccepted | src/app/api/tasks/route.ts:70-118 | a submitted task passes exactly when its title is not blank, a column is chosen and a current board exists; the server keeps exactly the client's subtask titles |
| Flows.BlankInputDropped | src/components/AddTaskModal.tsx:70-72 | a blank subtask input, wherever it sits among the others, leaves the sent subtask titles as if it were absent |
| Flows.CreatedBoardHidesTaskForms | src/components/AddTaskModal.tsx:108-115 | a board as the create-board route answers it, with no column array, renders neither the add-task nor the edit-task form |
| Flows.ListedBoardShowsTaskForms | src/components/EditTaskModal.tsx:83-92 | a board as the boards listing returns it renders the add-task form exactly when some column row belongs to it, and the edit-task form exactly when also a task is selected |
| Flows.LegacyTaskAlwaysRejected | src/app/api/tasks/route.ts:70-80 | the older form's body always lacks column and board, so the route rejects it |
| Flows.SentReadBack | src/app/api/boards/route.ts:40 | names sent as JSON strings read back unchanged |

## Left out

- Network, JSON parsing, Supabase client set-up and environment variables are left out. Every response and database result is an input to the step that uses it.
- Timestamps (`created_at`, `updated_at`) are left out. Ordering by `created_at` is modelled as insertion order.
- `console` logging and `alert` dialogs are left out; only their effect on control flow is modelled.
- Interleaving of asynchronous handlers is not modelled: each handler is one atomic step. Stale closures are therefore not modelled either. One example is `fetchBoards` reading `currentBoard` from an earlier render, which matters in `DeleteBoardModal.HandleDelete`.
- Browser constraint validation is left out. The `required` attribute on inputs would block a submit while a required input is empty. Submits are modelled for any form contents.
- Request bodies with fields of the wrong JSON type are left out. A missing field is `None`; a present field is a string.
- The scroll lock's `padding-right` scrollbar-width arithmetic is left out. Only the `overflow-hidden` lock is modelled.
- The dynamic routes `/api/tasks/{id}`, `/api/subtasks/{id}` and `/api/boards/{id}` are not part of this model. Their answers are inputs to the dialogs that call them.
- `BoardsModal`, `Header`, `Toggle` and the layout are not part of this model.
- Markup and styling are left out, beyond the page facts in the table.
- The optional `?.`/`?? []` fallbacks on `selectedTask.subtasks` are left out. Tasks always carry a subtask list here.
- EditTaskModal.EditTaskForm.Hydrate: the `?? ""` on title and column and `Boolean(s.completed)` are not modelled, because those fields are never missing in this model.
- ThemeContext.ThemeStore.SetTheme: requires one of the two themes, as the source's `Theme` type demands of callers.
