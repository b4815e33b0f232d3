# todo-ent task list, modelled in Dafny

This models the synchronous logic of a task-tracking front end. Tasks have an id, a
title, a status (Todo, Doing or Done) and two timestamps. The model covers:

- the task-list store: a collection with loading and error flags, changed in place by
  five reducers;
- the task card: confirmation before Done, edit mode, and the callbacks it calls;
- the new-task form: title validation, when submit is enabled, submit and reset;
- the application screen: the record built for a new task, the status filter and its
  keyboard handling, and whether the loading, error or list screen is shown;
- the kanban board: its three columns and its drop handler.

Timestamps are integers. Every clock reading is a parameter.

Files, one module each:

- `todo_types.dfy` (`TodoTypes`): the `Todo` entity, `Status`, the callback `Event`s and `UniqueIds`.
- `lists.dfy` (`Lists`): `Keep`, the order-preserving filter that all three filters in
  the source use (delete by id, the status filter, the board columns). Its lemmas are
  proved once: `Keep` gives a subsequence, keeps each element's multiplicity when the
  element passes the test and drops it otherwise, is idempotent, returns its input when
  everything passes, and gives the same result for two tests that agree everywhere.
- `todo_slice.dfy` (`TodoSlice`): class `TodoStore` and the functions its methods are
  specified by.
- `todo_item.dfy` (`TodoItem`): class `ItemState`, JavaScript `trim`, and the status colours.
- `todo_form.dfy` (`TodoForm`): the title rule, measured in UTF-16 code units as
  JavaScript's `length` is, and class `Form`.
- `app.dfy` (`App`): the new record, the filter, the screen, and class `FilterBar`.
- `todo_board.dfy` (`TodoBoard`): the columns, the cards in each, the partition lemmas and the drop handler.

State that the source changes in place is held in a class: the store, a card's React
state, the form's Formik state and the selected filter. Each callback a card or the
board calls is appended to an event log (`ItemState.emitted`), or returned as an
`Option<Event>` (`HandleDragEnd`).
`StoreScenario`, `ApprovalScenario` and `FormScenario` are client methods. They walk
through one run each (create, complete, delete; Done, close, approve; the form's own test
cases) using only the contracts.

Where the code and the intended design differ, the model follows the code:

- The store does not enforce unique ids. `addTodo` appends even when the id is already
  present. `AppendKeepsUniqueIds` states exactly when uniqueness survives an append.
  Updating and deleting keep unique ids unique (`UpdatedKeepsUniqueIds`, `WithoutIdKeepsUniqueIds`).
- `updateTodo` replaces only the first entry with the payload's id. The payload is a whole
  `Todo`, so it overwrites every field of the old entry in `{...old, ...payload, updatedAt}`.
  The new entry is therefore the payload with `updatedAt` set to the clock (`Stamped`); the
  old entry contributes nothing.
- Any non-empty `error` replaces the whole screen (form, filter buttons and list) with the
  error message, not only after a failed fetch. An empty error string is falsy in JavaScript, so it shows the list (`ErrorShown`).
- Only the card puts Done behind a confirmation. A drop on the board's Done column reports
  Done at once (`DropOnDoneSkipsApproval`). Delete has no confirmation anywhere (`DeleteClick`).
- The title rule accepts 50 characters, although its message says "less than 50" (`FiftyIsAccepted`).
- Lengths are UTF-16 code units, so two astral characters already meet the minimum of 3.
- The card saves any title that is not all whitespace. The title is saved untrimmed, and
  the 3 to 50 length rule is not applied.

## Model

| member | source | states |
|---|---|---|
| Lists.Keep | src/store/slices/todoSlice.ts:45 | the filter returns no more than its input, only elements that pass the test, and only elements of the input |
| TodoSlice.IndexOfId | src/store/slices/todoSlice.ts:30-32 | the result is -1 exactly when no entry has the id; otherwise it is the first index holding the id |
| TodoSlice.Stamped | src/store/slices/todoSlice.ts:35-39 | the merged entry has the payload's id, title, status and createdAt, and updatedAt equal to the clock |
| TodoSlice.Updated | src/store/slices/todoSlice.ts:29-40 | length unchanged; an absent id leaves the list unchanged; a present id replaces only the first match, with the stamped payload |
| TodoSlice.WithoutId | src/store/slices/todoSlice.ts:44-46 | filtering by the test `IdIsNot` (`todo.id !== id`): no entry with the deleted id remains |
| TodoSlice.WithoutIdKeepsOthers | src/store/slices/todoSlice.ts:45 | the result is a subsequence of the input, and every task with another id keeps its multiplicity |
| TodoSlice.WithoutAbsentId | src/store/slices/todoSlice.ts:45 | deleting an id that is not present is a no-op |
| TodoSlice.WithoutIdIdempotent | src/store/slices/todoSlice.ts:45 | deleting the same id twice equals deleting it once |
| TodoSlice.WithoutPresentUniqueId | src/store/slices/todoSlice.ts:44-46 | with unique ids, deleting a present id shortens the list by exactly one |
| TodoSlice.WithoutIdKeepsUniqueIds | src/store/slices/todoSlice.ts:44-46 | deleting preserves unique ids |
| TodoSlice.AppendKeepsUniqueIds | src/store/slices/todoSlice.ts:24-26 | appending keeps ids unique if and only if they were unique and the new id was absent |
| TodoSlice.UpdatedKeepsUniqueIds | src/store/slices/todoSlice.ts:29-40 | updating preserves unique ids |
| TodoSlice.TodoStore.constructor | src/store/slices/todoSlice.ts:12-16 | the initial state: no items, not loading, no error |
| TodoSlice.TodoStore.AddTodo | src/store/slices/todoSlice.ts:24-26 | items become the old items plus the payload at the end; nothing else changes |
| TodoSlice.TodoStore.UpdateTodo | src/store/slices/todoSlice.ts:29-40 | items become Updated of the old items; the flags are untouched; unique ids stay unique |
| TodoSlice.TodoStore.DeleteTodo | src/store/slices/todoSlice.ts:44-46 | items become WithoutId of the old items; the flags are untouched; unique ids stay unique |
| TodoSlice.TodoStore.SetLoading | src/store/slices/todoSlice.ts:49-51 | only loading changes, to the given value |
| TodoSlice.TodoStore.SetError | src/store/slices/todoSlice.ts:54-56 | only error changes, to the given value or null |
| TodoItem.LeadingBlanks | src/components/TodoItem.tsx:43 | the length of the whitespace run `trim()` removes at the start: every character before it is whitespace, the next one is not |
| TodoItem.TextEnd | src/components/TodoItem.tsx:43 | where the whitespace run `trim()` removes at the end begins: every character from it on is whitespace, the one before it is not |
| TodoItem.TrimStart | src/components/TodoItem.tsx:43 | removes exactly the leading JavaScript whitespace, and is empty exactly for a blank string |
| TodoItem.TrimEnd | src/components/TodoItem.tsx:43 | removes exactly the trailing JavaScript whitespace, and is empty exactly for a blank string |
| TodoItem.Trim | src/components/TodoItem.tsx:43 | `editTitle.trim()` is empty (falsy) if and only if every character is whitespace, and otherwise starts and ends with a non-whitespace character |
| TodoItem.TrimDropsBlankBorders | src/components/TodoItem.tsx:43 | `trim()` removes only a blank prefix and a blank suffix: the title is that prefix, the trimmed text and that suffix |
| TodoItem.StatusColor | src/components/TodoItem.tsx:58-67 | every status has a non-empty colour class |
| TodoItem.StatusColorInjective | src/components/TodoItem.tsx:58-67 | different statuses have different colour classes |
| TodoItem.ItemState.constructor | src/components/TodoItem.tsx:18-23 | modal closed, nothing pending, not editing, edit title is the task's title, nothing emitted |
| TodoItem.ItemState.HandleStatusChange | src/components/TodoItem.tsx:25-32 | Done opens the modal with Done pending and emits nothing; any other status emits `onStatusChange(id, s)` and leaves the modal state alone |
| TodoItem.ItemState.HandleApprove | src/components/TodoItem.tsx:34-40 | emits `onStatusChange(id, Done)` exactly when a status is pending, then closes the modal and clears the pending status |
| TodoItem.ItemState.CloseApproval | src/components/TodoItem.tsx:188 | only hides the modal; the pending status is kept and nothing is emitted |
| TodoItem.ItemState.StartEditing | src/components/TodoItem.tsx:152 | enters edit mode |
| TodoItem.ItemState.ChangeEditTitle | src/components/TodoItem.tsx:78 | the edit title becomes the typed value |
| TodoItem.ItemState.HandleSave | src/components/TodoItem.tsx:42-51 | a blank title emits nothing and stays in edit mode; otherwise it emits `onUpdate` with the same id, status and createdAt, the untrimmed title and updatedAt equal to the clock, and leaves edit mode |
| TodoItem.ItemState.HandleCancel | src/components/TodoItem.tsx:53-56 | restores the task's title, leaves edit mode and emits nothing |
| TodoItem.ItemState.DeleteClick | src/components/TodoItem.tsx:165 | emits `onDelete(id)` at once |
| TodoForm.Utf16Length | src/components/TodoForm.tsx:13-14 | the JavaScript length lies between the character count and twice that, and equals the character count for text without astral characters |
| TodoForm.TitleValid | src/components/TodoForm.tsx:10-15 | a valid title has 2 to 50 characters; without astral characters it is valid if and only if it has 3 to 50 |
| TodoForm.Dirty | src/components/TodoForm.tsx:19-21 | every valid title differs from the initial empty value |
| TodoForm.Message | src/components/TodoForm.tsx:12-14 | every validation failure has a non-empty message |
| TodoForm.ValidateTitle | src/components/TodoForm.tsx:10-15 | no error exactly when the title is non-empty and its length is in 3..50; Required exactly for the empty title; TooShort and TooLong only for lengths outside the bounds |
| TodoForm.SubmitEnabled | src/components/TodoForm.tsx:53 | submit is enabled if and only if the title is valid, so the initial empty form cannot submit |
| TodoForm.FiftyIsAccepted | src/components/TodoForm.tsx:14 | a title of length 50 is valid and can be submitted |
| TodoForm.TwoCharactersRejected | src/components/__tests__/TodoForm.test.tsx:30-39 | a two-character title fails with the minimum-length error and leaves submit disabled |
| TodoForm.HelpText | src/components/TodoForm.tsx:70-74 | the help line is blank unless the field was touched and is invalid, in which case it is that error's message |
| TodoForm.Form.Counter | src/components/TodoForm.tsx:80 | the counter never exceeds 50 |
| TodoForm.Form.constructor | src/components/TodoForm.tsx:19-21 | the form starts empty, untouched, with nothing submitted |
| TodoForm.Form.Change | src/components/TodoForm.tsx:38-40 | a value of at most 50 units replaces the title; a longer one is refused |
| TodoForm.Form.Blur | src/components/TodoForm.tsx:38 | the field becomes touched |
| TodoForm.Form.Submit | src/components/TodoForm.tsx:23-26 | a valid title is passed on exactly as typed and the form resets to empty and untouched; an invalid one passes nothing on and marks the field touched; only valid titles are ever submitted |
| App.NewTodoRecord | src/App.tsx:22-28 | the record has the submitted title, status Todo, createdAt from the first clock reading and updatedAt from the second; updatedAt is no earlier than createdAt whenever the clock did not go back between the readings |
| App.EditReachesStore | src/App.tsx:40-42 | an edited task dispatched to the store replaces the first entry with its id: new title, everything else kept, stamped with the store's clock; other entries unchanged |
| App.StatusOptionsCoverFilters | src/App.tsx:48 | every filter has exactly one button |
| App.FilteredTodos | src/App.tsx:44-46 | filtering by the test `Matches` (`status === 'all' ? true : todo.status === status`): a status filter returns only tasks with that status |
| App.FilterAllIsIdentity | src/App.tsx:44-45 | the filter 'all' returns the list unchanged |
| App.FilterOnlyExact | src/App.tsx:44-46 | a status filter returns a subsequence of the list holding every task of that status with its multiplicity, and no other task |
| App.FilterOnlyIsColumn | src/App.tsx:44-46 | the list filtered by a status is exactly that status's board column |
| App.Render | src/App.tsx:57-165 | loading if and only if loading; otherwise the error screen if and only if `ErrorShown`, the JavaScript truthiness of `error` (neither null nor the empty string); otherwise "No tasks found" if and only if the filtered list is empty; otherwise the filtered list |
| App.FilterBar.constructor | src/App.tsx:14 | the filter starts at 'all' |
| App.FilterBar.Click | src/App.tsx:126 | a click selects that option |
| App.FilterBar.KeyDown | src/App.tsx:50-55 | with the test `IsActivationKey`: the key is handled if and only if it is Enter or space, and only then is the option selected |
| TodoBoard.ColumnsAreTheStatuses | src/components/TodoBoard.tsx:15-19 | there are three columns, Todo, Doing and Done in that order, one per status |
| TodoBoard.ColumnTodos | src/components/TodoBoard.tsx:69-70 | filtering by the test `HasStatus` (`todo.status === column.id`): a column holds only tasks of its status |
| TodoBoard.ColumnCards | src/components/TodoBoard.tsx:69-75 | the cards of a column are its tasks in order, with positions 0 to n-1 |
| TodoBoard.ColumnExact | src/components/TodoBoard.tsx:69-70 | a column is a subsequence of the list holding every task of its status with its multiplicity |
| TodoBoard.ColumnsPartition | src/components/TodoBoard.tsx:15-19 | the three column sizes add up to the number of tasks |
| TodoBoard.EachTodoInOneColumn | src/components/TodoBoard.tsx:69-70 | each task is in its own status's column as often as in the list, and in no other column |
| TodoBoard.HandleDragEnd | src/components/TodoBoard.tsx:29-36 | a drop with no destination emits nothing; a drop on a column emits `onStatusChange(draggableId, column)` |
| TodoBoard.DropOnDoneSkipsApproval | src/components/TodoBoard.tsx:34-35 | a drop on Done reports Done directly, without confirmation |

## Left out

- `fetchTodos`, `createTodo`, `updateTodoStatus` and `removeTodo`, which `src/App.tsx:8`
  imports, are not defined in `src/store/slices/todoSlice.ts`. Their pending, fulfilled and
  rejected behaviour is not modelled. The same holds for the handlers that only dispatch
  them (`handleAddTodo`'s dispatch, `handleStatusChange`, `handleDeleteTodo`) and for the
  initial fetch. The `updateTodo` imported there is the store's own reducer:
  `handleUpdateTodo` dispatches the card's `Update` event to `TodoStore.UpdateTodo`, which
  stamps `updatedAt` again with its own clock (`EditReachesStore`).
- `src/services/api.ts` is HTTP I/O against an external server.
- `src/utils/taskFactory.ts` depends on randomness, the real clock and floating-point weights.
- `src/main.tsx` and `src/components/ApprovalModal.tsx` are bootstrap and rendering. The
  modal's open, close and approve wiring is covered by `ItemState`.
- Presentation is not modelled: JSX, CSS classes other than the status colours, icons,
  theme toggling, date formatting and the drag-and-drop library internals.
- Real clocks: every `new Date()` is an integer parameter.
- App.NewTodoRecord: `updatedAt >= createdAt` holds only if the wall clock does not go
  backwards between the two `new Date()` readings; the source does not guarantee that.
- TodoItem.ItemState: the `todo` prop is fixed for the life of the state. A re-render
  with a changed prop is not modelled; `useState(todo.title)` reads the title only once in React too.
- TodoForm.Form.Change: a value longer than 50 UTF-16 units is refused as a whole. The
  browser's truncation of a pasted value to its first 50 units is not modelled.
- TodoForm.SubmitEnabled: takes `isValid` to be the verdict on the current title.
  Formik's asynchronous validation, and its `isValid` of true before the first
  validation, are not modelled.
- TodoBoard.HandleDragEnd: the destination column id is a `Status`. The source casts a
  string without checking it. The only drop targets are the three columns, whose ids
  are statuses.
- Component tests for the card and the board target another version of those
  components, with different labels and a delete confirmation. Nothing here is derived
  from them.
