# Kanban task board, modelled in Dafny

This project models the client-side kanban board of the project-management front end. It covers the `TaskBoard` component and the `Column` component that sits in front of it.

**The board.** It is a map of tasks, a map of columns (each with an ordered list of task ids) and the order in which the columns are shown.

**The handlers.** Six handlers replace the board:
- `onDragEnd`, a drag-and-drop move within one column or between two columns;
- `addNewColumn` and `deleteColumn`;
- `addTask` and `deleteTask`;
- `updateColumnTitle`.

**The `Column` component.** It keeps its own input and mode state. It forwards an add or a rename only when the typed text is not blank after `trim`.

Files and modules:

- `js_string.dfy` (`JsString`): `String.prototype.trim` over the ECMAScript white-space set, and the blank guard `s.trim() === ''`.
- `js_array.dfy` (`JsArray`): the array operations the handlers apply to copies of id lists:
  - `splice(start, 1)` and `splice(start, 0, x)`, including JavaScript's clamping of negative and too-large start indices;
  - `filter(y => y !== x)`.
- `kanban.dfy` (`Kanban`):
  - the `Task`, `Column` and `BoardData` records, and the seed board;
  - each handler as a function from the board before to the board stored after.
  
  Ids are abstract: `ColId(n)` is `column-n` and `TaskId(n)` is `task-n`. A handler that reads `.taskIds` through an unknown column id throws a TypeError in the original; here it returns `Err(UndefinedColumn(id))`. `WellFormed` is the board's consistency:
  - every record is stored under its own id;
  - `columnOrder` lists each column once;
  - the ids listed in the columns are exactly the task keys, each listed once.
- `kanban_properties.dfy` (`KanbanProperties`):
  - the frames of the two kinds of move;
  - consistency under every handler (for the adds: exactly when the generated id is free);
  - the add/delete round trips, the cascade of a column delete, and the seed board's consistency.
- `task_board.dfy` (`TaskBoardComponent`):
  - the render (`columnOrder.map` with the task lookups);
  - the `TaskBoard` class, holding the two `useState` fields and the handlers as methods that reassign them. `deleteColumn` deletes the column's tasks one by one in a loop, as the original's `forEach` does.
- `column.dfy` (`ColumnComponent`):
  - the `ColumnView` class, with the four `useState` fields and the handlers;
  - the draggables a column renders, and the add-task area offered only to the column titled `To do`.
- `fresh_ids.dfy` (`FreshIds`): the id collision described under Findings, and a corrected generator.

The model follows the code as written:
- An unknown column id throws, as the code does. It is not a reported "not found" error.
- A drag is not checked against the id at `source.index`.
- A splice index that is out of range is clamped, as `Array.prototype.splice` does. It is not rejected.
- `updateColumnTitle` itself has no trim check. The check is only in the `Column` component.

## Model

| member | source | states |
|---|---|---|
| JsString.TrimStart | src/components/Column.tsx:30 | the result is the suffix of the input left after the leading white space; the dropped prefix is all white space; the result does not start with white space |
| JsString.TrimEnd | src/components/Column.tsx:30 | the result is the prefix left before the trailing white space; the dropped suffix is all white space; the result does not end with white space |
| JsString.Trim | src/components/Column.tsx:30 | `trim()` is no longer than its input, and a non-empty result neither starts nor ends with white space |
| JsString.BlankIffAllWhitespace | src/components/Column.tsx:30 | `s.trim() === ''` exactly when every character of `s` is white space (both directions) |
| JsString.NotBlankAt | src/components/TaskBoard.tsx:121 | one character that is not white space is enough for the guard to pass |
| JsArray.SpliceStart | src/components/TaskBoard.tsx:74 | the splice start is clamped into [0, length]; a negative start counts back from the end |
| JsArray.RemoveAt | src/components/TaskBoard.tsx:73-74 | `copy.splice(i, 1)` removes one element (the one at the clamped index: the same multiset less it), or nothing when the index is at the end |
| JsArray.RemoveAtElements | src/components/TaskBoard.tsx:96 | after removal, elements before the index keep their place and later ones move down by one |
| JsArray.InsertAt | src/components/TaskBoard.tsx:75 | `copy.splice(i, 0, x)` puts `x` at the clamped index; one element more; the same multiset plus `x` |
| JsArray.InsertAtElements | src/components/TaskBoard.tsx:103 | after insertion, elements before the index keep their place and later ones move up by one |
| JsArray.RemoveInsertRoundTrip | src/components/TaskBoard.tsx:73-75 | taking the element at `i` out and putting it back at `i` restores the list |
| JsArray.RemoveFirst | src/components/TaskBoard.tsx:74 | `splice(0, 1)` drops the head |
| JsArray.InsertAtEnd | src/components/TaskBoard.tsx:75 | `splice(length, 0, x)` appends `x` |
| JsArray.Without | src/components/TaskBoard.tsx:153 | `filter(id => id !== x)` removes every occurrence of `x`; every other element keeps its count; a list without `x` is returned unchanged |
| JsArray.WithoutConcat | src/components/TaskBoard.tsx:153 | filtering a concatenation is filtering each part and concatenating, so the elements that stay keep their order |
| JsArray.WithoutSingle | src/components/TaskBoard.tsx:186 | on one element, the filter keeps it exactly when it differs from the removed id |
| JsArray.WithoutAppended | src/components/TaskBoard.tsx:186 | filtering out an id just appended to a list that did not hold it gives the list back |
| JsArray.WithoutHead | src/components/TaskBoard.tsx:186 | filtering out an id that only heads the list drops the head |
| Kanban.DragEnd | src/components/TaskBoard.tsx:55-118 | a drop with no destination, or onto its own source, returns the board unchanged; otherwise an unknown source or destination column is a TypeError naming the source id first; a real move keeps `tasks` and `columnOrder` |
| Kanban.AddColumnWithId | src/components/TaskBoard.tsx:120-137 | a blank title changes nothing; otherwise the column with the untrimmed title and no tasks is stored under the id, the id is appended to `columnOrder`, and tasks and the other columns are unchanged |
| Kanban.AddNewColumn | src/components/TaskBoard.tsx:120-137 | the same under the id `column-(number of columns + 1)`; when that id was already a column, the number of columns does not grow |
| Kanban.DeleteColumn | src/components/TaskBoard.tsx:142-156 | an unknown column is a TypeError; otherwise the column is removed, `columnOrder` becomes the order filtered by `Without` (every occurrence of the id goes, the other ids keep their counts and their order), exactly its tasks leave `tasks`, and the other columns and tasks are unchanged |
| Kanban.AddTaskWithId | src/components/TaskBoard.tsx:158-180 | an unknown column is a TypeError; otherwise the task (medium priority, the given content) is stored under the id, appended to the end of the column's list; other tasks, other columns and the order are unchanged |
| Kanban.AddTask | src/components/TaskBoard.tsx:158-180 | the same under the id `task-(number of tasks + 1)`; when that id was already a task, the number of tasks does not grow |
| Kanban.DeleteTask | src/components/TaskBoard.tsx:182-192 | an unknown column is a TypeError; otherwise that column's list becomes the list filtered by `Without` (every occurrence of the id goes, the other ids keep their order) and the key leaves `tasks`; nothing else changes |
| Kanban.UpdateColumnTitle | src/components/TaskBoard.tsx:194-205 | only the named column's title changes, to the title as given; its id and tasks, the other columns, the tasks and the order are unchanged |
| KanbanProperties.TaskBagRemove | src/components/TaskBoard.tsx:18-22 | the multiset of ids over all columns is one column's ids plus those of the rest |
| KanbanProperties.TaskBagUpdate | src/components/TaskBoard.tsx:84-87 | replacing one column changes the multiset by that column's ids only |
| KanbanProperties.TaskBagAdd | src/components/TaskBoard.tsx:132-135 | a column under a new key adds its ids to the multiset |
| KanbanProperties.TaskBagTwoColumns | src/components/TaskBoard.tsx:18-22 | two different columns count an id separately |
| KanbanProperties.TaskBagReplace | src/components/TaskBoard.tsx:82-88 | a column replaced by a permutation of its ids keeps the multiset |
| KanbanProperties.TaskBagTransfer | src/components/TaskBoard.tsx:109-116 | moving one occurrence of an id between two columns keeps the multiset |
| KanbanProperties.TaskBagAppend | src/components/TaskBoard.tsx:172-177 | one more occurrence of an id in one column adds it once to the multiset |
| KanbanProperties.TaskBagCount | src/components/TaskBoard.tsx:186 | changing one column changes each id's count by the change in that column |
| KanbanProperties.AtMostOneColumn | src/components/TaskBoard.tsx:212-214 | on a consistent board a listed id sits in one column, once, and names a stored task |
| KanbanProperties.ColumnsChangeKeepsWellFormed | src/components/TaskBoard.tsx:82-88 | new columns under the same keys, keyed by id, listing the same multiset of ids, keep the board consistent |
| KanbanProperties.KeyedAfterStore | src/components/TaskBoard.tsx:86 | `[column.id]: column` keeps every column stored under its own id |
| KanbanProperties.ListedOnceAdd | src/components/TaskBoard.tsx:168-177 | a fresh task stored and listed once keeps every task listed once |
| KanbanProperties.ListedOnceRemove | src/components/TaskBoard.tsx:186-189 | a task gone from the map and from every list keeps every task listed once |
| KanbanProperties.OrderAppend | src/components/TaskBoard.tsx:136 | appending a fresh column id keeps the order listing each column once |
| KanbanProperties.InitialTaskBag | src/components/TaskBoard.tsx:31-47 | the seed columns list task-1 to task-4 once each |
| KanbanProperties.InitialTasksAreTheColumnIds | src/components/TaskBoard.tsx:24-49 | the seed tasks are exactly the listed ids, each listed once |
| KanbanProperties.InitialTasksKeyedById | src/components/TaskBoard.tsx:25-30 | each seed task is stored under its own id |
| KanbanProperties.InitialColumnsKeyedById | src/components/TaskBoard.tsx:31-47 | each seed column is stored under its own id |
| KanbanProperties.InitialOrder | src/components/TaskBoard.tsx:48 | the seed order lists the three columns once each |
| KanbanProperties.InitialDataWellFormed | src/components/TaskBoard.tsx:24-49 | the seed board is consistent |
| KanbanProperties.SameColumnMove | src/components/TaskBoard.tsx:72-91 | the column's list becomes the old list with the element at `source.index` spliced out and `draggableId` spliced in at `destination.index` of the shortened list; its length is kept; when `draggableId` is the removed id the list is a permutation; tasks, order and every other column are unchanged |
| KanbanProperties.CrossColumnMove | src/components/TaskBoard.tsx:95-117 | the source column loses exactly the element at `source.index` (length one less); the destination gains `draggableId` at `destination.index` (length one more); tasks, order and other columns are unchanged |
| KanbanProperties.CrossColumnMoveKeepsTaskBag | src/components/TaskBoard.tsx:95-117 | when `draggableId` is the removed id, the multiset of ids over all columns is kept |
| KanbanProperties.MovePreservesWellFormed | src/components/TaskBoard.tsx:55-118 | a no-op drop, or a drop whose `draggableId` is the id at `source.index` onto a known column, keeps a consistent board consistent |
| KanbanProperties.SameColumnMoveKeepsKeys | src/components/TaskBoard.tsx:82-88 | a move within one column keeps the column keys and every column under its own id |
| KanbanProperties.CrossColumnMoveKeepsKeys | src/components/TaskBoard.tsx:109-116 | a move between columns keeps the column keys and every column under its own id |
| KanbanProperties.ReorderExample | src/components/TaskBoard.tsx:72-91 | `[A, B, C]` with A dragged from 0 to 2 becomes `[B, C, A]` |
| KanbanProperties.ReorderList | src/components/TaskBoard.tsx:73-75 | the splice pair on `[x, y, z]`, 0 to 2, gives `[y, z, x]` |
| KanbanProperties.CrossColumnExample | src/components/TaskBoard.tsx:95-117 | x dragged from `[x, y]` to index 0 of an empty column leaves `[y]` and `[x]` |
| KanbanProperties.AddColumnWellFormedIffFresh | src/components/TaskBoard.tsx:120-137 | adding a column keeps a consistent board consistent exactly when its id is not already a column |
| KanbanProperties.AddColumnTakenIdRepeats | src/components/TaskBoard.tsx:136 | a taken id ends up twice in `columnOrder` |
| KanbanProperties.AddColumnFreshIdKeepsWellFormed | src/components/TaskBoard.tsx:130-137 | an empty column under a fresh id keeps the board consistent |
| KanbanProperties.AddNewColumnWellFormedIffFresh | src/components/TaskBoard.tsx:123 | `addNewColumn` keeps consistency exactly when `column-(n+1)` is free, which holds whenever the columns are numbered 1 to n |
| KanbanProperties.AddThenDeleteColumnRoundTrip | src/components/TaskBoard.tsx:120-156 | deleting the column just added under a fresh id gives back the board |
| KanbanProperties.DeleteColumnPreservesWellFormed | src/components/TaskBoard.tsx:142-156 | deleting a column keeps a consistent board consistent |
| KanbanProperties.DeleteColumnCascade | src/components/TaskBoard.tsx:147-149 | a deleted column's tasks are gone, and deleting one of them from any remaining column changes nothing |
| KanbanProperties.AddTaskWellFormedIffFresh | src/components/TaskBoard.tsx:158-180 | adding a task keeps a consistent board consistent exactly when its id is not already a task |
| KanbanProperties.AddTaskBag | src/components/TaskBoard.tsx:176 | adding a task adds its id once to the multiset of listed ids |
| KanbanProperties.AddTaskFreshIdKeepsWellFormed | src/components/TaskBoard.tsx:166-179 | a task under a fresh id keeps the board consistent |
| KanbanProperties.AddTaskWellFormedIffNewIdFresh | src/components/TaskBoard.tsx:159 | `addTask` keeps consistency exactly when `task-(n+1)` is free |
| KanbanProperties.AddThenDeleteTaskRoundTrip | src/components/TaskBoard.tsx:158-192 | when the new id was fresh, `deleteTask` on it in the same column restores the board |
| KanbanProperties.AddThenDeleteTaskWithIdRoundTrip | src/components/TaskBoard.tsx:166-192 | the same round trip for any id that is neither a task nor listed in the column |
| KanbanProperties.DeleteTaskWellFormedIff | src/components/TaskBoard.tsx:182-192 | deleting a task keeps consistency exactly when the task, if it exists, is in the named column |
| KanbanProperties.DeleteTaskBag | src/components/TaskBoard.tsx:186 | deleting a task takes its occurrences in that column out of the multiset, leaving other ids' counts alone |
| KanbanProperties.DeleteTaskListedKeepsWellFormed | src/components/TaskBoard.tsx:182-192 | deleting a task listed in the named column keeps the board consistent |
| KanbanProperties.UpdateColumnTitlePreservesWellFormed | src/components/TaskBoard.tsx:194-205 | renaming a column keeps a consistent board consistent |
| TaskBoardComponent.LookUpTasks | src/components/TaskBoard.tsx:214 | the lookup succeeds exactly when every id is a task, giving the tasks in list order; otherwise it names a missing id from the list |
| TaskBoardComponent.LookUpColumns | src/components/TaskBoard.tsx:212-213 | the column lookups succeed exactly when every id of the order is a column, giving the columns in order; otherwise they name a missing id from the order |
| TaskBoardComponent.RenderColumns | src/components/Column.tsx:82-83 | the columns render exactly when each lists only existing tasks; each rendered column carries its record and its tasks in list order; otherwise a missing task is named |
| TaskBoardComponent.Render | src/components/TaskBoard.tsx:212-227 | the board renders exactly when it is renderable; one column per `columnOrder` entry, in order; a missing column is the error exactly when the order names one |
| TaskBoardComponent.WellFormedRenders | src/components/TaskBoard.tsx:212-214 | a consistent board renders, and each rendered task is the one its column lists at that position |
| TaskBoardComponent.TaskBoard.constructor | src/components/TaskBoard.tsx:52-53 | the board starts as the seed board with an empty new-column title |
| TaskBoardComponent.TaskBoard.SetNewColumnTitle | src/components/TaskBoard.tsx:233 | the input's text is stored; the board is unchanged |
| TaskBoardComponent.TaskBoard.OnDragEnd | src/components/TaskBoard.tsx:55-118 | the stored board becomes the moved one; on a TypeError it stays and `ok` is false |
| TaskBoardComponent.TaskBoard.AddNewColumn | src/components/TaskBoard.tsx:120-140 | the stored board becomes `addNewColumn` of the typed title; the input is cleared unless the title was blank |
| TaskBoardComponent.TaskBoard.DeleteColumn | src/components/TaskBoard.tsx:142-156 | the loop deletes the column's tasks one by one, then the column and its order entries: the result is `deleteColumn` of the old board; an unknown column leaves the board and reports `false` |
| TaskBoardComponent.TaskBoard.AddTask | src/components/TaskBoard.tsx:158-180 | the stored board becomes `addTask` of the old one; an unknown column leaves it and reports `false` |
| TaskBoardComponent.TaskBoard.DeleteTask | src/components/TaskBoard.tsx:182-192 | the in-place filter and delete give `deleteTask` of the old board; an unknown column leaves it and reports `false` |
| TaskBoardComponent.TaskBoard.UpdateColumnTitle | src/components/TaskBoard.tsx:194-205 | the stored board becomes `updateColumnTitle` of the old one |
| ColumnComponent.Draggables | src/components/Column.tsx:82-83 | one draggable per task, in order, with `draggableId` the task's id and `index` its position |
| ColumnComponent.AddTaskAreaOf | src/components/Column.tsx:89-117 | an add control is shown exactly for the title `To do`, and it is the form exactly when add mode is on |
| ColumnComponent.RenderedColumn | src/components/Column.tsx:82-83 | rendered column `i` of a consistent board is `columnOrder[i]`, and its draggable `j` carries the id the column lists at position `j` |
| ColumnComponent.DragFromViewPreservesWellFormed | src/components/Column.tsx:82-83 | a drag of a rendered draggable starts at its position in `column.taskIds` with its id, so it keeps a consistent board consistent |
| ColumnComponent.ColumnView.constructor | src/components/Column.tsx:24-27 | not adding, not editing, empty task input, the title input holding the column's title |
| ColumnComponent.ColumnView.HandleAddTask | src/components/Column.tsx:29-35 | blank content changes nothing; otherwise the untrimmed content goes to `addTask` with this column's id, the input is cleared and add mode closes |
| ColumnComponent.ColumnView.HandleUpdateTitle | src/components/Column.tsx:37-42 | a blank title changes nothing; otherwise the untrimmed title goes to `updateColumnTitle` with this column's id and edit mode closes |
| ColumnComponent.ColumnView.StartEditingTitle | src/components/Column.tsx:60 | the Edit button turns edit mode on and nothing else |
| ColumnComponent.ColumnView.SetEditedTitle | src/components/Column.tsx:51 | the title input's text is stored and nothing else |
| ColumnComponent.ColumnView.SetAddingTask | src/components/Column.tsx:103-110 | Add Task and Cancel set add mode and nothing else |
| ColumnComponent.ColumnView.SetNewTaskContent | src/components/Column.tsx:96 | the task input's text is stored and nothing else |
| ColumnComponent.ColumnView.ClickDeleteColumn | src/components/Column.tsx:63 | the board's `deleteColumn` runs with this column's own id |
| ColumnComponent.ColumnView.ClickDeleteTask | src/components/Column.tsx:83 | the board's `deleteTask` runs with this column's id and the task's id |
| FreshIds.ReviewIsNotBlank | src/components/TaskBoard.tsx:121 | the title "Review" passes the blank guard |
| FreshIds.InitialSizes | src/components/TaskBoard.tsx:24-49 | the seed board has three columns and four tasks |
| FreshIds.DeleteThenAddColumnCollides | src/components/TaskBoard.tsx:123 | after deleting a column other than `column-n` from a consistent board with n columns, `addNewColumn` reuses `column-n`: it replaces that column, lists it twice and breaks consistency |
| FreshIds.ColumnIdCollision | src/components/TaskBoard.tsx:123 | on the seed board, deleting `column-1` and adding "Review" overwrites "Done" under `column-3` and lists `column-3` twice |
| FreshIds.DeleteThenAddTaskCollides | src/components/TaskBoard.tsx:159 | after deleting a task other than `task-n` from a consistent board with n tasks, `addTask` reuses `task-n`: the task under it is replaced, consistency breaks, and `deleteTask` no longer undoes the add |
| FreshIds.TaskIdCollision | src/components/TaskBoard.tsx:159 | on the seed board, deleting `task-1` and adding a task overwrites "Cook dinner" under `task-4`, lists `task-4` twice in `column-1` and breaks consistency |
| FreshIds.MaxColumnNumber | src/components/TaskBoard.tsx:123 | the result bounds every column number and is one of them |
| FreshIds.MaxTaskNumber | src/components/TaskBoard.tsx:159 | the result bounds every task number and is one of them |
| FreshIds.FreshColumnId | src/components/TaskBoard.tsx:123 | the corrected column id is not a column and is above every column number |
| FreshIds.FreshTaskId | src/components/TaskBoard.tsx:159 | the corrected task id is not a task and is above every task number |
| FreshIds.AddNewColumnFresh | src/components/TaskBoard.tsx:120-137 | `addNewColumn` with the corrected id always adds a column: one key and one order entry more |
| FreshIds.AddTaskFresh | src/components/TaskBoard.tsx:158-180 | `addTask` with the corrected id always adds a task: one key more, appended to the column |
| FreshIds.AddNewColumnFreshKeepsWellFormed | src/components/TaskBoard.tsx:120-137 | with the corrected id, adding a column keeps a consistent board consistent |
| FreshIds.AddThenDeleteColumnFreshRoundTrip | src/components/TaskBoard.tsx:120-156 | with the corrected id, deleting the column just added gives back the board |
| FreshIds.AddTaskFreshKeepsWellFormed | src/components/TaskBoard.tsx:158-180 | with the corrected id, adding a task keeps a consistent board consistent |
| FreshIds.AddThenDeleteTaskFreshRoundTrip | src/components/TaskBoard.tsx:158-192 | with the corrected id, deleting the task just added gives back the board |

## Left out

- Kanban.UpdateColumnTitle: requires the column to exist. In the original, an unknown id creates a record holding only a title, because spreading `undefined` does not throw. The only caller, the `Column` component, passes the id of the column it renders. `TaskBoard.UpdateColumnTitle` and `ColumnView.HandleUpdateTitle` carry the same requirement.
- TaskBoard.AddTask: `addTask` on an unknown column throws inside its functional updater (`prevState.columns[columnId].taskIds`). When React runs that updater while rendering, the error unmounts the tree. The model keeps the old board and reports `false` instead. `ColumnView.HandleAddTask`, which calls it, inherits this difference. The other three handlers that can throw are `onDragEnd`, `deleteColumn` and `deleteTask`. They throw inside the event handler, before any write or `setBoardData`, so the board stays as it was. There the model's "old board, `false`" matches the code.
- React's state batching and the difference between the functional and the direct `setBoardData`: each handler is one sequential assignment of the board. `addTask` computes its id from the board it reads; the model uses the same board for the id and for the update.
- Aliasing: `deleteColumn` and `deleteTask` shallow-copy the board and then mutate the `tasks` and `columns` objects shared with the previous state. The model updates values, so the previous board is not changed by the delete. `useState(initialData)` holds the module-level `initialData` by reference, so the first delete after mounting also changes `initialData` itself. `TaskBoard.constructor`'s `boardData == InitialData` therefore describes the first mount only.
- Drop indices that are not integers (fractions, `NaN`) are not modelled; the drag library reports integer positions.
- The `Column` component's title input keeps the title it was mounted with. A later rename elsewhere is not tracked.
- The drag library's own computation of `source` and `destination`: a drop result is an input. `DragFromView` states which drops a rendered board can report.
- Styling, icons, the priority colours and the empty-column height.
- The other parts of the repository are not part of this model. These are the authentication and routing pages, the REST project table, the date widgets and the task detail view. Each is a call into an external SDK or HTTP API, or pure presentation.
- Ids are abstract numbers. The string forms `column-n` and `task-n` are not built.
- A cleaned-up design would add input checks that the code does not have, and the model has none of them:
  - checking the dragged id against `source.index`;
  - rejecting out-of-range indices;
  - reporting unknown ids as "not found";
  - trimming inside the board's own rename.

## Findings

| source | as written | input that shows it | evidently intended | confidence | as-written member | corrected member |
|---|---|---|---|---|---|---|
| src/components/TaskBoard.tsx:123 | the new column id is `column-(number of columns + 1)` | from the seed board, delete `column-1`, then add a column "Review": it gets `column-3`, replacing "Done", and `columnOrder` lists `column-3` twice | a column id no column has, so the add keeps the board consistent and a delete undoes it | high (proved; not executed) | FreshIds.ColumnIdCollision | FreshIds.AddNewColumnFreshKeepsWellFormed |
| src/components/TaskBoard.tsx:159 | the new task id is `task-(number of tasks + 1)` | from the seed board, delete `task-1` from `column-1`, then add "Water the plants" there: it gets `task-4`, replacing "Cook dinner", and `column-1` lists `task-4` twice | a task id no task has, so the add keeps the board consistent and `deleteTask` undoes it | high (proved; not executed) | FreshIds.TaskIdCollision | FreshIds.AddThenDeleteTaskFreshRoundTrip |

The corrected ids are one past the largest number in use. They are fresh against the current keys, which is what the rows above ask for. They are not "never reused": after the task with the largest number is deleted, its number is handed out again. Ids that are never reused would need a counter that only grows, kept in the board.

The `TaskBoard` class keeps the generators as written. `FreshIds.AddNewColumnFresh` and `FreshIds.AddTaskFresh` are the corrected handlers, with their properties proved in `FreshIds`.
