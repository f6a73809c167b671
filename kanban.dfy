/** The task board's data (`Task`, `Column`, `BoardData`), its seed state and its six handlers,
    each written as a function from the board before the handler to the board it stores.
    A handler that reads `.taskIds` of a column id the board does not have throws a TypeError
    in the original; here it returns `Err(UndefinedColumn(id))` with that id. */
module Kanban {
  import opened JsString
  import opened JsArray

  /** `column-<n>` */
  datatype ColId = ColId(n: nat)
  /** `task-<n>` */
  datatype TaskId = TaskId(n: nat)

  datatype Priority = Low | Medium | High

  datatype Task = Task(id: TaskId, content: string, priority: Priority)

  datatype Column = Column(id: ColId, title: string, taskIds: seq<TaskId>)

  datatype Board = Board(tasks: map<TaskId, Task>, columns: map<ColId, Column>, columnOrder: seq<ColId>)

  datatype Option<T> = None | Some(value: T)

  /** A position in a droppable list, as the drag library reports it. */
  datatype Location = Location(droppableId: ColId, index: int)

  /** The drag library's `DropResult`; `destination` is missing when the drop landed outside every column. */
  datatype DropResult = DropResult(source: Location, destination: Option<Location>, draggableId: TaskId)

  /** The TypeErrors of reading a field through a column id that is not a key of `columns`
      (`.taskIds`), or through a task id that is not a key of `tasks` (`.id`, when rendering). */
  datatype TypeError = UndefinedColumn(columnId: ColId) | UndefinedTask(taskId: TaskId)

  datatype Result<T> = Ok(value: T) | Err(error: TypeError)

  /** The board the component starts with. */
  const InitialData: Board := Board(
    map[
      TaskId(1) := Task(TaskId(1), "Take out the garbage", Low),
      TaskId(2) := Task(TaskId(2), "Watch my favorite show", Medium),
      TaskId(3) := Task(TaskId(3), "Charge my phone", High),
      TaskId(4) := Task(TaskId(4), "Cook dinner", Medium)
    ],
    map[
      ColId(1) := Column(ColId(1), "To do", [TaskId(1), TaskId(2), TaskId(3), TaskId(4)]),
      ColId(2) := Column(ColId(2), "In progress", []),
      ColId(3) := Column(ColId(3), "Done", [])
    ],
    [ColId(1), ColId(2), ColId(3)])

  /** All task ids held by the columns, counted with multiplicity. */
  ghost function TaskBag(columns: map<ColId, Column>): multiset<TaskId>
    decreases |columns|
  {
    if columns == map[] then multiset{}
    else
      var k :| k in columns;
      assert (columns - {k}).Keys < columns.Keys;
      multiset(columns[k].taskIds) + TaskBag(columns - {k})
  }

  /** Every column is stored under its own id, so `[column.id]: column` writes back to the key it came from. */
  predicate ColumnsKeyedById(b: Board)
  {
    forall c :: c in b.columns ==> b.columns[c].id == c
  }

  /** The board's consistency: every record is stored under its own id, `columnOrder` lists each
      column exactly once, the ids in the columns are exactly the tasks' keys, and no task id
      occurs twice (neither in two columns nor twice in one). */
  ghost predicate WellFormed(b: Board)
  {
    && (forall t :: t in b.tasks ==> b.tasks[t].id == t)
    && ColumnsKeyedById(b)
    && OrderListsColumnsOnce(b.columns, b.columnOrder)
    && ListedOnce(b.tasks, TaskBag(b.columns))
  }

  /** `order` lists every key of `columns`, once, and nothing else. */
  ghost predicate OrderListsColumnsOnce(columns: map<ColId, Column>, order: seq<ColId>)
  {
    && (forall c :: c in columns <==> c in order)
    && (forall c :: multiset(order)[c] <= 1)
  }

  /** The ids in `listed` are exactly the keys of `tasks`, each listed once. */
  ghost predicate ListedOnce(tasks: map<TaskId, Task>, listed: multiset<TaskId>)
  {
    && (forall t :: t in tasks <==> t in listed)
    && (forall t :: listed[t] <= 1)
  }

  /** True when the drop leaves the board alone before any column is looked up:
      no destination, or the destination is the source itself. */
  predicate IsNoop(r: DropResult)
  {
    r.destination.None? || r.destination.value == r.source
  }

  /** `onDragEnd`. A real move takes the id at `source.index` out of the source column and
      inserts `draggableId` at `destination.index`; within one column the insertion index is
      taken in the already shortened list. Nothing checks that `draggableId` is the removed id. */
  function DragEnd(b: Board, r: DropResult): (res: Result<Board>)
    ensures IsNoop(r) ==> res == Ok(b)
    ensures res.Err? <==> !IsNoop(r) && (r.source.droppableId !in b.columns || r.destination.value.droppableId !in b.columns)
    ensures res.Err? ==> res.error == UndefinedColumn(if r.source.droppableId !in b.columns then r.source.droppableId else r.destination.value.droppableId)
    ensures res.Ok? ==> res.value.tasks == b.tasks && res.value.columnOrder == b.columnOrder
  {
    if IsNoop(r) then Ok(b)
    else
      var src := r.source;
      var dst := r.destination.value;
      if src.droppableId !in b.columns then Err(UndefinedColumn(src.droppableId))
      else if dst.droppableId !in b.columns then Err(UndefinedColumn(dst.droppableId))
      else
        var start := b.columns[src.droppableId];
        var finish := b.columns[dst.droppableId];
        if src.droppableId == dst.droppableId then
          var newColumn := start.(taskIds := InsertAt(RemoveAt(start.taskIds, src.index), dst.index, r.draggableId));
          Ok(b.(columns := b.columns[newColumn.id := newColumn]))
        else
          var newStart := start.(taskIds := RemoveAt(start.taskIds, src.index));
          var newFinish := finish.(taskIds := InsertAt(finish.taskIds, dst.index, r.draggableId));
          Ok(b.(columns := b.columns[newStart.id := newStart][newFinish.id := newFinish]))
  }

  /** The id `addNewColumn` gives a new column: one more than the number of columns. */
  function NewColumnId(b: Board): ColId
  {
    ColId(|b.columns| + 1)
  }

  /** The update `addNewColumn` makes once it has an id: a blank title changes nothing; otherwise
      a column with the untrimmed title and no tasks is stored under `id`, replacing any column
      already there, and `id` is appended to `columnOrder`. */
  function AddColumnWithId(b: Board, title: string, id: ColId): (r: Board)
    ensures IsBlank(title) ==> r == b
    ensures !IsBlank(title) ==>
      && r.tasks == b.tasks
      && r.columnOrder == b.columnOrder + [id]
      && r.columns.Keys == b.columns.Keys + {id}
      && r.columns[id] == Column(id, title, [])
      && (forall c :: c in b.columns && c != id ==> r.columns[c] == b.columns[c])
  {
    if IsBlank(title) then b
    else b.(columns := b.columns[id := Column(id, title, [])], columnOrder := b.columnOrder + [id])
  }

  /** `addNewColumn` with the typed `title`, under the id `column-(number of columns + 1)`. */
  function AddNewColumn(b: Board, title: string): (r: Board)
    ensures IsBlank(title) ==> r == b
    ensures !IsBlank(title) ==>
      && r.columnOrder == b.columnOrder + [NewColumnId(b)]
      && NewColumnId(b) in r.columns
      && r.columns[NewColumnId(b)] == Column(NewColumnId(b), title, [])
      && (NewColumnId(b) in b.columns ==> |r.columns| == |b.columns|)
  {
    AddColumnWithId(b, title, NewColumnId(b))
  }

  /** `deleteColumn`: the column goes from `columns` and every occurrence of its id from
      `columnOrder`; every task listed in it goes from `tasks`. Other columns stay as they were. */
  function DeleteColumn(b: Board, columnId: ColId): (res: Result<Board>)
    ensures res.Err? <==> columnId !in b.columns
    ensures res.Err? ==> res.error == UndefinedColumn(columnId)
    ensures res.Ok? ==>
      && res.value.columns.Keys == b.columns.Keys - {columnId}
      && (forall c :: c in res.value.columns ==> res.value.columns[c] == b.columns[c])
      && res.value.columnOrder == Without(b.columnOrder, columnId)
      && columnId !in res.value.columnOrder
      && (forall c :: c != columnId ==> multiset(res.value.columnOrder)[c] == multiset(b.columnOrder)[c])
      && (forall t :: t in res.value.tasks <==> t in b.tasks && t !in b.columns[columnId].taskIds)
      && (forall t :: t in res.value.tasks ==> res.value.tasks[t] == b.tasks[t])
  {
    if columnId !in b.columns then Err(UndefinedColumn(columnId))
    else
      var column := b.columns[columnId];
      Ok(Board(b.tasks - (set t | t in column.taskIds), b.columns - {columnId}, Without(b.columnOrder, columnId)))
  }

  /** The id `addTask` gives a new task: one more than the number of tasks. */
  function NewTaskId(b: Board): TaskId
  {
    TaskId(|b.tasks| + 1)
  }

  /** The update `addTask` makes once it has an id: a task with the given content and priority
      medium is stored under `id`, replacing any task already there, and `id` is appended to the
      named column. */
  function AddTaskWithId(b: Board, columnId: ColId, content: string, id: TaskId): (res: Result<Board>)
    ensures res.Err? <==> columnId !in b.columns
    ensures res.Err? ==> res.error == UndefinedColumn(columnId)
    ensures res.Ok? ==>
      && res.value.tasks.Keys == b.tasks.Keys + {id}
      && res.value.tasks[id] == Task(id, content, Medium)
      && (forall t :: t in b.tasks && t != id ==> res.value.tasks[t] == b.tasks[t])
      && res.value.columns.Keys == b.columns.Keys
      && res.value.columns[columnId].id == b.columns[columnId].id
      && res.value.columns[columnId].title == b.columns[columnId].title
      && res.value.columns[columnId].taskIds == b.columns[columnId].taskIds + [id]
      && (forall c :: c in b.columns && c != columnId ==> res.value.columns[c] == b.columns[c])
      && res.value.columnOrder == b.columnOrder
  {
    if columnId !in b.columns then Err(UndefinedColumn(columnId))
    else
      var column := b.columns[columnId];
      Ok(b.(tasks := b.tasks[id := Task(id, content, Medium)],
            columns := b.columns[columnId := column.(taskIds := column.taskIds + [id])]))
  }

  /** `addTask`, under the id `task-(number of tasks + 1)`. */
  function AddTask(b: Board, columnId: ColId, content: string): (res: Result<Board>)
    ensures res.Err? <==> columnId !in b.columns
    ensures res.Err? ==> res.error == UndefinedColumn(columnId)
    ensures res.Ok? ==>
      && NewTaskId(b) in res.value.tasks && columnId in res.value.columns
      && res.value.tasks[NewTaskId(b)] == Task(NewTaskId(b), content, Medium)
      && res.value.columns[columnId].taskIds == b.columns[columnId].taskIds + [NewTaskId(b)]
      && (NewTaskId(b) in b.tasks ==> |res.value.tasks| == |b.tasks|)
  {
    AddTaskWithId(b, columnId, content, NewTaskId(b))
  }

  /** `deleteTask`: every occurrence of `taskId` leaves the named column (keeping the order of the
      rest) and the key leaves `tasks`; other columns and other tasks stay as they were. */
  function DeleteTask(b: Board, columnId: ColId, taskId: TaskId): (res: Result<Board>)
    ensures res.Err? <==> columnId !in b.columns
    ensures res.Err? ==> res.error == UndefinedColumn(columnId)
    ensures res.Ok? ==>
      && res.value.tasks.Keys == b.tasks.Keys - {taskId}
      && (forall t :: t in res.value.tasks ==> res.value.tasks[t] == b.tasks[t])
      && res.value.columns.Keys == b.columns.Keys
      && res.value.columns[columnId].id == b.columns[columnId].id
      && res.value.columns[columnId].title == b.columns[columnId].title
      && res.value.columns[columnId].taskIds == Without(b.columns[columnId].taskIds, taskId)
      && multiset(res.value.columns[columnId].taskIds) == multiset(b.columns[columnId].taskIds)[taskId := 0]
      && (taskId !in b.columns[columnId].taskIds ==> res.value.columns[columnId] == b.columns[columnId])
      && (forall c :: c in b.columns && c != columnId ==> res.value.columns[c] == b.columns[c])
      && res.value.columnOrder == b.columnOrder
  {
    if columnId !in b.columns then Err(UndefinedColumn(columnId))
    else
      var column := b.columns[columnId];
      Ok(Board(b.tasks - {taskId}, b.columns[columnId := column.(taskIds := Without(column.taskIds, taskId))], b.columnOrder))
  }

  /** `updateColumnTitle`: the named column gets the new title as given (no trim check here)
      and keeps its id and tasks; nothing else changes. */
  function UpdateColumnTitle(b: Board, columnId: ColId, newTitle: string): (r: Board)
    requires columnId in b.columns
    ensures r.columns.Keys == b.columns.Keys
    ensures r.columns[columnId].title == newTitle
    ensures r.columns[columnId].id == b.columns[columnId].id
    ensures r.columns[columnId].taskIds == b.columns[columnId].taskIds
    ensures forall c :: c in b.columns && c != columnId ==> r.columns[c] == b.columns[c]
    ensures r.tasks == b.tasks && r.columnOrder == b.columnOrder
  {
    b.(columns := b.columns[columnId := b.columns[columnId].(title := newTitle)])
  }

  /** The board a handler leaves behind: the new one, or the old one when the handler threw. */
  function Commit(before: Board, res: Result<Board>): Board
  {
    if res.Ok? then res.value else before
  }
}
