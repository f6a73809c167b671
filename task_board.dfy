/** The `TaskBoard` component: its two pieces of state (`boardData` and the new-column input's
    text), the handlers that replace `boardData`, and the render that looks up each column of
    `columnOrder` and each task of those columns. A handler whose update throws leaves the stored
    board as it was and reports `false`. */
module TaskBoardComponent {
  import opened JsString
  import opened JsArray
  import opened Kanban
  import opened KanbanProperties

  /** The props of one rendered `<Column>`: the column record and the tasks its ids look up. */
  datatype ColumnProps = ColumnProps(column: Column, tasks: seq<Task>)

  /** What the render needs: every id in `columnOrder` is a column and every id those columns
      list is a task. */
  predicate Renderable(b: Board)
  {
    forall c :: c in b.columnOrder ==> c in b.columns && forall t :: t in b.columns[c].taskIds ==> t in b.tasks
  }

  /** `column.taskIds.map((taskId) => boardData.tasks[taskId])`, failing at the first id that is
      not a task (the `Task` element then reads `.id` of undefined). */
  function LookUpTasks(tasks: map<TaskId, Task>, ids: seq<TaskId>): (r: Result<seq<Task>>)
    ensures r.Ok? <==> forall t :: t in ids ==> t in tasks
    ensures r.Ok? ==> |r.value| == |ids| && forall j :: 0 <= j < |ids| ==> r.value[j] == tasks[ids[j]]
    ensures r.Err? ==> r.error.UndefinedTask? && r.error.taskId in ids && r.error.taskId !in tasks
  {
    if ids == [] then Ok([])
    else if ids[0] !in tasks then Err(UndefinedTask(ids[0]))
    else
      var rest := LookUpTasks(tasks, ids[1..]);
      if rest.Err? then rest else Ok([tasks[ids[0]]] + rest.value)
  }

  /** The column lookups of `columnOrder.map(...)`, which all run while the board renders:
      the first id that is not a column fails at `column.taskIds`. */
  function LookUpColumns(columns: map<ColId, Column>, order: seq<ColId>): (r: Result<seq<Column>>)
    ensures r.Ok? <==> forall c :: c in order ==> c in columns
    ensures r.Ok? ==> |r.value| == |order| && forall i :: 0 <= i < |order| ==> r.value[i] == columns[order[i]]
    ensures r.Err? ==> r.error.UndefinedColumn? && r.error.columnId in order && r.error.columnId !in columns
  {
    if order == [] then Ok([])
    else if order[0] !in columns then Err(UndefinedColumn(order[0]))
    else
      var rest := LookUpColumns(columns, order[1..]);
      if rest.Err? then rest else Ok([columns[order[0]]] + rest.value)
  }

  /** The `Column` elements, rendered one after the other once every column was found: each
      reads the tasks its column lists, and the first id that is not a task fails. */
  function RenderColumns(tasks: map<TaskId, Task>, cols: seq<Column>): (r: Result<seq<ColumnProps>>)
    ensures r.Ok? <==> forall i :: 0 <= i < |cols| ==> forall t :: t in cols[i].taskIds ==> t in tasks
    ensures r.Ok? ==> |r.value| == |cols| && forall i :: 0 <= i < |cols| ==>
      && r.value[i].column == cols[i]
      && |r.value[i].tasks| == |cols[i].taskIds|
      && forall j :: 0 <= j < |r.value[i].tasks| ==> r.value[i].tasks[j] == tasks[cols[i].taskIds[j]]
    ensures r.Err? ==> r.error.UndefinedTask? && r.error.taskId !in tasks
  {
    if cols == [] then Ok([])
    else
      var ts := LookUpTasks(tasks, cols[0].taskIds);
      if ts.Err? then Err(ts.error)
      else
        var rest := RenderColumns(tasks, cols[1..]);
        if rest.Err? then rest
        else
          assert forall i :: 1 <= i < |cols| ==> cols[i] == cols[1..][i - 1];
          Ok([ColumnProps(cols[0], ts.value)] + rest.value)
  }

  /** The board's render: one `<Column>` per id of `columnOrder`, in that order. A missing column
      is reported before any missing task. */
  function Render(b: Board): (r: Result<seq<ColumnProps>>)
    ensures r.Ok? <==> Renderable(b)
    ensures r.Ok? ==> |r.value| == |b.columnOrder| && forall i :: 0 <= i < |r.value| ==>
      && r.value[i].column == b.columns[b.columnOrder[i]]
      && |r.value[i].tasks| == |b.columns[b.columnOrder[i]].taskIds|
      && forall j :: 0 <= j < |r.value[i].tasks| ==> r.value[i].tasks[j] == b.tasks[b.columns[b.columnOrder[i]].taskIds[j]]
    ensures r.Err? ==> (r.error.UndefinedColumn? <==> exists c :: c in b.columnOrder && c !in b.columns)
  {
    var cols := LookUpColumns(b.columns, b.columnOrder);
    if cols.Err? then Err(cols.error)
    else
      assert forall c :: c in b.columnOrder ==> exists i :: 0 <= i < |b.columnOrder| && b.columnOrder[i] == c;
      RenderColumns(b.tasks, cols.value)
  }

  /** A consistent board renders, and each rendered task is the one its column lists. */
  lemma WellFormedRenders(b: Board)
    requires WellFormed(b)
    ensures Render(b).Ok?
    ensures forall i, j :: 0 <= i < |Render(b).value| && 0 <= j < |Render(b).value[i].tasks| ==>
      Render(b).value[i].tasks[j].id == Render(b).value[i].column.taskIds[j]
  {
    forall c | c in b.columnOrder
      ensures c in b.columns && forall t :: t in b.columns[c].taskIds ==> t in b.tasks
    {
      forall t | t in b.columns[c].taskIds ensures t in b.tasks {
        AtMostOneColumn(b, c, c, t);
      }
    }
    var view := Render(b).value;
    forall i, j | 0 <= i < |view| && 0 <= j < |view[i].tasks|
      ensures view[i].tasks[j].id == view[i].column.taskIds[j]
    {
      var t := view[i].column.taskIds[j];
      assert t in b.tasks;
    }
  }

  /** The `TaskBoard` component's state. */
  class TaskBoard {
    var boardData: Board
    var newColumnTitle: string

    /** `useState(initialData)` and `useState('')`. */
    constructor ()
      ensures boardData == InitialData && newColumnTitle == ""
    {
      boardData := InitialData;
      newColumnTitle := "";
    }

    /** The new-column input's `onChange`. */
    method SetNewColumnTitle(value: string)
      modifies this
      ensures newColumnTitle == value && boardData == old(boardData)
    {
      newColumnTitle := value;
    }

    /** `onDragEnd`: stores the moved board; `ok` is false when a column lookup failed. */
    method OnDragEnd(result: DropResult) returns (ok: bool)
      modifies this
      ensures ok <==> DragEnd(old(boardData), result).Ok?
      ensures boardData == Commit(old(boardData), DragEnd(old(boardData), result))
      ensures newColumnTitle == old(newColumnTitle)
    {
      var res := DragEnd(boardData, result);
      ok := res.Ok?;
      boardData := Commit(boardData, res);
    }

    /** `addNewColumn`: with a non-blank title, stores the board with the new column and clears
        the input; with a blank one, does nothing. */
    method AddNewColumn()
      modifies this
      ensures boardData == Kanban.AddNewColumn(old(boardData), old(newColumnTitle))
      ensures newColumnTitle == if IsBlank(old(newColumnTitle)) then old(newColumnTitle) else ""
    {
      if IsBlank(newColumnTitle) {
        return;
      }
      boardData := AddColumnWithId(boardData, newColumnTitle, NewColumnId(boardData));
      newColumnTitle := "";
    }

    /** `deleteColumn`: deletes the column's tasks one by one, then the column and its entries in
        `columnOrder`; `ok` is false, and nothing changes, when the column is unknown. */
    method DeleteColumn(columnId: ColId) returns (ok: bool)
      modifies this
      ensures ok <==> columnId in old(boardData).columns
      ensures boardData == Commit(old(boardData), Kanban.DeleteColumn(old(boardData), columnId))
      ensures newColumnTitle == old(newColumnTitle)
    {
      if columnId !in boardData.columns {
        return false;
      }
      var column := boardData.columns[columnId];
      var i := 0;
      while i < |column.taskIds|
        invariant 0 <= i <= |column.taskIds|
        invariant boardData == old(boardData).(tasks := old(boardData).tasks - (set t | t in column.taskIds[..i]))
        invariant newColumnTitle == old(newColumnTitle)
      {
        assert column.taskIds[..i + 1] == column.taskIds[..i] + [column.taskIds[i]];
        boardData := boardData.(tasks := boardData.tasks - {column.taskIds[i]});
        i := i + 1;
      }
      assert column.taskIds[..i] == column.taskIds;
      boardData := boardData.(columns := boardData.columns - {columnId});
      boardData := boardData.(columnOrder := Without(boardData.columnOrder, columnId));
      ok := true;
    }

    /** `addTask`: stores the board with the new task; `ok` is false, and nothing changes, when
        the column is unknown. */
    method AddTask(columnId: ColId, taskContent: string) returns (ok: bool)
      modifies this
      ensures ok <==> columnId in old(boardData).columns
      ensures boardData == Commit(old(boardData), Kanban.AddTask(old(boardData), columnId, taskContent))
      ensures newColumnTitle == old(newColumnTitle)
    {
      var res := Kanban.AddTask(boardData, columnId, taskContent);
      ok := res.Ok?;
      boardData := Commit(boardData, res);
    }

    /** `deleteTask`: filters the id out of the column's list, then deletes the task; `ok` is
        false, and nothing changes, when the column is unknown. */
    method DeleteTask(columnId: ColId, taskId: TaskId) returns (ok: bool)
      modifies this
      ensures ok <==> columnId in old(boardData).columns
      ensures boardData == Commit(old(boardData), Kanban.DeleteTask(old(boardData), columnId, taskId))
      ensures newColumnTitle == old(newColumnTitle)
    {
      if columnId !in boardData.columns {
        return false;
      }
      var column := boardData.columns[columnId];
      boardData := boardData.(columns := boardData.columns[columnId := column.(taskIds := Without(column.taskIds, taskId))]);
      boardData := boardData.(tasks := boardData.tasks - {taskId});
      ok := true;
    }

    /** `updateColumnTitle` on a column of the board. */
    method UpdateColumnTitle(columnId: ColId, newTitle: string)
      requires columnId in boardData.columns
      modifies this
      ensures boardData == Kanban.UpdateColumnTitle(old(boardData), columnId, newTitle)
      ensures newColumnTitle == old(newColumnTitle)
    {
      boardData := Kanban.UpdateColumnTitle(boardData, columnId, newTitle);
    }
  }
}
