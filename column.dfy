/** The `Column` component: the draggables it renders for its tasks, the add-task area it offers
    only to the column titled 'To do', and its local state (the add and edit modes and the two
    inputs) with the handlers that forward to the board only past a trim check. */
module ColumnComponent {
  import opened JsString
  import opened Kanban
  import opened KanbanProperties
  import opened TaskBoardComponent

  /** What a `<Draggable>` is given: the task's id and its position in the column. */
  datatype DraggableProps = DraggableProps(draggableId: TaskId, index: nat)

  /** `tasks.map((task, index) => <Task task={task} index={index} .../>)`, each `Task` rendering
      `<Draggable draggableId={task.id} index={index}>`. */
  function Draggables(tasks: seq<Task>): (r: seq<DraggableProps>)
    ensures |r| == |tasks|
    ensures forall j :: 0 <= j < |r| ==> r[j] == DraggableProps(tasks[j].id, j)
  {
    seq(|tasks|, j requires 0 <= j < |tasks| => DraggableProps(tasks[j].id, j))
  }

  /** The add-task area under the list: nothing, the "Add Task" button, or the input form. */
  datatype AddTaskArea = NoAddControl | AddTaskButton | AddTaskForm

  /** `column.title === 'To do' && (isAddingTask ? form : button)`. */
  function AddTaskAreaOf(title: string, isAddingTask: bool): (r: AddTaskArea)
    ensures r != NoAddControl <==> title == "To do"
    ensures r == AddTaskForm <==> title == "To do" && isAddingTask
  {
    if title != "To do" then NoAddControl
    else if isAddingTask then AddTaskForm
    else AddTaskButton
  }

  /** The drag library reports a drag of the draggable at position `j` of rendered column `i`
      of `view`, dropped outside every column or on a rendered column. */
  predicate DragFromView(view: seq<ColumnProps>, i: int, j: int, r: DropResult)
  {
    && 0 <= i < |view| && 0 <= j < |view[i].tasks|
    && r.source == Location(view[i].column.id, Draggables(view[i].tasks)[j].index)
    && r.draggableId == Draggables(view[i].tasks)[j].draggableId
    && (r.destination.Some? ==> exists k :: 0 <= k < |view| && view[k].column.id == r.destination.value.droppableId)
  }

  /** What the rendered column at position `i` shows: the column `columnOrder[i]`, which the
      board has, and each of its draggables carries the id its column lists at that position. */
  lemma RenderedColumn(b: Board, i: int)
    requires WellFormed(b) && Render(b).Ok? && 0 <= i < |Render(b).value|
    ensures i < |b.columnOrder| && b.columnOrder[i] in b.columns
    ensures Render(b).value[i].column == b.columns[b.columnOrder[i]]
    ensures |Render(b).value[i].tasks| == |b.columns[b.columnOrder[i]].taskIds|
    ensures forall j :: 0 <= j < |Render(b).value[i].tasks| ==>
      Draggables(Render(b).value[i].tasks)[j] == DraggableProps(b.columns[b.columnOrder[i]].taskIds[j], j)
  {
    WellFormedRenders(b);
  }

  /** A drag the rendered board can report starts at the position in `column.taskIds` of the
      id it drags, so it keeps a consistent board consistent. */
  lemma DragFromViewPreservesWellFormed(b: Board, i: int, j: int, r: DropResult)
    requires WellFormed(b) && Render(b).Ok? && DragFromView(Render(b).value, i, j, r)
    ensures DragEnd(b, r).Ok? && WellFormed(DragEnd(b, r).value)
  {
    var view := Render(b).value;
    RenderedColumn(b, i);
    var c := b.columnOrder[i];
    assert r.source.droppableId == c;
    assert r.source.index == j && r.draggableId == b.columns[c].taskIds[j];
    if r.destination.Some? {
      var k :| 0 <= k < |view| && view[k].column.id == r.destination.value.droppableId;
      RenderedColumn(b, k);
    }
    MovePreservesWellFormed(b, r);
  }

  /** One mounted `Column`: the board it calls back into, the id of the column it shows, and
      its four `useState` fields. */
  class ColumnView {
    const board: TaskBoard
    const columnId: ColId
    var isAddingTask: bool
    var newTaskContent: string
    var isEditingTitle: bool
    var editedTitle: string

    /** Mounting with the `column` prop: not adding, not editing, an empty task input, and the
        title input holding the column's title. */
    constructor (board: TaskBoard, column: Column)
      ensures this.board == board && columnId == column.id
      ensures !isAddingTask && newTaskContent == "" && !isEditingTitle && editedTitle == column.title
    {
      this.board := board;
      columnId := column.id;
      isAddingTask := false;
      newTaskContent := "";
      isEditingTitle := false;
      editedTitle := column.title;
    }

    /** `handleAddTask`: a content that is blank after trim changes nothing; otherwise the
        untrimmed content goes to the board's `addTask` with this column's id, the input is
        cleared and add mode closes. The UI offers it (the "Add" button) only in the add form,
        that is when `AddTaskAreaOf(title, isAddingTask) == AddTaskForm`; the method allows any
        state. */
    method HandleAddTask()
      modifies this, board
      ensures IsBlank(old(newTaskContent)) ==>
        && board.boardData == old(board.boardData) && board.newColumnTitle == old(board.newColumnTitle)
        && newTaskContent == old(newTaskContent) && isAddingTask == old(isAddingTask)
      ensures !IsBlank(old(newTaskContent)) ==>
        && board.boardData == Commit(old(board.boardData), AddTask(old(board.boardData), columnId, old(newTaskContent)))
        && board.newColumnTitle == old(board.newColumnTitle)
        && newTaskContent == "" && !isAddingTask
      ensures isEditingTitle == old(isEditingTitle) && editedTitle == old(editedTitle)
    {
      if !IsBlank(newTaskContent) {
        var _ := board.AddTask(columnId, newTaskContent);
        newTaskContent := "";
        isAddingTask := false;
      }
    }

    /** `handleUpdateTitle`: a title that is blank after trim changes nothing; otherwise the
        untrimmed title goes to the board's `updateColumnTitle` with this column's id and edit
        mode closes. The UI offers it (the "Save" button) only in edit mode. */
    method HandleUpdateTitle()
      requires columnId in board.boardData.columns
      modifies this, board
      ensures IsBlank(old(editedTitle)) ==>
        board.boardData == old(board.boardData) && isEditingTitle == old(isEditingTitle)
      ensures !IsBlank(old(editedTitle)) ==>
        board.boardData == UpdateColumnTitle(old(board.boardData), columnId, old(editedTitle)) && !isEditingTitle
      ensures board.newColumnTitle == old(board.newColumnTitle)
      ensures editedTitle == old(editedTitle) && isAddingTask == old(isAddingTask) && newTaskContent == old(newTaskContent)
    {
      if !IsBlank(editedTitle) {
        board.UpdateColumnTitle(columnId, editedTitle);
        isEditingTitle := false;
      }
    }

    /** The "Edit" button, shown only outside edit mode: edit mode opens. */
    method StartEditingTitle()
      modifies this
      ensures isEditingTitle
      ensures isAddingTask == old(isAddingTask) && newTaskContent == old(newTaskContent) && editedTitle == old(editedTitle)
    {
      isEditingTitle := true;
    }

    /** The title input's `onChange`, shown only in edit mode. */
    method SetEditedTitle(value: string)
      modifies this
      ensures editedTitle == value
      ensures isAddingTask == old(isAddingTask) && newTaskContent == old(newTaskContent) && isEditingTitle == old(isEditingTitle)
    {
      editedTitle := value;
    }

    /** The "Add Task" button (`adding` true) and the "Cancel" button (`adding` false), both shown
        only in the `To do` column (`AddTaskAreaOf`). */
    method SetAddingTask(adding: bool)
      modifies this
      ensures isAddingTask == adding
      ensures newTaskContent == old(newTaskContent) && isEditingTitle == old(isEditingTitle) && editedTitle == old(editedTitle)
    {
      isAddingTask := adding;
    }

    /** The task input's `onChange`, shown only in the add form. */
    method SetNewTaskContent(value: string)
      modifies this
      ensures newTaskContent == value
      ensures isAddingTask == old(isAddingTask) && isEditingTitle == old(isEditingTitle) && editedTitle == old(editedTitle)
    {
      newTaskContent := value;
    }

    /** The column's delete button, shown only outside edit mode: the board's `deleteColumn`
        with this column's id. */
    method ClickDeleteColumn() returns (ok: bool)
      modifies board
      ensures ok <==> columnId in old(board.boardData).columns
      ensures board.boardData == Commit(old(board.boardData), DeleteColumn(old(board.boardData), columnId))
      ensures board.newColumnTitle == old(board.newColumnTitle)
    {
      ok := board.DeleteColumn(columnId);
    }

    /** A task's delete button: the board's `deleteTask` with this column's id and the task's id. */
    method ClickDeleteTask(task: Task) returns (ok: bool)
      modifies board
      ensures ok <==> columnId in old(board.boardData).columns
      ensures board.boardData == Commit(old(board.boardData), DeleteTask(old(board.boardData), columnId, task.id))
      ensures board.newColumnTitle == old(board.newColumnTitle)
    {
      ok := board.DeleteTask(columnId, task.id);
    }
  }
}
