/** The ids `addNewColumn` and `addTask` generate count the existing entries, so after a delete
    they can name an entry that still exists. Two concrete runs from the seed board show the
    collision; ids one past the largest number in use are always fresh, and with them both adds
    keep a consistent board consistent and `deleteTask` undoes `addTask`. */
module FreshIds {
  import opened JsString
  import opened JsArray
  import opened Kanban
  import opened KanbanProperties

  // ---------------------------------------------------------------------------
  // The collisions, as written

  /** "Review" has a character that is not white space. */
  lemma ReviewIsNotBlank()
    ensures !IsBlank("Review")
  {
    NotBlankAt("Review", 0);
  }

  /** The seed board has three columns and four tasks. */
  lemma InitialSizes()
    ensures InitialData.columns.Keys == {ColId(1), ColId(2), ColId(3)} && |InitialData.columns| == 3
    ensures InitialData.tasks.Keys == {TaskId(1), TaskId(2), TaskId(3), TaskId(4)} && |InitialData.tasks| == 4
  {
    assert |{ColId(1), ColId(2), ColId(3)}| == 3;
    assert |{TaskId(1), TaskId(2), TaskId(3), TaskId(4)}| == 4;
  }

  /** When the board has a column numbered as many as there are columns, deleting another column
      makes `addNewColumn` reuse that number: the column under it is replaced and its id is
      listed twice in `columnOrder`. */
  lemma DeleteThenAddColumnCollides(b: Board, columnId: ColId, title: string)
    requires WellFormed(b) && columnId in b.columns && !IsBlank(title)
    requires ColId(|b.columns|) in b.columns && ColId(|b.columns|) != columnId
    ensures DeleteColumn(b, columnId).Ok?
    ensures var b' := DeleteColumn(b, columnId).value;
      && WellFormed(b')
      && NewColumnId(b') == ColId(|b.columns|) && NewColumnId(b') in b'.columns
      && b'.columns[NewColumnId(b')] == b.columns[ColId(|b.columns|)]
      && AddNewColumn(b', title).columns[NewColumnId(b')] == Column(NewColumnId(b'), title, [])
      && multiset(AddNewColumn(b', title).columnOrder)[NewColumnId(b')] == 2
      && !WellFormed(AddNewColumn(b', title))
  {
    var b' := DeleteColumn(b, columnId).value;
    DeleteColumnPreservesWellFormed(b, columnId);
    assert b'.columns.Keys == b.columns.Keys - {columnId};
    assert |b'.columns| == |b.columns| - 1;
    AddColumnTakenIdRepeats(b', title, ColId(|b.columns|));
  }

  /** Deleting `column-1` from the seed board and then adding a column "Review" gives the new
      column the id `column-3`: the "Done" column is overwritten and `column-3` is listed twice
      in `columnOrder`, so the board is no longer consistent. */
  lemma ColumnIdCollision()
    ensures DeleteColumn(InitialData, ColId(1)).Ok?
    ensures var b := DeleteColumn(InitialData, ColId(1)).value;
            var b' := AddNewColumn(b, "Review");
      && WellFormed(b)
      && NewColumnId(b) == ColId(3) && b.columns[ColId(3)].title == "Done"
      && b'.columns[ColId(3)] == Column(ColId(3), "Review", [])
      && multiset(b'.columnOrder)[ColId(3)] == 2
      && !WellFormed(b')
  {
    InitialSizes();
    InitialDataWellFormed();
    ReviewIsNotBlank();
    DeleteThenAddColumnCollides(InitialData, ColId(1), "Review");
  }

  /** When the board has a task numbered as many as there are tasks, deleting another task makes
      `addTask` reuse that number: the task under it is replaced, the column lists the id twice,
      and deleting the new task does not give the board back. */
  lemma DeleteThenAddTaskCollides(b: Board, columnId: ColId, taskId: TaskId, content: string)
    requires WellFormed(b) && columnId in b.columns && taskId in b.columns[columnId].taskIds
    requires TaskId(|b.tasks|) in b.tasks && TaskId(|b.tasks|) != taskId
    ensures DeleteTask(b, columnId, taskId).Ok?
    ensures var b' := DeleteTask(b, columnId, taskId).value;
            var b'' := AddTask(b', columnId, content).value;
      && WellFormed(b')
      && NewTaskId(b') == TaskId(|b.tasks|) && b'.tasks[NewTaskId(b')] == b.tasks[TaskId(|b.tasks|)]
      && b''.tasks[NewTaskId(b')] == Task(NewTaskId(b'), content, Medium)
      && !WellFormed(b'')
      && DeleteTask(b'', columnId, NewTaskId(b')) != Ok(b')
  {
    var b' := DeleteTask(b, columnId, taskId).value;
    DeleteTaskWellFormedIff(b, columnId, taskId);
    AtMostOneColumn(b, columnId, columnId, taskId);
    assert b'.tasks.Keys == b.tasks.Keys - {taskId};
    assert |b'.tasks| == |b.tasks| - 1;
    var id := TaskId(|b.tasks|);
    AddTaskWellFormedIffFresh(b', columnId, content, id);
    var b'' := AddTask(b', columnId, content).value;
    assert id !in DeleteTask(b'', columnId, id).value.tasks;
  }

  /** Deleting `task-1` from the seed board and then adding a task to `column-1` gives the new
      task the id `task-4`: "Cook dinner" is overwritten, `column-1` lists `task-4` twice, the
      board is no longer consistent, and deleting the new task does not give the board back. */
  lemma TaskIdCollision()
    ensures DeleteTask(InitialData, ColId(1), TaskId(1)).Ok?
    ensures var b := DeleteTask(InitialData, ColId(1), TaskId(1)).value;
            var b' := AddTask(b, ColId(1), "Water the plants").value;
      && WellFormed(b)
      && NewTaskId(b) == TaskId(4) && b.tasks[TaskId(4)].content == "Cook dinner"
      && b'.tasks[TaskId(4)].content == "Water the plants"
      && multiset(b'.columns[ColId(1)].taskIds)[TaskId(4)] == 2
      && !WellFormed(b')
      && DeleteTask(b', ColId(1), NewTaskId(b)) != Ok(b)
  {
    InitialSizes();
    InitialDataWellFormed();
    assert TaskId(1) in InitialData.columns[ColId(1)].taskIds;
    DeleteThenAddTaskCollides(InitialData, ColId(1), TaskId(1), "Water the plants");
  }

  // ---------------------------------------------------------------------------
  // Fresh ids

  /** The largest number among the column ids in `keys` (0 for none). */
  ghost function MaxColumnNumber(keys: set<ColId>): (m: nat)
    ensures forall c :: c in keys ==> c.n <= m
    ensures keys != {} ==> exists c :: c in keys && c.n == m
  {
    if keys == {} then 0
    else
      var k :| k in keys;
      var rest := MaxColumnNumber(keys - {k});
      if k.n > rest then k.n else rest
  }

  /** The largest number among the task ids in `keys` (0 for none). */
  ghost function MaxTaskNumber(keys: set<TaskId>): (m: nat)
    ensures forall t :: t in keys ==> t.n <= m
    ensures keys != {} ==> exists t :: t in keys && t.n == m
  {
    if keys == {} then 0
    else
      var k :| k in keys;
      var rest := MaxTaskNumber(keys - {k});
      if k.n > rest then k.n else rest
  }

  /** One past the largest column number in use: never a column of the board. It is fresh
      against the current keys only; the number of a deleted largest column comes back. */
  ghost function FreshColumnId(b: Board): (id: ColId)
    ensures id !in b.columns
    ensures forall c :: c in b.columns ==> c.n < id.n
  {
    ColId(MaxColumnNumber(b.columns.Keys) + 1)
  }

  /** One past the largest task number in use: never a task of the board. It is fresh against
      the current keys only; the number of a deleted largest task comes back. */
  ghost function FreshTaskId(b: Board): (id: TaskId)
    ensures id !in b.tasks
    ensures forall t :: t in b.tasks ==> t.n < id.n
  {
    TaskId(MaxTaskNumber(b.tasks.Keys) + 1)
  }

  /** `addNewColumn` with the fresh column id. */
  ghost function AddNewColumnFresh(b: Board, title: string): (r: Board)
    ensures IsBlank(title) ==> r == b
    ensures !IsBlank(title) ==>
      && r.columnOrder == b.columnOrder + [FreshColumnId(b)]
      && r.columns.Keys == b.columns.Keys + {FreshColumnId(b)}
      && |r.columns| == |b.columns| + 1
      && r.columns[FreshColumnId(b)] == Column(FreshColumnId(b), title, [])
  {
    AddColumnWithId(b, title, FreshColumnId(b))
  }

  /** `addTask` with the fresh task id. */
  ghost function AddTaskFresh(b: Board, columnId: ColId, content: string): (res: Result<Board>)
    ensures res.Err? <==> columnId !in b.columns
    ensures res.Ok? ==>
      && columnId in res.value.columns
      && res.value.tasks.Keys == b.tasks.Keys + {FreshTaskId(b)}
      && |res.value.tasks| == |b.tasks| + 1
      && res.value.tasks[FreshTaskId(b)] == Task(FreshTaskId(b), content, Medium)
      && res.value.columns[columnId].taskIds == b.columns[columnId].taskIds + [FreshTaskId(b)]
  {
    AddTaskWithId(b, columnId, content, FreshTaskId(b))
  }

  /** With the fresh id, adding a column keeps a consistent board consistent. */
  lemma AddNewColumnFreshKeepsWellFormed(b: Board, title: string)
    requires WellFormed(b)
    ensures WellFormed(AddNewColumnFresh(b, title))
  {
    if !IsBlank(title) {
      AddColumnWellFormedIffFresh(b, title, FreshColumnId(b));
    }
  }

  /** With the fresh id, deleting the column just added gives back the board. */
  lemma AddThenDeleteColumnFreshRoundTrip(b: Board, title: string)
    requires WellFormed(b) && !IsBlank(title)
    ensures DeleteColumn(AddNewColumnFresh(b, title), FreshColumnId(b)) == Ok(b)
  {
    var id := FreshColumnId(b);
    var b' := AddNewColumnFresh(b, title);
    assert id !in b.columnOrder;
    assert b' == b.(columns := b.columns[id := Column(id, title, [])], columnOrder := b.columnOrder + [id]);
    WithoutAppended(b.columnOrder, id);
    RemoveAddedKey(b.columns, id, Column(id, title, []));
    assert (set t: TaskId | t in b'.columns[id].taskIds) == {};
    RemoveNoKeys(b.tasks);
  }

  /** With the fresh id, adding a task keeps a consistent board consistent. */
  lemma AddTaskFreshKeepsWellFormed(b: Board, columnId: ColId, content: string)
    requires WellFormed(b) && columnId in b.columns
    ensures WellFormed(AddTaskFresh(b, columnId, content).value)
  {
    AddTaskWellFormedIffFresh(b, columnId, content, FreshTaskId(b));
  }

  /** With the fresh id, deleting the task just added gives back the board. */
  lemma AddThenDeleteTaskFreshRoundTrip(b: Board, columnId: ColId, content: string)
    requires WellFormed(b) && columnId in b.columns
    ensures DeleteTask(AddTaskFresh(b, columnId, content).value, columnId, FreshTaskId(b)) == Ok(b)
  {
    var id := FreshTaskId(b);
    if id in b.columns[columnId].taskIds {
      AtMostOneColumn(b, columnId, columnId, id);
      assert false;
    }
    AddThenDeleteTaskWithIdRoundTrip(b, columnId, content, id);
  }
}
