/** What the board's handlers keep and undo: the frames of the two kinds of move, the
    consistency of the board under every handler (for the two adds: exactly when the
    generated id is fresh), the round trips of the adds, and the cascade of a column delete. */
module KanbanProperties {
  import opened JsString
  import opened JsArray
  import opened Kanban

  // ---------------------------------------------------------------------------
  // The multiset of task ids over all columns

  /** Taking any one column out of the sum leaves the sum of the others. */
  lemma {:induction false} TaskBagRemove(columns: map<ColId, Column>, k: ColId)
    requires k in columns
    ensures TaskBag(columns) == multiset(columns[k].taskIds) + TaskBag(columns - {k})
    decreases |columns|
  {
    var j :| j in columns && TaskBag(columns) == multiset(columns[j].taskIds) + TaskBag(columns - {j});
    if j != k {
      var withoutJ := columns - {j};
      var withoutK := columns - {k};
      assert withoutJ.Keys < columns.Keys && withoutK.Keys < columns.Keys;
      TaskBagRemove(withoutJ, k);
      TaskBagRemove(withoutK, j);
      RemoveKeysCommute(columns, j, k);
      var rest := TaskBag(withoutJ - {k});
      var mj := multiset(columns[j].taskIds);
      var mk := multiset(columns[k].taskIds);
      assert TaskBag(withoutJ) == mk + rest;
      assert TaskBag(withoutK) == mj + rest;
      calc {
        TaskBag(columns);
        mj + (mk + rest);
        mk + (mj + rest);
        mk + TaskBag(withoutK);
      }
    }
  }

  /** Removing two keys from a map in either order gives the same map. */
  lemma RemoveKeysCommute<K, V>(m: map<K, V>, j: K, k: K)
    ensures m - {j} - {k} == m - {k} - {j}
  {
    assert (m - {j} - {k}).Keys == (m - {k} - {j}).Keys;
  }

  /** Adding a new key and removing it again gives back the map. */
  lemma RemoveAddedKey<K, V>(m: map<K, V>, k: K, v: V)
    requires k !in m
    ensures m[k := v] - {k} == m
  {
    assert (m[k := v] - {k}).Keys == m.Keys;
  }

  /** Updating a key and then removing it is removing it. */
  lemma RemoveUpdatedKey<K, V>(m: map<K, V>, k: K, v: V)
    ensures m[k := v] - {k} == m - {k}
  {
    assert (m[k := v] - {k}).Keys == (m - {k}).Keys;
  }

  /** Overwriting a key and then writing its old value back gives back the map. */
  lemma RestoreKey<K, V>(m: map<K, V>, k: K, v: V)
    requires k in m
    ensures m[k := v][k := m[k]] == m
  {
    assert m[k := v][k := m[k]].Keys == m.Keys;
  }

  /** Removing no keys changes nothing. */
  lemma RemoveNoKeys<K, V>(m: map<K, V>)
    ensures m - {} == m
  {
    assert (m - {}).Keys == m.Keys;
  }

  /** Replacing one column: before and after, the sum is that of the other columns plus the
      replaced column's ids. */
  lemma TaskBagUpdate(columns: map<ColId, Column>, k: ColId, c: Column)
    requires k in columns
    ensures TaskBag(columns) == TaskBag(columns - {k}) + multiset(columns[k].taskIds)
    ensures TaskBag(columns[k := c]) == TaskBag(columns - {k}) + multiset(c.taskIds)
  {
    TaskBagRemove(columns[k := c], k);
    TaskBagRemove(columns, k);
    RemoveUpdatedKey(columns, k, c);
  }

  /** Adding a column under a new key adds its ids to the sum. */
  lemma TaskBagAdd(columns: map<ColId, Column>, k: ColId, c: Column)
    requires k !in columns
    ensures TaskBag(columns[k := c]) == TaskBag(columns) + multiset(c.taskIds)
  {
    TaskBagRemove(columns[k := c], k);
    RemoveAddedKey(columns, k, c);
  }

  /** Two different columns contribute separately to the count of an id. */
  lemma TaskBagTwoColumns(columns: map<ColId, Column>, k1: ColId, k2: ColId, t: TaskId)
    requires k1 in columns && k2 in columns && k1 != k2
    ensures multiset(columns[k1].taskIds)[t] + multiset(columns[k2].taskIds)[t] <= TaskBag(columns)[t]
  {
    TaskBagRemove(columns, k1);
    TaskBagRemove(columns - {k1}, k2);
  }

  /** Replacing a column by one with the same multiset of ids keeps the sum. */
  lemma TaskBagReplace(columns: map<ColId, Column>, k: ColId, c: Column)
    requires k in columns && multiset(c.taskIds) == multiset(columns[k].taskIds)
    ensures TaskBag(columns[k := c]) == TaskBag(columns)
  {
    TaskBagUpdate(columns, k, c);
  }

  /** Moving one occurrence of `x` from column `src` to column `dst` keeps the sum. */
  lemma TaskBagTransfer(columns: map<ColId, Column>, src: ColId, dst: ColId, ns: Column, nf: Column, x: TaskId)
    requires src in columns && dst in columns && src != dst
    requires multiset(ns.taskIds) + multiset{x} == multiset(columns[src].taskIds)
    requires multiset(nf.taskIds) == multiset(columns[dst].taskIds) + multiset{x}
    ensures TaskBag(columns[src := ns][dst := nf]) == TaskBag(columns)
  {
    var mid := columns[src := ns];
    TaskBagUpdate(columns, src, ns);
    TaskBagUpdate(mid, dst, nf);
    assert mid[dst] == columns[dst];
    var others := TaskBag(columns - {src});
    var rest := TaskBag(mid - {dst});
    forall t ensures TaskBag(mid[dst := nf])[t] == TaskBag(columns)[t] {
      assert TaskBag(mid)[t] == rest[t] + multiset(columns[dst].taskIds)[t];
      assert TaskBag(mid)[t] == others[t] + multiset(ns.taskIds)[t];
    }
  }

  /** Giving one column one more occurrence of `x` adds `x` once to the sum. */
  lemma TaskBagAppend(columns: map<ColId, Column>, k: ColId, c: Column, x: TaskId)
    requires k in columns && multiset(c.taskIds) == multiset(columns[k].taskIds) + multiset{x}
    ensures TaskBag(columns[k := c]) == TaskBag(columns) + multiset{x}
  {
    TaskBagUpdate(columns, k, c);
    var others := TaskBag(columns - {k});
    forall t ensures TaskBag(columns[k := c])[t] == (TaskBag(columns) + multiset{x})[t] {
      assert TaskBag(columns)[t] == others[t] + multiset(columns[k].taskIds)[t];
    }
  }

  /** Changing one column's ids changes the count of each id by the change in that column. */
  lemma TaskBagCount(columns: map<ColId, Column>, k: ColId, c: Column, t: TaskId)
    requires k in columns
    ensures TaskBag(columns[k := c])[t] + multiset(columns[k].taskIds)[t] == TaskBag(columns)[t] + multiset(c.taskIds)[t]
  {
    TaskBagUpdate(columns, k, c);
  }

  /** On a consistent board a task id sits in at most one column, at most once, and every id
      found in a column names a stored task. */
  lemma {:induction false} AtMostOneColumn(b: Board, c1: ColId, c2: ColId, t: TaskId)
    requires WellFormed(b)
    requires c1 in b.columns && c2 in b.columns
    requires t in b.columns[c1].taskIds && t in b.columns[c2].taskIds
    ensures c1 == c2 && multiset(b.columns[c1].taskIds)[t] == 1 && t in b.tasks
  {
    assert t in multiset(b.columns[c1].taskIds) && t in multiset(b.columns[c2].taskIds);
    if c1 != c2 {
      TaskBagTwoColumns(b.columns, c1, c2, t);
      assert false;
    }
    TaskBagRemove(b.columns, c1);
    assert multiset(b.columns[c1].taskIds)[t] <= TaskBag(b.columns)[t];
  }

  /** Replacing the columns by ones under the same keys, each under its own id, with the same
      multiset of listed ids keeps a consistent board consistent. */
  lemma ColumnsChangeKeepsWellFormed(b: Board, columns: map<ColId, Column>)
    requires WellFormed(b)
    requires columns.Keys == b.columns.Keys
    requires forall c :: c in columns ==> columns[c].id == c
    requires TaskBag(columns) == TaskBag(b.columns)
    ensures WellFormed(b.(columns := columns))
  {
  }

  /** Storing a column under its own id keeps every column under its own id. */
  lemma KeyedAfterStore(b: Board, c: Column)
    requires ColumnsKeyedById(b)
    ensures ColumnsKeyedById(b.(columns := b.columns[c.id := c]))
  {
  }

  /** A fresh task stored and listed once more keeps the tasks listed once. */
  lemma ListedOnceAdd(tasks: map<TaskId, Task>, listed: multiset<TaskId>, x: TaskId, v: Task)
    requires ListedOnce(tasks, listed) && x !in tasks
    ensures ListedOnce(tasks[x := v], listed + multiset{x})
  {
    assert listed[x] == 0;
  }

  /** A task removed from the map and from every list keeps the tasks listed once. */
  lemma ListedOnceRemove(tasks: map<TaskId, Task>, listed: multiset<TaskId>, listed': multiset<TaskId>, x: TaskId)
    requires ListedOnce(tasks, listed)
    requires listed'[x] == 0 && forall t :: t != x ==> listed'[t] == listed[t]
    ensures ListedOnce(tasks - {x}, listed')
  {
  }

  /** A fresh column appended to the order keeps the order listing each column once. */
  lemma OrderAppend(columns: map<ColId, Column>, order: seq<ColId>, id: ColId, c: Column)
    requires OrderListsColumnsOnce(columns, order) && id !in columns
    ensures OrderListsColumnsOnce(columns[id := c], order + [id])
  {
    assert multiset(order + [id]) == multiset(order) + multiset{id};
    assert id !in multiset(order);
  }

  /** The seed board's columns hold task-1 to task-4, once each. */
  lemma InitialTaskBag()
    ensures TaskBag(InitialData.columns) == multiset{TaskId(1), TaskId(2), TaskId(3), TaskId(4)}
  {
    var cols := InitialData.columns;
    var c23 := cols - {ColId(1)};
    var c3 := c23 - {ColId(2)};
    assert c3 - {ColId(3)} == map[];
    TaskBagRemove(c3, ColId(3));
    TaskBagRemove(c23, ColId(2));
    TaskBagRemove(cols, ColId(1));
  }

  /** The seed board lists each of its tasks once. */
  lemma InitialTasksAreTheColumnIds()
    ensures ListedOnce(InitialData.tasks, TaskBag(InitialData.columns))
  {
    InitialTaskBag();
    var listed := multiset{TaskId(1), TaskId(2), TaskId(3), TaskId(4)};
    forall t ensures listed[t] <= 1 && (t in listed <==> t in InitialData.tasks) {
      if t.n < 1 || t.n > 4 {
        assert t !in listed;
      }
    }
  }

  /** The seed board's tasks are stored under their ids. */
  lemma InitialTasksKeyedById()
    ensures forall t :: t in InitialData.tasks ==> InitialData.tasks[t].id == t
  {
    forall t | t in InitialData.tasks ensures InitialData.tasks[t].id == t {
      assert t == TaskId(1) || t == TaskId(2) || t == TaskId(3) || t == TaskId(4);
    }
  }

  /** The seed board's columns are stored under their ids. */
  lemma InitialColumnsKeyedById()
    ensures ColumnsKeyedById(InitialData)
  {
    forall c | c in InitialData.columns ensures InitialData.columns[c].id == c {
      assert c == ColId(1) || c == ColId(2) || c == ColId(3);
    }
  }

  /** The seed board's order lists its three columns once each. */
  lemma InitialOrder()
    ensures OrderListsColumnsOnce(InitialData.columns, InitialData.columnOrder)
  {
    var order := InitialData.columnOrder;
    assert multiset(order) == multiset{ColId(1), ColId(2), ColId(3)};
    forall c ensures multiset(order)[c] <= 1 && (c in order <==> c in InitialData.columns) {
      if c.n < 1 || c.n > 3 {
        assert c !in multiset(order);
      }
    }
  }

  /** The seed board is consistent. */
  lemma InitialDataWellFormed()
    ensures WellFormed(InitialData)
  {
    InitialTasksAreTheColumnIds();
    InitialTasksKeyedById();
    InitialColumnsKeyedById();
    InitialOrder();
  }

  // ---------------------------------------------------------------------------
  // onDragEnd

  /** A move inside one column: that column's list becomes the old list with the element at
      `source.index` spliced out and `draggableId` spliced in at `destination.index` of the
      shortened list; its length is kept, and when `draggableId` is the element taken out the
      list is a permutation of the old one. Nothing else on the board changes. */
  lemma SameColumnMove(b: Board, r: DropResult)
    requires ColumnsKeyedById(b)
    requires !IsNoop(r) && r.destination.value.droppableId == r.source.droppableId
    requires r.source.droppableId in b.columns
    ensures DragEnd(b, r).Ok?
    ensures var b' := DragEnd(b, r).value;
            var c := r.source.droppableId;
            var s := b.columns[c].taskIds;
      && b'.tasks == b.tasks && b'.columnOrder == b.columnOrder
      && b'.columns.Keys == b.columns.Keys
      && b'.columns[c] == b.columns[c].(taskIds := InsertAt(RemoveAt(s, r.source.index), r.destination.value.index, r.draggableId))
      && (forall k :: k in b.columns && k != c ==> b'.columns[k] == b.columns[k])
      && (0 <= r.source.index < |s| ==> |b'.columns[c].taskIds| == |s|)
      && (0 <= r.source.index < |s| && r.draggableId == s[r.source.index] ==>
            multiset(b'.columns[c].taskIds) == multiset(s) && TaskBag(b'.columns) == TaskBag(b.columns))
  {
    var c := r.source.droppableId;
    var s := b.columns[c].taskIds;
    var b' := DragEnd(b, r).value;
    var moved := InsertAt(RemoveAt(s, r.source.index), r.destination.value.index, r.draggableId);
    assert b'.columns == b.columns[c := b.columns[c].(taskIds := moved)];
    if 0 <= r.source.index < |s| && r.draggableId == s[r.source.index] {
      assert SpliceStart(|s|, r.source.index) == r.source.index;
      TaskBagReplace(b.columns, c, b.columns[c].(taskIds := moved));
    }
  }

  /** A move between two columns: the source column loses exactly the element at
      `source.index`, the destination gains `draggableId` at `destination.index`; tasks,
      column order and every other column are unchanged. */
  lemma CrossColumnMove(b: Board, r: DropResult)
    requires ColumnsKeyedById(b)
    requires !IsNoop(r) && r.destination.value.droppableId != r.source.droppableId
    requires r.source.droppableId in b.columns && r.destination.value.droppableId in b.columns
    ensures DragEnd(b, r).Ok?
    ensures var b' := DragEnd(b, r).value;
            var src := r.source.droppableId;
            var dst := r.destination.value.droppableId;
            var s := b.columns[src].taskIds;
            var d := b.columns[dst].taskIds;
      && b'.tasks == b.tasks && b'.columnOrder == b.columnOrder
      && b'.columns.Keys == b.columns.Keys
      && b'.columns[src] == b.columns[src].(taskIds := RemoveAt(s, r.source.index))
      && b'.columns[dst] == b.columns[dst].(taskIds := InsertAt(d, r.destination.value.index, r.draggableId))
      && (forall k :: k in b.columns && k != src && k != dst ==> b'.columns[k] == b.columns[k])
      && (0 <= r.source.index < |s| ==> |b'.columns[src].taskIds| == |s| - 1)
      && |b'.columns[dst].taskIds| == |d| + 1
  {
    var src := r.source.droppableId;
    var dst := r.destination.value.droppableId;
    var newStart := b.columns[src].(taskIds := RemoveAt(b.columns[src].taskIds, r.source.index));
    var newFinish := b.columns[dst].(taskIds := InsertAt(b.columns[dst].taskIds, r.destination.value.index, r.draggableId));
    assert DragEnd(b, r).value.columns == b.columns[src := newStart][dst := newFinish];
  }

  /** When `draggableId` is the id taken out of the source column, a move between two columns
      keeps the multiset of ids over all columns. */
  lemma CrossColumnMoveKeepsTaskBag(b: Board, r: DropResult)
    requires ColumnsKeyedById(b)
    requires !IsNoop(r) && r.destination.value.droppableId != r.source.droppableId
    requires r.source.droppableId in b.columns && r.destination.value.droppableId in b.columns
    requires 0 <= r.source.index < |b.columns[r.source.droppableId].taskIds|
    requires r.draggableId == b.columns[r.source.droppableId].taskIds[r.source.index]
    ensures DragEnd(b, r).Ok? && TaskBag(DragEnd(b, r).value.columns) == TaskBag(b.columns)
  {
    CrossColumnMove(b, r);
    var src := r.source.droppableId;
    var dst := r.destination.value.droppableId;
    var cols' := DragEnd(b, r).value.columns;
    assert cols' == b.columns[src := cols'[src]][dst := cols'[dst]];
    assert SpliceStart(|b.columns[src].taskIds|, r.source.index) == r.source.index;
    TaskBagTransfer(b.columns, src, dst, cols'[src], cols'[dst], r.draggableId);
  }

  /** A drop whose `draggableId` is the id at `source.index` of a known source column, onto a
      known column, keeps the board consistent; a drop that is a no-op keeps it trivially. */
  lemma MovePreservesWellFormed(b: Board, r: DropResult)
    requires WellFormed(b)
    requires !IsNoop(r) ==>
      && r.source.droppableId in b.columns && r.destination.value.droppableId in b.columns
      && 0 <= r.source.index < |b.columns[r.source.droppableId].taskIds|
      && r.draggableId == b.columns[r.source.droppableId].taskIds[r.source.index]
    ensures DragEnd(b, r).Ok? && WellFormed(DragEnd(b, r).value)
  {
    if !IsNoop(r) {
      var b' := DragEnd(b, r).value;
      if r.destination.value.droppableId == r.source.droppableId {
        SameColumnMove(b, r);
        SameColumnMoveKeepsKeys(b, r);
      } else {
        CrossColumnMoveKeepsTaskBag(b, r);
        CrossColumnMoveKeepsKeys(b, r);
      }
      ColumnsChangeKeepsWellFormed(b, b'.columns);
      assert b' == b.(columns := b'.columns);
    }
  }

  /** A move inside one column keeps every column under its own id. */
  lemma SameColumnMoveKeepsKeys(b: Board, r: DropResult)
    requires ColumnsKeyedById(b)
    requires !IsNoop(r) && r.destination.value.droppableId == r.source.droppableId
    requires r.source.droppableId in b.columns
    ensures DragEnd(b, r).Ok?
    ensures DragEnd(b, r).value.columns.Keys == b.columns.Keys
    ensures forall c :: c in DragEnd(b, r).value.columns ==> DragEnd(b, r).value.columns[c].id == c
  {
  }

  /** A move between two columns keeps every column under its own id. */
  lemma CrossColumnMoveKeepsKeys(b: Board, r: DropResult)
    requires ColumnsKeyedById(b)
    requires !IsNoop(r) && r.destination.value.droppableId != r.source.droppableId
    requires r.source.droppableId in b.columns && r.destination.value.droppableId in b.columns
    ensures DragEnd(b, r).Ok?
    ensures DragEnd(b, r).value.columns.Keys == b.columns.Keys
    ensures forall c :: c in DragEnd(b, r).value.columns ==> DragEnd(b, r).value.columns[c].id == c
  {
  }

  /** The reorder example: a column holding x, y, z, with x dragged from index 0 to index 2,
      holds y, z, x. */
  lemma ReorderExample(b: Board, c: ColId, x: TaskId, y: TaskId, z: TaskId)
    requires ColumnsKeyedById(b) && c in b.columns && b.columns[c].taskIds == [x, y, z]
    ensures var r := DropResult(Location(c, 0), Some(Location(c, 2)), x);
      DragEnd(b, r).Ok? && DragEnd(b, r).value.columns[c].taskIds == [y, z, x]
  {
    var r := DropResult(Location(c, 0), Some(Location(c, 2)), x);
    var column := b.columns[c].(taskIds := InsertAt(RemoveAt([x, y, z], 0), 2, x));
    assert column.id == c;
    assert DragEnd(b, r) == Ok(b.(columns := b.columns[c := column]));
    ReorderList(x, y, z);
  }

  /** The list part of the reorder example. */
  lemma ReorderList<T>(x: T, y: T, z: T)
    ensures InsertAt(RemoveAt([x, y, z], 0), 2, x) == [y, z, x]
  {
    RemoveFirst([x, y, z]);
    assert [x, y, z][1..] == [y, z];
    InsertAtEnd([y, z], x);
  }

  /** The cross-column example: x dragged from index 0 of a column holding x, y to index 0 of
      an empty column leaves y behind and x alone in the other column. */
  lemma CrossColumnExample(b: Board, c1: ColId, c2: ColId, x: TaskId, y: TaskId)
    requires ColumnsKeyedById(b) && c1 in b.columns && c2 in b.columns && c1 != c2
    requires b.columns[c1].taskIds == [x, y] && b.columns[c2].taskIds == []
    ensures var r := DropResult(Location(c1, 0), Some(Location(c2, 0)), x);
      DragEnd(b, r).Ok? && DragEnd(b, r).value.columns[c1].taskIds == [y]
      && DragEnd(b, r).value.columns[c2].taskIds == [x]
  {
    var r := DropResult(Location(c1, 0), Some(Location(c2, 0)), x);
    var newStart := b.columns[c1].(taskIds := RemoveAt([x, y], 0));
    var newFinish := b.columns[c2].(taskIds := InsertAt([], 0, x));
    assert newStart.id == c1 && newFinish.id == c2;
    assert DragEnd(b, r) == Ok(b.(columns := b.columns[c1 := newStart][c2 := newFinish]));
    RemoveFirst([x, y]);
    assert [x, y][1..] == [y];
    InsertAtEnd([], x);
  }

  // ---------------------------------------------------------------------------
  // addNewColumn and deleteColumn

  /** Adding a column under `id` to a consistent board keeps it consistent exactly when `id`
      is not already a column; otherwise `id` appears twice in `columnOrder`. */
  lemma AddColumnWellFormedIffFresh(b: Board, title: string, id: ColId)
    requires WellFormed(b) && !IsBlank(title)
    ensures WellFormed(AddColumnWithId(b, title, id)) <==> id !in b.columns
  {
    if id in b.columns {
      AddColumnTakenIdRepeats(b, title, id);
    } else {
      AddColumnFreshIdKeepsWellFormed(b, Column(id, title, []));
    }
  }

  /** A taken id ends up twice in `columnOrder`. */
  lemma AddColumnTakenIdRepeats(b: Board, title: string, id: ColId)
    requires WellFormed(b) && !IsBlank(title) && id in b.columns
    ensures multiset(AddColumnWithId(b, title, id).columnOrder)[id] == 2
  {
    var order := AddColumnWithId(b, title, id).columnOrder;
    assert order == b.columnOrder + [id];
    assert id in b.columnOrder;
    assert multiset(b.columnOrder)[id] == 1;
  }

  /** A fresh id gives a consistent board: the new column lists no task. */
  lemma AddColumnFreshIdKeepsWellFormed(b: Board, column: Column)
    requires WellFormed(b) && column.id !in b.columns && column.taskIds == []
    ensures WellFormed(b.(columns := b.columns[column.id := column], columnOrder := b.columnOrder + [column.id]))
  {
    TaskBagAdd(b.columns, column.id, column);
    assert multiset(column.taskIds) == multiset{};
    OrderAppend(b.columns, b.columnOrder, column.id, column);
    KeyedAfterStore(b, column);
  }

  /** `addNewColumn` keeps a consistent board consistent exactly when `column-(n+1)` is free,
      for instance whenever the columns are exactly `column-1` to `column-n`. */
  lemma AddNewColumnWellFormedIffFresh(b: Board, title: string)
    requires WellFormed(b) && !IsBlank(title)
    ensures WellFormed(AddNewColumn(b, title)) <==> NewColumnId(b) !in b.columns
    ensures (forall c :: c in b.columns ==> 1 <= c.n <= |b.columns|) ==> WellFormed(AddNewColumn(b, title))
  {
    AddColumnWellFormedIffFresh(b, title, NewColumnId(b));
  }

  /** Deleting the column just added under a fresh id gives back the board. */
  lemma AddThenDeleteColumnRoundTrip(b: Board, title: string)
    requires !IsBlank(title)
    requires NewColumnId(b) !in b.columns && NewColumnId(b) !in b.columnOrder
    ensures DeleteColumn(AddNewColumn(b, title), NewColumnId(b)) == Ok(b)
  {
    var id := NewColumnId(b);
    var b' := AddNewColumn(b, title);
    WithoutAppended(b.columnOrder, id);
    assert b'.columns == b.columns[id := Column(id, title, [])];
    RemoveAddedKey(b.columns, id, Column(id, title, []));
    assert (set t: TaskId | t in b'.columns[id].taskIds) == {};
    RemoveNoKeys(b.tasks);
  }

  /** Deleting a column keeps a consistent board consistent: its tasks leave with it, and no
      other column listed them. */
  lemma DeleteColumnPreservesWellFormed(b: Board, columnId: ColId)
    requires WellFormed(b) && columnId in b.columns
    ensures WellFormed(DeleteColumn(b, columnId).value)
  {
    var b' := DeleteColumn(b, columnId).value;
    var gone := b.columns[columnId].taskIds;
    TaskBagRemove(b.columns, columnId);
    assert TaskBag(b.columns) == multiset(gone) + TaskBag(b'.columns);
    forall t ensures t in b'.tasks <==> t in TaskBag(b'.columns) {
      if t in gone {
        assert multiset(gone)[t] >= 1;
      }
    }
    forall c ensures c in b'.columns <==> c in b'.columnOrder {
      assert c in b'.columnOrder <==> multiset(b'.columnOrder)[c] > 0;
      assert c in b.columnOrder <==> multiset(b.columnOrder)[c] > 0;
    }
  }

  /** After a column is deleted, deleting any of its former tasks from any remaining column
      changes nothing. */
  lemma DeleteColumnCascade(b: Board, columnId: ColId, other: ColId, t: TaskId)
    requires WellFormed(b) && columnId in b.columns && t in b.columns[columnId].taskIds
    requires other in DeleteColumn(b, columnId).value.columns
    ensures var b' := DeleteColumn(b, columnId).value;
      t !in b'.tasks && DeleteTask(b', other, t) == Ok(b')
  {
    var b' := DeleteColumn(b, columnId).value;
    if t in b'.columns[other].taskIds {
      AtMostOneColumn(b, columnId, other, t);
    }
    assert b'.tasks - {t} == b'.tasks;
    assert b'.columns[other := b'.columns[other]] == b'.columns;
  }

  // ---------------------------------------------------------------------------
  // addTask and deleteTask

  /** Adding a task under `id` to a consistent board keeps it consistent exactly when `id` is
      not already a task; otherwise the old task is overwritten and `id` is listed twice. */
  lemma AddTaskWellFormedIffFresh(b: Board, columnId: ColId, content: string, id: TaskId)
    requires WellFormed(b) && columnId in b.columns
    ensures WellFormed(AddTaskWithId(b, columnId, content, id).value) <==> id !in b.tasks
  {
    var b' := AddTaskWithId(b, columnId, content, id).value;
    AddTaskBag(b, columnId, content, id);
    if id in b.tasks {
      assert TaskBag(b.columns)[id] == 1;
      assert TaskBag(b'.columns)[id] == 2;
    } else {
      AddTaskFreshIdKeepsWellFormed(b, columnId, content, id);
    }
  }

  /** Adding a task under `id` adds `id` once to the multiset of listed ids. */
  lemma AddTaskBag(b: Board, columnId: ColId, content: string, id: TaskId)
    requires columnId in b.columns
    ensures TaskBag(AddTaskWithId(b, columnId, content, id).value.columns) == TaskBag(b.columns) + multiset{id}
  {
    var col := b.columns[columnId];
    var col' := col.(taskIds := col.taskIds + [id]);
    assert AddTaskWithId(b, columnId, content, id).value.columns == b.columns[columnId := col'];
    assert multiset(col'.taskIds) == multiset(col.taskIds) + multiset{id};
    TaskBagAppend(b.columns, columnId, col', id);
  }

  /** A fresh id gives a consistent board: the new task is listed once, in the named column. */
  lemma AddTaskFreshIdKeepsWellFormed(b: Board, columnId: ColId, content: string, id: TaskId)
    requires WellFormed(b) && columnId in b.columns && id !in b.tasks
    requires TaskBag(AddTaskWithId(b, columnId, content, id).value.columns) == TaskBag(b.columns) + multiset{id}
    ensures WellFormed(AddTaskWithId(b, columnId, content, id).value)
  {
    var task := Task(id, content, Medium);
    var col := b.columns[columnId];
    var col' := col.(taskIds := col.taskIds + [id]);
    assert AddTaskWithId(b, columnId, content, id) == Ok(Board(b.tasks[id := task], b.columns[columnId := col'], b.columnOrder));
    ListedOnceAdd(b.tasks, TaskBag(b.columns), id, task);
    assert col'.id == columnId;
    KeyedAfterStore(b, col');
  }

  /** `addTask` keeps a consistent board consistent exactly when `task-(n+1)` is free. */
  lemma AddTaskWellFormedIffNewIdFresh(b: Board, columnId: ColId, content: string)
    requires WellFormed(b) && columnId in b.columns
    ensures WellFormed(AddTask(b, columnId, content).value) <==> NewTaskId(b) !in b.tasks
  {
    AddTaskWellFormedIffFresh(b, columnId, content, NewTaskId(b));
  }

  /** Deleting the task just added under a fresh id, from the same column, gives back the board. */
  lemma AddThenDeleteTaskRoundTrip(b: Board, columnId: ColId, content: string)
    requires columnId in b.columns
    requires NewTaskId(b) !in b.tasks && NewTaskId(b) !in b.columns[columnId].taskIds
    ensures DeleteTask(AddTask(b, columnId, content).value, columnId, NewTaskId(b)) == Ok(b)
  {
    AddThenDeleteTaskWithIdRoundTrip(b, columnId, content, NewTaskId(b));
  }

  /** The round trip for any id that is neither a task nor listed in the column. */
  lemma AddThenDeleteTaskWithIdRoundTrip(b: Board, columnId: ColId, content: string, id: TaskId)
    requires columnId in b.columns
    requires id !in b.tasks && id !in b.columns[columnId].taskIds
    ensures DeleteTask(AddTaskWithId(b, columnId, content, id).value, columnId, id) == Ok(b)
  {
    var col := b.columns[columnId];
    var col' := col.(taskIds := col.taskIds + [id]);
    var b' := Board(b.tasks[id := Task(id, content, Medium)], b.columns[columnId := col'], b.columnOrder);
    assert AddTaskWithId(b, columnId, content, id) == Ok(b');
    WithoutAppended(col.taskIds, id);
    RemoveAddedKey(b.tasks, id, Task(id, content, Medium));
    RestoreKey(b.columns, columnId, col');
    assert DeleteTask(b', columnId, id) == Ok(Board(b.tasks, b.columns, b.columnOrder));
  }

  /** Deleting a task from a column keeps a consistent board consistent exactly when the task,
      if it exists, is in that column; otherwise another column keeps a dangling id. */
  lemma DeleteTaskWellFormedIff(b: Board, columnId: ColId, taskId: TaskId)
    requires WellFormed(b) && columnId in b.columns
    ensures WellFormed(DeleteTask(b, columnId, taskId).value) <==>
            (taskId in b.tasks ==> taskId in b.columns[columnId].taskIds)
  {
    DeleteTaskBag(b, columnId, taskId);
    if taskId in b.tasks && taskId !in b.columns[columnId].taskIds {
      assert taskId !in DeleteTask(b, columnId, taskId).value.tasks;
      assert TaskBag(b.columns)[taskId] > 0;
      assert TaskBag(DeleteTask(b, columnId, taskId).value.columns)[taskId] > 0;
    } else {
      DeleteTaskListedKeepsWellFormed(b, columnId, taskId);
    }
  }

  /** Deleting a task from a column takes its occurrences in that column out of the multiset of
      listed ids, and leaves the counts of all other ids alone. */
  lemma DeleteTaskBag(b: Board, columnId: ColId, taskId: TaskId)
    requires columnId in b.columns
    ensures TaskBag(DeleteTask(b, columnId, taskId).value.columns)[taskId] + multiset(b.columns[columnId].taskIds)[taskId]
            == TaskBag(b.columns)[taskId]
    ensures forall t :: t != taskId ==>
              TaskBag(DeleteTask(b, columnId, taskId).value.columns)[t] == TaskBag(b.columns)[t]
  {
    var col := b.columns[columnId];
    var col' := col.(taskIds := Without(col.taskIds, taskId));
    var cols' := DeleteTask(b, columnId, taskId).value.columns;
    assert cols' == b.columns[columnId := col'];
    TaskBagCount(b.columns, columnId, col', taskId);
    forall t | t != taskId ensures TaskBag(cols')[t] == TaskBag(b.columns)[t] {
      TaskBagCount(b.columns, columnId, col', t);
    }
  }

  /** When the task, if it exists, is in the named column, deleting it keeps the board consistent. */
  lemma DeleteTaskListedKeepsWellFormed(b: Board, columnId: ColId, taskId: TaskId)
    requires WellFormed(b) && columnId in b.columns
    requires taskId in b.tasks ==> taskId in b.columns[columnId].taskIds
    ensures WellFormed(DeleteTask(b, columnId, taskId).value)
  {
    var col := b.columns[columnId];
    var col' := col.(taskIds := Without(col.taskIds, taskId));
    var b' := Board(b.tasks - {taskId}, b.columns[columnId := col'], b.columnOrder);
    assert DeleteTask(b, columnId, taskId) == Ok(b');
    var bag := TaskBag(b.columns);
    DeleteTaskBag(b, columnId, taskId);
    assert TaskBag(b'.columns)[taskId] == 0 by {
      assert multiset(col.taskIds)[taskId] <= bag[taskId] by {
        TaskBagRemove(b.columns, columnId);
      }
      if taskId in b.tasks {
        assert taskId in multiset(col.taskIds);
      }
    }
    ListedOnceRemove(b.tasks, bag, TaskBag(b'.columns), taskId);
    assert col'.id == columnId;
    KeyedAfterStore(b, col');
  }

  // ---------------------------------------------------------------------------
  // updateColumnTitle

  /** Renaming a column keeps a consistent board consistent. */
  lemma UpdateColumnTitlePreservesWellFormed(b: Board, columnId: ColId, newTitle: string)
    requires WellFormed(b) && columnId in b.columns
    ensures WellFormed(UpdateColumnTitle(b, columnId, newTitle))
  {
    var column := b.columns[columnId].(title := newTitle);
    assert UpdateColumnTitle(b, columnId, newTitle) == b.(columns := b.columns[columnId := column]);
    TaskBagReplace(b.columns, columnId, column);
    KeyedAfterStore(b, column);
    ColumnsChangeKeepsWellFormed(b, b.columns[columnId := column]);
  }
}
