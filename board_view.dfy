/** The board store and drag controller of components/views/board-view.tsx.

    Every handler is a transition on a `Snapshot` of the two lists the
    handlers replace (`columns`, `taskList`); the class `BoardState` holds
    the React state and each of its methods performs one transition. Fresh
    ids (`col-${Date.now()}`, `task-${Date.now()}`) and the creation time of
    a new task are parameters. */
module BoardView {
  import opened Types
  import opened Seqs
  import opened BoardFilter
  import opened BoardSort

  datatype Snapshot = Snapshot(columns: seq<Column>, tasks: seq<Task>)

  function TaskId(t: Task): string { t.id }
  function ColumnId(c: Column): string { c.id }

  function TaskIds(ts: seq<Task>): seq<string> { Map(ts, TaskId) }
  function ColumnIds(cs: seq<Column>): seq<string> { Map(cs, ColumnId) }

  /** `t => t.id !== id`. */
  function NotTask(id: string): Task -> bool {
    (t: Task) => t.id != id
  }

  /** `col => col.id !== id`. */
  function NotColumn(id: string): Column -> bool {
    (c: Column) => c.id != id
  }

  /** `task => task.columnId !== columnId`. */
  function OutsideColumn(columnId: string): Task -> bool {
    (t: Task) => t.columnId != columnId
  }

  /** `tasks.map(task => task.id === id ? { ...task, columnId } : task)`. */
  function Retag(ts: seq<Task>, id: string, columnId: string): (r: seq<Task>)
    ensures |r| == |ts|
    ensures forall i :: 0 <= i < |ts| ==>
      r[i] == if ts[i].id == id then ts[i].(columnId := columnId) else ts[i]
  {
    if ts == [] then []
    else [if ts[0].id == id then ts[0].(columnId := columnId) else ts[0]] + Retag(ts[1..], id, columnId)
  }

  /** `ts` and `r` differ at most in the `columnId` of tasks with id `id`, and
      every such task of `r` is in `columnId`. */
  ghost predicate OnlyRetagged(ts: seq<Task>, r: seq<Task>, id: string, columnId: string) {
    && |r| == |ts|
    && TaskIds(r) == TaskIds(ts)
    && Filter(r, NotTask(id)) == Filter(ts, NotTask(id))
    && (forall i :: 0 <= i < |ts| ==> r[i].(columnId := ts[i].columnId) == ts[i])
    && (forall i :: 0 <= i < |r| && r[i].id == id ==> r[i].columnId == columnId)
  }

  lemma {:induction false} FilterRetag(ts: seq<Task>, id: string, columnId: string)
    ensures Filter(Retag(ts, id, columnId), NotTask(id)) == Filter(ts, NotTask(id))
  {
    if ts != [] {
      FilterRetag(ts[1..], id, columnId);
      var r := Retag(ts, id, columnId);
      assert r[1..] == Retag(ts[1..], id, columnId);
    }
  }

  /** Retagging moves only the dragged task and keeps every other task. */
  lemma RetagSpec(ts: seq<Task>, id: string, columnId: string)
    ensures OnlyRetagged(ts, Retag(ts, id, columnId), id, columnId)
  {
    FilterRetag(ts, id, columnId);
  }

  // ---------------------------------------------------------------------
  // Drag events

  /** `taskList.find(t => t.id === id)` exists. */
  predicate IsTaskId(s: Snapshot, id: string) { id in TaskIds(s.tasks) }

  /** `columns.find(c => c.id === id)` exists. */
  predicate IsColumnId(s: Snapshot, id: string) { id in ColumnIds(s.columns) }

  /** The part `handleDragOver` and `handleDragEnd` share: nothing without a
      target or onto itself; a dragged column moves only onto a column; a
      dragged task dropped onto a column joins that column. `overTask` is
      what each handler does when the target is a task. */
  function Drag(s: Snapshot, activeId: string, overId: Option<string>, endOfDrag: bool): (r: Snapshot)
    ensures overId.None? || overId.value == activeId ==> r == s
  {
    if overId.None? || activeId == overId.value then s
    else
      var over := overId.value;
      var activeColumn := IndexOf(ColumnIds(s.columns), activeId);
      if activeColumn >= 0 then
        var overColumn := IndexOf(ColumnIds(s.columns), over);
        if overColumn >= 0 then s.(columns := ArrayMove(s.columns, activeColumn, overColumn)) else s
      else
        var activeTask := IndexOf(TaskIds(s.tasks), activeId);
        if activeTask < 0 then s
        else
          var overTask := IndexOf(TaskIds(s.tasks), over);
          if overTask >= 0 then
            var target := s.tasks[overTask].columnId;
            if endOfDrag then
              s.(tasks := Retag(ArrayMove(s.tasks, activeTask, overTask), activeId, target))
            else if s.tasks[activeTask].columnId != target then
              s.(tasks := Retag(s.tasks, activeId, target))
            else s
          else if IsColumnId(s, over) then s.(tasks := Retag(s.tasks, activeId, over))
          else s
  }

  /** `handleDragOver` (lines 119-162) on the board lists. */
  function DragOver(s: Snapshot, activeId: string, overId: Option<string>): Snapshot {
    Drag(s, activeId, overId, false)
  }

  /** `handleDragEnd` (lines 164-211) on the board lists. */
  function DragEnd(s: Snapshot, activeId: string, overId: Option<string>): Snapshot {
    Drag(s, activeId, overId, true)
  }

  /** Column drags: the columns change only when both ends are columns, into
      `arrayMove` of the old order (a permutation), and the tasks never change. */
  lemma ColumnDrag(s: Snapshot, activeId: string, overId: Option<string>, endOfDrag: bool)
    requires IsColumnId(s, activeId)
    ensures var r := Drag(s, activeId, overId, endOfDrag);
      && r.tasks == s.tasks
      && multiset(r.columns) == multiset(s.columns)
      && (r.columns != s.columns ==> overId.Some? && overId.value != activeId && IsColumnId(s, overId.value))
      && (overId.Some? && overId.value != activeId && IsColumnId(s, overId.value) ==>
            var from := IndexOf(ColumnIds(s.columns), activeId);
            var to := IndexOf(ColumnIds(s.columns), overId.value);
            from >= 0 && to >= 0 && r.columns == ArrayMove(s.columns, from, to))
  {
  }

  /** Drag-end onto a task: the task list is reordered by the two global
      indices; the dragged task lands at the target's old index and takes the
      target's column; the other tasks keep their contents and relative order. */
  lemma DragEndOntoTask(s: Snapshot, activeId: string, overId: string)
    requires !IsColumnId(s, activeId) && IsTaskId(s, activeId)
    requires overId != activeId && IsTaskId(s, overId)
    ensures var r := DragEnd(s, activeId, Some(overId));
      var from := IndexOf(TaskIds(s.tasks), activeId);
      var to := IndexOf(TaskIds(s.tasks), overId);
      && 0 <= from < |s.tasks| && 0 <= to < |s.tasks|
      && r.columns == s.columns
      && TaskIds(r.tasks) == ArrayMove(TaskIds(s.tasks), from, to)
      && multiset(TaskIds(r.tasks)) == multiset(TaskIds(s.tasks))
      && r.tasks[to] == s.tasks[from].(columnId := s.tasks[to].columnId)
      && Filter(r.tasks, NotTask(activeId)) == Filter(s.tasks, NotTask(activeId))
  {
    var from := IndexOf(TaskIds(s.tasks), activeId);
    var to := IndexOf(TaskIds(s.tasks), overId);
    var moved := ArrayMove(s.tasks, from, to);
    var target := s.tasks[to].columnId;
    assert DragEnd(s, activeId, Some(overId)).tasks == Retag(moved, activeId, target);
    ArrayMoveShape(s.tasks, from, to);
    MapArrayMove(s.tasks, TaskId, from, to);
    RetagSpec(moved, activeId, target);
    FilterArrayMove(s.tasks, from, to, NotTask(activeId));
  }

  /** The column a dragged task joins: the hovered task's column, or the
      hovered column itself. */
  function DragTarget(s: Snapshot, over: string): string {
    var overTask := IndexOf(TaskIds(s.tasks), over);
    if overTask >= 0 then s.tasks[overTask].columnId else over
  }

  /** A task dragged over a task or a column, or dropped onto a column,
      joins the target column: the first task with the dragged id ends up
      there, and either nothing changes (it was already there, on
      drag-over) or only the dragged task's `columnId` changes. */
  lemma DragTaskJoinsTarget(s: Snapshot, activeId: string, over: string, endOfDrag: bool)
    requires !IsColumnId(s, activeId) && IsTaskId(s, activeId) && over != activeId
    requires IsTaskId(s, over) || IsColumnId(s, over)
    requires endOfDrag ==> !IsTaskId(s, over)
    ensures var r := Drag(s, activeId, Some(over), endOfDrag);
      var a := IndexOf(TaskIds(s.tasks), activeId);
      && r.columns == s.columns
      && 0 <= a < |r.tasks| && r.tasks[a] == s.tasks[a].(columnId := DragTarget(s, over))
      && (r.tasks == s.tasks || OnlyRetagged(s.tasks, r.tasks, activeId, DragTarget(s, over)))
  {
    var a := IndexOf(TaskIds(s.tasks), activeId);
    var target := DragTarget(s, over);
    var r := Drag(s, activeId, Some(over), endOfDrag);
    assert TaskIds(s.tasks)[a] == s.tasks[a].id;
    if r.tasks != s.tasks {
      assert r.tasks == Retag(s.tasks, activeId, target);
      RetagSpec(s.tasks, activeId, target);
    }
  }

  /** Every drag-over, and every drag-end whose target is not a task, either
      reorders the columns (leaving the tasks alone) or changes only the
      dragged task's `columnId`, to the target column (leaving the columns
      alone). */
  lemma DragMovesOnlyTheDraggedTask(s: Snapshot, activeId: string, overId: Option<string>, endOfDrag: bool)
    requires endOfDrag ==> overId.None? || !IsTaskId(s, overId.value)
    ensures var r := Drag(s, activeId, overId, endOfDrag);
      || (r.tasks == s.tasks && multiset(r.columns) == multiset(s.columns))
      || (&& r.columns == s.columns && overId.Some?
          && OnlyRetagged(s.tasks, r.tasks, activeId, DragTarget(s, overId.value)))
  {
    var r := Drag(s, activeId, overId, endOfDrag);
    if IsColumnId(s, activeId) {
      ColumnDrag(s, activeId, overId, endOfDrag);
    } else if r.tasks != s.tasks {
      DragTaskJoinsTarget(s, activeId, overId.value, endOfDrag);
    }
  }

  // ---------------------------------------------------------------------
  // Column and task edits

  datatype ColumnEdit = Rename(name: string) | Recolor(color: string) | SetWipLimit(limit: Option<JsNumber>)

  function ApplyEdit(c: Column, e: ColumnEdit): Column {
    match e
    case Rename(name) => c.(name := name)
    case Recolor(color) => c.(color := color)
    case SetWipLimit(limit) => c.(wipLimit := limit)
  }

  /** `columns.map(col => col.id === columnId ? { ...col, <field> } : col)`. */
  function EditColumn(cs: seq<Column>, columnId: string, e: ColumnEdit): (r: seq<Column>)
    ensures |r| == |cs|
    ensures forall i :: 0 <= i < |cs| ==> r[i] == if cs[i].id == columnId then ApplyEdit(cs[i], e) else cs[i]
  {
    Map(cs, (c: Column) => if c.id == columnId then ApplyEdit(c, e) else c)
  }

  /** An edit changes only its own field, only of the named column, and is a
      no-op for an unknown id. */
  lemma EditColumnSpec(cs: seq<Column>, columnId: string, e: ColumnEdit)
    ensures var r := EditColumn(cs, columnId, e);
      && ColumnIds(r) == ColumnIds(cs)
      && (forall i :: 0 <= i < |cs| ==> r[i].(name := cs[i].name, color := cs[i].color, wipLimit := cs[i].wipLimit) == cs[i])
      && (forall i :: 0 <= i < |cs| && cs[i].id == columnId ==>
            match e
            case Rename(name) => r[i] == cs[i].(name := name)
            case Recolor(color) => r[i] == cs[i].(color := color)
            case SetWipLimit(limit) => r[i] == cs[i].(wipLimit := limit))
      && (forall i :: 0 <= i < |cs| && cs[i].id != columnId ==> r[i] == cs[i])
      && (columnId !in ColumnIds(cs) ==> r == cs)
  {
    var r := EditColumn(cs, columnId, e);
    if columnId !in ColumnIds(cs) {
      assert forall i :: 0 <= i < |cs| ==> ColumnIds(cs)[i] == cs[i].id;
    }
  }

  /** `handleColumnDelete`: drop the column and every task in it. */
  function DeleteColumn(s: Snapshot, columnId: string): Snapshot {
    Snapshot(Filter(s.columns, NotColumn(columnId)), Filter(s.tasks, OutsideColumn(columnId)))
  }

  /** Deleting removes exactly that column and exactly its tasks, keeping the
      order and the multiplicity of the rest. */
  lemma DeleteColumnSpec(s: Snapshot, columnId: string)
    ensures var r := DeleteColumn(s, columnId);
      && Subseq(r.columns, s.columns) && Subseq(r.tasks, s.tasks)
      && (forall c :: multiset(r.columns)[c] == if c.id == columnId then 0 else multiset(s.columns)[c])
      && (forall t :: multiset(r.tasks)[t] == if t.columnId == columnId then 0 else multiset(s.tasks)[t])
  {
    FilterIsSubseq(s.columns, NotColumn(columnId));
    FilterIsSubseq(s.tasks, OutsideColumn(columnId));
    forall c ensures multiset(DeleteColumn(s, columnId).columns)[c] == if c.id == columnId then 0 else multiset(s.columns)[c] {
      FilterCount(s.columns, NotColumn(columnId), c);
    }
    forall t ensures multiset(DeleteColumn(s, columnId).tasks)[t] == if t.columnId == columnId then 0 else multiset(s.tasks)[t] {
      FilterCount(s.tasks, OutsideColumn(columnId), t);
    }
  }

  /** The column `handleAddColumn` creates: id given, "New Column",
      "bg-slate-500", `position` the current column count, no tasks, no limit. */
  function NewColumn(id: string, count: nat): Column {
    Column(id, "New Column", "bg-slate-500", count, [], None)
  }

  function AddColumn(s: Snapshot, id: string): (r: Snapshot)
    ensures r.tasks == s.tasks
    ensures |r.columns| == |s.columns| + 1 && r.columns[..|s.columns|] == s.columns
    ensures r.columns[|s.columns|].position == |s.columns|
  {
    s.(columns := s.columns + [NewColumn(id, |s.columns|)])
  }

  /** Deleting a freshly added, still empty column gives back the board. */
  lemma AddThenDeleteColumn(s: Snapshot, id: string)
    requires id !in ColumnIds(s.columns)
    requires forall i :: 0 <= i < |s.tasks| ==> s.tasks[i].columnId != id
    ensures DeleteColumn(AddColumn(s, id), id) == s
  {
    assert forall c :: c in s.columns ==> c.id in ColumnIds(s.columns);
    FilterConcat(s.columns, [NewColumn(id, |s.columns|)], NotColumn(id));
    FilterKeepsAll(s.columns, NotColumn(id));
    FilterKeepsAll(s.tasks, OutsideColumn(id));
  }

  /** The task `handleAddTask` creates. */
  function NewTask(id: string, title: string, boardId: string, columnId: string, position: int, createdAt: int): (t: Task)
  {
    Task(id, title, "", "todo", Medium, None, [], None, [], [], 0, 0, boardId, columnId, position, createdAt)
  }

  /** `handleAddTask`: append the new task; its `position` is the number of
      tasks the column currently shows (after the board filters). */
  function AddTask(s: Snapshot, assignees: seq<string>, priorities: seq<string>, labels: seq<string>, sortBy: string,
                   boardId: string, id: string, columnId: string, title: string, now: int): (r: Snapshot)
    ensures r.columns == s.columns
    ensures |r.tasks| == |s.tasks| + 1 && r.tasks[..|s.tasks|] == s.tasks
    ensures var t := r.tasks[|s.tasks|];
      && t.id == id && t.title == title && t.columnId == columnId && t.boardId == boardId
      && t.status == "todo" && t.priority == Medium && t.assigneeId == None && t.dueDate == None
      && t.labels == [] && t.subtasks == [] && t.createdAt == now
      && t.position == |TasksForColumn(s.tasks, assignees, priorities, labels, sortBy, columnId)|
  {
    var position := |TasksForColumn(s.tasks, assignees, priorities, labels, sortBy, columnId)|;
    s.(tasks := s.tasks + [NewTask(id, title, boardId, columnId, position, now)])
  }

  /** With no filters and manual order, the new task appears last in its
      column and its `position` is its index there. */
  lemma AddTaskShowsLast(s: Snapshot, boardId: string, id: string, columnId: string, title: string, now: int)
    ensures var r := AddTask(s, [], [], [], "manual", boardId, id, columnId, title, now);
      var before := TasksForColumn(s.tasks, [], [], [], "manual", columnId);
      var after := TasksForColumn(r.tasks, [], [], [], "manual", columnId);
      && after == before + [r.tasks[|s.tasks|]]
      && r.tasks[|s.tasks|].position == |before|
  {
    var r := AddTask(s, [], [], [], "manual", boardId, id, columnId, title, now);
    assert r.tasks == s.tasks + [r.tasks[|s.tasks|]];
    FilterConcat(s.tasks, [r.tasks[|s.tasks|]], InColumn(columnId));
  }

  // ---------------------------------------------------------------------
  // The component state

  class BoardState {
    var boardId: string
    var users: seq<User>
    var columns: seq<Column>
    var taskList: seq<Task>
    var activeId: Option<string>
    var filterAssignees: seq<string>
    var filterPriorities: seq<string>
    var filterLabels: seq<string>
    var sortBy: string
    var groupBy: string

    /** The initial state (lines 38-45). */
    constructor (board: Board, tasks: seq<Task>, users: seq<User>)
      ensures boardId == board.id && this.users == users
      ensures columns == board.columns && taskList == tasks && activeId == None
      ensures filterAssignees == [] && filterPriorities == [] && filterLabels == []
      ensures sortBy == "manual" && groupBy == "status"
    {
      boardId := board.id;
      this.users := users;
      columns := board.columns;
      taskList := tasks;
      activeId := None;
      filterAssignees := [];
      filterPriorities := [];
      filterLabels := [];
      sortBy := "manual";
      groupBy := "status";
    }

    function Lists(): Snapshot
      reads this
    {
      Snapshot(columns, taskList)
    }

    /** `activeTask` (line 58): the first task whose id is `activeId`. */
    function ActiveTask(): (t: Option<Task>)
      reads this
      ensures t.Some? <==> activeId.Some? && activeId.value in TaskIds(taskList)
      ensures t.Some? ==> t.value in taskList && t.value.id == activeId.value
    {
      if activeId.None? then None
      else
        var i := IndexOf(TaskIds(taskList), activeId.value);
        if i < 0 then None else Some(taskList[i])
    }

    /** `activeColumn` (line 59). */
    function ActiveColumn(): (c: Option<Column>)
      reads this
      ensures c.Some? <==> activeId.Some? && activeId.value in ColumnIds(columns)
      ensures c.Some? ==> c.value in columns && c.value.id == activeId.value
    {
      if activeId.None? then None
      else
        var i := IndexOf(ColumnIds(columns), activeId.value);
        if i < 0 then None else Some(columns[i])
    }

    /** `getTasksForColumn(columnId)` on the current state. */
    function ColumnTasks(columnId: string): seq<Task>
      reads this
    {
      TasksForColumn(taskList, filterAssignees, filterPriorities, filterLabels, sortBy, columnId)
    }

    /** `getUserById`. */
    function UserOf(userId: Option<string>): Option<User>
      reads this
    {
      UserById(users, userId)
    }

    /** A re-render with new `board` and `users` props: `board.id` and `users`
        are read afresh, while `columns`, `taskList` and the rest are React
        state and keep their values (`useState` ignores a new initial value). */
    method Rerender(board: Board, users: seq<User>)
      modifies this
      ensures boardId == board.id && this.users == users
      ensures Lists() == old(Lists()) && activeId == old(activeId)
      ensures filterAssignees == old(filterAssignees) && filterPriorities == old(filterPriorities)
      ensures filterLabels == old(filterLabels) && sortBy == old(sortBy) && groupBy == old(groupBy)
    {
      boardId := board.id;
      this.users := users;
    }

    method HandleDragStart(id: string)
      modifies this
      ensures boardId == old(boardId) && users == old(users)
      ensures activeId == Some(id)
      ensures Lists() == old(Lists())
      ensures filterAssignees == old(filterAssignees) && filterPriorities == old(filterPriorities)
      ensures filterLabels == old(filterLabels) && sortBy == old(sortBy) && groupBy == old(groupBy)
    {
      activeId := Some(id);
    }

    method HandleDragOver(active: string, over: Option<string>)
      modifies this
      ensures boardId == old(boardId) && users == old(users)
      ensures Lists() == DragOver(old(Lists()), active, over)
      ensures activeId == old(activeId)
      ensures filterAssignees == old(filterAssignees) && filterPriorities == old(filterPriorities)
      ensures filterLabels == old(filterLabels) && sortBy == old(sortBy) && groupBy == old(groupBy)
    {
      var r := DragOver(Lists(), active, over);
      columns := r.columns;
      taskList := r.tasks;
    }

    method HandleDragEnd(active: string, over: Option<string>)
      modifies this
      ensures boardId == old(boardId) && users == old(users)
      ensures Lists() == DragEnd(old(Lists()), active, over)
      ensures activeId == None
      ensures filterAssignees == old(filterAssignees) && filterPriorities == old(filterPriorities)
      ensures filterLabels == old(filterLabels) && sortBy == old(sortBy) && groupBy == old(groupBy)
    {
      activeId := None;
      var r := DragEnd(Lists(), active, over);
      columns := r.columns;
      taskList := r.tasks;
    }

    method HandleAddColumn(freshId: string)
      modifies this
      ensures boardId == old(boardId) && users == old(users)
      ensures Lists() == AddColumn(old(Lists()), freshId)
      ensures activeId == old(activeId)
      ensures filterAssignees == old(filterAssignees) && filterPriorities == old(filterPriorities)
      ensures filterLabels == old(filterLabels) && sortBy == old(sortBy) && groupBy == old(groupBy)
    {
      columns := columns + [NewColumn(freshId, |columns|)];
    }

    method HandleColumnEdit(columnId: string, e: ColumnEdit)
      modifies this
      ensures boardId == old(boardId) && users == old(users)
      ensures columns == EditColumn(old(columns), columnId, e)
      ensures taskList == old(taskList) && activeId == old(activeId)
      ensures filterAssignees == old(filterAssignees) && filterPriorities == old(filterPriorities)
      ensures filterLabels == old(filterLabels) && sortBy == old(sortBy) && groupBy == old(groupBy)
    {
      columns := EditColumn(columns, columnId, e);
    }

    /** `handleColumnRename`. */
    method HandleColumnRename(columnId: string, newName: string)
      modifies this
      ensures boardId == old(boardId) && users == old(users)
      ensures columns == EditColumn(old(columns), columnId, Rename(newName))
      ensures taskList == old(taskList) && activeId == old(activeId)
      ensures filterAssignees == old(filterAssignees) && filterPriorities == old(filterPriorities)
      ensures filterLabels == old(filterLabels) && sortBy == old(sortBy) && groupBy == old(groupBy)
    {
      HandleColumnEdit(columnId, Rename(newName));
    }

    /** `handleColumnColorChange`. */
    method HandleColumnColorChange(columnId: string, newColor: string)
      modifies this
      ensures boardId == old(boardId) && users == old(users)
      ensures columns == EditColumn(old(columns), columnId, Recolor(newColor))
      ensures taskList == old(taskList) && activeId == old(activeId)
      ensures filterAssignees == old(filterAssignees) && filterPriorities == old(filterPriorities)
      ensures filterLabels == old(filterLabels) && sortBy == old(sortBy) && groupBy == old(groupBy)
    {
      HandleColumnEdit(columnId, Recolor(newColor));
    }

    /** `handleSetWipLimit`; `limit` None is `undefined`. */
    method HandleSetWipLimit(columnId: string, limit: Option<JsNumber>)
      modifies this
      ensures boardId == old(boardId) && users == old(users)
      ensures columns == EditColumn(old(columns), columnId, SetWipLimit(limit))
      ensures taskList == old(taskList) && activeId == old(activeId)
      ensures filterAssignees == old(filterAssignees) && filterPriorities == old(filterPriorities)
      ensures filterLabels == old(filterLabels) && sortBy == old(sortBy) && groupBy == old(groupBy)
    {
      HandleColumnEdit(columnId, SetWipLimit(limit));
    }

    method HandleColumnDelete(columnId: string)
      modifies this
      ensures boardId == old(boardId) && users == old(users)
      ensures Lists() == DeleteColumn(old(Lists()), columnId)
      ensures activeId == old(activeId)
      ensures filterAssignees == old(filterAssignees) && filterPriorities == old(filterPriorities)
      ensures filterLabels == old(filterLabels) && sortBy == old(sortBy) && groupBy == old(groupBy)
    {
      columns := Filter(columns, NotColumn(columnId));
      taskList := Filter(taskList, OutsideColumn(columnId));
    }

    method HandleAddTask(columnId: string, title: string, freshId: string, now: int)
      modifies this
      ensures boardId == old(boardId) && users == old(users)
      ensures Lists() == AddTask(old(Lists()), filterAssignees, filterPriorities, filterLabels, sortBy,
                                 boardId, freshId, columnId, title, now)
      ensures activeId == old(activeId)
      ensures filterAssignees == old(filterAssignees) && filterPriorities == old(filterPriorities)
      ensures filterLabels == old(filterLabels) && sortBy == old(sortBy) && groupBy == old(groupBy)
    {
      var position := |ColumnTasks(columnId)|;
      taskList := taskList + [NewTask(freshId, title, boardId, columnId, position, now)];
    }

    /** `setFilterAssignees`, the header's `onFilterAssigneesChange`. */
    method SetFilterAssignees(assignees: seq<string>)
      modifies this
      ensures boardId == old(boardId) && users == old(users)
      ensures filterAssignees == assignees
      ensures Lists() == old(Lists()) && activeId == old(activeId)
      ensures filterPriorities == old(filterPriorities) && filterLabels == old(filterLabels)
      ensures sortBy == old(sortBy) && groupBy == old(groupBy)
    {
      filterAssignees := assignees;
    }

    /** `setFilterPriorities`, the header's `onFilterPrioritiesChange`. */
    method SetFilterPriorities(priorities: seq<string>)
      modifies this
      ensures boardId == old(boardId) && users == old(users)
      ensures filterPriorities == priorities
      ensures Lists() == old(Lists()) && activeId == old(activeId)
      ensures filterAssignees == old(filterAssignees) && filterLabels == old(filterLabels)
      ensures sortBy == old(sortBy) && groupBy == old(groupBy)
    {
      filterPriorities := priorities;
    }

    /** `setFilterLabels`, the header's `onFilterLabelsChange`. */
    method SetFilterLabels(labels: seq<string>)
      modifies this
      ensures boardId == old(boardId) && users == old(users)
      ensures filterLabels == labels
      ensures Lists() == old(Lists()) && activeId == old(activeId)
      ensures filterAssignees == old(filterAssignees) && filterPriorities == old(filterPriorities)
      ensures sortBy == old(sortBy) && groupBy == old(groupBy)
    {
      filterLabels := labels;
    }

    /** `setSortBy` and `setGroupBy`, the header's `onSortChange` and `onGroupChange`. */
    method SetView(sort: string, group: string)
      modifies this
      ensures boardId == old(boardId) && users == old(users)
      ensures sortBy == sort && groupBy == group
      ensures Lists() == old(Lists()) && activeId == old(activeId)
      ensures filterAssignees == old(filterAssignees) && filterPriorities == old(filterPriorities)
      ensures filterLabels == old(filterLabels)
    {
      sortBy, groupBy := sort, group;
    }
  }

  /** A parent that re-renders with a newly fetched user list: the board's
      `getUserById` finds the new user, since `users` is a prop read on every
      render. */
  method UserAfterRerender(board: Board, tasks: seq<Task>, users: seq<User>, fetched: seq<User>)
    returns (found: Option<User>)
    requires |fetched| > 0 && fetched[0].id != ""
    ensures found == Some(fetched[0])
  {
    var b := new BoardState(board, tasks, users);
    b.Rerender(board, fetched);
    found := b.UserOf(Some(fetched[0].id));
  }
}
