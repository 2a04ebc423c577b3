/** `getSortedTasks` and `getTasksForColumn` of components/views/board-view.tsx.

    `Array.prototype.sort` is modelled by a stable insertion sort driven by
    the comparators exactly as written. For the priority and creation-date
    keys the comparator is consistent, so every stable sort gives this
    result. The due-date comparator answers 1 for two undated tasks in
    either order, so for due dates only the ordering of dated before
    undated, dated ascending is claimed. */
module BoardSort {
  import opened Types
  import opened Seqs
  import opened BoardFilter

  /** `priorityOrder`: Urgent 0, High 1, Medium 2, Low 3. */
  function Rank(p: Priority): int {
    match p
    case Urgent => 0
    case High => 1
    case Medium => 2
    case Low => 3
  }

  /** The keys `getSortedTasks` sorts by; any other `sortBy` (`manual`) keeps the order. */
  predicate IsSortKey(sortBy: string) {
    sortBy == "priority" || sortBy == "dueDate" || sortBy == "createdDate"
  }

  /** The comparator passed to `sort` for `sortBy`. */
  function Compare(sortBy: string, a: Task, b: Task): int {
    if sortBy == "priority" then Rank(a.priority) - Rank(b.priority)
    else if sortBy == "dueDate" then
      if a.dueDate.None? then 1
      else if b.dueDate.None? then -1
      else a.dueDate.value - b.dueDate.value
    else if sortBy == "createdDate" then b.createdAt - a.createdAt
    else 0
  }

  /** Put `x` before the first element it does not compare greater than. */
  function Insert(sortBy: string, x: Task, s: seq<Task>): (r: seq<Task>)
    ensures multiset(r) == multiset(s) + multiset{x}
  {
    if s == [] then [x]
    else if Compare(sortBy, x, s[0]) <= 0 then [x] + s
    else
      assert s == [s[0]] + s[1..];
      [s[0]] + Insert(sortBy, x, s[1..])
  }

  function Sort(sortBy: string, ts: seq<Task>): (r: seq<Task>)
    ensures multiset(r) == multiset(ts)
  {
    if ts == [] then []
    else
      assert ts == [ts[0]] + ts[1..];
      Insert(sortBy, ts[0], Sort(sortBy, ts[1..]))
  }

  /** `getSortedTasks(tasks)`. */
  function SortedTasks(sortBy: string, ts: seq<Task>): (r: seq<Task>)
    ensures multiset(r) == multiset(ts)
    ensures !IsSortKey(sortBy) ==> r == ts
  {
    if IsSortKey(sortBy) then Sort(sortBy, ts) else ts
  }

  // ---------------------------------------------------------------------
  // The order each key produces

  /** `a` may come before `b`: priority by rank, due date dated-before-undated
      and ascending, creation date newest first. */
  predicate Before(sortBy: string, a: Task, b: Task) {
    if sortBy == "priority" then Rank(a.priority) <= Rank(b.priority)
    else if sortBy == "dueDate" then
      b.dueDate.None? || (a.dueDate.Some? && a.dueDate.value <= b.dueDate.value)
    else if sortBy == "createdDate" then a.createdAt >= b.createdAt
    else true
  }

  predicate SortedBy(sortBy: string, s: seq<Task>) {
    forall i, j :: 0 <= i < j < |s| ==> Before(sortBy, s[i], s[j])
  }

  lemma CompareBefore(sortBy: string, a: Task, b: Task)
    ensures Compare(sortBy, a, b) <= 0 ==> Before(sortBy, a, b)
    ensures Compare(sortBy, a, b) > 0 ==> Before(sortBy, b, a)
  {
  }

  lemma BeforeTransitive(sortBy: string, a: Task, b: Task, c: Task)
    requires Before(sortBy, a, b) && Before(sortBy, b, c)
    ensures Before(sortBy, a, c)
  {
  }

  /** Putting in front an element that may precede every element keeps a list sorted. */
  lemma ConsSorted(sortBy: string, y: Task, s: seq<Task>)
    requires SortedBy(sortBy, s)
    requires forall z :: z in s ==> Before(sortBy, y, z)
    ensures SortedBy(sortBy, [y] + s)
  {
    var r := [y] + s;
    forall i, j | 0 <= i < j < |r| ensures Before(sortBy, r[i], r[j]) {
      assert r[j] == s[j - 1];
      if i == 0 {
        assert s[j - 1] in s;
      } else {
        assert r[i] == s[i - 1];
      }
    }
  }

  lemma TailSorted(sortBy: string, s: seq<Task>)
    requires s != [] && SortedBy(sortBy, s)
    ensures SortedBy(sortBy, s[1..])
  {
    var rest := s[1..];
    forall i, j | 0 <= i < j < |rest| ensures Before(sortBy, rest[i], rest[j]) {
      assert rest[i] == s[i + 1] && rest[j] == s[j + 1];
    }
  }

  lemma {:induction false} InsertSorted(sortBy: string, x: Task, s: seq<Task>)
    requires SortedBy(sortBy, s)
    ensures SortedBy(sortBy, Insert(sortBy, x, s))
  {
    if s != [] {
      CompareBefore(sortBy, x, s[0]);
      if Compare(sortBy, x, s[0]) <= 0 {
        forall z | z in s ensures Before(sortBy, x, z) {
          var k :| 0 <= k < |s| && s[k] == z;
          if k > 0 {
            BeforeTransitive(sortBy, x, s[0], z);
          }
        }
        ConsSorted(sortBy, x, s);
      } else {
        var rest := s[1..];
        TailSorted(sortBy, s);
        InsertSorted(sortBy, x, rest);
        var ins := Insert(sortBy, x, rest);
        forall z | z in ins ensures Before(sortBy, s[0], z) {
          assert z in multiset(ins);
          if z != x {
            assert z in multiset(rest);
            var k :| 0 <= k < |rest| && rest[k] == z;
            assert s[k + 1] == z;
          }
        }
        ConsSorted(sortBy, s[0], ins);
      }
    }
  }

  lemma {:induction false} SortSorted(sortBy: string, ts: seq<Task>)
    ensures SortedBy(sortBy, Sort(sortBy, ts))
  {
    if ts != [] {
      SortSorted(sortBy, ts[1..]);
      InsertSorted(sortBy, ts[0], Sort(sortBy, ts[1..]));
    }
  }

  // ---------------------------------------------------------------------
  // Stability for the consistent comparators

  /** The value the priority and creation-date comparators subtract. */
  function Key(sortBy: string, t: Task): int {
    if sortBy == "priority" then Rank(t.priority) else -t.createdAt
  }

  function KeyIs(sortBy: string, k: int): Task -> bool {
    t => Key(sortBy, t) == k
  }

  lemma SwapWhenOneEmpty<T>(a: seq<T>, b: seq<T>, rest: seq<T>)
    requires a == [] || b == []
    ensures b + (a + rest) == a + (b + rest)
  {
    if a == [] {
      assert a + (b + rest) == b + rest;
      assert a + rest == rest;
    } else {
      assert b + (a + rest) == a + rest;
      assert b + rest == rest;
    }
  }

  lemma KeysDiffer(sortBy: string, x: Task, y: Task)
    requires sortBy == "priority" || sortBy == "createdDate"
    requires Compare(sortBy, x, y) > 0
    ensures Key(sortBy, x) > Key(sortBy, y)
  {
  }

  lemma {:induction false} InsertStable(sortBy: string, x: Task, s: seq<Task>, k: int)
    requires sortBy == "priority" || sortBy == "createdDate"
    ensures Filter(Insert(sortBy, x, s), KeyIs(sortBy, k))
         == Filter([x] + s, KeyIs(sortBy, k))
  {
    var p := KeyIs(sortBy, k);
    if s != [] && Compare(sortBy, x, s[0]) > 0 {
      var y, t := s[0], s[1..];
      assert s == [y] + t;
      InsertStable(sortBy, x, t, k);
      KeysDiffer(sortBy, x, y);
      var fx := if p(x) then [x] else [];
      var fy := if p(y) then [y] else [];
      // x and y have different keys, so at most one of them is kept
      assert fx == [] || fy == [];
      calc {
        Filter(Insert(sortBy, x, s), p);
        { assert Insert(sortBy, x, s) == [y] + Insert(sortBy, x, t); FilterCons(y, Insert(sortBy, x, t), p); }
        fy + Filter([x] + t, p);
        { FilterCons(x, t, p); }
        fy + (fx + Filter(t, p));
        { SwapWhenOneEmpty(fx, fy, Filter(t, p)); }
        fx + (fy + Filter(t, p));
        { FilterCons(y, t, p); }
        fx + Filter(s, p);
        { FilterCons(x, s, p); }
        Filter([x] + s, p);
      }
    }
  }

  /** Tasks with equal keys keep their relative order. */
  lemma {:induction false} SortStable(sortBy: string, ts: seq<Task>, k: int)
    requires sortBy == "priority" || sortBy == "createdDate"
    ensures Filter(Sort(sortBy, ts), KeyIs(sortBy, k)) == Filter(ts, KeyIs(sortBy, k))
  {
    if ts != [] {
      SortStable(sortBy, ts[1..], k);
      InsertStable(sortBy, ts[0], Sort(sortBy, ts[1..]), k);
      FilterConcat([ts[0]], Sort(sortBy, ts[1..]), KeyIs(sortBy, k));
      FilterConcat([ts[0]], ts[1..], KeyIs(sortBy, k));
      assert [ts[0]] + ts[1..] == ts;
    }
  }

  /** Sorting by priority: Urgent, High, Medium, Low, equal priorities in their prior order. */
  lemma PrioritySort(ts: seq<Task>)
    ensures var r := SortedTasks("priority", ts);
      && multiset(r) == multiset(ts)
      && (forall i, j :: 0 <= i < j < |r| ==> Rank(r[i].priority) <= Rank(r[j].priority))
      && (forall k :: Filter(r, KeyIs("priority", k)) == Filter(ts, KeyIs("priority", k)))
  {
    SortSorted("priority", ts);
    forall k ensures Filter(SortedTasks("priority", ts), KeyIs("priority", k)) == Filter(ts, KeyIs("priority", k)) {
      SortStable("priority", ts, k);
    }
  }

  /** Sorting by creation date: newest first, equal times in their prior order. */
  lemma CreatedDateSort(ts: seq<Task>)
    ensures var r := SortedTasks("createdDate", ts);
      && multiset(r) == multiset(ts)
      && (forall i, j :: 0 <= i < j < |r| ==> r[i].createdAt >= r[j].createdAt)
      && (forall k :: Filter(r, KeyIs("createdDate", k)) == Filter(ts, KeyIs("createdDate", k)))
  {
    SortSorted("createdDate", ts);
    forall k ensures Filter(SortedTasks("createdDate", ts), KeyIs("createdDate", k)) == Filter(ts, KeyIs("createdDate", k)) {
      SortStable("createdDate", ts, k);
    }
  }

  /** Sorting by due date: every dated task before every undated one, dated ones ascending. */
  lemma DueDateSort(ts: seq<Task>)
    ensures var r := SortedTasks("dueDate", ts);
      && multiset(r) == multiset(ts)
      && forall i, j :: 0 <= i < j < |r| && r[j].dueDate.Some? ==>
           r[i].dueDate.Some? && r[i].dueDate.value <= r[j].dueDate.value
  {
    SortSorted("dueDate", ts);
  }

  // ---------------------------------------------------------------------
  // getTasksForColumn

  function InColumn(columnId: string): Task -> bool {
    (t: Task) => t.columnId == columnId
  }

  /** `getTasksForColumn(columnId)`: filter, select the column, sort. */
  function TasksForColumn(ts: seq<Task>, assignees: seq<string>, priorities: seq<string>, labels: seq<string>,
                          sortBy: string, columnId: string): seq<Task>
  {
    SortedTasks(sortBy, Filter(FilteredTasks(ts, assignees, priorities, labels), InColumn(columnId)))
  }

  /** The column shows exactly the filtered tasks of that column, each as often
      as on the board, and with manual sort in board order. */
  lemma TasksForColumnSpec(ts: seq<Task>, assignees: seq<string>, priorities: seq<string>, labels: seq<string>,
                           sortBy: string, columnId: string)
    ensures var r := TasksForColumn(ts, assignees, priorities, labels, sortBy, columnId);
      && (forall t :: multiset(r)[t] ==
            if t.columnId == columnId && BoardPasses(t, assignees, priorities, labels) then multiset(ts)[t] else 0)
      && (!IsSortKey(sortBy) ==> Subseq(r, ts))
  {
    var f := FilteredTasks(ts, assignees, priorities, labels);
    FilteredTasksSpec(ts, assignees, priorities, labels);
    forall t ensures multiset(TasksForColumn(ts, assignees, priorities, labels, sortBy, columnId))[t] ==
            if t.columnId == columnId && BoardPasses(t, assignees, priorities, labels) then multiset(ts)[t] else 0 {
      FilterCount(f, InColumn(columnId), t);
    }
    if !IsSortKey(sortBy) {
      FilterIsSubseq(f, InColumn(columnId));
      SubseqTransitive(Filter(f, InColumn(columnId)), f, ts);
    }
  }
}
