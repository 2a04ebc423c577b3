/** The task filter hook of hooks/use-task-filters.ts: a search string and
    four lists, the filtered task list, and the number of active filters. */
module TaskFilters {
  import opened Types
  import opened Seqs
  import opened Text

  datatype Filters = Filters(
    search: string,
    status: seq<string>,
    priority: seq<string>,
    assignee: seq<string>,
    labels: seq<string>)

  /** The initial and the cleared filters. */
  const NoFilters := Filters("", [], [], [], [])

  function UserId(u: User): string { u.id }

  /** The hook compares a bare label by its text and an object label by its `name`. */
  function LabelName(l: Label): string {
    match l
    case Plain(text) => text
    case Styled(_, name, _) => name
  }

  /** The test `tasks.filter` applies, as the chain of early returns it is. */
  function Keep(f: Filters, t: Task): bool {
    if f.search != "" && !Contains(ToLower(t.title), ToLower(f.search)) then false
    else if |f.status| > 0 && t.status !in f.status then false
    else if |f.priority| > 0 && t.priority.Name() !in f.priority then false
    else if |f.assignee| > 0 && !(exists id :: id in f.assignee && id in Map(t.assignees, UserId)) then false
    else if |f.labels| > 0 && !(exists l :: l in f.labels && l in Map(t.labels, LabelName)) then false
    else true
  }

  function KeepTest(f: Filters): Task -> bool {
    t => Keep(f, t)
  }

  /** `filteredTasks`. */
  function FilteredTasks(ts: seq<Task>, f: Filters): (r: seq<Task>)
    ensures |r| <= |ts|
    ensures forall t :: t in r <==> t in ts && Keep(f, t)
  {
    Filter(ts, KeepTest(f))
  }

  // ---------------------------------------------------------------------
  // What each filter means

  /** The lower-cased query occurs somewhere in the lower-cased title; an empty query matches everything. */
  ghost predicate SearchMatches(t: Task, search: string) {
    search == "" || exists i :: OccursAt(ToLower(t.title), ToLower(search), i)
  }

  /** Some selected id is the id of one of the task's `assignees`. */
  ghost predicate AssigneeMatches(t: Task, ids: seq<string>) {
    exists i, j :: 0 <= i < |ids| && 0 <= j < |t.assignees| && ids[i] == t.assignees[j].id
  }

  /** Some selected label is the text of a bare label or the name of an object label. */
  ghost predicate LabelMatches(t: Task, names: seq<string>) {
    exists i, j :: 0 <= i < |names| && 0 <= j < |t.labels| && names[i] == LabelName(t.labels[j])
  }

  /** The five filters as one conjunction; an empty filter does not constrain. */
  ghost predicate Passes(t: Task, f: Filters) {
    && SearchMatches(t, f.search)
    && (|f.status| > 0 ==> t.status in f.status)
    && (|f.priority| > 0 ==> t.priority.Name() in f.priority)
    && (|f.assignee| > 0 ==> AssigneeMatches(t, f.assignee))
    && (|f.labels| > 0 ==> LabelMatches(t, f.labels))
  }

  lemma AssigneeIff(t: Task, ids: seq<string>)
    ensures (exists id :: id in ids && id in Map(t.assignees, UserId)) <==> AssigneeMatches(t, ids)
  {
    var have := Map(t.assignees, UserId);
    if AssigneeMatches(t, ids) {
      var i, j :| 0 <= i < |ids| && 0 <= j < |t.assignees| && ids[i] == t.assignees[j].id;
      assert ids[i] in ids && ids[i] == have[j];
    }
    if exists id :: id in ids && id in have {
      var id :| id in ids && id in have;
      var i :| 0 <= i < |ids| && ids[i] == id;
      var j :| 0 <= j < |have| && have[j] == id;
      assert ids[i] == t.assignees[j].id;
    }
  }

  lemma LabelIff(t: Task, names: seq<string>)
    ensures (exists l :: l in names && l in Map(t.labels, LabelName)) <==> LabelMatches(t, names)
  {
    var have := Map(t.labels, LabelName);
    if LabelMatches(t, names) {
      var i, j :| 0 <= i < |names| && 0 <= j < |t.labels| && names[i] == LabelName(t.labels[j]);
      assert names[i] in names && names[i] == have[j];
    }
    if exists l :: l in names && l in have {
      var l :| l in names && l in have;
      var i :| 0 <= i < |names| && names[i] == l;
      var j :| 0 <= j < |have| && have[j] == l;
      assert names[i] == LabelName(t.labels[j]);
    }
  }

  lemma KeepIff(f: Filters, t: Task)
    ensures Keep(f, t) <==> Passes(t, f)
  {
    ContainsIff(ToLower(t.title), ToLower(f.search));
    AssigneeIff(t, f.assignee);
    LabelIff(t, f.labels);
  }

  /** The filtered list keeps board order and holds exactly the tasks that
      pass every filter, each as often as in the input. */
  lemma FilteredTasksSpec(ts: seq<Task>, f: Filters)
    ensures var r := FilteredTasks(ts, f);
      && Subseq(r, ts)
      && (forall t :: t in r <==> t in ts && Passes(t, f))
      && (forall t :: multiset(r)[t] == if Passes(t, f) then multiset(ts)[t] else 0)
  {
    FilterIsSubseq(ts, KeepTest(f));
    forall t ensures Keep(f, t) <==> Passes(t, f) {
      KeepIff(f, t);
    }
    forall t ensures multiset(FilteredTasks(ts, f))[t] == if Passes(t, f) then multiset(ts)[t] else 0 {
      FilterCount(ts, KeepTest(f), t);
    }
  }

  /** With the initial (or cleared) filters every task is shown, in order. */
  lemma NoFiltersShowsAll(ts: seq<Task>)
    ensures FilteredTasks(ts, NoFilters) == ts
  {
    FilterKeepsAll(ts, KeepTest(NoFilters));
  }

  /** Filtering the filtered list again changes nothing. */
  lemma FilteredTasksIdempotent(ts: seq<Task>, f: Filters)
    ensures FilteredTasks(FilteredTasks(ts, f), f) == FilteredTasks(ts, f)
  {
    FilterIdempotent(ts, KeepTest(f));
  }

  /** A task without assignees is dropped whenever an assignee is selected. */
  lemma UnassignedDropped(f: Filters, t: Task)
    requires |f.assignee| > 0 && t.assignees == []
    ensures !Keep(f, t)
  {
    KeepIff(f, t);
  }

  // ---------------------------------------------------------------------
  // activeFilterCount

  /** `activeFilterCount`: one for each filter in use. */
  function ActiveFilterCount(f: Filters): (count: nat)
    ensures count <= 5
    ensures count == 0 <==> f == NoFilters
  {
    (if f.search != "" then 1 else 0)
    + (if |f.status| > 0 then 1 else 0)
    + (if |f.priority| > 0 then 1 else 0)
    + (if |f.assignee| > 0 then 1 else 0)
    + (if |f.labels| > 0 then 1 else 0)
  }

  datatype FilterKey = Search | Status | PriorityKey | Assignee | Labels

  const AllKeys: seq<FilterKey> := [Search, Status, PriorityKey, Assignee, Labels]

  /** A value of a filter field: the search string or one of the lists. */
  datatype FilterValue = Query(text: string) | Selection(items: seq<string>)

  function Get(f: Filters, k: FilterKey): FilterValue {
    match k
    case Search => Query(f.search)
    case Status => Selection(f.status)
    case PriorityKey => Selection(f.priority)
    case Assignee => Selection(f.assignee)
    case Labels => Selection(f.labels)
  }

  /** The value `k` holds when it does not filter anything. */
  function EmptyValue(k: FilterKey): FilterValue {
    if k == Search then Query("") else Selection([])
  }

  /** `v` has the shape the field `k` holds. */
  predicate Fits(k: FilterKey, v: FilterValue) {
    (k == Search) == v.Query?
  }

  function InUse(f: Filters): FilterKey -> bool {
    k => Get(f, k) != EmptyValue(k)
  }

  /** How many of the five keys a test keeps, key by key. */
  lemma KeysKept(p: FilterKey -> bool)
    ensures |Filter(AllKeys, p)|
         == (if p(Search) then 1 else 0) + (if p(Status) then 1 else 0)
          + (if p(PriorityKey) then 1 else 0) + (if p(Assignee) then 1 else 0)
          + (if p(Labels) then 1 else 0)
  {
    FilterLengthFive(AllKeys, p);
  }

  /** The count is the number of keys whose field is not empty. */
  lemma ActiveFilterCountIsKeysInUse(f: Filters)
    ensures ActiveFilterCount(f) == |Filter(AllKeys, InUse(f))|
  {
    var p := InUse(f);
    KeysKept(p);
    assert p(Search) == (f.search != "");
    assert p(Status) == (|f.status| > 0);
    assert p(PriorityKey) == (|f.priority| > 0);
    assert p(Assignee) == (|f.assignee| > 0);
    assert p(Labels) == (|f.labels| > 0);
  }

  /** `{ ...prev, [key]: value }`. */
  function With(f: Filters, k: FilterKey, v: FilterValue): (r: Filters)
    requires Fits(k, v)
    ensures Get(r, k) == v
    ensures forall other :: other != k ==> Get(r, other) == Get(f, other)
  {
    match k
    case Search => f.(search := v.text)
    case Status => f.(status := v.items)
    case PriorityKey => f.(priority := v.items)
    case Assignee => f.(assignee := v.items)
    case Labels => f.(labels := v.items)
  }

  /** Writing back the value a field already holds changes nothing. */
  lemma WithOwnValue(f: Filters, k: FilterKey)
    ensures Fits(k, Get(f, k)) && With(f, k, Get(f, k)) == f
  {
  }

  /** The hook's state. */
  class TaskFilterState {
    var filters: Filters

    constructor ()
      ensures filters == NoFilters
    {
      filters := NoFilters;
    }

    /** `updateFilter(key, value)`. */
    method UpdateFilter(k: FilterKey, v: FilterValue)
      requires Fits(k, v)
      modifies this
      ensures filters == With(old(filters), k, v)
    {
      filters := With(filters, k, v);
    }

    /** `clearFilters()`. */
    method ClearFilters()
      modifies this
      ensures filters == NoFilters
    {
      filters := NoFilters;
    }

    function Visible(ts: seq<Task>): seq<Task>
      reads this
    {
      FilteredTasks(ts, filters)
    }

    function Count(): nat
      reads this
    {
      ActiveFilterCount(filters)
    }
  }
}
