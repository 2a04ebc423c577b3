/** The board's own filter (`getFilteredTasks`) and the user lookup
    (`getUserById`) of components/views/board-view.tsx. */
module BoardFilter {
  import opened Types
  import opened Seqs

  /** Assignee test: a falsy `assigneeId` (null or "") never passes. */
  predicate AssigneeListed(t: Task, assignees: seq<string>) {
    IsPresent(t.assigneeId) && t.assigneeId.value in assignees
  }

  predicate PriorityListed(t: Task, priorities: seq<string>) {
    t.priority.Name() in priorities
  }

  /** What the board compares a label with: a bare label's text, an object label's `id`. */
  function BoardLabelKey(l: Label): string {
    match l
    case Plain(text) => text
    case Styled(id, _, _) => id
  }

  predicate LabelListed(t: Task, labels: seq<string>) {
    exists i :: 0 <= i < |t.labels| && BoardLabelKey(t.labels[i]) in labels
  }

  function AssigneeTest(assignees: seq<string>): Task -> bool {
    t => AssigneeListed(t, assignees)
  }

  function PriorityTest(priorities: seq<string>): Task -> bool {
    t => PriorityListed(t, priorities)
  }

  function LabelTest(labels: seq<string>): Task -> bool {
    t => LabelListed(t, labels)
  }

  /** `getFilteredTasks`: three successive filters, each applied only when
      its list is non-empty. */
  function FilteredTasks(ts: seq<Task>, assignees: seq<string>, priorities: seq<string>, labels: seq<string>): (r: seq<Task>)
    ensures |r| <= |ts|
    ensures |assignees| == 0 && |priorities| == 0 && |labels| == 0 ==> r == ts
  {
    var byAssignee := if |assignees| > 0 then Filter(ts, AssigneeTest(assignees)) else ts;
    var byPriority := if |priorities| > 0 then Filter(byAssignee, PriorityTest(priorities)) else byAssignee;
    if |labels| > 0 then Filter(byPriority, LabelTest(labels)) else byPriority
  }

  /** The conjunction the three stages amount to: an empty list does not constrain. */
  predicate BoardPasses(t: Task, assignees: seq<string>, priorities: seq<string>, labels: seq<string>) {
    && (|assignees| > 0 ==> AssigneeListed(t, assignees))
    && (|priorities| > 0 ==> PriorityListed(t, priorities))
    && (|labels| > 0 ==> LabelListed(t, labels))
  }

  function BoardTest(assignees: seq<string>, priorities: seq<string>, labels: seq<string>): Task -> bool {
    t => BoardPasses(t, assignees, priorities, labels)
  }

  function FirstTwoTest(assignees: seq<string>, priorities: seq<string>): Task -> bool {
    t => BoardPasses(t, assignees, priorities, [])
  }

  /** One filter stage that may be switched off equals a filter by "off or passes". */
  lemma Stage(xs: seq<Task>, on: bool, q: Task -> bool, gated: Task -> bool)
    requires forall t :: gated(t) == (!on || q(t))
    ensures (if on then Filter(xs, q) else xs) == Filter(xs, gated)
  {
    if on {
      FilterExt(xs, q, gated);
    } else {
      FilterKeepsAll(xs, gated);
    }
  }

  /** The three stages are one filter by `BoardPasses`. */
  lemma FilteredTasksIsOneFilter(ts: seq<Task>, assignees: seq<string>, priorities: seq<string>, labels: seq<string>)
    ensures FilteredTasks(ts, assignees, priorities, labels) == Filter(ts, BoardTest(assignees, priorities, labels))
  {
    var first := FirstTwoTest(assignees, []);
    var firstTwo := FirstTwoTest(assignees, priorities);
    var all := BoardTest(assignees, priorities, labels);
    var second: Task -> bool := t => |priorities| == 0 || PriorityListed(t, priorities);
    var third: Task -> bool := t => |labels| == 0 || LabelListed(t, labels);
    Stage(ts, |assignees| > 0, AssigneeTest(assignees), first);
    var s1 := Filter(ts, first);
    Stage(s1, |priorities| > 0, PriorityTest(priorities), second);
    FilterFilter(ts, first, second, firstTwo);
    var s2 := Filter(ts, firstTwo);
    Stage(s2, |labels| > 0, LabelTest(labels), third);
    FilterFilter(ts, firstTwo, third, all);
  }

  /** A task is shown iff it is on the board and passes every active filter;
      each shown task appears as often as on the board. */
  lemma FilteredTasksSpec(ts: seq<Task>, assignees: seq<string>, priorities: seq<string>, labels: seq<string>)
    ensures var r := FilteredTasks(ts, assignees, priorities, labels);
      && Subseq(r, ts)
      && (forall t :: t in r <==> t in ts && BoardPasses(t, assignees, priorities, labels))
      && (forall t :: multiset(r)[t] == if BoardPasses(t, assignees, priorities, labels) then multiset(ts)[t] else 0)
  {
    FilteredTasksIsOneFilter(ts, assignees, priorities, labels);
    FilterIsSubseq(ts, BoardTest(assignees, priorities, labels));
    forall t ensures multiset(FilteredTasks(ts, assignees, priorities, labels))[t]
                       == if BoardPasses(t, assignees, priorities, labels) then multiset(ts)[t] else 0 {
      FilterCount(ts, BoardTest(assignees, priorities, labels), t);
    }
  }

  /** A task with no assignee is hidden as soon as an assignee is selected. */
  lemma UnassignedHidden(ts: seq<Task>, assignees: seq<string>, priorities: seq<string>, labels: seq<string>, t: Task)
    requires |assignees| > 0 && !IsPresent(t.assigneeId)
    ensures t !in FilteredTasks(ts, assignees, priorities, labels)
  {
    FilteredTasksSpec(ts, assignees, priorities, labels);
  }

  /** `getUserById`: the first user with that id; null for a falsy id or no match. */
  function UserById(users: seq<User>, userId: Option<string>): (r: Option<User>)
    ensures r.Some? ==> IsPresent(userId) && r.value in users && r.value.id == userId.value
    ensures r.None? <==> !IsPresent(userId) || forall u :: u in users ==> u.id != userId.value
    ensures r.Some? ==> exists i :: 0 <= i < |users| && users[i] == r.value
                                    && forall j :: 0 <= j < i ==> users[j].id != userId.value
  {
    if !IsPresent(userId) then None
    else if users == [] then None
    else if users[0].id == userId.value then
      assert users[0] in users;
      Some(users[0])
    else
      var r := UserById(users[1..], userId);
      assert forall u :: u in users[1..] ==> u in users;
      assert forall u :: u in users ==> u == users[0] || u in users[1..];
      if r.Some? then
        var i :| 0 <= i < |users[1..]| && users[1..][i] == r.value
                 && forall j :: 0 <= j < i ==> users[1..][j].id != userId.value;
        assert users[i + 1] == r.value;
        assert forall j :: 0 <= j < i + 1 ==> users[j].id != userId.value by {
          forall j | 0 <= j < i + 1 ensures users[j].id != userId.value {
            if j > 0 { assert users[j] == users[1..][j - 1]; }
          }
        }
        r
      else r
  }
}
