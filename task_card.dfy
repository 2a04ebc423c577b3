/** The task card of components/shared/task-card.tsx: the subtask
    progress, the first three labels with a "+N" badge for the rest, and
    which parts of the card show. Date formatting is not modelled. */
module TaskCard {
  import opened Types
  import opened Seqs

  function IsCompleted(st: Subtask): bool { st.completed }

  /** `completedSubtasks`. */
  function CompletedSubtasks(subtasks: seq<Subtask>): (n: nat)
    ensures n <= |subtasks|
    ensures n == |subtasks| <==> forall st :: st in subtasks ==> st.completed
    ensures n == 0 <==> forall st :: st in subtasks ==> !st.completed
  {
    FilterLengthAll(subtasks, IsCompleted);
    var done := Filter(subtasks, IsCompleted);
    assert |done| > 0 ==> done[0] in done;
    |done|
  }

  /** How many labels the card shows before the badge. */
  const ShownLabels := 3

  /** `visibleLabels`. */
  function VisibleLabels(labels: seq<Label>): (r: seq<Label>)
    ensures |r| == if |labels| < ShownLabels then |labels| else ShownLabels
    ensures r <= labels
  {
    Prefix(labels, ShownLabels)
  }

  /** `remainingLabels`. */
  function RemainingLabels(labels: seq<Label>): int {
    |labels| - |VisibleLabels(labels)|
  }

  /** The shown labels and the badge count account for every label: the
      badge counts exactly the labels after the third. */
  lemma LabelsAccounted(labels: seq<Label>)
    ensures var shown := VisibleLabels(labels);
      && shown + labels[|shown|..] == labels
      && RemainingLabels(labels) == |labels[|shown|..]|
      && RemainingLabels(labels) >= 0
      && (RemainingLabels(labels) > 0 <==> |labels| > ShownLabels)
  {
    var shown := VisibleLabels(labels);
    assert labels == labels[..|shown|] + labels[|shown|..];
  }

  /** The label row: the shown labels and, when positive, the "+N" count. */
  datatype LabelRow = LabelRow(shown: seq<Label>, more: Option<int>)

  function LabelRowOf(labels: seq<Label>): Option<LabelRow> {
    if |labels| > 0 then
      Some(LabelRow(VisibleLabels(labels), if RemainingLabels(labels) > 0 then Some(RemainingLabels(labels)) else None))
    else None
  }

  /** The row shows iff the task has labels; the badge shows iff there are
      more than three, and then the row holds exactly the first three. */
  lemma LabelRowSpec(labels: seq<Label>)
    ensures var row := LabelRowOf(labels);
      && (row.Some? <==> |labels| > 0)
      && (row.Some? ==> row.value.shown != [] && row.value.shown <= labels)
      && (row.Some? ==> (row.value.more.Some? <==> |labels| > ShownLabels))
      && (row.Some? && row.value.more.Some? ==>
            row.value.shown == labels[..ShownLabels] && row.value.more.value == |labels| - ShownLabels)
  {
    LabelsAccounted(labels);
  }

  /** One entry of the card's footer. */
  datatype FooterItem = Progress(done: nat, total: nat) | Comments(count: int) | Attachments(count: int)

  /** The footer shows when any of its three entries would. */
  predicate ShowFooter(t: Task) {
    |t.subtasks| > 0 || t.commentCount > 0 || t.attachmentCount > 0
  }

  function Footer(t: Task): (r: seq<FooterItem>)
    ensures |r| <= 3
    ensures (Comments(t.commentCount) in r <==> t.commentCount > 0)
    ensures (Attachments(t.attachmentCount) in r <==> t.attachmentCount > 0)
  {
    if !ShowFooter(t) then []
    else
      (if |t.subtasks| > 0 then [Progress(CompletedSubtasks(t.subtasks), |t.subtasks|)] else [])
      + (if t.commentCount > 0 then [Comments(t.commentCount)] else [])
      + (if t.attachmentCount > 0 then [Attachments(t.attachmentCount)] else [])
  }

  /** The footer is never an empty bar, and its progress entry never shows
      more done than there are subtasks. */
  lemma FooterSpec(t: Task)
    ensures ShowFooter(t) <==> Footer(t) != []
    ensures forall i :: 0 <= i < |Footer(t)| && Footer(t)[i].Progress? ==>
      Footer(t)[i].done <= Footer(t)[i].total == |t.subtasks| && Footer(t)[i].total > 0
    ensures Footer(t) != [] && |t.subtasks| > 0 ==> Footer(t)[0] == Progress(CompletedSubtasks(t.subtasks), |t.subtasks|)
  {
  }

  /** The whole card, less the title and priority badge, which always show. */
  datatype Card = Card(
    labels: Option<LabelRow>,
    description: Option<string>,
    dueDate: Option<int>,
    avatar: Option<User>,
    footer: seq<FooterItem>)

  function Render(t: Task, assignee: Option<User>): (c: Card)
    ensures c.dueDate == t.dueDate && c.avatar == assignee
    ensures c.description.Some? <==> t.description != ""
  {
    Card(LabelRowOf(t.labels),
         if t.description != "" then Some(t.description) else None,
         t.dueDate,
         assignee,
         Footer(t))
  }

  /** Each optional part shows exactly when its source is truthy. */
  lemma RenderSpec(t: Task, assignee: Option<User>)
    ensures var c := Render(t, assignee);
      && (c.labels.Some? <==> t.labels != [])
      && (c.description.Some? <==> t.description != "")
      && (c.description.Some? ==> c.description.value == t.description)
      && (c.avatar == assignee)
      && (c.footer != [] <==> ShowFooter(t))
  {
    LabelRowSpec(t.labels);
    FooterSpec(t);
  }
}
