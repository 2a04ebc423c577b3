/** The column component of components/views/board-column.tsx: the WIP
    limit test and line, the input guards of its three editors, and its
    local state. A callback the component fires (`onRename`, `onAddTask`,
    `onSetWipLimit`, `onDelete`) is returned as the value it is called with. */
module BoardColumn {
  import opened Types
  import opened Text

  /** `isOverWipLimit`: a truthy limit (set, not 0, not NaN) that the task count exceeds. */
  predicate IsOverWipLimit(wipLimit: Option<JsNumber>, taskCount: nat)
    ensures IsOverWipLimit(wipLimit, taskCount) ==> IsTruthy(wipLimit) && (taskCount == 0 ==> wipLimit.value.n < 0)
  {
    IsTruthy(wipLimit) && taskCount > wipLimit.value.n
  }

  /** Another task in the column never clears the warning. */
  lemma OverWipMonotone(wipLimit: Option<JsNumber>, taskCount: nat, more: nat)
    requires IsOverWipLimit(wipLimit, taskCount) && taskCount <= more
    ensures IsOverWipLimit(wipLimit, more)
  {
  }

  /** What `{column.wipLimit && <p>...</p>}` puts on the screen: nothing, the
      falsy value itself as text (React renders the numbers 0 and NaN), or
      the WIP line. */
  datatype WipRender = Nothing | StrayText(text: string) | WipLine(text: string, exceeded: bool)

  const Exceeded := " (Exceeded!)"

  /** `WIP Limit: {tasks.length}/{column.wipLimit}` followed by the warning when over. */
  function WipLineText(taskCount: nat, limit: int, over: bool): string {
    "WIP Limit: " + IntToString(taskCount) + "/" + IntToString(limit) + (if over then Exceeded else "")
  }

  /** The WIP line as the component writes it: the line for a truthy limit,
      marked exceeded iff over it; stray text for a set but falsy limit. */
  function WipLineAsWritten(wipLimit: Option<JsNumber>, taskCount: nat): (r: WipRender)
    ensures r.WipLine? <==> IsTruthy(wipLimit)
    ensures r.WipLine? ==> r.exceeded == IsOverWipLimit(wipLimit, taskCount)
    ensures r.StrayText? <==> wipLimit.Some? && !IsTruthy(wipLimit)
  {
    match wipLimit
    case None => Nothing
    case Some(NaN) => StrayText("NaN")
    case Some(Num(n)) =>
      if n == 0 then StrayText("0")
      else
        var over := IsOverWipLimit(wipLimit, taskCount);
        WipLine(WipLineText(taskCount, n, over), over)
  }

  /** A limit of 0 (what `parseInt("0")` stores) leaves a bare "0" in the column header. */
  lemma WipLineStrayZero()
    ensures WipLineAsWritten(Some(Num(0)), 0) == StrayText("0")
    ensures WipLineAsWritten(Some(NaN), 0) == StrayText("NaN")
  {
  }

  /** The WIP line as intended: shown only for a truthy limit, nothing otherwise. */
  function WipLineShown(wipLimit: Option<JsNumber>, taskCount: nat): (r: WipRender)
    ensures !r.StrayText?
    ensures r.WipLine? <==> IsTruthy(wipLimit)
    ensures r.WipLine? ==> r.exceeded == IsOverWipLimit(wipLimit, taskCount)
  {
    if IsTruthy(wipLimit) then
      var over := IsOverWipLimit(wipLimit, taskCount);
      WipLine(WipLineText(taskCount, wipLimit.value.n, over), over)
    else Nothing
  }

  /** For a truthy limit the rendered line is the intended one, and an unset
      limit renders nothing, so the warning lemma below holds of the line the
      component renders; only a limit of 0 or NaN differs. */
  lemma WipLineAsWrittenAgrees(wipLimit: Option<JsNumber>, taskCount: nat)
    ensures IsTruthy(wipLimit) ==> WipLineAsWritten(wipLimit, taskCount) == WipLineShown(wipLimit, taskCount)
    ensures wipLimit.None? ==> WipLineAsWritten(wipLimit, taskCount) == Nothing
  {
  }

  function LastChar(s: string): char
    requires |s| > 0
  {
    s[|s| - 1]
  }

  lemma IntToStringEndsInDigit(n: int)
    ensures IsDigit(LastChar(IntToString(n)), 10)
  {
    var d := NatToString(if n < 0 then -n else n);
    assert IsDigit(d[|d| - 1], 10);
    if n < 0 {
      assert LastChar(IntToString(n)) == d[|d| - 1];
    }
  }

  /** The line ends with " (Exceeded!)" exactly when the limit is exceeded. */
  lemma WipLineWarnsIffOver(wipLimit: Option<JsNumber>, taskCount: nat)
    requires IsTruthy(wipLimit)
    ensures var line := WipLineShown(wipLimit, taskCount).text;
      (|line| >= |Exceeded| && line[|line| - |Exceeded|..] == Exceeded) <==> IsOverWipLimit(wipLimit, taskCount)
  {
    var over := IsOverWipLimit(wipLimit, taskCount);
    var base := "WIP Limit: " + IntToString(taskCount) + "/" + IntToString(wipLimit.value.n);
    var line := WipLineShown(wipLimit, taskCount).text;
    if over {
      assert line == base + Exceeded;
      assert line[|line| - |Exceeded|..] == Exceeded;
    } else {
      assert line == base;
      IntToStringEndsInDigit(wipLimit.value.n);
      assert LastChar(line) == LastChar(IntToString(wipLimit.value.n));
    }
  }

  /** The empty-column placeholder (line 229). */
  predicate ShowPlaceholder(taskCount: nat, showAddCard: bool) {
    taskCount == 0 && !showAddCard
  }

  /** The body of the column: the "Drag tasks here" placeholder, or the
      sortable list of its cards. */
  datatype ColumnContent = Placeholder | Cards(ids: seq<string>)

  function Content(taskIds: seq<string>, showAddCard: bool): (r: ColumnContent)
    ensures r.Placeholder? <==> taskIds == [] && !showAddCard
    ensures r.Cards? ==> r.ids == taskIds
  {
    if ShowPlaceholder(|taskIds|, showAddCard) then Placeholder else Cards(taskIds)
  }

  /** The placeholder never hides a card: whenever the column has a task, every
      task is listed; an empty column lists nothing while the add-card input is open. */
  lemma ContentListsEveryTask(taskIds: seq<string>, showAddCard: bool)
    ensures taskIds != [] ==> Content(taskIds, showAddCard) == Cards(taskIds)
    ensures taskIds == [] && showAddCard ==> Content(taskIds, showAddCard) == Cards([])
  {
  }

  /** The guard of `handleNameSave` and `handleAddTask`: the text as typed when
      its trim is non-empty, else nothing. */
  function NonBlank(text: string): (r: Option<string>)
    ensures r.Some? <==> !IsBlank(text)
    ensures r.Some? ==> r.value == text
  {
    TrimEmptyIff(text);
    if Trim(text) != "" then Some(text) else None
  }

  /** `handleSetWipLimit`'s value: `undefined` for blank input, else `parseInt`. */
  function WipLimitFromText(text: string): (r: Option<JsNumber>)
    ensures r.None? <==> IsBlank(text)
    ensures r.Some? ==> r.value == ParseInt(text)
  {
    TrimEmptyIff(text);
    if Trim(text) != "" then Some(ParseInt(text)) else None
  }

  /** The dialog's initial text, `column.wipLimit?.toString() || ''`. */
  function WipLimitText(wipLimit: Option<JsNumber>): string {
    match wipLimit
    case None => ""
    case Some(NaN) => "NaN"
    case Some(Num(n)) => IntToString(n)
  }

  lemma ParseNaN()
    ensures ParseInt("NaN") == NaN
  {
    assert TrimStart("NaN") == "NaN";
    assert !IsDigit('N', 10);
  }

  /** Saving the WIP dialog without editing it keeps the column's limit,
      when that limit is unset, NaN or a safe integer. */
  lemma WipDialogRoundTrip(wipLimit: Option<JsNumber>)
    requires wipLimit.Some? && wipLimit.value.Num? ==> IsSafeInteger(wipLimit.value.n)
    ensures WipLimitFromText(WipLimitText(wipLimit)) == wipLimit
  {
    match wipLimit
    case None =>
    case Some(NaN) =>
      ParseNaN();
      assert !IsJsWhitespace("NaN"[0]);
    case Some(Num(n)) =>
      ParseIntToString(n);
      var s := IntToString(n);
      assert !IsJsWhitespace(s[0]);
  }

  /** The component's local state; `column` is the prop of the latest render. */
  class ColumnEditor {
    var column: Column
    var isEditing: bool
    var editedName: string
    var showAddCard: bool
    var newTaskTitle: string
    var showWipDialog: bool
    var wipText: string
    var showDeleteDialog: bool

    /** The initial state (lines 71-77). */
    constructor (column: Column)
      ensures this.column == column
      ensures !isEditing && editedName == column.name
      ensures !showAddCard && newTaskTitle == ""
      ensures !showWipDialog && wipText == WipLimitText(column.wipLimit)
      ensures !showDeleteDialog
    {
      this.column := column;
      isEditing := false;
      editedName := column.name;
      showAddCard := false;
      newTaskTitle := "";
      showWipDialog := false;
      wipText := WipLimitText(column.wipLimit);
      showDeleteDialog := false;
    }

    /** A re-render with a new `column` prop (a rename, a recolour, a new
        limit saved by the board): React keeps every local state, including
        the WIP dialog text initialised from the first prop. */
    method Rerender(c: Column)
      requires c.id == column.id
      modifies this
      ensures column == c
      ensures isEditing == old(isEditing) && editedName == old(editedName) && showAddCard == old(showAddCard)
      ensures newTaskTitle == old(newTaskTitle) && showWipDialog == old(showWipDialog)
      ensures wipText == old(wipText) && showDeleteDialog == old(showDeleteDialog)
    {
      column := c;
    }

    /** Double click on the title, or "Rename" in the menu. */
    method StartEditing()
      modifies this
      ensures column == old(column)
      ensures isEditing
      ensures editedName == old(editedName) && showAddCard == old(showAddCard) && newTaskTitle == old(newTaskTitle)
      ensures showWipDialog == old(showWipDialog) && wipText == old(wipText) && showDeleteDialog == old(showDeleteDialog)
    {
      isEditing := true;
    }

    /** Typing in the name input. */
    method TypeName(text: string)
      modifies this
      ensures column == old(column)
      ensures editedName == text
      ensures isEditing == old(isEditing) && showAddCard == old(showAddCard) && newTaskTitle == old(newTaskTitle)
      ensures showWipDialog == old(showWipDialog) && wipText == old(wipText) && showDeleteDialog == old(showDeleteDialog)
    {
      editedName := text;
    }

    /** `handleNameSave` (Enter or blur): the name passed to `onRename`, if any;
        editing ends in every case. */
    method HandleNameSave() returns (rename: Option<string>)
      modifies this
      ensures column == old(column)
      ensures rename == NonBlank(old(editedName))
      ensures !isEditing
      ensures editedName == old(editedName) && showAddCard == old(showAddCard) && newTaskTitle == old(newTaskTitle)
      ensures showWipDialog == old(showWipDialog) && wipText == old(wipText) && showDeleteDialog == old(showDeleteDialog)
    {
      rename := NonBlank(editedName);
      isEditing := false;
    }

    /** Escape in the name input. */
    method EscapeName()
      modifies this
      ensures column == old(column)
      ensures !isEditing && editedName == column.name
      ensures showAddCard == old(showAddCard) && newTaskTitle == old(newTaskTitle)
      ensures showWipDialog == old(showWipDialog) && wipText == old(wipText) && showDeleteDialog == old(showDeleteDialog)
    {
      editedName := column.name;
      isEditing := false;
    }

    /** "Add a card". */
    method OpenAddCard()
      modifies this
      ensures column == old(column)
      ensures showAddCard
      ensures isEditing == old(isEditing) && editedName == old(editedName) && newTaskTitle == old(newTaskTitle)
      ensures showWipDialog == old(showWipDialog) && wipText == old(wipText) && showDeleteDialog == old(showDeleteDialog)
    {
      showAddCard := true;
    }

    /** Typing in the add-card input. */
    method TypeTitle(text: string)
      modifies this
      ensures column == old(column)
      ensures newTaskTitle == text
      ensures isEditing == old(isEditing) && editedName == old(editedName) && showAddCard == old(showAddCard)
      ensures showWipDialog == old(showWipDialog) && wipText == old(wipText) && showDeleteDialog == old(showDeleteDialog)
    {
      newTaskTitle := text;
    }

    /** `handleAddTask` (Enter or "Add"): the title passed to `onAddTask`, if
        any; the input is cleared only then. */
    method HandleAddTask() returns (add: Option<string>)
      modifies this
      ensures column == old(column)
      ensures add == NonBlank(old(newTaskTitle))
      ensures newTaskTitle == if add.Some? then "" else old(newTaskTitle)
      ensures isEditing == old(isEditing) && editedName == old(editedName) && showAddCard == old(showAddCard)
      ensures showWipDialog == old(showWipDialog) && wipText == old(wipText) && showDeleteDialog == old(showDeleteDialog)
    {
      add := NonBlank(newTaskTitle);
      if add.Some? {
        newTaskTitle := "";
      }
    }

    /** Escape in the add-card input, or "Cancel". */
    method CancelAddCard()
      modifies this
      ensures column == old(column)
      ensures !showAddCard && newTaskTitle == ""
      ensures isEditing == old(isEditing) && editedName == old(editedName)
      ensures showWipDialog == old(showWipDialog) && wipText == old(wipText) && showDeleteDialog == old(showDeleteDialog)
    {
      showAddCard := false;
      newTaskTitle := "";
    }

    /** "Set WIP limit" in the menu, and closing the dialog without saving. */
    method ToggleWipDialog(open: bool)
      modifies this
      ensures column == old(column)
      ensures showWipDialog == open
      ensures isEditing == old(isEditing) && editedName == old(editedName) && showAddCard == old(showAddCard)
      ensures newTaskTitle == old(newTaskTitle) && wipText == old(wipText) && showDeleteDialog == old(showDeleteDialog)
    {
      showWipDialog := open;
    }

    /** Typing in the WIP dialog. */
    method TypeWipLimit(text: string)
      modifies this
      ensures column == old(column)
      ensures wipText == text
      ensures isEditing == old(isEditing) && editedName == old(editedName) && showAddCard == old(showAddCard)
      ensures newTaskTitle == old(newTaskTitle) && showWipDialog == old(showWipDialog) && showDeleteDialog == old(showDeleteDialog)
    {
      wipText := text;
    }

    /** `handleSetWipLimit` ("Save"): the value passed to `onSetWipLimit`
        (None is `undefined`); the dialog closes. */
    method HandleSetWipLimit() returns (limit: Option<JsNumber>)
      modifies this
      ensures column == old(column)
      ensures limit == WipLimitFromText(old(wipText))
      ensures !showWipDialog
      ensures isEditing == old(isEditing) && editedName == old(editedName) && showAddCard == old(showAddCard)
      ensures newTaskTitle == old(newTaskTitle) && wipText == old(wipText) && showDeleteDialog == old(showDeleteDialog)
    {
      limit := WipLimitFromText(wipText);
      showWipDialog := false;
    }

    /** "Delete column" in the menu, and "Cancel" in the confirmation dialog. */
    method ToggleDeleteDialog(open: bool)
      modifies this
      ensures column == old(column)
      ensures showDeleteDialog == open
      ensures isEditing == old(isEditing) && editedName == old(editedName) && showAddCard == old(showAddCard)
      ensures newTaskTitle == old(newTaskTitle) && showWipDialog == old(showWipDialog) && wipText == old(wipText)
    {
      showDeleteDialog := open;
    }

    /** "Delete" in the confirmation dialog: `onDelete(column.id)`, then close. */
    method ConfirmDelete() returns (deleted: string)
      modifies this
      ensures column == old(column)
      ensures deleted == column.id && !showDeleteDialog
      ensures isEditing == old(isEditing) && editedName == old(editedName) && showAddCard == old(showAddCard)
      ensures newTaskTitle == old(newTaskTitle) && showWipDialog == old(showWipDialog) && wipText == old(wipText)
    {
      deleted := column.id;
      showDeleteDialog := false;
    }
  }

  /** Rename a column, let the board re-render it with the new name, then
      start editing again and press Escape: the input goes back to the new
      name, the prop of the latest render. */
  method RenameThenEscape(col: Column, newName: string, typed: string) returns (shown: string)
    requires NonBlank(newName).Some?
    ensures shown == newName
  {
    var e := new ColumnEditor(col);
    e.StartEditing();
    e.TypeName(newName);
    var rename := e.HandleNameSave();
    e.Rerender(col.(name := rename.value));
    e.StartEditing();
    e.TypeName(typed);
    e.EscapeName();
    shown := e.editedName;
  }
}
