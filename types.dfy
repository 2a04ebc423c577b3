/** The records of lib/types.ts as Dafny values.
    Timestamps (due dates, creation times) are integers (milliseconds);
    a missing or falsy due date is None. */
module Types {

  datatype Option<+T> = None | Some(value: T)

  /** A JavaScript number as the code here produces it: an integer or NaN
      (what parseInt returns when the input has no digits). The integer is
      unbounded: the rounding of a double beyond `MaxSafeInteger` is not
      modelled. */
  datatype JsNumber = NaN | Num(n: int)

  /** `Number.MAX_SAFE_INTEGER`, 2^53 - 1. */
  const MaxSafeInteger: int := 9007199254740991

  /** An integer a double holds exactly and `toString` writes in plain
      decimal digits (`Number.isSafeInteger`). */
  predicate IsSafeInteger(n: int) {
    -MaxSafeInteger <= n <= MaxSafeInteger
  }

  /** JavaScript truthiness of an optional number: undefined, 0 and NaN are falsy. */
  predicate IsTruthy(x: Option<JsNumber>) {
    x.Some? && x.value.Num? && x.value.n != 0
  }

  /** JavaScript truthiness of a nullable string: null and "" are falsy. */
  predicate IsPresent(s: Option<string>) {
    s.Some? && s.value != ""
  }

  datatype Priority = Low | Medium | High | Urgent {
    /** The string the source stores in `task.priority`. */
    function Name(): string {
      match this
      case Low => "Low"
      case Medium => "Medium"
      case High => "High"
      case Urgent => "Urgent"
    }
  }

  datatype Role = Admin | Member | Viewer

  datatype User = User(id: string, name: string, email: string, avatarUrl: string, role: Role)

  /** A task label is either a bare string or a styled {id, name, color} record. */
  datatype Label = Plain(text: string) | Styled(id: string, name: string, color: string)

  datatype Subtask = Subtask(id: string, title: string, completed: bool)

  datatype Task = Task(
    id: string,
    title: string,
    description: string,
    status: string,
    priority: Priority,
    assigneeId: Option<string>,
    assignees: seq<User>,        // the optional `assignees` array; absent is []
    dueDate: Option<int>,
    labels: seq<Label>,          // the optional `labels` array; absent is []
    subtasks: seq<Subtask>,
    attachmentCount: int,
    commentCount: int,
    boardId: string,
    columnId: string,
    position: int,
    createdAt: int)

  datatype Column = Column(
    id: string,
    name: string,
    color: string,
    position: int,
    taskIds: seq<string>,
    wipLimit: Option<JsNumber>)  // the optional `wipLimit` number

  datatype Board = Board(id: string, projectId: string, name: string, columns: seq<Column>)

  datatype Project = Project(
    id: string,
    name: string,
    description: string,
    color: string,
    memberIds: seq<string>,
    createdAt: int,
    updatedAt: int)
}
