/** The command palette of components/shared/command-palette.tsx: the
    project and task searches, which groups show, and what choosing an item
    does. The project and task lists (`MOCK_PROJECTS`, `MOCK_TASKS`) are
    parameters. */
module CommandPalette {
  import opened Types
  import opened Seqs
  import opened Text
  import Topbar

  /** Case-insensitive `includes`. */
  predicate Matches(text: string, search: string) {
    Contains(ToLower(text), ToLower(search))
  }

  function ProjectMatches(search: string): Project -> bool {
    (p: Project) => Matches(p.name, search)
  }

  function TaskMatches(search: string): Task -> bool {
    (t: Task) => Matches(t.title, search)
  }

  /** The most tasks the palette lists. */
  const TaskLimit := 5

  /** `filteredProjects`. */
  function FilteredProjects(projects: seq<Project>, search: string): (r: seq<Project>)
    ensures forall p :: p in r <==> p in projects && Matches(p.name, search)
  {
    Filter(projects, ProjectMatches(search))
  }

  /** `filteredTasks`: the matching tasks, cut to the first five. */
  function FilteredTasks(tasks: seq<Task>, search: string): (r: seq<Task>)
    ensures |r| <= TaskLimit
  {
    Prefix(Filter(tasks, TaskMatches(search)), TaskLimit)
  }

  /** The project list keeps the projects' order. */
  lemma FilteredProjectsInOrder(projects: seq<Project>, search: string)
    ensures Subseq(FilteredProjects(projects, search), projects)
  {
    FilterIsSubseq(projects, ProjectMatches(search));
  }

  /** The task list is the first (at most five) matching tasks, in order. */
  lemma FilteredTasksSpec(tasks: seq<Task>, search: string)
    ensures var r := FilteredTasks(tasks, search);
      var matching := Filter(tasks, TaskMatches(search));
      && r <= matching
      && |r| == (if |matching| < TaskLimit then |matching| else TaskLimit)
      && (forall t :: t in r ==> t in tasks && Matches(t.title, search))
      && Subseq(r, tasks)
  {
    var matching := Filter(tasks, TaskMatches(search));
    var r := FilteredTasks(tasks, search);
    FilterIsSubseq(tasks, TaskMatches(search));
    PrefixIsSubseq(matching, TaskLimit);
    SubseqTransitive(r, matching, tasks);
    forall t | t in r ensures t in matching {
      var i :| 0 <= i < |r| && r[i] == t;
      assert matching[i] == t;
    }
  }

  lemma EveryTextMatchesEmpty(text: string)
    ensures Matches(text, "")
  {
    assert ToLower("") == "";
    ContainsEmpty(ToLower(text));
  }

  /** With an empty search every project is listed, and the first five tasks. */
  lemma EmptySearch(projects: seq<Project>, tasks: seq<Task>)
    ensures FilteredProjects(projects, "") == projects
    ensures FilteredTasks(tasks, "") == Prefix(tasks, TaskLimit)
  {
    forall p: Project ensures Matches(p.name, "") {
      EveryTextMatchesEmpty(p.name);
    }
    forall t: Task ensures Matches(t.title, "") {
      EveryTextMatchesEmpty(t.title);
    }
    FilterKeepsAll(projects, ProjectMatches(""));
    FilterKeepsAll(tasks, TaskMatches(""));
  }

  /** Which groups the list shows (lines 60, 102 and 121). */
  datatype Groups = Groups(quickActions: bool, navigation: bool, projects: bool, tasks: bool)

  function VisibleGroups(search: string, projects: seq<Project>, tasks: seq<Task>): (g: Groups)
    ensures g.quickActions == g.navigation == (search == "")
    ensures g.projects || g.tasks ==> search != ""
  {
    Groups(search == "", search == "",
           search != "" && |FilteredProjects(projects, search)| > 0,
           search != "" && |FilteredTasks(tasks, search)| > 0)
  }

  /** Result groups and the fixed groups never show together, and a result
      group shows exactly when something matches. */
  lemma GroupsSpec(search: string, projects: seq<Project>, tasks: seq<Task>)
    ensures var g := VisibleGroups(search, projects, tasks);
      && !((g.quickActions || g.navigation) && (g.projects || g.tasks))
      && (g.projects <==> search != "" && exists p :: p in projects && Matches(p.name, search))
      && (g.tasks <==> search != "" && exists t :: t in tasks && Matches(t.title, search))
  {
    var fp := FilteredProjects(projects, search);
    if |fp| > 0 {
      assert fp[0] in fp;
    }
    var matching := Filter(tasks, TaskMatches(search));
    if |matching| > 0 {
      assert matching[0] in matching;
    }
  }

  /** An item of the palette and where it leads. */
  datatype Item =
    | CreateTask | CreateProject | GoDashboard | GoSettings | GoTeam
    | OpenProject(project: Project)
    | OpenTask(task: Task)

  function ItemPath(item: Item): string {
    match item
    case CreateTask => "/dashboard"
    case CreateProject => "/dashboard"
    case GoDashboard => "/dashboard"
    case GoSettings => "/settings"
    case GoTeam => "/settings/team"
    case OpenProject(p) => "/projects/" + p.id + "/board"
    case OpenTask(t) => "/projects/" + t.boardId + "/list"
  }

  /** A project result opens that project's board and a task result its
      project's list: the top bar then finds the same project id in the path. */
  lemma ResultsOpenTheirProject(p: Project, t: Task)
    ensures p.id != "" && '/' !in p.id ==> Topbar.ProjectIdOf(ItemPath(OpenProject(p))) == Some(p.id)
    ensures t.boardId != "" && '/' !in t.boardId ==> Topbar.ProjectIdOf(ItemPath(OpenTask(t))) == Some(t.boardId)
  {
    if p.id != "" && '/' !in p.id {
      Topbar.ProjectIdOfSegment(p.id, "/board");
    }
    if t.boardId != "" && '/' !in t.boardId {
      Topbar.ProjectIdOfSegment(t.boardId, "/list");
    }
  }

  /** What `handleSelect` does, in order. */
  datatype Effect = Close | Navigate(path: string)

  /** `handleSelect(() => router.push(path))`: close the palette, then navigate. */
  function Select(item: Item): (effects: seq<Effect>)
    ensures |effects| == 2 && effects[0] == Close
    ensures effects[1] == Navigate(ItemPath(item))
  {
    [Close, Navigate(ItemPath(item))]
  }

  class PaletteState {
    var search: string

    constructor ()
      ensures search == ""
    {
      search := "";
    }

    /** `onValueChange={setSearch}`. */
    method SetSearch(value: string)
      modifies this
      ensures search == value
    {
      search := value;
    }
  }
}
