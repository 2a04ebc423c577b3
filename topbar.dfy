/** The top bar of components/layout/topbar.tsx: the project id taken from
    the path, the breadcrumb trail and whether the view tabs show. The
    project list (`MOCK_PROJECTS`) is a parameter. */
module Topbar {
  import opened Types
  import opened Seqs
  import opened Text

  const ProjectsPrefix := "/projects/"

  /** The length of the leading run of characters other than '/'. */
  function SegmentLength(s: string): (k: nat)
    ensures k <= |s| && '/' !in s[..k]
    ensures k < |s| ==> s[k] == '/'
  {
    if s == [] || s[0] == '/' then 0
    else
      var k := SegmentLength(s[1..]);
      assert s[..k + 1] == [s[0]] + s[1..][..k];
      k + 1
  }

  lemma {:induction false} SegmentLengthOf(a: string, b: string)
    requires '/' !in a
    requires b == [] || b[0] == '/'
    ensures SegmentLength(a + b) == |a|
  {
    if a != [] {
      assert (a + b)[1..] == a[1..] + b;
      assert '/' !in a[1..] by {
        assert forall c :: c in a[1..] ==> c in a;
      }
      SegmentLengthOf(a[1..], b);
    } else {
      assert a + b == b;
    }
  }

  /** `pathname.match(/^\/projects\/([^\/]+)/)?.[1]`: the non-empty segment
      after a leading "/projects/", up to the next '/'. */
  function ProjectIdOf(pathname: string): (r: Option<string>)
    ensures r.Some? ==> r.value != "" && '/' !in r.value && StartsWith(pathname, ProjectsPrefix)
  {
    if StartsWith(pathname, ProjectsPrefix) then
      var rest := pathname[|ProjectsPrefix|..];
      var k := SegmentLength(rest);
      if k == 0 then None else Some(rest[..k])
    else None
  }

  /** An extracted id is a non-empty, slash-free segment that ends the path
      or is followed by '/'. */
  lemma ProjectIdOfShape(pathname: string, id: string)
    requires ProjectIdOf(pathname) == Some(id)
    ensures id != "" && '/' !in id
    ensures pathname == ProjectsPrefix + id || StartsWith(pathname, ProjectsPrefix + id + "/")
  {
    var rest := pathname[|ProjectsPrefix|..];
    var k := SegmentLength(rest);
    StartsWithSplit(pathname, ProjectsPrefix);
    assert pathname == ProjectsPrefix + rest;
    if k < |rest| {
      assert rest == id + "/" + rest[k + 1..];
      assert pathname == (ProjectsPrefix + id + "/") + rest[k + 1..];
      AppendStartsWith(ProjectsPrefix + id + "/", rest[k + 1..]);
    } else {
      assert rest[..k] == rest;
    }
  }

  /** "/projects/" followed by a segment and then nothing or '/' yields that segment. */
  lemma ProjectIdOfSegment(id: string, tail: string)
    requires id != "" && '/' !in id
    requires tail == [] || tail[0] == '/'
    ensures ProjectIdOf(ProjectsPrefix + id + tail) == Some(id)
  {
    var pathname := ProjectsPrefix + id + tail;
    assert pathname == ProjectsPrefix + (id + tail);
    AppendStartsWith(ProjectsPrefix, id + tail);
    assert pathname[|ProjectsPrefix|..] == id + tail;
    SegmentLengthOf(id, tail);
    assert (id + tail)[..|id|] == id;
  }

  /** The extracted id is exactly a non-empty, slash-free segment following
      "/projects/" and ending the path or followed by '/'. */
  lemma ProjectIdOfIff(pathname: string, id: string)
    ensures ProjectIdOf(pathname) == Some(id) <==>
      && id != "" && '/' !in id
      && (pathname == ProjectsPrefix + id || StartsWith(pathname, ProjectsPrefix + id + "/"))
  {
    if ProjectIdOf(pathname) == Some(id) {
      ProjectIdOfShape(pathname, id);
    }
    if id != "" && '/' !in id {
      if pathname == ProjectsPrefix + id {
        assert pathname == ProjectsPrefix + id + [];
        ProjectIdOfSegment(id, []);
      } else if StartsWith(pathname, ProjectsPrefix + id + "/") {
        var w := ProjectsPrefix + id + "/";
        StartsWithSplit(pathname, w);
        var tail := "/" + pathname[|w|..];
        assert pathname == ProjectsPrefix + id + tail;
        ProjectIdOfSegment(id, tail);
      }
    }
  }

  function ProjectKey(p: Project): string { p.id }

  /** `MOCK_PROJECTS.find(p => p.id === projectId)`. */
  function ProjectById(projects: seq<Project>, id: string): (r: Option<Project>)
    ensures r.Some? ==> r.value in projects && r.value.id == id
    ensures r.Some? ==>
      exists i :: 0 <= i < |projects| && projects[i] == r.value && forall j :: 0 <= j < i ==> projects[j].id != id
    ensures r.None? <==> forall p :: p in projects ==> p.id != id
  {
    var ids := Map(projects, ProjectKey);
    var i := IndexOf(ids, id);
    assert forall j :: 0 <= j < |projects| ==> ids[j] == projects[j].id;
    if i < 0 then None
    else
      assert forall j :: 0 <= j < i ==> ids[..i][j] == ids[j];
      Some(projects[i])
  }

  /** `project`: the listed project the path points into, if any. */
  function ProjectOf(pathname: string, projects: seq<Project>): Option<Project> {
    match ProjectIdOf(pathname)
    case None => None
    case Some(id) => ProjectById(projects, id)
  }

  datatype Crumb = Crumb(title: string, href: string)

  const Home := Crumb("Home", "/")

  /** The view crumb of a project: the first of board, list, calendar and
      timeline whose "/name" occurs anywhere in the path. */
  function ViewCrumb(pathname: string, projectId: string): Option<Crumb> {
    var base := ProjectsPrefix + projectId;
    if Contains(pathname, "/board") then Some(Crumb("Board", base + "/board"))
    else if Contains(pathname, "/list") then Some(Crumb("List", base + "/list"))
    else if Contains(pathname, "/calendar") then Some(Crumb("Calendar", base + "/calendar"))
    else if Contains(pathname, "/timeline") then Some(Crumb("Timeline", base + "/timeline"))
    else None
  }

  /** `getBreadcrumbs()`. */
  function Breadcrumbs(pathname: string, projects: seq<Project>): (r: seq<Crumb>)
    ensures 1 <= |r| <= 2
  {
    if pathname == "/dashboard" then [Crumb("Dashboard", "/dashboard")]
    else if pathname == "/my-tasks" then [Crumb("My Tasks", "/my-tasks")]
    else if pathname == "/inbox" then [Crumb("Inbox", "/inbox")]
    else if StartsWith(pathname, "/settings") then
      [Crumb("Settings", "/settings")]
      + (if pathname == "/settings/team" then [Crumb("Team", "/settings/team")]
         else if pathname == "/settings/profile" then [Crumb("Profile", "/settings/profile")]
         else [])
    else
      match ProjectOf(pathname, projects)
      case Some(p) =>
        [Crumb(p.name, ProjectsPrefix + p.id)]
        + (match ViewCrumb(pathname, p.id) case Some(c) => [c] case None => [])
      case None => [Home]
  }

  /** A path in a project never starts with "/settings". */
  lemma ProjectPathIsNotSettings(pathname: string)
    requires StartsWith(pathname, ProjectsPrefix)
    ensures !StartsWith(pathname, "/settings")
  {
    PrefixesClash(pathname, ProjectsPrefix, "/settings", 1);
  }

  /** Each of the three top-level pages has its own single crumb, and that
      crumb appears for no other path. */
  lemma PageCrumb(pathname: string, projects: seq<Project>, title: string, href: string)
    requires || (title == "Dashboard" && href == "/dashboard")
             || (title == "My Tasks" && href == "/my-tasks")
             || (title == "Inbox" && href == "/inbox")
    ensures Breadcrumbs(pathname, projects) == [Crumb(title, href)] <==> pathname == href
  {
    var r := Breadcrumbs(pathname, projects);
    if pathname != "/dashboard" && pathname != "/my-tasks" && pathname != "/inbox" {
      if StartsWith(pathname, "/settings") {
        assert r[0].href[1] == 's' != href[1];
      } else {
        var p := ProjectOf(pathname, projects);
        if p.Some? {
          assert r[0].href == ProjectsPrefix + p.value.id;
          assert r[0].href[1] == 'p' != href[1];
        }
      }
    }
  }

  /** Under "/settings": Settings first, then Team or Profile only for exactly
      those two pages. */
  lemma SettingsCrumbs(pathname: string, projects: seq<Project>)
    requires StartsWith(pathname, "/settings")
    ensures var r := Breadcrumbs(pathname, projects);
      && r[0] == Crumb("Settings", "/settings")
      && (|r| == 2 <==> pathname == "/settings/team" || pathname == "/settings/profile")
      && (pathname == "/settings/team" ==> r[1] == Crumb("Team", "/settings/team"))
      && (pathname == "/settings/profile" ==> r[1] == Crumb("Profile", "/settings/profile"))
  {
    PrefixesClash(pathname, "/settings", "/dashboard", 1);
    PrefixesClash(pathname, "/settings", "/my-tasks", 1);
    PrefixesClash(pathname, "/settings", "/inbox", 1);
  }

  /** In a known project: its name first, then at most the first matching view. */
  lemma ProjectCrumbs(pathname: string, projects: seq<Project>, p: Project)
    requires ProjectOf(pathname, projects) == Some(p)
    ensures var r := Breadcrumbs(pathname, projects);
      && ProjectIdOf(pathname) == Some(p.id)
      && r[0] == Crumb(p.name, ProjectsPrefix + p.id)
      && r[1..] == match ViewCrumb(pathname, p.id) case Some(c) => [c] case None => []
  {
    ProjectPathIsNotSettings(pathname);
    PrefixesClash(pathname, ProjectsPrefix, "/dashboard", 1);
    PrefixesClash(pathname, ProjectsPrefix, "/my-tasks", 1);
    PrefixesClash(pathname, ProjectsPrefix, "/inbox", 1);
  }

  /** Every other path has the single Home crumb, and only those do. */
  lemma HomeCrumb(pathname: string, projects: seq<Project>)
    ensures Breadcrumbs(pathname, projects) == [Home] <==>
      && pathname != "/dashboard" && pathname != "/my-tasks" && pathname != "/inbox"
      && !StartsWith(pathname, "/settings")
      && ProjectOf(pathname, projects).None?
  {
    var r := Breadcrumbs(pathname, projects);
    if pathname != "/dashboard" && pathname != "/my-tasks" && pathname != "/inbox"
       && !StartsWith(pathname, "/settings") {
      var p := ProjectOf(pathname, projects);
      if p.Some? {
        assert r[0].href == ProjectsPrefix + p.value.id;
        assert |r[0].href| > 1;
      }
    }
  }

  /** `showViewTabs`: a project was found and the path contains "/projects/". */
  predicate ShowViewTabs(pathname: string, projects: seq<Project>) {
    ProjectOf(pathname, projects).Some? && Contains(pathname, ProjectsPrefix)
  }

  /** The second test is implied by the first: tabs show iff a project was found. */
  lemma ShowViewTabsIff(pathname: string, projects: seq<Project>)
    ensures ShowViewTabs(pathname, projects) <==> ProjectOf(pathname, projects).Some?
  {
  }
}
