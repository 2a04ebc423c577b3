/** The sidebar of components/layout/sidebar.tsx: which projects are
    expanded, and which project and view links are highlighted. */
module Sidebar {
  import opened Seqs
  import opened Text
  import opened Types
  import Topbar

  /** The view paths of `PROJECT_VIEWS`. */
  const ProjectViews: seq<string> := ["board", "list", "calendar", "timeline"]

  /** The project link's highlight as written: `pathname.startsWith(`/projects/${id}`)`. */
  predicate IsProjectActiveAsWritten(pathname: string, projectId: string) {
    StartsWith(pathname, "/projects/" + projectId)
  }

  /** The bare prefix test also lights up a project whose id extends another's. */
  lemma ProjectPrefixOverlap()
    ensures IsProjectActiveAsWritten("/projects/12", "1")
    ensures "/projects/12" != "/projects/1" && !StartsWith("/projects/12", "/projects/1/")
  {
    assert "/projects/12"[..|"/projects/1"|] == "/projects/1";
    assert "/projects/12"[..|"/projects/1/"|][11] == '2' != "/projects/1/"[11];
  }

  /** The project link's highlight on whole path segments: the project page
      itself or a page below it. */
  predicate IsProjectActive(pathname: string, projectId: string) {
    pathname == "/projects/" + projectId || StartsWith(pathname, "/projects/" + projectId + "/")
  }

  /** The segment test implies the test as written, so it only drops false highlights. */
  lemma ActiveImpliesAsWritten(pathname: string, projectId: string)
    requires IsProjectActive(pathname, projectId)
    ensures IsProjectActiveAsWritten(pathname, projectId)
  {
    if pathname != "/projects/" + projectId {
      StartsWithConcat("/projects/" + projectId, "/", pathname);
    }
  }

  /** For a well-formed id, the segment test agrees with the project id the
      top bar extracts from the path. */
  lemma ActiveIffTopbarProject(pathname: string, projectId: string)
    requires projectId != "" && '/' !in projectId
    ensures IsProjectActive(pathname, projectId) <==> Topbar.ProjectIdOf(pathname) == Some(projectId)
  {
    Topbar.ProjectIdOfIff(pathname, projectId);
  }

  /** A view link is highlighted on exactly its own path. */
  predicate IsViewActive(pathname: string, projectId: string, view: string) {
    pathname == "/projects/" + projectId + "/" + view
  }

  /** A highlighted view link lies inside a highlighted project. */
  lemma ViewActiveImpliesProjectActive(pathname: string, projectId: string, view: string)
    requires IsViewActive(pathname, projectId, view)
    ensures IsProjectActive(pathname, projectId) && IsProjectActiveAsWritten(pathname, projectId)
  {
    var base := "/projects/" + projectId + "/";
    assert pathname == base + view;
    assert pathname[..|base|] == base;
    ActiveImpliesAsWritten(pathname, projectId);
  }

  /** At most one view of a project is highlighted. */
  lemma AtMostOneViewActive(pathname: string, projectId: string, v: string, w: string)
    requires IsViewActive(pathname, projectId, v) && IsViewActive(pathname, projectId, w)
    ensures v == w
  {
    var base := "/projects/" + projectId + "/";
    assert pathname == base + v && pathname == base + w;
    assert v == pathname[|base|..] == w;
  }

  class SidebarState {
    var expandedProjects: seq<string>

    constructor ()
      ensures expandedProjects == []
    {
      expandedProjects := [];
    }

    /** `isProjectExpanded(projectId)`. */
    predicate IsProjectExpanded(projectId: string)
      reads this
    {
      projectId in expandedProjects
    }

    /** `toggleProject(projectId)`. */
    method ToggleProject(projectId: string)
      modifies this
      ensures expandedProjects == Toggle(old(expandedProjects), projectId)
      ensures IsToggle(old(expandedProjects), projectId, expandedProjects)
      ensures IsProjectExpanded(projectId) <==> !old(IsProjectExpanded(projectId))
    {
      ToggleSpec(expandedProjects, projectId);
      if projectId in expandedProjects {
        expandedProjects := Remove(expandedProjects, projectId);
      } else {
        expandedProjects := expandedProjects + [projectId];
      }
    }
  }
}
