/** The navigation sidebar (src/components/AppSidebar.tsx): a collapse flag
    and links whose highlighting is decided by comparing the current path with
    each link's target. */
module AppSidebar {
  import opened MockData

  /** The sidebar starts expanded. */
  const InitiallyCollapsed := false

  /** The chevron button: `setCollapsed(!collapsed)`. */
  function Toggle(collapsed: bool): (r: bool)
    ensures r != collapsed
  {
    !collapsed
  }

  /** The flag after `n` presses of the chevron. */
  function Pressed(collapsed: bool, n: nat): bool
    decreases n
  {
    if n == 0 then collapsed else Pressed(Toggle(collapsed), n - 1)
  }

  /** The flag after `n` presses differs from the start exactly when `n` is odd;
      in particular pressing twice restores it. */
  lemma {:induction false} PressedParity(collapsed: bool, n: nat)
    ensures Pressed(collapsed, n) == (if n % 2 == 0 then collapsed else !collapsed)
    decreases n
  {
    if n > 0 {
      PressedParity(Toggle(collapsed), n - 1);
    }
  }

  const ProjectsPrefix := "/projects/"

  /** The route of one project page: `/projects/${id}`. */
  function ProjectPath(id: string): (r: string)
    ensures |r| == |ProjectsPrefix| + |id|
    ensures r[..|ProjectsPrefix|] == ProjectsPrefix && r[|ProjectsPrefix|..] == id
  {
    ProjectsPrefix + id
  }

  /** A rendered `SidebarLink`: its target, caption, highlight, and whether the
      caption is drawn. */
  datatype Link = Link(target: string, caption: string, active: bool, labelShown: bool)

  /** What the sidebar draws for a path and a collapse flag. */
  datatype Sidebar = Sidebar(
    widthClass: string,
    brandShown: bool,
    chevronRotated: bool,
    projectsHeaderShown: bool,
    inbox: Link,
    projectLinks: seq<Link>,
    settings: Link,
    profile: Link)

  /** `projects.map(...)`: one link per project, in list order, highlighted
      by `isProjectActive`. */
  function ProjectLinks(projects: seq<Project>, pathname: string, collapsed: bool): (r: seq<Link>)
    ensures |r| == |projects|
    ensures forall i :: 0 <= i < |r| ==>
      && r[i].target == ProjectPath(projects[i].id)
      && r[i].caption == projects[i].name
      && r[i].active == (pathname == ProjectPath(projects[i].id))
      && r[i].labelShown == !collapsed
  {
    seq(|projects|, i requires 0 <= i < |projects| =>
      Link(ProjectPath(projects[i].id), projects[i].name,
           pathname == ProjectPath(projects[i].id), !collapsed))
  }

  function Render(projects: seq<Project>, pathname: string, collapsed: bool): (sb: Sidebar)
    ensures sb.widthClass == if collapsed then "w-14" else "w-60"
    ensures sb.brandShown == sb.projectsHeaderShown == !collapsed
    ensures sb.chevronRotated == collapsed
    ensures sb.inbox.target == "/dashboard" && sb.inbox.caption == "Inbox"
    ensures sb.inbox.active <==> pathname == "/dashboard"
    ensures sb.projectLinks == ProjectLinks(projects, pathname, collapsed)
    ensures sb.settings.target == "/dashboard" && sb.settings.caption == "Settings"
    ensures sb.profile.target == "/dashboard" && sb.profile.caption == "Profile"
    ensures !sb.settings.active && !sb.profile.active
    ensures sb.inbox.labelShown == sb.settings.labelShown == sb.profile.labelShown == !collapsed
  {
    Sidebar(
      if collapsed then "w-14" else "w-60",
      !collapsed,
      collapsed,
      !collapsed,
      Link("/dashboard", "Inbox", pathname == "/dashboard", !collapsed),
      ProjectLinks(projects, pathname, collapsed),
      Link("/dashboard", "Settings", false, !collapsed),
      Link("/dashboard", "Profile", false, !collapsed))
  }

  /** Every link of the sidebar, top to bottom. */
  function AllLinks(sb: Sidebar): seq<Link>
  {
    [sb.inbox] + sb.projectLinks + [sb.settings, sb.profile]
  }

  // ---------------------------------------------------------------------------
  // Properties
  // ---------------------------------------------------------------------------

  /** Collapsing hides every label and the brand; expanding shows them all. */
  lemma CollapseHidesLabels(projects: seq<Project>, pathname: string, collapsed: bool)
    ensures forall l :: l in AllLinks(Render(projects, pathname, collapsed)) ==> l.labelShown == !collapsed
    ensures Render(projects, pathname, collapsed).brandShown == !collapsed
  {
  }

  /** The sidebar opens expanded, and after `n` presses it is collapsed
      exactly when `n` is odd. */
  lemma InitialSidebar(projects: seq<Project>, pathname: string, n: nat)
    ensures Render(projects, pathname, InitiallyCollapsed).widthClass == "w-60"
    ensures Render(projects, pathname, InitiallyCollapsed).brandShown
    ensures Pressed(InitiallyCollapsed, n) <==> n % 2 == 1
  {
    PressedParity(InitiallyCollapsed, n);
  }

  /** The project path determines the project id. */
  lemma ProjectPathInjective(a: string, b: string)
    ensures ProjectPath(a) == ProjectPath(b) <==> a == b
  {
  }

  /** An active project link names the project whose id follows "/projects/"
      in the path. */
  lemma ActiveProjectLinkNamesProject(projects: seq<Project>, pathname: string, collapsed: bool, i: int)
    requires 0 <= i < |projects|
    requires Render(projects, pathname, collapsed).projectLinks[i].active
    ensures |pathname| >= |ProjectsPrefix|
    ensures pathname[..|ProjectsPrefix|] == ProjectsPrefix
    ensures projects[i].id == pathname[|ProjectsPrefix|..]
  {
  }

  /** With distinct project ids, at most one project link is highlighted,
      and never together with the inbox. */
  lemma AtMostOneProjectActive(projects: seq<Project>, pathname: string, collapsed: bool)
    requires forall i, j :: 0 <= i < j < |projects| ==> projects[i].id != projects[j].id
    ensures forall i, j ::
              (&& 0 <= i < |projects| && 0 <= j < |projects|
               && Render(projects, pathname, collapsed).projectLinks[i].active
               && Render(projects, pathname, collapsed).projectLinks[j].active)
              ==> i == j
    ensures Render(projects, pathname, collapsed).inbox.active ==>
      forall i :: 0 <= i < |projects| ==> !Render(projects, pathname, collapsed).projectLinks[i].active
  {
    var links := Render(projects, pathname, collapsed).projectLinks;
    forall i, j | 0 <= i < |projects| && 0 <= j < |projects| && links[i].active && links[j].active
      ensures i == j
    {
      ProjectPathInjective(projects[i].id, projects[j].id);
    }
    if pathname == "/dashboard" {
      forall i | 0 <= i < |projects|
        ensures !links[i].active
      {
        assert ProjectPath(projects[i].id)[1] == 'p' && "/dashboard"[1] == 'd';
      }
    }
  }

  /** On the dataset, the path of "proj-2" highlights exactly the second project link. */
  lemma DatasetSidebarScenario()
    ensures |Render(Projects, "/projects/proj-2", false).projectLinks| == 3
    ensures Render(Projects, "/projects/proj-2", false).projectLinks[1].active
    ensures !Render(Projects, "/projects/proj-2", false).projectLinks[0].active
    ensures !Render(Projects, "/projects/proj-2", false).projectLinks[2].active
    ensures !Render(Projects, "/projects/proj-2", false).inbox.active
  {
  }
}
