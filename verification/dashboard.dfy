/** The project dashboard: the loaded project list, the search box's derived
    view of it, and the create, edit, delete and join handlers. */
module Dashboard {
  import opened Common
  import opened Text
  import opened Seqs
  import Decimal
  import Layout

  /** A project as the API returns it; an absent `joined` reads as false. */
  datatype Project = Project(
    id: int,
    title: string,
    description: string,
    startDate: string,
    endDate: string,
    createdAt: string,
    updatedAt: string,
    joined: bool)

  /** The search test, against the already lowered query. */
  predicate ProjectMatches(p: Project, lowerQuery: string)
  {
    Contains(Lower(p.title), lowerQuery) || Contains(Lower(p.description), lowerQuery)
  }

  /** The search effect: the projects whose title or description contains the
      query, ignoring ASCII case, in list order. */
  function SearchProjects(projects: seq<Project>, query: string): (r: seq<Project>)
    ensures forall p :: p in r ==> p in projects && ProjectMatches(p, Lower(query))
    ensures forall i :: 0 <= i < |projects| && ProjectMatches(projects[i], Lower(query)) ==> projects[i] in r
    ensures IsSubsequence(r, projects)
    ensures forall p :: multiset(r)[p] == if ProjectMatches(p, Lower(query)) then multiset(projects)[p] else 0
  {
    FilterIsSubsequence(projects, (p: Project) => ProjectMatches(p, Lower(query)));
    FilterCount(projects, (p: Project) => ProjectMatches(p, Lower(query)));
    Filter(projects, (p: Project) => ProjectMatches(p, Lower(query)))
  }

  /** An empty search box shows every project. */
  lemma SearchEmptyKeepsAll(projects: seq<Project>)
    ensures SearchProjects(projects, "") == projects
  {
    forall p | p in projects ensures ProjectMatches(p, Lower("")) {
      assert Contains(Lower(p.title), Lower(""));
    }
    FilterKeepsAll(projects, (p: Project) => ProjectMatches(p, Lower("")));
  }

  /** Searching the search result again with the same query changes nothing. */
  lemma SearchIdempotent(projects: seq<Project>, query: string)
    ensures SearchProjects(SearchProjects(projects, query), query) == SearchProjects(projects, query)
  {
    FilterIdempotent(projects, (p: Project) => ProjectMatches(p, Lower(query)));
  }

  /** The query's own case does not matter. */
  lemma SearchIgnoresQueryCase(projects: seq<Project>, query: string)
    ensures SearchProjects(projects, Lower(query)) == SearchProjects(projects, query)
  {
    LowerIdempotent(query);
    FilterCongruent(projects, (p: Project) => ProjectMatches(p, Lower(Lower(query))),
                              (p: Project) => ProjectMatches(p, Lower(query)));
  }

  /** `prev.map((p) => p.id === id ? updated : p)`. */
  function ReplaceById(projects: seq<Project>, id: int, updated: Project): (r: seq<Project>)
    ensures |r| == |projects|
    ensures forall i :: 0 <= i < |projects| && projects[i].id == id ==> r[i] == updated
    ensures forall i :: 0 <= i < |projects| && projects[i].id != id ==> r[i] == projects[i]
  {
    Map(projects, (p: Project) => if p.id == id then updated else p)
  }

  /** Replacing an id no project has leaves the list as it was. */
  lemma ReplaceAbsentIdUnchanged(projects: seq<Project>, id: int, updated: Project)
    requires forall p :: p in projects ==> p.id != id
    ensures ReplaceById(projects, id, updated) == projects
  {
  }

  /** A reply that keeps the id makes a second identical edit change nothing. */
  lemma ReplaceByIdIdempotent(projects: seq<Project>, id: int, updated: Project)
    requires updated.id == id
    ensures ReplaceById(ReplaceById(projects, id, updated), id, updated) == ReplaceById(projects, id, updated)
  {
  }

  /** `prev.filter((p) => p.id !== id)`. */
  function RemoveById(projects: seq<Project>, id: int): (r: seq<Project>)
    ensures forall p :: p in r ==> p in projects && p.id != id
    ensures forall i :: 0 <= i < |projects| && projects[i].id != id ==> projects[i] in r
    ensures IsSubsequence(r, projects)
    ensures forall p :: multiset(r)[p] == if p.id != id then multiset(projects)[p] else 0
  {
    FilterIsSubsequence(projects, (p: Project) => p.id != id);
    FilterCount(projects, (p: Project) => p.id != id);
    Filter(projects, (p: Project) => p.id != id)
  }

  /** Deleting an id no project has leaves the list as it was. */
  lemma RemoveAbsentIdUnchanged(projects: seq<Project>, id: int)
    requires forall p :: p in projects ==> p.id != id
    ensures RemoveById(projects, id) == projects
  {
    FilterKeepsAll(projects, (p: Project) => p.id != id);
  }

  /** After creating a project with a fresh id, the server's project is the
      only one in the list that carries that id. */
  lemma CreatedIsOnlyHolderOfItsId(projects: seq<Project>, created: Project)
    requires forall p :: p in projects ==> p.id != created.id
    ensures created in projects + [created]
    ensures forall p :: p in projects + [created] && p.id == created.id ==> p == created
  {
  }

  /** The route of a project's task list, `/project/${id}`. */
  function ProjectPath(id: int): (r: string)
    ensures StartsWith(r, "/project/") && |r| > |"/project/"|
    ensures Decimal.NumberOf(r[|"/project/"|..]) == Some(id)
  {
    Decimal.IntRoundTrip(id);
    assert ("/project/" + Decimal.IntToString(id))[|"/project/"|..] == Decimal.IntToString(id);
    "/project/" + Decimal.IntToString(id)
  }

  /** The page a project card leads to is headed "Task List". */
  lemma ProjectPathTitledTaskList(id: int)
    ensures Layout.PageTitle(ProjectPath(id), Some(Decimal.IntToString(id))) == "Task List"
  {
    assert ProjectPath(id)[..|"/project/"|] == "/project/";
    Layout.ProjectPathWithIdIsTaskList(ProjectPath(id), Some(Decimal.IntToString(id)));
  }

  /** What a click on a project card's button does: the alert it raises and
      the route it navigates to, if any. */
  datatype CardClick = CardClick(alert: Option<string>, navigateTo: Option<string>)

  /** `handleJoinProject`: always alerts, and opens the project only when
      the join request succeeds. */
  function JoinProject(id: int, joinReply: Outcome<()>): (r: CardClick)
    ensures r.navigateTo.Some? <==> joinReply.Ok?
    ensures r.navigateTo.Some? ==> r.navigateTo.value == ProjectPath(id)
    ensures r.alert.Some? && r.alert.value != ""
    ensures joinReply.Ok? ==> r.alert == Some("Berhasil join project!")
    ensures joinReply.Err? ==> r.alert == Some(OrElse(joinReply.message, "Gagal join project"))
  {
    match joinReply
    case Ok(_) => CardClick(Some("Berhasil join project!"), Some(ProjectPath(id)))
    case Err(m) => CardClick(Some(OrElse(m, "Gagal join project")), None)
  }

  /** A card's button: a joined project opens directly, any other goes
      through the join request. */
  function ProjectButton(p: Project, joinReply: Outcome<()>): (r: CardClick)
    ensures r.navigateTo.Some? <==> p.joined || joinReply.Ok?
    ensures r.navigateTo.Some? ==> r.navigateTo.value == ProjectPath(p.id)
    ensures r.alert.Some? <==> !p.joined
    ensures p.joined ==> r == CardClick(None, Some(ProjectPath(p.id)))
    ensures !p.joined ==> r == JoinProject(p.id, joinReply)
  {
    if p.joined then CardClick(None, Some(ProjectPath(p.id))) else JoinProject(p.id, joinReply)
  }

  /** The dashboard component's state. */
  class DashboardPage {
    var projects: seq<Project>
    var search: string
    var filteredProjects: seq<Project>
    var openAdd: bool
    var openEditId: Option<int>
    var loading: bool

    /** The search effect has run on the current list and query. */
    ghost predicate Valid()
      reads this
    {
      filteredProjects == SearchProjects(projects, search)
    }

    /** The mounted page, after its search effect ran on the empty list. */
    constructor ()
      ensures projects == [] && search == "" && filteredProjects == []
      ensures !openAdd && openEditId == None && !loading
      ensures Valid()
    {
      projects, search, filteredProjects := [], "", [];
      openAdd, openEditId, loading := false, None, false;
      SearchEmptyKeepsAll([]);
    }

    /** The effect on `[search, projects]`, re-run whenever either changes. */
    method SearchEffect()
      modifies this`filteredProjects
      ensures filteredProjects == SearchProjects(projects, search)
      ensures Valid()
    {
      filteredProjects := SearchProjects(projects, search);
    }

    /** The search box's `onValueChange`. */
    method SetSearch(query: string)
      modifies this`search, this`filteredProjects
      ensures search == query
      ensures filteredProjects == SearchProjects(projects, query)
      ensures Valid()
    {
      search := query;
      SearchEffect();
    }

    /** The load on mount: on success both lists take the data (the search
        effect then re-filters it); a failure is only logged. */
    method Load(reply: Outcome<seq<Project>>)
      modifies this`projects, this`filteredProjects, this`loading
      ensures !loading
      ensures reply.Ok? ==> projects == reply.value
      ensures reply.Ok? ==> filteredProjects == SearchProjects(reply.value, search)
      ensures reply.Ok? && search == "" ==> filteredProjects == reply.value
      ensures reply.Err? ==> projects == old(projects) && filteredProjects == old(filteredProjects)
      ensures old(Valid()) ==> Valid()
    {
      loading := true;
      if reply.Ok? {
        projects := reply.value;
        filteredProjects := reply.value;
        SearchEffect();
        if search == "" {
          SearchEmptyKeepsAll(reply.value);
        }
      }
      loading := false;
    }

    /** `handleAddProject`: the server's project is appended; the dialog
        closes whether or not the request succeeded. */
    method AddProject(reply: Outcome<Project>) returns (notice: Notice)
      modifies this`projects, this`filteredProjects, this`openAdd
      ensures !openAdd
      ensures reply.Ok? ==> projects == old(projects) + [reply.value]
      ensures reply.Ok? ==> notice == Success("Project created successfully!")
      ensures reply.Err? ==> projects == old(projects) && filteredProjects == old(filteredProjects)
      ensures reply.Err? ==> notice == Failure("Failed to create project")
      ensures old(Valid()) ==> Valid()
    {
      match reply {
        case Ok(created) =>
          projects := projects + [created];
          openAdd := false;
          SearchEffect();
          notice := Success("Project created successfully!");
        case Err(_) =>
          openAdd := false;
          notice := Failure("Failed to create project");
      }
    }

    /** `handleEditProject`: every project with the id becomes the server's
        project; the edit dialog closes on both paths. */
    method EditProject(id: int, reply: Outcome<Project>) returns (notice: Notice)
      modifies this`projects, this`filteredProjects, this`openEditId
      ensures openEditId == None
      ensures reply.Ok? ==> projects == ReplaceById(old(projects), id, reply.value)
      ensures reply.Ok? ==> notice == Success("Project updated successfully!")
      ensures reply.Err? ==> projects == old(projects) && filteredProjects == old(filteredProjects)
      ensures reply.Err? ==> notice == Failure("Failed to update project")
      ensures old(Valid()) ==> Valid()
    {
      match reply {
        case Ok(updated) =>
          projects := ReplaceById(projects, id, updated);
          openEditId := None;
          SearchEffect();
          notice := Success("Project updated successfully!");
        case Err(_) =>
          openEditId := None;
          notice := Failure("Failed to update project");
      }
    }

    /** `handleDeleteProject`: nothing happens unless the dialog is
        confirmed; then the projects with the id go only if the request
        succeeds. `reply` is not consulted when the user declines. */
    method DeleteProject(id: int, confirmed: bool, reply: Outcome<()>) returns (notice: Option<Notice>)
      modifies this`projects, this`filteredProjects
      ensures !confirmed ==> projects == old(projects) && filteredProjects == old(filteredProjects) && notice == None
      ensures confirmed && reply.Ok? ==> projects == RemoveById(old(projects), id)
      ensures confirmed && reply.Ok? ==> notice == Some(Success("Project deleted successfully!"))
      ensures confirmed && reply.Err? ==> projects == old(projects) && filteredProjects == old(filteredProjects)
      ensures confirmed && reply.Err? ==> notice == Some(Failure("Failed to delete project"))
      ensures old(Valid()) ==> Valid()
    {
      notice := None;
      if confirmed {
        if reply.Ok? {
          projects := RemoveById(projects, id);
          SearchEffect();
          notice := Some(Success("Project deleted successfully!"));
        } else {
          notice := Some(Failure("Failed to delete project"));
        }
      }
    }
  }
}
