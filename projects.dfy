/**
 * The projects page: the project list with its search and status filter, who may create a
 * project, and the handlers that open the project dialog.
 */
module Projects {
  import opened Common
  import opened Roles
  import opened Text
  import opened Seqs
  import opened Ui
  import opened ProjectCard

  /** A project passes when its title or description contains the term and its status is chosen. */
  predicate ProjectMatches(p: Project, term: string, statusFilter: string)
    ensures term == "" && statusFilter == "all" ==> ProjectMatches(p, term, statusFilter)
    ensures ProjectMatches(p, term, statusFilter) && statusFilter != "all" ==> p.status == statusFilter
  {
    MatchesEmptyTerm(p.title);
    (MatchesIgnoringCase(p.title, term) || (p.description.Some? && MatchesIgnoringCase(p.description.value, term)))
    && (statusFilter == "all" || p.status == statusFilter)
  }

  /** `filteredProjects`: the passing projects in their order. */
  function FilterProjects(projects: seq<Project>, term: string, statusFilter: string): (r: seq<Project>)
    ensures IsSubsequence(r, projects)
    ensures forall i :: 0 <= i < |r| ==> ProjectMatches(r[i], term, statusFilter)
    ensures forall i :: 0 <= i < |projects| && ProjectMatches(projects[i], term, statusFilter) ==> projects[i] in r
    ensures multiset(r) <= multiset(projects)
    ensures forall i :: 0 <= i < |projects| && ProjectMatches(projects[i], term, statusFilter) ==> multiset(r)[projects[i]] == multiset(projects)[projects[i]]
  {
    var keep := (p: Project) => ProjectMatches(p, term, statusFilter);
    FilterIsSubsequence(projects, keep);
    FilterMultiset(projects, keep);
    Filter(projects, keep)
  }

  /** A null description matches nothing but leaves a title match standing. */
  lemma NullDescriptionLeavesTitle(p: Project, term: string, statusFilter: string)
    requires p.description.None?
    ensures ProjectMatches(p, term, statusFilter) <==>
      MatchesIgnoringCase(p.title, term) && (statusFilter == "all" || p.status == statusFilter)
  {
  }

  /** With an empty search term and the `all` filter every project is listed, in order. */
  lemma EmptySearchListsAll(projects: seq<Project>)
    ensures FilterProjects(projects, "", "all") == projects
  {
    forall i | 0 <= i < |projects| ensures ProjectMatches(projects[i], "", "all") {
      MatchesEmptyTerm(projects[i].title);
    }
    FilterAll(projects, (p: Project) => ProjectMatches(p, "", "all"));
  }

  /** A status filter other than `all` lists only projects of that status. */
  lemma StatusFilterSelectsStatus(projects: seq<Project>, term: string, status: string)
    requires status != "all"
    ensures forall i :: 0 <= i < |FilterProjects(projects, term, status)| ==> FilterProjects(projects, term, status)[i].status == status
  {
  }

  /** `canCreateProject`. */
  predicate CanCreateProject(role: Option<UserRole>)
    ensures CanCreateProject(role) ==> role.Some? && role.value.Known?
  {
    role == Some(Known(ProjectOwner)) || role == Some(Known(ProjectManager)) || role == Some(Known(SystemAdmin))
  }

  /** Whoever may create a project may edit one, and conversely. */
  lemma CreateProjectIffEdit(role: Option<UserRole>)
    ensures CanCreateProject(role) <==> CanEdit(role)
    ensures CanCreateProject(role) <==> role.Some? && role.value.Known? && role.value.role in EditorRoles
  {
    CanEditIffEditorRole(role);
  }

  /** The request of the page: reading the project list. */
  datatype ProjectsRequest = SelectProjects

  /** The page's state. */
  class ProjectsPage {
    var projects: seq<Project>
    var loading: bool
    var searchTerm: string
    var statusFilter: string
    var dialogOpen: bool
    var selectedProject: Option<Project>

    constructor ()
      ensures projects == [] && loading && searchTerm == "" && statusFilter == "all"
      ensures !dialogOpen && selectedProject.None?
    {
      projects, loading, searchTerm, statusFilter := [], true, "", "all";
      dialogOpen, selectedProject := false, None;
    }

    /** The cards the page shows. */
    function Visible(): (r: seq<Project>)
      reads this
      ensures IsSubsequence(r, projects)
    {
      FilterProjects(projects, searchTerm, statusFilter)
    }

    /** `fetchProjects`: the rows replace the list (null as none); an error keeps it. */
    method FetchProjects(answer: Loaded<Project>) returns (effects: seq<Effect<ProjectsRequest>>)
      modifies this
      ensures answer.Loaded? ==> projects == RowsOr(answer.data) && effects == [Send(SelectProjects)]
      ensures answer.LoadFailed? ==> projects == old(projects) && effects == [Send(SelectProjects), ShowToast(Error("Failed to load projects"))]
      ensures !loading
      ensures searchTerm == old(searchTerm) && statusFilter == old(statusFilter)
      ensures dialogOpen == old(dialogOpen) && selectedProject == old(selectedProject)
    {
      effects := [Send(SelectProjects)];
      if answer.Loaded? {
        projects := RowsOr(answer.data);
      } else {
        effects := effects + [ShowToast(Error("Failed to load projects"))];
      }
      loading := false;
    }

    /** `handleCreateProject`: the dialog opens with no project, so it starts from the defaults. */
    method HandleCreateProject()
      modifies this
      ensures selectedProject.None? && dialogOpen
      ensures projects == old(projects) && loading == old(loading)
      ensures searchTerm == old(searchTerm) && statusFilter == old(statusFilter)
    {
      selectedProject := None;
      dialogOpen := true;
    }

    /** `handleEditProject`: the dialog opens on the given project. */
    method HandleEditProject(p: Project)
      modifies this
      ensures selectedProject == Some(p) && dialogOpen
      ensures projects == old(projects) && loading == old(loading)
      ensures searchTerm == old(searchTerm) && statusFilter == old(statusFilter)
    {
      selectedProject := Some(p);
      dialogOpen := true;
    }

    /** `handleProjectSaved`: the list is read again and the dialog closes. */
    method HandleProjectSaved(answer: Loaded<Project>) returns (effects: seq<Effect<ProjectsRequest>>)
      modifies this
      ensures answer.Loaded? ==> projects == RowsOr(answer.data)
      ensures answer.LoadFailed? ==> projects == old(projects)
      ensures |effects| >= 1 && effects[0] == Send(SelectProjects)
      ensures !dialogOpen && !loading && selectedProject == old(selectedProject)
    {
      effects := FetchProjects(answer);
      dialogOpen := false;
    }
  }
}
