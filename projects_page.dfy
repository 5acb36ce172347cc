/** The projects page (src/app/dashboard/projects/page.tsx). Its list starts as the
    `sampleProjects` fixture of src/app/utils/sampleArticles.ts. */
module ProjectsPage {
  import opened Wrappers
  import opened Types
  import opened Http
  import opened RecordLists
  import opened Toasts
  import ProjectList

  const FetchUrl := "/projects/"

  /** The two fixture projects the page starts with. */
  const SampleProjects: seq<Project> := [
    Project("1", "Lake Victoria Conservation Initiative",
      "A project focused on the conservation of biodiversity in Lake Victoria, with an emphasis on sustainable fishing practices and pollution control.",
      "32.817222", "-1.286389", "Lake Victoria", "jdoe", "pending"),
    Project("2", "Lake Tanganyika Water Quality Study",
      "This project aims to monitor and improve the water quality in Lake Tanganyika by analyzing various pollutants and implementing corrective measures.",
      "29.480833", "-6.274444", "Lake Tanganyika", "asmith", "approved")
  ]

  const DeleteErrorToast := Toast("error", Some("Error"), "Error deleting project", Timed(3000))

  predicate ShouldFetch(user: Option<User>, list: seq<Project>) {
    user.Some? && |list| == 0
  }

  /** The fixture is never empty, so the guarded fetch never fires from the initial list. */
  lemma FixtureNeverFetches(user: Option<User>)
    ensures |SampleProjects| == 2 && !ShouldFetch(user, SampleProjects)
  {
  }

  function DeleteUrl(id: string): string {
    "/projects/" + id
  }

  lemma DeleteUrlInjective(a: string, b: string)
    requires DeleteUrl(a) == DeleteUrl(b)
    ensures a == b
  {
    AffixInjective("/projects/", a, b, "");
    assert "/projects/" + a + "" == DeleteUrl(a);
    assert "/projects/" + b + "" == DeleteUrl(b);
  }

  /** Pressing a listed row's delete button, and the delete succeeding, leaves no row with its id. */
  lemma DeleteRowRemovesIt(list: seq<Project>, row: Project, busy: bool)
    requires row in list
    ensures var after := Without(list, ProjectId, ProjectList.Actions(row, busy).deleteTarget);
      && row !in after
      && (forall x :: x in after ==> x.id != row.id)
      && (forall x :: x in list && x.id != row.id ==> x in after)
  {
  }

  class Page {
    var projectList: seq<Project>
    var loading: bool
    var singleProjectLoading: bool
    var showProjectModal: bool
    var toasts: seq<Toast>
    const api: RequestLog

    constructor (api: RequestLog)
      ensures projectList == SampleProjects && !loading && !singleProjectLoading && !showProjectModal
      ensures toasts == [] && this.api == api
    {
      projectList := SampleProjects;
      loading := false;
      singleProjectLoading := false;
      showProjectModal := false;
      toasts := [];
      this.api := api;
    }

    /** `fetchProjects`, run when `user` changes. */
    method FetchProjects(user: Option<User>, response: Outcome<seq<Project>>)
      modifies this, api
      ensures !ShouldFetch(user, old(projectList)) ==>
        projectList == old(projectList) && loading == old(loading) && api.sent == old(api.sent)
      ensures ShouldFetch(user, old(projectList)) ==>
        && api.sent == old(api.sent) + [Get(FetchUrl)]
        && projectList == (if response.Success? then response.value else old(projectList))
        && !loading
      ensures singleProjectLoading == old(singleProjectLoading)
      ensures showProjectModal == old(showProjectModal) && toasts == old(toasts)
    {
      if user.None? {
        return;
      }
      if |projectList| > 0 {
        return;
      }
      loading := true;
      api.Send(Get(FetchUrl));
      if response.Success? {
        projectList := response.value;
      }
      loading := false;
    }

    /** `updateProjectList`: DELETE, then drop the records with the id; on a rejection the
        list stays and a timed error notice is raised. */
    method UpdateProjectList(id: string, deleted: Outcome<()>)
      modifies this, api
      ensures api.sent == old(api.sent) + [Delete(DeleteUrl(id))]
      ensures deleted.Success? ==> projectList == Without(old(projectList), ProjectId, id) && toasts == old(toasts)
      ensures deleted.Failure? ==> projectList == old(projectList) && toasts == old(toasts) + [DeleteErrorToast]
      ensures !singleProjectLoading
      ensures loading == old(loading) && showProjectModal == old(showProjectModal)
    {
      singleProjectLoading := true;
      api.Send(Delete("/projects/" + id));
      if deleted.Success? {
        projectList := Without(projectList, ProjectId, id);
      } else {
        toasts := toasts + [DeleteErrorToast];
      }
      singleProjectLoading := false;
    }

    /** `addProject`: the new record goes last. */
    method AddProject(newItem: Project)
      modifies this
      ensures projectList == old(projectList) + [newItem]
      ensures loading == old(loading) && singleProjectLoading == old(singleProjectLoading)
      ensures showProjectModal == old(showProjectModal) && toasts == old(toasts)
    {
      projectList := projectList + [newItem];
    }

    method SetShowProjectModal(visible: bool)
      modifies this
      ensures showProjectModal == visible
      ensures projectList == old(projectList) && loading == old(loading)
      ensures singleProjectLoading == old(singleProjectLoading) && toasts == old(toasts)
    {
      showProjectModal := visible;
    }
  }
}
