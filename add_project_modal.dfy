/** The add-project form (src/app/components/addProjectModal.tsx). It reports back to the
    projects page through the page's `addProject` and `setShowProjectModal`. */
module AddProjectModal {
  import opened Wrappers
  import opened Types
  import opened Http
  import opened Badges
  import ProjectsPage

  const GenericError := "An unexpected error occurred. Please try again."
  const ProjectsUrl := "/projects/"

  datatype ProjectFormValues = ProjectFormValues(
    title: string,
    description: string,
    longitude: string,
    latitude: string,
    lake: string)

  function Payload(data: ProjectFormValues, user: User): seq<Entry> {
    [ Entry("title", Text(data.title)),
      Entry("description", Text(data.description)),
      Entry("longitude", Text(data.longitude)),
      Entry("latitude", Text(data.latitude)),
      Entry("lake", Text(data.lake)),
      Entry("uploader", Text(user.username)) ]
  }

  /** The body names each field once: the entered values and the signed-in user as uploader. */
  lemma PayloadFields(data: ProjectFormValues, user: User)
    ensures var p := Payload(data, user);
      && DistinctNames(p)
      && Lookup(p, "title") == Some(Text(data.title))
      && Lookup(p, "description") == Some(Text(data.description))
      && Lookup(p, "longitude") == Some(Text(data.longitude))
      && Lookup(p, "latitude") == Some(Text(data.latitude))
      && Lookup(p, "lake") == Some(Text(data.lake))
      && Lookup(p, "uploader") == Some(Text(user.username))
  {
    var p := Payload(data, user);
    LookupDistinct(p, 0);
    LookupDistinct(p, 1);
    LookupDistinct(p, 2);
    LookupDistinct(p, 3);
    LookupDistinct(p, 4);
    LookupDistinct(p, 5);
  }

  method BuildPayload(data: ProjectFormValues, user: User) returns (body: seq<Entry>)
    ensures body == Payload(data, user)
  {
    var formData := new FormData();
    formData.Append("title", Text(data.title));
    formData.Append("description", Text(data.description));
    formData.Append("longitude", Text(data.longitude));
    formData.Append("latitude", Text(data.latitude));
    formData.Append("lake", Text(data.lake));
    formData.Append("uploader", Text(user.username));
    body := formData.entries;
  }

  /** The record handed to the page: the entered values, the signed-in user as uploader and
      the pending status, shown as the amber "Pending" chip. */
  function NewProject(data: ProjectFormValues, user: User, id: string): (p: Project)
    ensures p.id == id && p.uploader == user.username
    ensures p.title == data.title && p.description == data.description
    ensures p.longitude == data.longitude && p.latitude == data.latitude && p.lake == data.lake
    ensures StatusOf(p.status) == Some(Pending) && StatusBadge(p.status) == Badge("Pending", Amber)
  {
    Project(id, data.title, data.description, data.longitude, data.latitude, data.lake, user.username, "pending")
  }

  class Form {
    var loading: bool
    var messages: seq<string>
    const api: RequestLog
    const page: ProjectsPage.Page

    constructor (api: RequestLog, page: ProjectsPage.Page)
      ensures !loading && messages == [] && this.api == api && this.page == page
    {
      loading := false;
      messages := [];
      this.api := api;
      this.page := page;
    }

    /** `onSubmit`; the POST's response body is not read. */
    method OnSubmit(data: ProjectFormValues, user: Option<User>, posted: Outcome<()>, freshId: string)
      modifies this, api, page
      ensures !loading
      ensures user.None? ==>
        && messages == []
        && api.sent == old(api.sent)
        && page.projectList == old(page.projectList) && page.showProjectModal == old(page.showProjectModal)
      ensures user.Some? ==>
        && api.sent == old(api.sent) + [Post(ProjectsUrl, Payload(data, user.value))]
        && (posted.Success? ==>
              && page.projectList == old(page.projectList) + [NewProject(data, user.value, freshId)]
              && !page.showProjectModal
              && messages == [])
        && (posted.Failure? ==>
              && page.projectList == old(page.projectList)
              && page.showProjectModal == old(page.showProjectModal)
              && messages == [GenericError])
      ensures page.loading == old(page.loading) && page.singleProjectLoading == old(page.singleProjectLoading)
      ensures page.toasts == old(page.toasts)
    {
      loading := true;
      messages := [];
      if user.None? {
        loading := false;
        return;
      }
      var body := BuildPayload(data, user.value);
      api.Send(Post(ProjectsUrl, body));
      if posted.Success? {
        var newProjectItem := Project(freshId, data.title, data.description, data.longitude,
          data.latitude, data.lake, user.value.username, "pending");
        page.AddProject(newProjectItem);
        page.SetShowProjectModal(false);
      } else {
        messages := messages + [GenericError];
      }
      loading := false;
    }
  }
}
