/** The add-metadata form (src/app/components/addMetadataModal.tsx). It reports back to the
    metadata page through the page's `addMetadata` and `setShowMetadataModal`. */
module AddMetadataModal {
  import opened Wrappers
  import opened Types
  import opened Http
  import opened Badges
  import MetadataPage

  const FileMessage := "Please select a file"
  const GenericError := "An unexpected error occurred. Please try again."
  const MetadataUrl := "/metadata/"

  datatype MetadataFormValues = MetadataFormValues(
    title: string,
    email: string,
    period: string,
    description: string,
    lake: string,
    file: Option<File>)

  function Payload(data: MetadataFormValues, user: User, file: File): seq<Entry> {
    [ Entry("title", Text(data.title)),
      Entry("email", Text(data.email)),
      Entry("period", Text(data.period)),
      Entry("description", Text(data.description)),
      Entry("lake", Text(data.lake)),
      Entry("uploader", Text(user.username)),
      Entry("file", Blob(file)) ]
  }

  /** The body names each field once: the entered values, the signed-in user as uploader, then the file. */
  lemma PayloadFields(data: MetadataFormValues, user: User, file: File)
    ensures var p := Payload(data, user, file);
      && DistinctNames(p)
      && Lookup(p, "title") == Some(Text(data.title))
      && Lookup(p, "email") == Some(Text(data.email))
      && Lookup(p, "period") == Some(Text(data.period))
      && Lookup(p, "description") == Some(Text(data.description))
      && Lookup(p, "lake") == Some(Text(data.lake))
      && Lookup(p, "uploader") == Some(Text(user.username))
      && Lookup(p, "file") == Some(Blob(file))
  {
    var p := Payload(data, user, file);
    LookupDistinct(p, 0);
    LookupDistinct(p, 1);
    LookupDistinct(p, 2);
    LookupDistinct(p, 3);
    LookupDistinct(p, 4);
    LookupDistinct(p, 5);
    LookupDistinct(p, 6);
  }

  method BuildPayload(data: MetadataFormValues, user: User, file: File) returns (body: seq<Entry>)
    ensures body == Payload(data, user, file)
  {
    var formData := new FormData();
    formData.Append("title", Text(data.title));
    formData.Append("email", Text(data.email));
    formData.Append("period", Text(data.period));
    formData.Append("description", Text(data.description));
    formData.Append("lake", Text(data.lake));
    formData.Append("uploader", Text(user.username));
    formData.Append("file", Blob(file));
    body := formData.entries;
  }

  /** The record handed to the page: the entered values, the signed-in user as uploader, the
      stored file's URL from the response, and the pending status, which the table shows as
      the amber "Pending" chip. */
  function NewMetadata(data: MetadataFormValues, user: User, fileUrl: string, id: string): (m: Metadata)
    ensures m.id == id && m.uploader == user.username && m.file == fileUrl
    ensures m.title == data.title && m.email == data.email && m.period == data.period
    ensures m.description == data.description && m.lake == data.lake
    ensures StatusOf(m.status) == Some(Pending) && StatusBadge(m.status) == Badge("Pending", Amber)
  {
    Metadata(id, data.title, data.email, data.period, data.description, data.lake, user.username, fileUrl, "pending")
  }

  class Form {
    var errors: map<string, string>
    var loading: bool
    /** The form's message strip. */
    var messages: seq<string>
    const api: RequestLog
    const page: MetadataPage.Page

    constructor (api: RequestLog, page: MetadataPage.Page)
      ensures errors == map[] && !loading && messages == []
      ensures this.api == api && this.page == page
    {
      errors := map[];
      loading := false;
      messages := [];
      this.api := api;
      this.page := page;
    }

    /** `onSubmit`; `response` is how the POST settled, carrying `response.data.file`. */
    method OnSubmit(data: MetadataFormValues, user: Option<User>, response: Outcome<string>, freshId: string)
      modifies this, api, page
      ensures data.file.None? ==>
        && errors == old(errors)["file" := FileMessage]
        && loading == old(loading) && messages == old(messages)
        && api.sent == old(api.sent)
        && page.metadataList == old(page.metadataList) && page.showMetadataModal == old(page.showMetadataModal)
      ensures data.file.Some? ==> errors == old(errors) && !loading
      ensures data.file.Some? && user.None? ==>
        && messages == []
        && api.sent == old(api.sent)
        && page.metadataList == old(page.metadataList) && page.showMetadataModal == old(page.showMetadataModal)
      ensures data.file.Some? && user.Some? ==>
        && api.sent == old(api.sent) + [Post(MetadataUrl, Payload(data, user.value, data.file.value))]
        && (response.Success? ==>
              && page.metadataList == old(page.metadataList) + [NewMetadata(data, user.value, response.value, freshId)]
              && !page.showMetadataModal
              && messages == [])
        && (response.Failure? ==>
              && page.metadataList == old(page.metadataList)
              && page.showMetadataModal == old(page.showMetadataModal)
              && messages == [GenericError])
      ensures page.loading == old(page.loading) && page.singleMetadataLoading == old(page.singleMetadataLoading)
      ensures page.toasts == old(page.toasts)
    {
      if data.file.None? {
        errors := errors["file" := FileMessage];
        return;
      }
      loading := true;
      messages := [];
      if user.None? {
        loading := false;
        return;
      }
      var body := BuildPayload(data, user.value, data.file.value);
      api.Send(Post(MetadataUrl, body));
      if response.Success? {
        var newMetadataItem := Metadata(freshId, data.title, data.email, data.period, data.description,
          data.lake, user.value.username, response.value, "pending");
        page.AddMetadata(newMetadataItem);
        page.SetShowMetadataModal(false);
      } else {
        messages := messages + [GenericError];
      }
      loading := false;
    }
  }
}
