/** The add-photo form (src/app/components/addPhotoModal.tsx). It reports back to the photos
    page through the page's `addPhoto` and `setShowPhotoModal`. */
module AddPhotoModal {
  import opened Wrappers
  import opened Types
  import opened Http
  import PhotosPage

  const GenericError := "An unexpected error occurred. Please try again."
  const PhotosUrl := "/photos/"

  datatype PhotoFormValues = PhotoFormValues(
    captureDate: Option<Date>,
    lake: string,
    file: Option<File>,
    description: string)

  /** What the server answers a created photo with: its id and the stored image's URL. */
  datatype PhotoResponse = PhotoResponse(id: string, image: string)

  /** `capture_date?.toISOString() || ""`: the ISO text of the date, or "" without one. */
  function CaptureDateText(date: Option<Date>): (t: string)
    ensures date.None? ==> t == ""
    ensures date.Some? ==> t == date.value.iso
  {
    match date
    case Some(d) => d.iso
    case None => ""
  }

  /** The text fields, appended after the image. */
  function TextEntries(data: PhotoFormValues, user: User): seq<Entry> {
    [ Entry("capture_date", Text(CaptureDateText(data.captureDate))),
      Entry("lake", Text(data.lake)),
      Entry("description", Text(data.description)),
      Entry("uploader", Text(user.username)),
      Entry("published_by", Text(user.username)) ]
  }

  function Payload(data: PhotoFormValues, user: User): seq<Entry> {
    (if data.file.Some? then [Entry("image", Blob(data.file.value))] else [])
    + TextEntries(data, user)
  }

  /** Looking a text field up in the text entries. */
  lemma TextEntriesFields(data: PhotoFormValues, user: User)
    ensures var t := TextEntries(data, user);
      && DistinctNames(t)
      && (forall i :: 0 <= i < |t| ==> t[i].name != "image")
      && Lookup(t, "image") == None
      && Lookup(t, "capture_date") == Some(Text(CaptureDateText(data.captureDate)))
      && Lookup(t, "lake") == Some(Text(data.lake))
      && Lookup(t, "description") == Some(Text(data.description))
      && Lookup(t, "uploader") == Some(Text(user.username))
      && Lookup(t, "published_by") == Some(Text(user.username))
  {
    var t := TextEntries(data, user);
    LookupDistinct(t, 0);
    LookupDistinct(t, 1);
    LookupDistinct(t, 2);
    LookupDistinct(t, 3);
    LookupDistinct(t, 4);
  }

  /** With a file chosen, the image leads the body and the text fields follow unchanged. */
  lemma PayloadWithImage(data: PhotoFormValues, user: User)
    requires data.file.Some?
    ensures var p := Payload(data, user);
      && DistinctNames(p)
      && Lookup(p, "image") == Some(Blob(data.file.value))
      && Lookup(p, "capture_date") == Some(Text(CaptureDateText(data.captureDate)))
      && Lookup(p, "lake") == Some(Text(data.lake))
      && Lookup(p, "description") == Some(Text(data.description))
      && Lookup(p, "uploader") == Some(Text(user.username))
      && Lookup(p, "published_by") == Some(Text(user.username))
  {
    var t := TextEntries(data, user);
    var e := Entry("image", Blob(data.file.value));
    TextEntriesFields(data, user);
    assert Payload(data, user) == [e] + t;
    DistinctCons(e, t);
    LookupCons(e, t, "image");
    LookupCons(e, t, "capture_date");
    LookupCons(e, t, "lake");
    LookupCons(e, t, "description");
    LookupCons(e, t, "uploader");
    LookupCons(e, t, "published_by");
  }

  /** Without a file the body is the text fields alone. */
  lemma PayloadWithoutImage(data: PhotoFormValues, user: User)
    requires data.file.None?
    ensures var p := Payload(data, user);
      && DistinctNames(p)
      && Lookup(p, "image") == None
      && Lookup(p, "capture_date") == Some(Text(CaptureDateText(data.captureDate)))
      && Lookup(p, "lake") == Some(Text(data.lake))
      && Lookup(p, "description") == Some(Text(data.description))
      && Lookup(p, "uploader") == Some(Text(user.username))
      && Lookup(p, "published_by") == Some(Text(user.username))
  {
    var t := TextEntries(data, user);
    assert Payload(data, user) == [] + t == t;
    TextEntriesFields(data, user);
  }

  /** The body names each field once; the image is in it exactly when a file was chosen, the
      date is "" without one, and both the uploader and the publisher are the signed-in user. */
  lemma PayloadFields(data: PhotoFormValues, user: User)
    ensures var p := Payload(data, user);
      && DistinctNames(p)
      && Lookup(p, "image") == (if data.file.Some? then Some(Blob(data.file.value)) else None)
      && Lookup(p, "capture_date") == Some(Text(CaptureDateText(data.captureDate)))
      && Lookup(p, "lake") == Some(Text(data.lake))
      && Lookup(p, "description") == Some(Text(data.description))
      && Lookup(p, "uploader") == Some(Text(user.username))
      && Lookup(p, "published_by") == Lookup(p, "uploader")
  {
    if data.file.Some? {
      PayloadWithImage(data, user);
    } else {
      PayloadWithoutImage(data, user);
    }
  }

  method BuildPayload(data: PhotoFormValues, user: User) returns (body: seq<Entry>)
    ensures body == Payload(data, user)
  {
    var formData := new FormData();
    if data.file.Some? {
      formData.Append("image", Blob(data.file.value));
    }
    formData.Append("capture_date", Text(CaptureDateText(data.captureDate)));
    formData.Append("lake", Text(data.lake));
    formData.Append("description", Text(data.description));
    formData.Append("uploader", Text(user.username));
    formData.Append("published_by", Text(user.username));
    body := formData.entries;
  }

  /** The record handed to the page: id and image from the response, the date as entered
      (possibly none), lake and description from the form, the signed-in user as uploader. */
  function NewPhoto(data: PhotoFormValues, user: User, created: PhotoResponse): (p: Photo)
    ensures p.id == created.id && p.image == created.image
    ensures p.captureDate == data.captureDate && p.lake == data.lake && p.description == data.description
    ensures p.uploader == user.username
  {
    Photo(created.id, data.captureDate, data.lake, data.description, user.username, created.image)
  }

  class Form {
    var loading: bool
    var messages: seq<string>
    const api: RequestLog
    const page: PhotosPage.Page

    constructor (api: RequestLog, page: PhotosPage.Page)
      ensures !loading && messages == [] && this.api == api && this.page == page
    {
      loading := false;
      messages := [];
      this.api := api;
      this.page := page;
    }

    /** `onSubmit`. It checks only the user itself; the image field's `required` rule is
        library validation, assumed passed like the others. */
    method OnSubmit(data: PhotoFormValues, user: Option<User>, response: Outcome<PhotoResponse>)
      modifies this, api, page
      ensures !loading
      ensures user.None? ==>
        && messages == []
        && api.sent == old(api.sent)
        && page.photoList == old(page.photoList) && page.showPhotoModal == old(page.showPhotoModal)
      ensures user.Some? ==>
        && api.sent == old(api.sent) + [Post(PhotosUrl, Payload(data, user.value))]
        && (response.Success? ==>
              && page.photoList == old(page.photoList) + [NewPhoto(data, user.value, response.value)]
              && !page.showPhotoModal
              && messages == [])
        && (response.Failure? ==>
              && page.photoList == old(page.photoList)
              && page.showPhotoModal == old(page.showPhotoModal)
              && messages == [GenericError])
      ensures page.loading == old(page.loading) && page.singlePhotoLoading == old(page.singlePhotoLoading)
      ensures page.toasts == old(page.toasts)
    {
      loading := true;
      messages := [];
      if user.None? {
        loading := false;
        return;
      }
      var body := BuildPayload(data, user.value);
      api.Send(Post(PhotosUrl, body));
      if response.Success? {
        var newPhotoItem := Photo(response.value.id, data.captureDate, data.lake, data.description,
          user.value.username, response.value.image);
        page.AddPhoto(newPhotoItem);
        page.SetShowPhotoModal(false);
      } else {
        messages := messages + [GenericError];
      }
      loading := false;
    }
  }
}
