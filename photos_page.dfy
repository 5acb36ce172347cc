/** The photos page (src/app/dashboard/photos/page.tsx). */
module PhotosPage {
  import opened Wrappers
  import opened Types
  import opened Http
  import opened RecordLists
  import opened Toasts
  import PhotoList

  const FetchUrl := "/photos/"

  const DeleteErrorToast := Toast("error", Some("Error"), "Error deleting photo", Timed(3000))

  /** Unlike the other pages, the fetch is guarded by the user alone. */
  predicate ShouldFetch(user: Option<User>) {
    user.Some?
  }

  function DeleteUrl(id: string): string {
    "/photos/" + id
  }

  lemma DeleteUrlInjective(a: string, b: string)
    requires DeleteUrl(a) == DeleteUrl(b)
    ensures a == b
  {
    AffixInjective("/photos/", a, b, "");
    assert "/photos/" + a + "" == DeleteUrl(a);
    assert "/photos/" + b + "" == DeleteUrl(b);
  }

  /** Pressing a listed row's delete button, and the delete succeeding, leaves no row with its id. */
  lemma DeleteRowRemovesIt(list: seq<Photo>, row: Photo, busy: bool)
    requires row in list
    ensures var after := Without(list, PhotoId, PhotoList.Actions(row, busy).deleteTarget);
      && row !in after
      && (forall x :: x in after ==> x.id != row.id)
      && (forall x :: x in list && x.id != row.id ==> x in after)
  {
  }

  class Page {
    var photoList: seq<Photo>
    var loading: bool
    var singlePhotoLoading: bool
    var showPhotoModal: bool
    var toasts: seq<Toast>
    const api: RequestLog

    constructor (api: RequestLog)
      ensures photoList == [] && !loading && !singlePhotoLoading && !showPhotoModal
      ensures toasts == [] && this.api == api
    {
      photoList := [];
      loading := false;
      singlePhotoLoading := false;
      showPhotoModal := false;
      toasts := [];
      this.api := api;
    }

    /** `fetchPhotos`, run when `user` changes: with a user it always refetches, whatever is listed. */
    method FetchPhotos(user: Option<User>, response: Outcome<seq<Photo>>)
      modifies this, api
      ensures !ShouldFetch(user) ==>
        photoList == old(photoList) && loading == old(loading) && api.sent == old(api.sent)
      ensures ShouldFetch(user) ==>
        && api.sent == old(api.sent) + [Get(FetchUrl)]
        && photoList == (if response.Success? then response.value else old(photoList))
        && !loading
      ensures singlePhotoLoading == old(singlePhotoLoading)
      ensures showPhotoModal == old(showPhotoModal) && toasts == old(toasts)
    {
      if user.None? {
        return;
      }
      loading := true;
      api.Send(Get(FetchUrl));
      if response.Success? {
        photoList := response.value;
      }
      loading := false;
    }

    /** `updatePhotoList`: DELETE, then drop the records with the id; on a rejection the list
        stays and a timed error notice is raised. */
    method UpdatePhotoList(id: string, deleted: Outcome<()>)
      modifies this, api
      ensures api.sent == old(api.sent) + [Delete(DeleteUrl(id))]
      ensures deleted.Success? ==> photoList == Without(old(photoList), PhotoId, id) && toasts == old(toasts)
      ensures deleted.Failure? ==> photoList == old(photoList) && toasts == old(toasts) + [DeleteErrorToast]
      ensures !singlePhotoLoading
      ensures loading == old(loading) && showPhotoModal == old(showPhotoModal)
    {
      singlePhotoLoading := true;
      api.Send(Delete("/photos/" + id));
      if deleted.Success? {
        photoList := Without(photoList, PhotoId, id);
      } else {
        toasts := toasts + [DeleteErrorToast];
      }
      singlePhotoLoading := false;
    }

    /** `addPhoto`: the new record goes last. */
    method AddPhoto(newItem: Photo)
      modifies this
      ensures photoList == old(photoList) + [newItem]
      ensures loading == old(loading) && singlePhotoLoading == old(singlePhotoLoading)
      ensures showPhotoModal == old(showPhotoModal) && toasts == old(toasts)
    {
      photoList := photoList + [newItem];
    }

    method SetShowPhotoModal(visible: bool)
      modifies this
      ensures showPhotoModal == visible
      ensures photoList == old(photoList) && loading == old(loading)
      ensures singlePhotoLoading == old(singlePhotoLoading) && toasts == old(toasts)
    {
      showPhotoModal := visible;
    }
  }
}
