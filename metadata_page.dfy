/** The metadata page (src/app/dashboard/metadata/page.tsx): its list of records, the two
    loading flags, the add dialog's visibility and the toasts it raised. Each awaited request
    is sent on `api`; how it settled is a parameter. */
module MetadataPage {
  import opened Wrappers
  import opened Types
  import opened Http
  import opened RecordLists
  import opened Toasts
  import MetadataList

  const AdminUrl := "/metadata/unpublished/"
  const OwnUrl := "/metadata/me/"
  const GenericError := "An unexpected error occurred. Please try again."
  const ClearAfterMs: nat := 5000

  /** The fetch effect runs only with a user signed in and nothing listed yet. */
  predicate ShouldFetch(user: Option<User>, list: seq<Metadata>) {
    user.Some? && |list| == 0
  }

  /** Administrators review the unpublished records; everyone else sees their own. */
  function FetchUrl(user: User): (url: string)
    ensures url == AdminUrl <==> user.designation == "admin"
    ensures url == OwnUrl <==> user.designation != "admin"
  {
    if user.designation == "admin" then AdminUrl else OwnUrl
  }

  function DeleteUrl(id: string): string {
    "/metadata/" + id + "/"
  }

  /** Different records are deleted at different URLs. */
  lemma DeleteUrlInjective(a: string, b: string)
    requires DeleteUrl(a) == DeleteUrl(b)
    ensures a == b
  {
    AffixInjective("/metadata/", a, b, "/");
  }

  /** The failed delete's notice: the server's `detail` when it sent a non-empty one (the
      text is truthy), and otherwise the generic message; the notice is never empty. */
  function DeleteErrorDetail(detail: Option<string>): (shown: string)
    ensures detail.Some? && detail.value != "" ==> shown == detail.value
    ensures !(detail.Some? && detail.value != "") ==> shown == GenericError
    ensures shown != ""
  {
    if detail.Some? && detail.value != "" then detail.value else GenericError
  }

  function DeleteErrorToast(detail: Option<string>): Toast {
    Toast("error", None, DeleteErrorDetail(detail), StickyUntilCleared(ClearAfterMs))
  }

  /** Pressing the delete button of a row that is listed, and the delete succeeding, takes
      that row and every other row with its id off the list and keeps the rest. */
  lemma DeleteRowRemovesIt(list: seq<Metadata>, row: Metadata, busy: bool)
    requires row in list
    ensures var after := Without(list, MetadataId, MetadataList.Actions(row, busy).deleteTarget);
      && row !in after
      && (forall x :: x in after ==> x.id != row.id)
      && (forall x :: x in list && x.id != row.id ==> x in after)
  {
  }

  class Page {
    var metadataList: seq<Metadata>
    var loading: bool
    var singleMetadataLoading: bool
    var showMetadataModal: bool
    var toasts: seq<Toast>
    const api: RequestLog

    constructor (api: RequestLog)
      ensures metadataList == [] && !loading && !singleMetadataLoading && !showMetadataModal
      ensures toasts == [] && this.api == api
    {
      metadataList := [];
      loading := false;
      singleMetadataLoading := false;
      showMetadataModal := false;
      toasts := [];
      this.api := api;
    }

    /** `fetchMetadata`, run when `user` changes; `response` is how the GET settled. */
    method FetchMetadata(user: Option<User>, response: Outcome<seq<Metadata>>)
      modifies this, api
      ensures !ShouldFetch(user, old(metadataList)) ==>
        metadataList == old(metadataList) && loading == old(loading) && api.sent == old(api.sent)
      ensures ShouldFetch(user, old(metadataList)) ==>
        && api.sent == old(api.sent) + [Get(FetchUrl(user.value))]
        && metadataList == (if response.Success? then response.value else old(metadataList))
        && !loading
      ensures singleMetadataLoading == old(singleMetadataLoading)
      ensures showMetadataModal == old(showMetadataModal) && toasts == old(toasts)
    {
      if user.None? {
        return;
      }
      if |metadataList| > 0 {
        return;
      }
      loading := true;
      var fetchUrl := if user.value.designation == "admin" then AdminUrl else OwnUrl;
      api.Send(Get(fetchUrl));
      if response.Success? {
        metadataList := response.value;
      }
      loading := false;
    }

    /** `removeFromMetadataList`: the list without the records that have the id. */
    method RemoveFromMetadataList(id: string)
      modifies this
      ensures metadataList == Without(old(metadataList), MetadataId, id)
      ensures loading == old(loading) && singleMetadataLoading == old(singleMetadataLoading)
      ensures showMetadataModal == old(showMetadataModal) && toasts == old(toasts)
    {
      metadataList := Without(metadataList, MetadataId, id);
    }

    /** `updateMetadataList`: DELETE the record, and only once that resolved drop it from the
        list; on a rejection the list stays and a sticky error notice is raised. */
    method UpdateMetadataList(id: string, deleted: Outcome<()>)
      modifies this, api
      ensures api.sent == old(api.sent) + [Delete(DeleteUrl(id))]
      ensures deleted.Success? ==> metadataList == Without(old(metadataList), MetadataId, id) && toasts == old(toasts)
      ensures deleted.Failure? ==>
        metadataList == old(metadataList) && toasts == old(toasts) + [DeleteErrorToast(deleted.detail)]
      ensures !singleMetadataLoading
      ensures loading == old(loading) && showMetadataModal == old(showMetadataModal)
    {
      singleMetadataLoading := true;
      api.Send(Delete("/metadata/" + id + "/"));
      if deleted.Success? {
        metadataList := Without(metadataList, MetadataId, id);
      } else if deleted.detail.Some? && deleted.detail.value != "" {
        toasts := toasts + [Toast("error", None, deleted.detail.value, StickyUntilCleared(ClearAfterMs))];
      } else {
        toasts := toasts + [Toast("error", None, GenericError, StickyUntilCleared(ClearAfterMs))];
      }
      singleMetadataLoading := false;
    }

    /** The timer callback scheduled with each error notice: it empties the widget. */
    method ClearToasts()
      modifies this
      ensures toasts == []
      ensures metadataList == old(metadataList) && loading == old(loading)
      ensures singleMetadataLoading == old(singleMetadataLoading) && showMetadataModal == old(showMetadataModal)
    {
      toasts := [];
    }

    /** `addMetadata`: the new record goes last. */
    method AddMetadata(newItem: Metadata)
      modifies this
      ensures metadataList == old(metadataList) + [newItem]
      ensures loading == old(loading) && singleMetadataLoading == old(singleMetadataLoading)
      ensures showMetadataModal == old(showMetadataModal) && toasts == old(toasts)
    {
      metadataList := metadataList + [newItem];
    }

    /** `setShowMetadataModal`, passed to the list's add button and to the add form. */
    method SetShowMetadataModal(visible: bool)
      modifies this
      ensures showMetadataModal == visible
      ensures metadataList == old(metadataList) && loading == old(loading)
      ensures singleMetadataLoading == old(singleMetadataLoading) && toasts == old(toasts)
    {
      showMetadataModal := visible;
    }
  }
}
