# Lakes dynamic dashboard — a Dafny model of its client-side logic

The dashboard is a React front end for a lake-research data portal. Signed-in users submit and
manage publications, metadata records, photos and research projects, and each record carries a
moderation status. This project models the decisions the front end makes itself:

- the two reducer-backed contexts: the session store and the publications cache;
- the private HTTP client's 401 interceptor, which refreshes the session, replays the request
  once, or logs out;
- the metadata, projects and photos pages, each keeping its own list with fetch guards, deletes
  that drop a row only once the server accepted them, append on create and loading flags;
- the table cell helpers: truncation, status chips, comma joins and the delete-button rule;
- the four create forms: the checks they make, the multipart body they post, and the record they
  hand back.

Modules follow the source files:

| module (file) | models |
|---|---|
| `Reducers` | the `useReducer` contract: the state is the reducer folded over the dispatches |
| `Wrappers`, `Types` (types.dfy) | `Option`; the records the pages and forms build and read |
| `Strings` | JavaScript `trim`, `slice(0, n) + "..."` and `join` |
| `RecordLists` | the `filter` by id and `map` replace by id that every list uses |
| `Http`, `Toasts` | multipart bodies (`FormData`), the log of requests sent, how a call settles, toast notices |
| `AuthContext` | src/app/contexts/authContext.tsx |
| `ArticlesContext` | src/app/contexts/articlesContext.tsx |
| `RefreshToken` | src/app/hooks/useRefreshToken.ts |
| `MetadataPage`, `ProjectsPage`, `PhotosPage` | src/app/dashboard/{metadata,projects,photos}/page.tsx |
| `Badges`, `MetadataList`, `ProjectList`, `PhotoList`, `ArticleList` | the list components |
| `AddArticleModal`, `AddMetadataModal`, `AddPhotoModal`, `AddProjectModal` | the create forms |

Conventions used throughout the model:

- **Reducers.** Each reducer is a pure `Reduce` together with its fold `ReduceAll`, which is
  the shared `Reducers.Fold`. The provider classes keep the reducer's `state` and the log of
  everything `dispatched`. Their invariant `Valid()` says the state is the fold of that log
  over the initial state.
- **Requests.** An awaited request is written to a `RequestLog`, and how it settled is a
  parameter (`Outcome`: success with the response data, or a rejection with the server's
  `detail` when there is one).
- **The interceptor.** It is specified on values. A `World` holds a script of backend replies
  (one per request, in order; once the script runs out, requests get no response), the requests
  sent, and the session actions the handler dispatched. `Call`/`Handle` give the outcome. The
  class `PrivateApi`, which updates request configs' `_retry` mark in place, is proved to
  produce exactly that outcome.
- **Page and form classes.** A page is a class whose fields are its `useState` slots. A form is
  a class holding its own state, and it calls back into the page or context the source passes
  it.

Where the code departs from what its interfaces and messages suggest, the model follows the code:

- **Refresh bound.** The code does not bound refreshes per request. A 401 from the refresh
  endpoint starts another refresh; see Findings.
- **Whose session a logout clears.** AuthContextProvider calls `useRefreshToken` on every
  render (src/app/contexts/authContext.tsx:80), above its own context provider. Each handler it
  registers therefore sees the `createContext` default (lines 28-34), whose `dispatch` does
  nothing. Axios runs response handlers in the order they were registered. The loading gate
  (lines 121-125) hides the children until after the provider's first render, so no child
  registers a handler earlier. A no-op handler therefore comes first for every request in the
  app. It marks `_retry`, refreshes, logs out, and dispatches a REMOVE_USER that never reaches
  the session store. A failed refresh thus leaves the user signed in unless the caller's own
  catch clears the session, as `fetchUser`'s does; see Findings. In `PrivateApi`, `store ==
  null` is this configuration, and a connected `store` is the intended one.
- **Failed logout.** When the refresh fails and the logout POST then fails as well, the handler
  rejects with the logout's error and never dispatches REMOVE_USER. The session is therefore not
  cleared on that path.
- **Delete button.** It is disabled only while a delete of that page is in progress, not by the
  record's status. No approve, reject or edit actions exist in these components.
- **Delete-error toasts.** The project and photo pages' toasts last 3000 ms. Only the metadata
  page clears its sticky notice after 5000 ms.
- **Article form failure.** A failed publication POST shows nothing: the error display is
  commented out.
- **Article shape.** The article record is the shape the form builds and the list reads (`authors`,
  `publicationDate`, `selectedLakes`, `approved`), not the `Article` interface of
  src/app/utils/types.ts.

## Model

| member | source | states |
|---|---|---|
| Types.StatusOf | src/app/components/metadataList.tsx:114-143 | only the three lower-case moderation words are read as a status, and each reads back as the word it came from |
| Types.StatusRoundTrip | src/app/components/metadataList.tsx:120-138 | every status's wire word reads back as that status |
| Strings.TrimStart | src/app/components/addArticleModal.tsx:61 | the result is the longest suffix not starting with ECMAScript whitespace, and everything dropped is whitespace |
| Strings.TrimEnd | src/app/components/addArticleModal.tsx:61 | the result is the longest prefix not ending with whitespace, and everything dropped is whitespace |
| Strings.Trim | src/app/components/addArticleModal.tsx:61 | the trimmed text is no longer than the input and neither starts nor ends with whitespace |
| Strings.TrimBlankIff | src/app/components/addArticleModal.tsx:61 | a name trims to the empty string exactly when it is all whitespace |
| Strings.Truncate | src/app/components/metadataList.tsx:84-87 | text within the limit is shown unchanged; longer text shows its first `limit` characters and "...", so at most `limit + 3` characters |
| Strings.TruncateIdempotent | src/app/components/projectList.tsx:76-79 | truncating an already shown text changes nothing |
| Strings.TruncateSameIff | src/app/components/projectList.tsx:89-92 | two texts show alike exactly when they are equal or both overflow with the same prefix |
| Strings.Join | src/app/components/articleList.tsx:19 | no parts join to "", and one part joins to itself |
| Strings.JoinAppend | src/app/components/articleList.tsx:19 | joining two non-empty lists is joining each with one separator between them |
| Strings.JoinLength | src/app/components/articleList.tsx:96-99 | a join's length is the parts' total length plus one separator per gap |
| RecordLists.Without | src/app/contexts/articlesContext.tsx:48-52 | the result keeps exactly the records whose id differs, and is no longer than the input |
| RecordLists.WithoutConcat | src/app/contexts/articlesContext.tsx:51 | filtering distributes over concatenation, so kept records keep their order |
| RecordLists.WithoutAbsent | src/app/contexts/articlesContext.tsx:51 | filtering by an id no record has returns the list unchanged |
| RecordLists.WithoutIdempotent | src/app/dashboard/metadata/page.tsx:44-49 | removing the same id twice removes nothing more |
| RecordLists.AppendThenWithout | src/app/dashboard/metadata/page.tsx:44-92 | appending a record with a new id and then removing that id restores the list |
| RecordLists.ReplaceById | src/app/contexts/articlesContext.tsx:53-59 | the length is kept, positions with the new record's id hold the new record, and all others are unchanged |
| RecordLists.ReplaceByIdIdempotent | src/app/contexts/articlesContext.tsx:56-58 | a second identical replacement changes nothing |
| Http.FormData.Append | src/app/components/addArticleModal.tsx:79-90 | an append adds one named entry at the end of the body |
| Reducers.FoldAppend | src/app/contexts/authContext.tsx:78 | dispatching one sequence of actions and then another leaves the same state as dispatching them joined |
| AuthContext.Reduce | src/app/contexts/authContext.tsx:46-71 | SET_USER stores the user and ends loading; REMOVE_USER clears the user and ends loading; SET_LOADING changes only loading; any other action changes nothing |
| AuthContext.FetchUserActions | src/app/contexts/authContext.tsx:86-108 | three dispatches: SET_LOADING(true), then SET_USER with the profile on success or REMOVE_USER exactly on failure, then SET_LOADING(false) |
| AuthContext.FetchUserSettles | src/app/contexts/authContext.tsx:86-108 | from any state, the fetch leaves loading false and the user equal to the profile, or none on failure |
| AuthContext.Gate | src/app/contexts/authContext.tsx:121-125 | the children are shown exactly when loading is false |
| AuthContext.GateOpensAfterFetch | src/app/contexts/authContext.tsx:28-32 | the app starts on the loading screen, and after the profile fetch it shows the children whatever the fetch yields |
| AuthContext.AuthProvider.constructor | src/app/contexts/authContext.tsx:78 | the store starts as user none and loading true, with nothing dispatched |
| AuthContext.AuthProvider.Dispatch | src/app/contexts/authContext.tsx:78 | a dispatch logs the action and applies the reducer, keeping the state equal to the fold of the log |
| AuthContext.AuthProvider.OnUserChange | src/app/contexts/authContext.tsx:82-112 | with a user present nothing is dispatched; otherwise exactly the fetch's three actions are dispatched |
| ArticlesContext.Reduce | src/app/contexts/articlesContext.tsx:41-89 | SET_LOADING, SET_ERROR and SET_ARTICLES store their payload in their own field and change nothing else; each flag changes only under the actions that name it, flag actions leave the list alone, and an unknown action changes nothing |
| ArticlesContext.AddArticleAppends | src/app/contexts/articlesContext.tsx:46-47 | ADD_ARTICLE grows the list by one, keeps every earlier article, puts the new one last and touches nothing else |
| ArticlesContext.RemoveArticleFilters | src/app/contexts/articlesContext.tsx:48-52 | REMOVE_ARTICLE leaves no article with the id, keeps every other article in order, and is the identity when the id is absent |
| ArticlesContext.UpdateArticleReplaces | src/app/contexts/articlesContext.tsx:53-59 | UPDATE_ARTICLE keeps the length, replaces exactly the matching articles, and is the identity when the id is absent |
| ArticlesContext.ModalActionsIdempotent | src/app/contexts/articlesContext.tsx:76-85 | SHOW and HIDE set only the modal flag, and each one applied twice equals applying it once |
| ArticlesContext.SetArticlesLoadingKeepsModal | src/app/contexts/articlesContext.tsx:69-75 | SET_ARTICLES_LOADING sets list, loading and error together and keeps the modal flag |
| ArticlesContext.FetchArticlesActions | src/app/contexts/articlesContext.tsx:102-125 | SET_LOADING(true), then one SET_ARTICLES_LOADING with loading false, which carries an error exactly when the wait rejected |
| ArticlesContext.FetchArticlesSettles | src/app/contexts/articlesContext.tsx:102-125 | after the effect, loading is false and the modal flag is unchanged; the list is the fixture, or [] with "Error fetching articles" |
| ArticlesContext.ArticlesProvider.constructor | src/app/contexts/articlesContext.tsx:91-100 | the cache starts empty, not loading, without an error and with the form hidden |
| ArticlesContext.ArticlesProvider.Dispatch | src/app/contexts/articlesContext.tsx:100 | a dispatch logs the action and applies the reducer, keeping the state equal to the fold of the log |
| ArticlesContext.ArticlesProvider.FetchArticles | src/app/contexts/articlesContext.tsx:102-125 | the mount effect dispatches exactly the two fetch actions |
| RefreshToken.Call | src/app/hooks/useRefreshToken.ts:6-9 | each call sends its request first, through the private client with the config's mark, consumes no more replies than exist, and only ever adds to the sent log and the dispatches |
| RefreshToken.Handle | src/app/hooks/useRefreshToken.ts:10-32 | the handler only adds to the sent log and the dispatches, and a marked config stays marked |
| RefreshToken.SuccessPassesThrough | src/app/hooks/useRefreshToken.ts:7-9 | a 2xx response resolves the call with its body after exactly one request |
| RefreshToken.OtherErrorsForwarded | src/app/hooks/useRefreshToken.ts:12-16 | with no response, a status other than 401, or the config already marked, the handler rejects with the same error and sends and dispatches nothing |
| RefreshToken.MarkedRequestSentOnce | src/app/hooks/useRefreshToken.ts:12-23 | a marked request is sent once and settles with its own reply, so a 401 on the replay is rejected without another refresh |
| RefreshToken.FirstUnauthorizedRefreshes | src/app/hooks/useRefreshToken.ts:17-31 | on the first 401 the config is marked and the refresh POST is sent next. If the refresh resolves, the outcome is the marked replay. If it fails, a logout POST goes through the public client: on success REMOVE_USER is dispatched and the original error (not the refresh error) is the rejection; if the logout fails, its error is the rejection |
| RefreshToken.NestedRefreshes | src/app/hooks/useRefreshToken.ts:19-22 | as written, a refresh request answered by k 401s sends k + 1 refresh requests |
| RefreshToken.RefreshStorm | src/app/hooks/useRefreshToken.ts:17-31 | as written, one request against n + 1 401 answers leads to n + 1 refresh requests and a rejection; with nothing answered after the 401s, the logouts fail too and no REMOVE_USER is dispatched |
| RefreshToken.EachLevelLogsOut | src/app/hooks/useRefreshToken.ts:17-31 | as written, when the logouts are answered each failed nested refresh logs out and dispatches REMOVE_USER, and the call rejects with its own 401 |
| RefreshToken.ExpiredSessionAsWritten | src/app/contexts/authContext.tsx:80 | as written, the first handler dispatches into the default context: after an expired session's refresh fails it issues REMOVE_USER twice, the call rejects with its 401, and the signed-in user stays in the store |
| RefreshToken.ExpiredSessionConnected | src/app/hooks/useRefreshToken.ts:5-28 | with the handler connected to the session store, the same expired session ends with no user and loading false, the store having received exactly the two REMOVE_USER dispatches |
| RefreshToken.GuardedRefreshAtMostOnce | src/app/hooks/useRefreshToken.ts:17-31 | with the refresh request pre-marked, any request leads to at most one refresh and at most three requests in all |
| RefreshToken.PrivateApi.Request | src/app/hooks/useRefreshToken.ts:6-23 | the imperative client ends with exactly the outcome, config mark, replies, sent log and dispatches that `Call` gives; a connected session store receives exactly those dispatches, and the default context receives none |
| RefreshToken.PrivateApi.OnRejected | src/app/hooks/useRefreshToken.ts:10-32 | the imperative handler, which marks `originalRequest._retry` in place, ends exactly as `Handle` says, and its REMOVE_USER reaches the session store only when it is connected to one |
| Badges.StatusBadge | src/app/components/metadataList.tsx:114-143 | the chip is blank exactly for text that is not one of the three lower-case words, and otherwise has that status's label and colour |
| Badges.ApprovalBadge | src/app/components/articleList.tsx:22-45 | the chip is blank exactly for text that is not one of the three capitalised labels, and otherwise has that label and its colour |
| Badges.BadgesAgree | src/app/components/articleList.tsx:27-42 | the two switches give the same chip for a status in their own spelling, and the blank chip for the other spelling |
| Badges.StatusBadgeInjective | src/app/components/projectList.tsx:116-134 | two rows with the same non-blank chip have the same status text |
| MetadataList.TitleText | src/app/components/metadataList.tsx:83-94 | the title unchanged up to 20 characters, otherwise its first 20 and "..."; at most 23 characters, starting with the title's prefix |
| MetadataList.ApprovalChip | src/app/components/metadataList.tsx:63-67 | the approval cell reads the row's `status` (not the column's `approved` field) through the lower-case switch |
| MetadataList.Actions | src/app/components/metadataList.tsx:146-168 | delete is disabled exactly while a delete is in progress and targets the row's id; download links the row's file |
| ProjectList.TitleText | src/app/components/projectList.tsx:75-86 | 20-character truncation with "..." |
| ProjectList.DescriptionText | src/app/components/projectList.tsx:88-98 | 30-character truncation with "..." |
| ProjectList.StatusChip | src/app/components/projectList.tsx:110-140 | the lower-case switch, blank for anything else |
| ProjectList.Actions | src/app/components/projectList.tsx:142-161 | delete is disabled exactly while a delete is in progress and targets the row's id |
| PhotoList.DescriptionText | src/app/components/photoList.tsx:70-80 | 30-character truncation with "..." |
| PhotoList.Actions | src/app/components/photoList.tsx:110-132 | delete is disabled exactly while a delete is in progress and targets the row's id; download links the image |
| ArticleList.AuthorsText | src/app/components/articleList.tsx:18-20 | the authors joined with ", " in order: "" for none, the name itself for one, and one separator per gap |
| ArticleList.LakesText | src/app/components/articleList.tsx:96-99 | the selected lakes joined the same way |
| ArticleList.LakesTextExtends | src/app/components/articleList.tsx:96-99 | selecting one more lake adds ", " and that lake at the end of the cell |
| ArticleList.AuthorsTextExtends | src/app/components/articleList.tsx:19 | adding an author at the end adds ", " and that name at the end of the cell |
| ArticleList.ApprovalChip | src/app/components/articleList.tsx:22-45 | the cell reads `approved` through the capitalised switch |
| ArticleList.ShowArticlesModalClicked | src/app/components/articleList.tsx:12-16 | the button dispatches exactly SHOW_ARTICLES_MODAL, which opens the form and changes nothing else |
| MetadataPage.FetchUrl | src/app/dashboard/metadata/page.tsx:30-31 | "/metadata/unpublished/" exactly when the designation is "admin", "/metadata/me/" exactly otherwise |
| MetadataPage.DeleteUrlInjective | src/app/dashboard/metadata/page.tsx:53 | different ids are deleted at different URLs |
| MetadataPage.DeleteErrorDetail | src/app/dashboard/metadata/page.tsx:59-83 | the server's non-empty detail, or else the generic message; never empty |
| MetadataPage.DeleteRowRemovesIt | src/app/components/metadataList.tsx:151-153 | a successful delete from a listed row's button leaves no row with its id and keeps every other row |
| MetadataPage.Page.constructor | src/app/dashboard/metadata/page.tsx:15-18 | the page starts with an empty list, both loading flags false and the dialog hidden |
| MetadataPage.Page.FetchMetadata | src/app/dashboard/metadata/page.tsx:23-42 | with no user or a non-empty list nothing happens; otherwise one GET to the role's URL, the list replaced by the data on success and unchanged on failure, and loading false afterwards |
| MetadataPage.Page.RemoveFromMetadataList | src/app/dashboard/metadata/page.tsx:44-49 | the list becomes the filtered list |
| MetadataPage.Page.UpdateMetadataList | src/app/dashboard/metadata/page.tsx:50-87 | one DELETE; on success the list is filtered, on failure it is unchanged and a sticky notice with the detail text is raised, cleared after 5000 ms; the delete flag is false afterwards |
| MetadataPage.Page.ClearToasts | src/app/dashboard/metadata/page.tsx:68-70 | the timer callback empties the notices and changes nothing else |
| MetadataPage.Page.AddMetadata | src/app/dashboard/metadata/page.tsx:89-92 | the new record goes last |
| MetadataPage.Page.SetShowMetadataModal | src/app/dashboard/metadata/page.tsx:15 | only the dialog's visibility changes |
| ProjectsPage.FixtureNeverFetches | src/app/dashboard/projects/page.tsx:16-27 | the two-item fixture is never empty, so the guarded fetch never fires from the initial list |
| ProjectsPage.DeleteUrlInjective | src/app/dashboard/projects/page.tsx:45 | different ids are deleted at different URLs |
| ProjectsPage.DeleteRowRemovesIt | src/app/components/projectList.tsx:147-149 | a successful delete from a listed row's button leaves no row with its id |
| ProjectsPage.Page.constructor | src/app/dashboard/projects/page.tsx:15-19 | the list starts as the `sampleProjects` fixture |
| ProjectsPage.Page.FetchProjects | src/app/dashboard/projects/page.tsx:24-40 | guarded by a user and an empty list; one GET "/projects/" replaces the list on success; loading false afterwards |
| ProjectsPage.Page.UpdateProjectList | src/app/dashboard/projects/page.tsx:42-61 | one DELETE "/projects/{id}"; the list is filtered on success; on failure it is unchanged and an "Error deleting project" notice lives 3000 ms; the delete flag is false afterwards |
| ProjectsPage.Page.AddProject | src/app/dashboard/projects/page.tsx:63-66 | the new record goes last |
| ProjectsPage.Page.SetShowProjectModal | src/app/dashboard/projects/page.tsx:15 | only the dialog's visibility changes |
| PhotosPage.DeleteUrlInjective | src/app/dashboard/photos/page.tsx:43 | different ids are deleted at different URLs |
| PhotosPage.DeleteRowRemovesIt | src/app/components/photoList.tsx:115-117 | a successful delete from a listed row's button leaves no row with its id |
| PhotosPage.Page.constructor | src/app/dashboard/photos/page.tsx:15-18 | the list starts empty |
| PhotosPage.Page.FetchPhotos | src/app/dashboard/photos/page.tsx:23-38 | guarded by the user alone; one GET "/photos/" replaces the list on success; loading false afterwards |
| PhotosPage.Page.UpdatePhotoList | src/app/dashboard/photos/page.tsx:40-58 | one DELETE "/photos/{id}"; the list is filtered on success; on failure it is unchanged and an "Error deleting photo" notice is raised; the delete flag is false afterwards |
| PhotosPage.Page.AddPhoto | src/app/dashboard/photos/page.tsx:60-63 | the new record goes last |
| PhotosPage.Page.SetShowPhotoModal | src/app/dashboard/photos/page.tsx:15 | only the dialog's visibility changes |
| AddArticleModal.Validate | src/app/components/addArticleModal.tsx:59-73 | the author error exactly when there is no author or a name is blank once trimmed; otherwise the file error exactly when no file is chosen; otherwise no error |
| AddArticleModal.BlankAuthorRejected | src/app/components/addArticleModal.tsx:59-68 | an all-whitespace author name stops the submission at the author check |
| AddArticleModal.AcceptedAuthorsHaveText | src/app/components/addArticleModal.tsx:59-73 | a submission that passes has a file and only authors with visible text |
| AddArticleModal.PayloadFields | src/app/components/addArticleModal.tsx:79-90 | the body names each field once, with date "2012", lake "Lake Victoria", author "Alex Masinde", the user as uploader, and the file |
| AddArticleModal.PayloadIgnoresAuthorsDateLakes | src/app/components/addArticleModal.tsx:80-86 | the entered authors, date and lakes do not affect the posted body |
| AddArticleModal.BuildPayload | src/app/components/addArticleModal.tsx:79-90 | the appends build exactly that body |
| AddArticleModal.NewArticle | src/app/components/addArticleModal.tsx:98-110 | the cached article holds the entered values, the fresh id and approval "Pending" |
| AddArticleModal.SubmitDispatches | src/app/components/addArticleModal.tsx:98-124 | ADD_ARTICLE then HIDE_ARTICLES_MODAL after a successful POST, nothing after a failure |
| AddArticleModal.SubmitAddsAndCloses | src/app/components/addArticleModal.tsx:98-112 | after success the new article is listed last after all earlier ones, the form is hidden, and loading and error are as before |
| AddArticleModal.Form.HandleFileUpload | src/app/components/addArticleModal.tsx:140-145 | choosing a file sets it and clears its error; an empty choice changes nothing |
| AddArticleModal.Form.OnSubmit | src/app/components/addArticleModal.tsx:58-128 | a failed check sets that error and sends nothing; with no user nothing is sent or dispatched; otherwise one POST of the body and exactly the submit dispatches; loading is false afterwards |
| AddMetadataModal.PayloadFields | src/app/components/addMetadataModal.tsx:67-77 | the body names each field once: the entered values, the user as uploader, then the file |
| AddMetadataModal.BuildPayload | src/app/components/addMetadataModal.tsx:67-77 | the appends build exactly that body |
| AddMetadataModal.NewMetadata | src/app/components/addMetadataModal.tsx:85-96 | the record holds the entered values, the user as uploader, the response's file URL and the pending status shown as the amber "Pending" chip |
| AddMetadataModal.Form.OnSubmit | src/app/components/addMetadataModal.tsx:57-112 | no file sets its error and sends nothing; with no user messages are cleared and nothing is sent; otherwise one POST; on success the record is appended and the dialog closed; on failure the generic message shows and the page is unchanged; loading is false afterwards |
| AddPhotoModal.CaptureDateText | src/app/components/addPhotoModal.tsx:58 | the date's ISO text, or "" without a date |
| AddPhotoModal.PayloadFields | src/app/components/addPhotoModal.tsx:54-62 | the image is in the body exactly when a file was chosen; the date is "" without one; uploader and published_by are both the user |
| AddPhotoModal.BuildPayload | src/app/components/addPhotoModal.tsx:54-62 | the appends, the image one conditional, build exactly that body |
| AddPhotoModal.NewPhoto | src/app/components/addPhotoModal.tsx:70-77 | id and image from the response, date, lake and description from the form, the user as uploader |
| AddPhotoModal.Form.OnSubmit | src/app/components/addPhotoModal.tsx:48-93 | only the user is checked; one POST; on success the record is appended and the dialog closed; on failure the generic message shows and the page is unchanged; loading is false afterwards |
| AddProjectModal.PayloadFields | src/app/components/addProjectModal.tsx:60-66 | the body names each field once: the entered values and the user as uploader |
| AddProjectModal.BuildPayload | src/app/components/addProjectModal.tsx:60-66 | the appends build exactly that body |
| AddProjectModal.NewProject | src/app/components/addProjectModal.tsx:74-83 | the record holds the entered values, the user as uploader and the pending status |
| AddProjectModal.Form.OnSubmit | src/app/components/addProjectModal.tsx:53-98 | with no user nothing is sent; otherwise one POST; on success the record is appended and the dialog closed; on failure the generic message shows and the page is unchanged; loading is false afterwards |

## Left out

- **Rendering.** JSX and the PrimeReact widgets are not modelled: DataTable pagination and
  filtering, Dialog, Messages and the Toast display. A chip's CSS class is reduced to a `Tone`;
  the computed but unused icon class is not modelled. Toasts are values in a list.
- **Network.** Axios, cookies, base URLs and response headers are not modelled. How each request
  settles is a parameter; the interceptor's backend is a reply script. src/app/lib/api is not
  part of this model.
- **Interceptor registration.** `useRefreshToken` registers a new handler on every call, so
  handlers stack on the one shared client. The model has a single handler, whose dispatch
  target is either the session store or the `createContext` default. The stacking itself is
  not modelled. A later handler usually passes the error on, because the first one marked
  `_retry`. There is one exception: when the logout POST is answered 401, its rejection carries
  the public client's unmarked config. The next stacked handler then starts another refresh
  and replays the logout through the private client. This chain is not modelled.
- **Concurrency and timing.** Interleaved async handlers, stale closures over an older list,
  unmounting mid-request and the timers are not modelled. The timers are the one-second wait in
  the articles effect (the `waitRejected` parameter decides its outcome), the 5000 ms clear
  (`ClearToasts` is its callback) and toast lifetimes.
- **Loading flags during an await.** Each page or form method runs an await to completion. A
  loading flag is set before the request and reset after it within the same method, so the
  interval in which it is true is not observable in the model.
- **Library validation.** react-hook-form's `required` rules and field registration are not
  modelled. The form values at submit are parameters, assumed to have passed those rules.
- **Ids and dates.** `nanoid` is a `freshId` parameter. `toLocaleDateString` is not modelled, and
  `toISOString` is a date's `iso` text.
- **Widget refs.** The toast and message refs are assumed mounted (`toast.current` non-null).
- **Profile payload.** `response.data.profile` is assumed to be a user.
- **Article fixture.** `sampleArticles` is commented out in src/app/utils/sampleArticles.ts, so
  the articles effect takes its fixture as a parameter. `sampleMetadata` and `samplePhotos` are
  unused by the pages.
- **Plain cells.** Cells that show a field verbatim are not modelled: period, lake, uploader,
  keywords, the image preview and the capture date.
- **Logging.** `console.log` and `console.error` calls are not modelled.
- Strings.Truncate: lengths count Unicode scalar values. JavaScript's `length` and `slice` count
  UTF-16 code units, so the two differ for characters outside the Basic Multilingual Plane.
- Strings.IsJsWhitespace: it uses the ECMAScript whitespace set as of the current standard.
  Engines following older editions may differ on U+180E.
- MetadataPage.DeleteErrorDetail: a `detail` that is not a string (a number, an object) is not
  modelled. The detail is an optional string, truthy when non-empty.

## Findings

| source | as written | input that shows it | evidently intended | confidence | as-written member | corrected member |
|---|---|---|---|---|---|---|
| src/app/hooks/useRefreshToken.ts:19-22 | the refresh POST is sent through the intercepted private client with a fresh, unmarked config, so a 401 from the refresh endpoint (an expired refresh token) is itself intercepted and starts another refresh, and so on for as long as the endpoint answers 401; against an endpoint that answers 401 forever the call never settles | a request to any URL other than the refresh endpoint, against a backend that answers its first n + 1 requests with 401: n + 1 refresh requests are sent before the call rejects | at most one refresh per original request; achieved by sending the refresh with its config already marked (`PreMarked`) | not executed | RefreshToken.RefreshStorm | RefreshToken.GuardedRefreshAtMostOnce |
| src/app/contexts/authContext.tsx:80 | AuthContextProvider registers the interceptor above its own context provider, so the handler's `dispatch` (src/app/hooks/useRefreshToken.ts:5, 26) is the `createContext` default, which does nothing, and that handler is first in the chain for every request | a signed-in user whose request gets 401, whose refresh gets 401 and then no response, and whose logouts are answered: REMOVE_USER is dispatched twice, and the user stays signed in | a failed refresh clears the session store | not executed | RefreshToken.ExpiredSessionAsWritten | RefreshToken.ExpiredSessionConnected |
