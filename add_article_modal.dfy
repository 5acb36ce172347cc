/** The add-publication form (src/app/components/addArticleModal.tsx): its author and file
    checks, the multipart body it posts, and what it dispatches to the publications cache. */
module AddArticleModal {
  import opened Wrappers
  import opened Types
  import opened Strings
  import opened Http
  import opened ArticlesContext
  import opened Reducers

  const AuthorsMessage := "At least one author is required"
  const FileMessage := "Please select a file"
  const PublicationsUrl := "/publications/"

  /** The body carries these three values whatever was entered. */
  const FixedPublicationDate := "2012"
  const FixedLake := "Lake Victoria"
  const FixedAuthor := "Alex Masinde"

  /** The form's values other than the file; `authors` holds each author row's name. */
  datatype ArticleFields = ArticleFields(
    title: string,
    authors: seq<string>,
    abstractText: string,
    publicationDate: Date,
    keywords: string,
    selectedLakes: seq<string>)

  /** A manual field error: the field it is shown under and its message. */
  datatype FieldError = FieldError(field: string, message: string)

  /** At least one author, and no name that is empty once trimmed. */
  predicate AuthorsValid(authors: seq<string>) {
    |authors| > 0 && forall i :: 0 <= i < |authors| ==> Trim(authors[i]) != ""
  }

  /** The checks `onSubmit` makes before anything else, the authors first. */
  function Validate(authors: seq<string>, file: Option<File>): (r: Option<FieldError>)
    ensures r == Some(FieldError("authors", AuthorsMessage)) <==> !AuthorsValid(authors)
    ensures r == Some(FieldError("file", FileMessage)) <==> AuthorsValid(authors) && file.None?
    ensures r.None? <==> AuthorsValid(authors) && file.Some?
  {
    if |authors| == 0 || exists i :: 0 <= i < |authors| && Trim(authors[i]) == "" then
      Some(FieldError("authors", AuthorsMessage))
    else if file.None? then Some(FieldError("file", FileMessage))
    else None
  }

  /** An author row holding only whitespace stops the submission at the author check. */
  lemma BlankAuthorRejected(authors: seq<string>, i: nat, file: Option<File>)
    requires i < |authors| && AllWhitespace(authors[i])
    ensures Validate(authors, file) == Some(FieldError("authors", AuthorsMessage))
  {
    TrimBlankIff(authors[i]);
  }

  /** A submission that passes the checks has a file and only authors with some visible text. */
  lemma AcceptedAuthorsHaveText(authors: seq<string>, file: Option<File>)
    requires Validate(authors, file).None?
    ensures file.Some? && |authors| > 0
    ensures forall i :: 0 <= i < |authors| ==> !AllWhitespace(authors[i])
  {
    forall i | 0 <= i < |authors|
      ensures !AllWhitespace(authors[i])
    {
      TrimBlankIff(authors[i]);
    }
  }

  /** The multipart body, in the order `onSubmit` appends it. */
  function Payload(fields: ArticleFields, user: User, file: File): seq<Entry> {
    [ Entry("title", Text(fields.title)),
      Entry("abstract", Text(fields.abstractText)),
      Entry("publicationDate", Text(FixedPublicationDate)),
      Entry("keywords", Text(fields.keywords)),
      Entry("lake", Text(FixedLake)),
      Entry("uploader", Text(user.username)),
      Entry("author", Text(FixedAuthor)),
      Entry("file", Blob(file)) ]
  }

  /** The body names each field once; the date, lake and author are the fixed values, the
      uploader is the signed-in user, and the file is the chosen one. */
  lemma PayloadFields(fields: ArticleFields, user: User, file: File)
    ensures var p := Payload(fields, user, file);
      && DistinctNames(p)
      && Lookup(p, "title") == Some(Text(fields.title))
      && Lookup(p, "abstract") == Some(Text(fields.abstractText))
      && Lookup(p, "publicationDate") == Some(Text(FixedPublicationDate))
      && Lookup(p, "keywords") == Some(Text(fields.keywords))
      && Lookup(p, "lake") == Some(Text(FixedLake))
      && Lookup(p, "uploader") == Some(Text(user.username))
      && Lookup(p, "author") == Some(Text(FixedAuthor))
      && Lookup(p, "file") == Some(Blob(file))
  {
    var p := Payload(fields, user, file);
    LookupDistinct(p, 0);
    LookupDistinct(p, 1);
    LookupDistinct(p, 2);
    LookupDistinct(p, 3);
    LookupDistinct(p, 4);
    LookupDistinct(p, 5);
    LookupDistinct(p, 6);
    LookupDistinct(p, 7);
  }

  /** The entered authors, date and lakes never reach the server: two submissions that agree on
      title, abstract and keywords post the same body. */
  lemma PayloadIgnoresAuthorsDateLakes(f1: ArticleFields, f2: ArticleFields, user: User, file: File)
    requires f1.title == f2.title && f1.abstractText == f2.abstractText && f1.keywords == f2.keywords
    ensures Payload(f1, user, file) == Payload(f2, user, file)
  {
  }

  /** The record put in the cache: the entered values, with the approval set to "Pending". */
  function NewArticle(fields: ArticleFields, id: string): (a: Article)
    ensures a.id == id && a.approved == "Pending"
    ensures a.title == fields.title && a.authors == fields.authors && a.abstractText == fields.abstractText
    ensures a.publicationDate == fields.publicationDate && a.keywords == fields.keywords
    ensures a.selectedLakes == fields.selectedLakes
  {
    Article(id, fields.title, fields.authors, fields.abstractText, fields.publicationDate,
      fields.keywords, fields.selectedLakes, "Pending")
  }

  /** What a submission that reached the POST dispatches: ADD_ARTICLE then HIDE_ARTICLES_MODAL
      after success, nothing after a failure. */
  function SubmitDispatches(fields: ArticleFields, posted: Outcome<()>, id: string): (acts: seq<ArticlesAction>)
    ensures posted.Failure? ==> acts == []
    ensures posted.Success? ==> |acts| == 2 && acts[0] == AddArticle(NewArticle(fields, id)) && acts[1] == HideArticlesModal
  {
    if posted.Success? then [AddArticle(NewArticle(fields, id)), HideArticlesModal] else []
  }

  /** After a successful submission the cache lists the new article last, after all earlier
      ones, the form is hidden, and the loading and error fields are as they were. */
  lemma SubmitAddsAndCloses(state: ArticlesState, fields: ArticleFields, id: string)
    ensures var r := ReduceAll(state, SubmitDispatches(fields, Success(()), id));
      && r.articles == state.articles + [NewArticle(fields, id)]
      && !r.showArticlesModal
      && r.loading == state.loading && r.error == state.error
  {
    FoldPair(Reduce, state, AddArticle(NewArticle(fields, id)), HideArticlesModal);
  }

  /** The `FormData` that `onSubmit` fills, one `append` at a time. */
  method BuildPayload(fields: ArticleFields, user: User, file: File) returns (body: seq<Entry>)
    ensures body == Payload(fields, user, file)
  {
    var formData := new FormData();
    formData.Append("title", Text(fields.title));
    formData.Append("abstract", Text(fields.abstractText));
    formData.Append("publicationDate", Text(FixedPublicationDate));
    formData.Append("keywords", Text(fields.keywords));
    formData.Append("lake", Text(FixedLake));
    formData.Append("uploader", Text(user.username));
    formData.Append("author", Text(FixedAuthor));
    formData.Append("file", Blob(file));
    body := formData.entries;
  }

  class Form {
    var file: Option<File>
    var errors: map<string, string>
    var loading: bool
    const api: RequestLog
    const articles: ArticlesProvider

    constructor (api: RequestLog, articles: ArticlesProvider)
      ensures file.None? && errors == map[] && !loading
      ensures this.api == api && this.articles == articles
    {
      file := None;
      errors := map[];
      loading := false;
      this.api := api;
      this.articles := articles;
    }

    /** `handleFileUpload`: the first chosen file becomes the form's file and its error goes. */
    method HandleFileUpload(files: seq<File>)
      modifies this
      ensures |files| > 0 ==> file == Some(files[0]) && errors == old(errors) - {"file"}
      ensures |files| == 0 ==> file == old(file) && errors == old(errors)
      ensures loading == old(loading)
    {
      if |files| > 0 {
        file := Some(files[0]);
        errors := errors - {"file"};
      }
    }

    /** `onSubmit`, with `user` the session's user, `posted` how the POST settled and `freshId`
        the id `nanoid` draws. */
    method OnSubmit(fields: ArticleFields, user: Option<User>, posted: Outcome<()>, freshId: string)
      requires articles.Valid()
      modifies this, api, articles
      ensures articles.Valid() && file == old(file)
      ensures Validate(fields.authors, old(file)).Some? ==>
        && errors == old(errors)[Validate(fields.authors, old(file)).value.field := Validate(fields.authors, old(file)).value.message]
        && loading == old(loading)
        && api.sent == old(api.sent)
        && articles.dispatched == old(articles.dispatched)
      ensures Validate(fields.authors, old(file)).None? ==> errors == old(errors) && !loading
      ensures Validate(fields.authors, old(file)).None? && user.None? ==>
        api.sent == old(api.sent) && articles.dispatched == old(articles.dispatched)
      ensures Validate(fields.authors, old(file)).None? && user.Some? ==>
        && api.sent == old(api.sent) + [Post(PublicationsUrl, Payload(fields, user.value, old(file).value))]
        && articles.dispatched == old(articles.dispatched) + SubmitDispatches(fields, posted, freshId)
        && articles.state == ReduceAll(old(articles.state), SubmitDispatches(fields, posted, freshId))
    {
      var invalid := Validate(fields.authors, file);
      if invalid.Some? {
        errors := errors[invalid.value.field := invalid.value.message];
        return;
      }
      loading := true;
      if user.None? {
        loading := false;
        return;
      }
      var body := BuildPayload(fields, user.value, file.value);
      api.Send(Post(PublicationsUrl, body));
      ghost var s0 := articles.state;
      ghost var d0 := articles.dispatched;
      if posted.Success? {
        articles.Dispatch(AddArticle(Article(freshId, fields.title, fields.authors, fields.abstractText,
          fields.publicationDate, fields.keywords, fields.selectedLakes, "Pending")));
        articles.Dispatch(HideArticlesModal);
        FoldPair(Reduce, s0, AddArticle(NewArticle(fields, freshId)), HideArticlesModal);
      } else {
        assert ReduceAll(s0, []) == s0;
      }
      loading := false;
    }
  }
}
