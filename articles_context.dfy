/** The publications cache (src/app/contexts/articlesContext.tsx): a reducer over a record of
    the article list and three flags, and the provider whose mount effect fills it. */
module ArticlesContext {
  import opened Wrappers
  import opened Types
  import opened RecordLists
  import opened Reducers

  datatype ArticlesState = ArticlesState(
    articles: seq<Article>,
    loading: bool,
    error: Option<string>,
    showArticlesModal: bool)

  /** The tagged union of actions; `Unrecognised` stands for any other `type` tag. */
  datatype ArticlesAction =
    | AddArticle(article: Article)
    | RemoveArticle(id: string)
    | UpdateArticle(article: Article)
    | SetLoading(loading: bool)
    | SetError(error: Option<string>)
    | SetArticles(articles: seq<Article>)
    | SetArticlesLoading(loading: bool, articles: seq<Article>, error: Option<string>)
    | ShowArticlesModal
    | HideArticlesModal
    | Unrecognised(tag: string)

  const InitialState := ArticlesState([], false, None, false)

  const FetchErrorMessage := "Error fetching articles"

  /** `articlesReducer`. The setters store their payload, each flag changes only under the
      actions that name it, and an unknown action changes nothing. */
  function Reduce(state: ArticlesState, action: ArticlesAction): (r: ArticlesState)
    ensures action.SetLoading? ==> r == state.(loading := action.loading)
    ensures action.SetError? ==> r == state.(error := action.error)
    ensures action.SetArticles? ==> r == state.(articles := action.articles)
    ensures !(action.SetLoading? || action.SetArticlesLoading?) ==> r.loading == state.loading
    ensures !(action.SetError? || action.SetArticlesLoading?) ==> r.error == state.error
    ensures !(action.ShowArticlesModal? || action.HideArticlesModal?) ==> r.showArticlesModal == state.showArticlesModal
    ensures (action.SetLoading? || action.SetError? || action.ShowArticlesModal?
             || action.HideArticlesModal? || action.Unrecognised?) ==> r.articles == state.articles
    ensures action.Unrecognised? ==> r == state
  {
    match action
    case AddArticle(a) => state.(articles := state.articles + [a])
    case RemoveArticle(id) => state.(articles := Without(state.articles, ArticleId, id))
    case UpdateArticle(a) => state.(articles := ReplaceById(state.articles, ArticleId, a))
    case SetArticles(xs) => state.(articles := xs)
    case SetLoading(l) => state.(loading := l)
    case SetError(e) => state.(error := e)
    case SetArticlesLoading(l, xs, e) => state.(loading := l, articles := xs, error := e)
    case ShowArticlesModal => state.(showArticlesModal := true)
    case HideArticlesModal => state.(showArticlesModal := false)
    case Unrecognised(_) => state
  }

  /** The state `useReducer` holds after a sequence of dispatches. */
  function ReduceAll(state: ArticlesState, actions: seq<ArticlesAction>): ArticlesState {
    Fold(Reduce, state, actions)
  }

  /** ADD_ARTICLE puts the article last, keeps every earlier one, and touches nothing else. */
  lemma AddArticleAppends(state: ArticlesState, a: Article)
    ensures var r := Reduce(state, AddArticle(a));
      && |r.articles| == |state.articles| + 1
      && r.articles[..|state.articles|] == state.articles
      && r.articles[|state.articles|] == a
      && r.(articles := state.articles) == state
  {
  }

  /** REMOVE_ARTICLE leaves no article with that id, keeps every other one in order, and
      leaves the list as it was when no article has the id. */
  lemma RemoveArticleFilters(state: ArticlesState, id: string, before: seq<Article>, after: seq<Article>)
    requires state.articles == before + after
    ensures var r := Reduce(state, RemoveArticle(id));
      && (forall x :: x in r.articles ==> x.id != id)
      && (forall x :: x in state.articles && x.id != id ==> x in r.articles)
      && r.articles == Without(before, ArticleId, id) + Without(after, ArticleId, id)
      && r.(articles := state.articles) == state
      && ((forall i :: 0 <= i < |state.articles| ==> state.articles[i].id != id) ==> r == state)
  {
    WithoutConcat(before, after, ArticleId, id);
    if forall i :: 0 <= i < |state.articles| ==> state.articles[i].id != id {
      WithoutAbsent(state.articles, ArticleId, id);
    }
  }

  /** UPDATE_ARTICLE keeps the length, replaces exactly the articles with the new one's id,
      and is the identity when no article has that id. */
  lemma UpdateArticleReplaces(state: ArticlesState, a: Article)
    ensures var r := Reduce(state, UpdateArticle(a));
      && |r.articles| == |state.articles|
      && (forall i :: 0 <= i < |state.articles| ==>
            r.articles[i] == (if state.articles[i].id == a.id then a else state.articles[i]))
      && r.(articles := state.articles) == state
      && ((forall i :: 0 <= i < |state.articles| ==> state.articles[i].id != a.id) ==> r == state)
  {
    var r := Reduce(state, UpdateArticle(a));
    if forall i :: 0 <= i < |state.articles| ==> state.articles[i].id != a.id {
      assert r.articles == state.articles;
    }
  }

  /** SHOW and HIDE each set only the modal flag, and doing either twice is doing it once. */
  lemma ModalActionsIdempotent(state: ArticlesState)
    ensures Reduce(state, ShowArticlesModal) == state.(showArticlesModal := true)
    ensures Reduce(state, HideArticlesModal) == state.(showArticlesModal := false)
    ensures Reduce(Reduce(state, ShowArticlesModal), ShowArticlesModal) == Reduce(state, ShowArticlesModal)
    ensures Reduce(Reduce(state, HideArticlesModal), HideArticlesModal) == Reduce(state, HideArticlesModal)
  {
  }

  /** SET_ARTICLES_LOADING sets the list and both status fields together and keeps the modal flag. */
  lemma SetArticlesLoadingKeepsModal(state: ArticlesState, l: bool, xs: seq<Article>, e: Option<string>)
    ensures Reduce(state, SetArticlesLoading(l, xs, e)) == ArticlesState(xs, l, e, state.showArticlesModal)
  {
  }

  /** What the mount effect dispatches: SET_LOADING(true), then exactly one SET_ARTICLES_LOADING
      with loading false, carrying the fixture, or [] and the error text if the wait rejected. */
  function FetchArticlesActions(waitRejected: bool, fixture: seq<Article>): (acts: seq<ArticlesAction>)
    ensures |acts| == 2 && acts[0] == SetLoading(true)
    ensures acts[1].SetArticlesLoading? && !acts[1].loading
    ensures waitRejected <==> acts[1].error.Some?
  {
    if waitRejected then [SetLoading(true), SetArticlesLoading(false, [], Some(FetchErrorMessage))]
    else [SetLoading(true), SetArticlesLoading(false, fixture, None)]
  }

  /** Whatever happens, the effect leaves the cache not loading with the modal flag as it was;
      on the error path the list is empty and the error is the fixed message. */
  lemma FetchArticlesSettles(state: ArticlesState, waitRejected: bool, fixture: seq<Article>)
    ensures var r := ReduceAll(state, FetchArticlesActions(waitRejected, fixture));
      && !r.loading
      && r.showArticlesModal == state.showArticlesModal
      && r.articles == (if waitRejected then [] else fixture)
      && r.error == (if waitRejected then Some(FetchErrorMessage) else None)
  {
    var acts := FetchArticlesActions(waitRejected, fixture);
    FoldPair(Reduce, state, acts[0], acts[1]);
    assert acts == [acts[0], acts[1]];
  }

  /** `ArticlesProvider`: the reducer's current state and everything dispatched to it. */
  class ArticlesProvider {
    var state: ArticlesState
    var dispatched: seq<ArticlesAction>

    /** React's reducer contract: the state is the fold of all dispatches over the initial state. */
    ghost predicate Valid()
      reads this
    {
      state == ReduceAll(InitialState, dispatched)
    }

    constructor ()
      ensures Valid() && state == InitialState && dispatched == []
    {
      state := InitialState;
      dispatched := [];
    }

    method Dispatch(action: ArticlesAction)
      requires Valid()
      modifies this
      ensures Valid()
      ensures dispatched == old(dispatched) + [action]
      ensures state == Reduce(old(state), action)
    {
      FoldAppend(Reduce, InitialState, dispatched, [action]);
      FoldOne(Reduce, state, action);
      dispatched := dispatched + [action];
      state := Reduce(state, action);
    }

    /** The `fetchArticles` mount effect; `waitRejected` says whether the awaited one-second
        timer rejected, `fixture` is what the imported `sampleArticles` binding holds. */
    method FetchArticles(waitRejected: bool, fixture: seq<Article>)
      requires Valid()
      modifies this
      ensures Valid()
      ensures dispatched == old(dispatched) + FetchArticlesActions(waitRejected, fixture)
      ensures state == ReduceAll(old(state), FetchArticlesActions(waitRejected, fixture))
    {
      ghost var s0 := state;
      Dispatch(SetLoading(true));
      if waitRejected {
        Dispatch(SetArticlesLoading(false, [], Some(FetchErrorMessage)));
      } else {
        Dispatch(SetArticlesLoading(false, fixture, None));
      }
      ghost var acts := FetchArticlesActions(waitRejected, fixture);
      FoldPair(Reduce, s0, acts[0], acts[1]);
      assert acts == [acts[0], acts[1]];
    }
  }
}
