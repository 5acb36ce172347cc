/** The article table (src/app/components/articleList.tsx): the authors, lakes and approval
    cells, and the button that opens the add form. */
module ArticleList {
  import opened Types
  import opened Strings
  import opened Badges
  import opened ArticlesContext

  const Separator := ", "

  /** The authors cell: the names in list order, separated by ", ". */
  function AuthorsText(row: Article): (shown: string)
    ensures row.authors == [] ==> shown == ""
    ensures |row.authors| == 1 ==> shown == row.authors[0]
    ensures |row.authors| > 0 ==> |shown| == TotalLength(row.authors) + 2 * (|row.authors| - 1)
  {
    if |row.authors| > 0 then
      JoinLength(row.authors, Separator);
      Join(row.authors, Separator)
    else Join(row.authors, Separator)
  }

  /** The lakes cell, joined the same way. */
  function LakesText(row: Article): (shown: string)
    ensures row.selectedLakes == [] ==> shown == ""
    ensures |row.selectedLakes| == 1 ==> shown == row.selectedLakes[0]
    ensures |row.selectedLakes| > 0 ==> |shown| == TotalLength(row.selectedLakes) + 2 * (|row.selectedLakes| - 1)
  {
    if |row.selectedLakes| > 0 then
      JoinLength(row.selectedLakes, Separator);
      Join(row.selectedLakes, Separator)
    else Join(row.selectedLakes, Separator)
  }

  /** Selecting one more lake adds it, after one separator, at the end of the cell. */
  lemma LakesTextExtends(row: Article, lake: string)
    requires row.selectedLakes != []
    ensures LakesText(row.(selectedLakes := row.selectedLakes + [lake])) == LakesText(row) + Separator + lake
  {
    JoinAppend(row.selectedLakes, [lake], Separator);
  }

  /** Adding a name at the end of the list adds it, after one separator, at the end of the cell. */
  lemma AuthorsTextExtends(row: Article, name: string)
    requires row.authors != []
    ensures AuthorsText(row.(authors := row.authors + [name])) == AuthorsText(row) + Separator + name
  {
    JoinAppend(row.authors, [name], Separator);
  }

  /** The approval cell switches on the capitalised `approved`. */
  function ApprovalChip(row: Article): (b: Badge)
    ensures b == Blank <==> (forall s: Status :: row.approved != Label(s))
    ensures forall s: Status :: row.approved == Label(s) ==> b == Badge(Label(s), ToneOf(s))
  {
    ApprovalBadge(row.approved)
  }

  /** The "Add Article" button: exactly one SHOW_ARTICLES_MODAL, which opens the form and
      leaves the cached list and its status alone. */
  method ShowArticlesModalClicked(articles: ArticlesProvider)
    requires articles.Valid()
    modifies articles
    ensures articles.Valid()
    ensures articles.dispatched == old(articles.dispatched) + [ShowArticlesModal]
    ensures articles.state == old(articles.state).(showArticlesModal := true)
  {
    articles.Dispatch(ShowArticlesModal);
  }
}
