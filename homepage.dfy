/**
 * The landing page: a search form that navigates to the results page for
 * the trimmed term, and a fixed list of demo articles.
 */
module HomepageView {
  import opened Wrappers
  import opened Strings
  import Routes

  /** One demo article tile. */
  datatype Article = Article(img: string, title: string, desc: string)

  /** The articles, in display order. */
  const Articles: seq<Article> := [
    Article("/news1.png", "Weekly Update (Jul 06): Big Standard Bannings",
            "This week in MTG news: Big Standard Bannings."),
    Article("/news2.png", "Against the Odds: Jumbo Cactuar (Standard)",
            "What are the odds of winning with a single attack for 10,000 with Jumbo Cactuar?"),
    Article("/news3.png", "Vintage 101: Cats in the Cradle",
            "Joe Dyer dives into no changes for Vintage on the June 30 BNR!")
  ]

  /** Three articles, with the images news1 to news3 in that order. */
  lemma ArticlesLayout()
    ensures |Articles| == 3
    ensures Articles[0].img == "/news1.png" && Articles[1].img == "/news2.png" && Articles[2].img == "/news3.png"
  {
  }

  /** Where submitting the form with `term` navigates: the search path of the
      trimmed term, or nowhere for a blank term. */
  function SearchTarget(term: string, encode: string -> string): (target: Option<string>)
    ensures target.None? <==> Blank(term)
    ensures target.Some? ==> target.value == Routes.SearchPath(Trim(term), encode)
  {
    match TrimmedIfNonBlank(term)
    case None => None
    case Some(t) => Some(Routes.SearchPath(t, encode))
  }

  /** The target never depends on the raw term's padding. */
  lemma SearchTargetIgnoresPadding(pad: string, term: string, trailing: string, encode: string -> string)
    requires Blank(pad) && Blank(trailing)
    ensures SearchTarget(pad + term + trailing, encode) == SearchTarget(term, encode)
  {
    TrimmedIfNonBlankIgnoresPadding(pad, term, trailing);
  }

  class Homepage {
    var searchTerm: string

    /** The search term starts empty. */
    constructor()
      ensures searchTerm == ""
    {
      searchTerm := "";
    }

    /** Typing replaces the term wholesale. */
    method Change(newTerm: string)
      modifies this`searchTerm
      ensures searchTerm == newTerm
    {
      searchTerm := newTerm;
    }

    /** Submitting: the path navigated to, or `None` when nothing happens.
        It navigates exactly when the trimmed term is non-empty, to the
        search path of the trimmed term. */
    method Submit(encode: string -> string) returns (target: Option<string>)
      ensures target.Some? <==> !Blank(searchTerm)
      ensures target.Some? ==> target.value == "/search?query=" + encode(Trim(searchTerm))
    {
      target := SearchTarget(searchTerm, encode);
    }
  }
}
