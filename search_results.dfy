/**
 * The search results page: the per-card price summary, the pagination
 * state (`page`, `cards`, `loading`) with its fetch effect keyed by the
 * query and the page, and the rules for the Previous/Next controls and the
 * "No results" message.
 */
module SearchResultsView {
  import opened Wrappers
  import opened CardTypes
  import Routes

  /** Cards requested per page, and the count below which Next is disabled. */
  const PageSize: int := 20

  // ---------------------------------------------------------------------
  // Per-card summary

  /** The style class of the weekly-change figure. */
  datatype ChangeClass = Negative | Positive

  /** One figure line of a summary. */
  datatype SummaryLine =
    | AverageRetail(value: real)
    | AverageBuylist(value: real)
    | WeeklyChange(pct: real, plus: bool, cls: ChangeClass)

  /** A card's summary: the "can't find a price" placeholder, or figure lines. */
  datatype Summary = NoPrice | Figures(lines: seq<SummaryLine>)

  /** Negative only for a strictly negative change; zero is styled positive. */
  function WeeklyClass(pct: real): (cls: ChangeClass)
    ensures cls == Negative <==> pct < 0.0
  {
    if pct < 0.0 then Negative else Positive
  }

  /** A `+` only for a strictly positive change; zero carries no sign. */
  predicate ShowsPlus(pct: real): (plus: bool)
    ensures plus <==> pct > 0.0
  {
    pct > 0.0
  }

  /** The plus sign and the negative class never meet, and a change that has
      neither is exactly zero. */
  lemma WeeklySignAndClass(pct: real)
    ensures ShowsPlus(pct) ==> WeeklyClass(pct) == Positive
    ensures WeeklyClass(pct) == Negative ==> !ShowsPlus(pct)
    ensures !ShowsPlus(pct) && WeeklyClass(pct) == Positive <==> pct == 0.0
  {
  }

  function WeeklyLine(pct: real): SummaryLine {
    WeeklyChange(pct, ShowsPlus(pct), WeeklyClass(pct))
  }

  /** One line per non-null field, in the order retail, buylist, weekly change. */
  function FieldLines(c: Card): (lines: seq<SummaryLine>)
    ensures |lines| ==
      (if c.avgRetail.Some? then 1 else 0) + (if c.avgBuylist.Some? then 1 else 0)
      + (if c.weeklyChangePct.Some? then 1 else 0)
    ensures forall x :: AverageRetail(x) in lines <==> c.avgRetail == Some(x)
    ensures forall x :: AverageBuylist(x) in lines <==> c.avgBuylist == Some(x)
    ensures forall p, plus, cls :: WeeklyChange(p, plus, cls) in lines <==>
      c.weeklyChangePct == Some(p) && plus == (p > 0.0) && cls == (if p < 0.0 then Negative else Positive)
    ensures c.avgRetail.Some? ==> lines[0] == AverageRetail(c.avgRetail.value)
    ensures c.weeklyChangePct.Some? ==> |lines| > 0 && lines[|lines| - 1] == WeeklyLine(c.weeklyChangePct.value)
  {
    (if c.avgRetail.Some? then [AverageRetail(c.avgRetail.value)] else [])
    + (if c.avgBuylist.Some? then [AverageBuylist(c.avgBuylist.value)] else [])
    + (if c.weeklyChangePct.Some? then [WeeklyLine(c.weeklyChangePct.value)] else [])
  }

  /** The summary decision: the placeholder when all three fields are null,
      otherwise the figure lines. */
  function Summarize(c: Card): (s: Summary)
    ensures s.NoPrice? <==> c.avgRetail.None? && c.avgBuylist.None? && c.weeklyChangePct.None?
    ensures s.Figures? ==> s.lines == FieldLines(c)
  {
    if c.avgRetail.None? && c.avgBuylist.None? && c.weeklyChangePct.None? then NoPrice
    else Figures(FieldLines(c))
  }

  /** The placeholder stands in exactly for an otherwise empty summary. */
  lemma PlaceholderIffNoLines(c: Card)
    ensures Summarize(c).NoPrice? <==> FieldLines(c) == []
    ensures Summarize(c).Figures? ==> |Summarize(c).lines| > 0
  {
  }

  /** The boundary case: a card whose only figure is a zero weekly change
      shows that one line, unsigned and styled positive. */
  lemma ZeroWeeklyChangeOnly(c: Card)
    requires c.avgRetail.None? && c.avgBuylist.None? && c.weeklyChangePct == Some(0.0)
    ensures Summarize(c) == Figures([WeeklyChange(0.0, false, Positive)])
  {
  }

  /** The text of one line; `fixed2` and `fixed1` stand for `toFixed(2)` and
      `toFixed(1)`. */
  function LineText(line: SummaryLine, fixed2: real -> string, fixed1: real -> string): (s: string)
    ensures line.AverageRetail? ==> |s| >= 17 && s[..17] == "Average Retail: $" && s[17..] == fixed2(line.value)
    ensures line.AverageBuylist? ==> |s| >= 18 && s[..18] == "Average Buylist: $" && s[18..] == fixed2(line.value)
    ensures line.WeeklyChange? ==> |s| >= 16 && s[..15] == "Weekly Change: " && s[|s| - 1] == '%'
    ensures line.WeeklyChange? && line.plus ==> s[15] == '+' && s[16..] == fixed1(line.pct) + "%"
    ensures line.WeeklyChange? && !line.plus ==> s[15..] == fixed1(line.pct) + "%"
  {
    match line
    case AverageRetail(v) => "Average Retail: $" + fixed2(v)
    case AverageBuylist(v) => "Average Buylist: $" + fixed2(v)
    case WeeklyChange(p, plus, _) => "Weekly Change: " + (if plus then "+" else "") + fixed1(p) + "%"
  }

  // ---------------------------------------------------------------------
  // Query and pages

  /** `searchParams.get('query') || ''`: an absent parameter is the empty query. */
  function QueryOf(param: Option<string>): (q: string)
    ensures param.None? ==> q == ""
    ensures param.Some? ==> q == param.value
  {
    match param
    case None => ""
    case Some(v) => v
  }

  /** The page after Next. */
  function NextPage(p: int): (r: int)
    ensures r > p
    ensures p >= 1 ==> r >= 1
  {
    p + 1
  }

  /** The page after Previous: one back, but never below page 1. */
  function PrevPage(p: int): (r: int)
    ensures r >= 1
    ensures p >= 1 ==> r <= p
    ensures r == p <==> p == 1
    ensures p > 1 ==> r == p - 1
  {
    if p - 1 > 1 then p - 1 else 1
  }

  /** Previous undoes Next; Next undoes Previous everywhere except at page 1. */
  lemma PagingInverse(p: int)
    requires p >= 1
    ensures PrevPage(NextPage(p)) == p
    ensures p > 1 ==> NextPage(PrevPage(p)) == p
    ensures NextPage(PrevPage(1)) == 2
  {
  }

  /** Next three times from page 1, then Previous once, is page 3; Previous
      on page 1 stays on page 1. */
  lemma PagingExample()
    ensures PrevPage(NextPage(NextPage(NextPage(1)))) == 3
    ensures PrevPage(1) == 1
  {
  }

  /** The request the effect issues: the query, the page size and the page. */
  datatype CardsRequest = CardsRequest(name: string, pageSize: int, page: int)

  // ---------------------------------------------------------------------
  // Screen

  /** The Previous/Next bar. */
  datatype Controls = Controls(prevDisabled: bool, nextDisabled: bool, page: int)

  /** One grid tile: its summary and the detail page it opens. */
  datatype Tile = Tile(name: string, summary: Summary, target: string)

  datatype ResultsScreen = ResultsScreen(
    query: string,
    loadingShown: bool,
    noResultsShown: bool,
    grid: seq<Tile>,
    controls: Option<Controls>)

  /** What the page shows for its state. The grid is rendered whether or not
      a fetch is pending. */
  function Render(query: string, loading: bool, page: int, cards: seq<Card>): (v: ResultsScreen)
    ensures v.query == query && v.loadingShown == loading
    ensures v.noResultsShown <==> !loading && |cards| == 0
    ensures v.controls.Some? <==> !loading && |cards| > 0
    ensures v.controls.Some? ==>
      && (v.controls.value.prevDisabled <==> page == 1)
      && (v.controls.value.nextDisabled <==> |cards| < PageSize)
      && v.controls.value.page == page
    ensures |v.grid| == |cards|
    ensures forall i :: 0 <= i < |cards| ==>
      v.grid[i] == Tile(cards[i].name, Summarize(cards[i]), Routes.CardPath(cards[i].uuid))
  {
    ResultsScreen(
      query,
      loading,
      !loading && |cards| == 0,
      seq(|cards|, i requires 0 <= i < |cards| =>
        Tile(cards[i].name, Summarize(cards[i]), Routes.CardPath(cards[i].uuid))),
      if !loading && |cards| > 0 then Some(Controls(page == 1, |cards| < PageSize, page)) else None)
  }

  /** Once nothing is loading, exactly one of the "No results" message and
      the pagination bar is shown. */
  lemma SettledShowsOneOf(query: string, page: int, cards: seq<Card>)
    ensures Render(query, false, page, cards).noResultsShown != Render(query, false, page, cards).controls.Some?
  {
  }

  /** Previous is disabled exactly when pressing it would leave the page
      where it is. */
  lemma PrevDisabledIffNoop(query: string, page: int, cards: seq<Card>)
    requires page >= 1 && |cards| > 0
    ensures Render(query, false, page, cards).controls.value.prevDisabled <==> PrevPage(page) == page
  {
  }

  // ---------------------------------------------------------------------
  // Page state

  /**
   * The page's state. The query is read from the URL; `effectKey` is the
   * (query, page) pair the fetch effect last ran for, as React remembers an
   * effect's dependencies. `CommitEffect` is the commit after a render and
   * `CompleteFetch` the settling of the request it issued.
   */
  class SearchResults {
    var query: string
    var cards: seq<Card>
    var loading: bool
    var page: int
    var effectKey: Option<(string, int)>

    predicate Valid()
      reads this
    {
      page >= 1
    }

    function Screen(): ResultsScreen
      reads this
    {
      Render(query, loading, page, cards)
    }

    /** Mounting with the URL's query parameter: no cards, not loading, page 1. */
    constructor(queryParam: Option<string>)
      ensures Valid()
      ensures query == QueryOf(queryParam) && cards == [] && !loading && page == 1 && effectKey == None
    {
      query := QueryOf(queryParam);
      cards := [];
      loading := false;
      page := 1;
      effectKey := None;
    }

    /** `handleSearch`: navigates to the search path of `value`, which
        becomes the query, and resets the page to 1 whatever it was. */
    method HandleSearch(value: string, encode: string -> string) returns (target: string)
      requires Valid()
      modifies this`query, this`page
      ensures Valid()
      ensures target == Routes.SearchPath(value, encode)
      ensures query == value && page == 1
    {
      target := Routes.SearchPath(value, encode);
      query := QueryOf(Some(value));
      page := 1;
    }

    /** A route change that does not go through `handleSearch` (the browser's
        Back or Forward between two search URLs): the same component stays
        mounted, so the query follows the URL and the page is kept. */
    method Navigate(queryParam: Option<string>)
      requires Valid()
      modifies this`query
      ensures Valid()
      ensures query == QueryOf(queryParam)
    {
      query := QueryOf(queryParam);
    }

    /** `handleNext`. */
    method HandleNext()
      requires Valid()
      modifies this`page
      ensures Valid()
      ensures page == NextPage(old(page))
    {
      page := NextPage(page);
    }

    /** `handlePrev`. */
    method HandlePrev()
      requires Valid()
      modifies this`page
      ensures Valid()
      ensures page == PrevPage(old(page))
    {
      page := PrevPage(page);
    }

    /** The effect: when (query, page) changed since its last run and the
        query is non-empty, it sets loading and issues the request for that
        query and page; an empty query issues nothing and leaves the cards
        as they were. */
    method CommitEffect() returns (request: Option<CardsRequest>)
      requires Valid()
      modifies this`loading, this`effectKey
      ensures Valid()
      ensures effectKey == Some((query, page))
      ensures request.Some? <==> old(effectKey) != Some((query, page)) && query != ""
      ensures request.Some? ==> request.value == CardsRequest(query, PageSize, page) && loading
      ensures request.None? ==> loading == old(loading)
    {
      request := None;
      if effectKey != Some((query, page)) {
        effectKey := Some((query, page));
        if query != "" {
          loading := true;
          request := Some(CardsRequest(query, PageSize, page));
        }
      }
    }

    /** The request settles: a body replaces the cards wholesale, a rejection
        leaves them; either way loading ends. */
    method CompleteFetch(outcome: FetchOutcome<seq<Card>>)
      requires Valid()
      modifies this`cards, this`loading
      ensures Valid()
      ensures !loading
      ensures outcome.Resolved? ==> cards == outcome.value
      ensures outcome.Rejected? ==> cards == old(cards)
    {
      if outcome.Resolved? {
        cards := outcome.value;
      }
      loading := false;
    }
  }

  /** A first page of 20 results enables Next but not Previous; after Next the
      effect requests page 2 of the same query; a new search then goes back
      to page 1. Going to page 2 of the new query and then Back to the old
      URL requests page 2 of the old query: history navigation keeps the
      page. */
  method PagingScenario(query: string, first: seq<Card>, encode: string -> string)
    returns (second: Option<CardsRequest>, third: Option<CardsRequest>, back: Option<CardsRequest>)
    requires query != "" && |first| == PageSize
    ensures second == Some(CardsRequest(query, PageSize, 2))
    ensures third == Some(CardsRequest(query + "x", PageSize, 1))
    ensures back == Some(CardsRequest(query, PageSize, 2))
  {
    var p := new SearchResults(Some(query));
    var r := p.CommitEffect();
    assert r == Some(CardsRequest(query, PageSize, 1));
    p.CompleteFetch(Resolved(first));
    assert p.Screen().controls == Some(Controls(true, false, 1));
    p.HandleNext();
    second := p.CommitEffect();
    var _ := p.HandleSearch(query + "x", encode);
    assert (query + "x", 1) != (query, 2);
    third := p.CommitEffect();
    p.HandleNext();
    var _ := p.CommitEffect();
    p.Navigate(Some(query));
    assert |query + "x"| != |query|;
    back := p.CommitEffect();
  }
}
