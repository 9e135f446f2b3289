/**
 * The card detail page: the four stat tiles, the price-history chart series,
 * the vendor table, and the loading / not-found lifecycle of the fetch that
 * fills the page.
 */
module CardDetailView {
  import opened Wrappers
  import opened CardTypes
  import opened Strings

  /** The glyph shown in place of a missing price. */
  const Dash: string := "\U{2014}"

  /** The finish every tile, chart point and vendor cell reads by default. */
  const Normal: string := "normal"

  // ---------------------------------------------------------------------
  // Price display

  /** A price as displayed: `$` and the locale rendering of the number (with
      at least two fraction digits), or the dash when there is no price.
      `locale` stands for `toLocaleString(undefined, {minimumFractionDigits: 2})`. */
  function FormatPrice(value: Option<real>, locale: real -> string): (s: string)
    ensures s == Dash <==> value.None?
    ensures value.Some? ==> |s| > 0 && s[0] == '$' && s[1..] == locale(value.value)
  {
    match value
    case None => Dash
    case Some(v) =>
      var s := "$" + locale(v);
      assert s[0] != Dash[0];
      s
  }

  // ---------------------------------------------------------------------
  // Stat tiles

  /** One of the summary tiles: which aggregate it reads and how it is labelled. */
  datatype StatTile = StatTile(key: string, title: string, priceType: PriceType, stat: Stat, icon: string)

  /** The fixed tiles, in display order. */
  const StatTiles: seq<StatTile> := [
    StatTile("avgRetail", "Retail Price (AVG)", Retail, Avg, "\U{1F4B8}"),
    StatTile("avgBuylist", "Buylist Price (AVG)", Buylist, Avg, "\U{1FA99}"),
    StatTile("lowRetail", "Retail (Low)", Retail, Low, "\U{2B07}\U{FE0F}"),
    StatTile("highBuylist", "Buylist (High)", Buylist, High, "\U{2B06}\U{FE0F}")
  ]

  /** Exactly four tiles: average retail, average buylist, low retail, high buylist. */
  lemma StatTilesLayout()
    ensures |StatTiles| == 4
    ensures StatTiles[0].priceType == Retail && StatTiles[0].stat == Avg
    ensures StatTiles[1].priceType == Buylist && StatTiles[1].stat == Avg
    ensures StatTiles[2].priceType == Retail && StatTiles[2].stat == Low
    ensures StatTiles[3].priceType == Buylist && StatTiles[3].stat == High
    ensures forall i, j :: 0 <= i < j < |StatTiles| ==> StatTiles[i].key != StatTiles[j].key
  {
  }

  /** `statTileValue`: the statistic of the normal finish of one price type,
      null-safe at every level. */
  function StatTileValue(card: Option<CardDetail>, t: PriceType, stat: Stat): (r: Option<real>)
    ensures card.None? ==> r.None?
    ensures r.Some? ==>
      (t in card.value.prices && Normal in card.value.prices[t] && r == card.value.prices[t][Normal].Get(stat))
  {
    if card.Some? && t in card.value.prices && Normal in card.value.prices[t] then
      card.value.prices[t][Normal].Get(stat)
    else
      None
  }

  /** The lookup is null exactly when the card, the price type, the normal
      finish or the statistic is missing, and is the stored number otherwise. */
  lemma StatTileValueCases(card: Option<CardDetail>, t: PriceType, stat: Stat)
    ensures card.None? ==> StatTileValue(card, t, stat) == None
    ensures StatTileValue(card, t, stat) == None <==>
      || card.None?
      || t !in card.value.prices
      || Normal !in card.value.prices[t]
      || card.value.prices[t][Normal].Get(stat).None?
    ensures StatTileValue(card, t, stat).Some? ==>
      StatTileValue(card, t, stat) == card.value.prices[t][Normal].Get(stat)
  {
  }

  /** What one tile displays. */
  function TileText(card: Option<CardDetail>, tile: StatTile, locale: real -> string): (s: string)
    ensures s == Dash <==> StatTileValue(card, tile.priceType, tile.stat).None?
    ensures s != Dash ==> |s| > 0 && s[0] == '$'
    ensures StatTileValue(card, tile.priceType, tile.stat).Some? ==>
      s == "$" + locale(StatTileValue(card, tile.priceType, tile.stat).value)
  {
    FormatPrice(StatTileValue(card, tile.priceType, tile.stat), locale)
  }

  /** The tile row, one text per fixed tile in order; a tile shows the dash
      exactly when its lookup is null. */
  function TileTexts(card: CardDetail, locale: real -> string): (r: seq<string>)
    ensures |r| == |StatTiles| == 4
    ensures forall i :: 0 <= i < |r| ==>
      (r[i] == Dash <==> StatTileValue(Some(card), StatTiles[i].priceType, StatTiles[i].stat).None?)
    ensures forall i :: 0 <= i < |r| ==> r[i] == TileText(Some(card), StatTiles[i], locale)
  {
    seq(|StatTiles|, i requires 0 <= i < |StatTiles| => TileText(Some(card), StatTiles[i], locale))
  }

  /** The worked example: retail normal {1, 2, 3} and buylist normal
      {0.5, 1, 1.5} give the tile values 2, 1, 1 and 1.5, rendered in that
      order as `$` and their locale text. */
  lemma ExampleTiles(card: CardDetail, locale: real -> string)
    requires card.prices == map[
      Retail := map[Normal := Stats(Some(1.0), Some(2.0), Some(3.0))],
      Buylist := map[Normal := Stats(Some(0.5), Some(1.0), Some(1.5))]]
    ensures StatTileValue(Some(card), StatTiles[0].priceType, StatTiles[0].stat) == Some(2.0)
    ensures StatTileValue(Some(card), StatTiles[1].priceType, StatTiles[1].stat) == Some(1.0)
    ensures StatTileValue(Some(card), StatTiles[2].priceType, StatTiles[2].stat) == Some(1.0)
    ensures StatTileValue(Some(card), StatTiles[3].priceType, StatTiles[3].stat) == Some(1.5)
    ensures TileTexts(card, locale) == ["$" + locale(2.0), "$" + locale(1.0), "$" + locale(1.0), "$" + locale(1.5)]
  {
  }

  // ---------------------------------------------------------------------
  // Vendor table

  /** The raw cell `v.prices?.[type]?.[finish]` of one vendor. */
  function VendorPriceValue(v: Vendor, t: PriceType, finish: string := Normal): Option<real>
  {
    if t in v.prices then PriceAt(v.prices[t], finish) else None
  }

  /** `vendorPrice`: the displayed cell; a missing price type, a missing
      finish and a null price all give the same dash, a price gives `$...`. */
  function VendorPrice(v: Vendor, t: PriceType, locale: real -> string, finish: string := Normal): (s: string)
    ensures s == Dash <==>
      t !in v.prices || finish !in v.prices[t] || v.prices[t][finish].None?
    ensures s != Dash ==> s == "$" + locale(v.prices[t][finish].value)
  {
    FormatPrice(VendorPriceValue(v, t, finish), locale)
  }

  /** Leaving the finish out reads the normal finish. */
  lemma VendorPriceDefaultsToNormal(v: Vendor, t: PriceType, locale: real -> string)
    ensures VendorPrice(v, t, locale) == VendorPrice(v, t, locale, "normal")
  {
  }

  /** A purchase link is rendered only for a URL that is present and non-empty. */
  predicate ShowsPurchaseLink(purchaseUrl: Option<string>) {
    purchaseUrl.Some? && purchaseUrl.value != ""
  }

  /** One rendered row of the vendor table. */
  datatype VendorRow = VendorRow(vendor: string, retail: string, buylist: string, link: Option<string>)

  function RowOf(v: Vendor, locale: real -> string): (row: VendorRow)
    ensures row.vendor == v.vendor
    ensures row.retail == VendorPrice(v, Retail, locale) && row.buylist == VendorPrice(v, Buylist, locale)
    ensures row.link.Some? <==> v.purchaseUrl.Some? && v.purchaseUrl.value != ""
    ensures row.link.Some? ==> row.link == v.purchaseUrl
  {
    VendorRow(v.vendor, VendorPrice(v, Retail, locale), VendorPrice(v, Buylist, locale),
              if ShowsPurchaseLink(v.purchaseUrl) then v.purchaseUrl else None)
  }

  /** The vendor table: one row per vendor, in the vendors' order. */
  function VendorRows(vendors: seq<Vendor>, locale: real -> string): (rows: seq<VendorRow>)
    ensures |rows| == |vendors|
    ensures forall i :: 0 <= i < |vendors| ==> rows[i] == RowOf(vendors[i], locale)
  {
    if vendors == [] then [] else [RowOf(vendors[0], locale)] + VendorRows(vendors[1..], locale)
  }

  // ---------------------------------------------------------------------
  // Price-history chart

  /** One chart point: the date and the normal-finish prices, null when absent. */
  datatype ChartPoint = ChartPoint(date: string, retail: Option<real>, buylist: Option<real>)

  function PointOf(h: HistoryEntry): ChartPoint {
    ChartPoint(h.date, PriceAt(h.retail, Normal), PriceAt(h.buylist, Normal))
  }

  /** The series of a history: one point per entry, same length, same order. */
  function Series(history: seq<HistoryEntry>): (points: seq<ChartPoint>)
    ensures |points| == |history|
    ensures forall i :: 0 <= i < |history| ==> points[i] == PointOf(history[i])
  {
    if history == [] then [] else [PointOf(history[0])] + Series(history[1..])
  }

  /** `chartData`: empty without a card; otherwise point i carries the date
      of history entry i and its normal retail and buylist prices (or null). */
  function ChartData(card: Option<CardDetail>): (points: seq<ChartPoint>)
    ensures card.None? ==> points == []
    ensures card.Some? ==> |points| == |card.value.history|
    ensures card.Some? ==> forall i :: 0 <= i < |points| ==>
      && points[i].date == card.value.history[i].date
      && points[i].retail == (if Normal in card.value.history[i].retail then card.value.history[i].retail[Normal] else None)
      && points[i].buylist == (if Normal in card.value.history[i].buylist then card.value.history[i].buylist[Normal] else None)
  {
    match card
    case None => []
    case Some(c) => Series(c.history)
  }

  /** The series of a concatenated history is the concatenation of the series:
      the projection never moves a point across another. */
  lemma SeriesAppend(a: seq<HistoryEntry>, b: seq<HistoryEntry>)
    ensures Series(a + b) == Series(a) + Series(b)
  {
  }

  // ---------------------------------------------------------------------
  // Card information block

  /** `Finish` or `Finishes` (plural exactly for more than one finish),
      then the finishes joined by commas. */
  function FinishesText(finishes: seq<string>): (s: string)
    ensures |finishes| > 1 <==> |s| >= 10 && s[..10] == "Finishes: "
    ensures |finishes| <= 1 ==> |s| >= 8 && s[..8] == "Finish: "
    ensures |s| >= |Join(finishes, ", ")| && s[|s| - |Join(finishes, ", ")|..] == Join(finishes, ", ")
    ensures |s| == (if |finishes| > 1 then 10 else 8) + |Join(finishes, ", ")|
  {
    var joined := Join(finishes, ", ");
    var head := if |finishes| > 1 then "Finishes: " else "Finish: ";
    ConcatParts(head, joined);
    assert (head + joined)[6] == head[6];
    head + joined
  }

  lemma ConcatParts(head: string, tail: string)
    ensures (head + tail)[..|head|] == head && (head + tail)[|head|..] == tail
  {
  }

  // ---------------------------------------------------------------------
  // Page state

  /** What the page body shows: the priority is loading, then not found,
      then the card, and nothing when there is no card yet. */
  datatype DetailScreen = LoadingScreen | NotFoundScreen | CardScreen(card: CardDetail) | BlankScreen

  function ScreenOf(loading: bool, notFound: bool, card: Option<CardDetail>): (v: DetailScreen)
    ensures v.LoadingScreen? <==> loading
    ensures v.NotFoundScreen? <==> !loading && notFound
    ensures v.CardScreen? <==> !loading && !notFound && card.Some?
    ensures v.CardScreen? ==> card == Some(v.card)
  {
    if loading then LoadingScreen
    else if notFound then NotFoundScreen
    else if card.Some? then CardScreen(card.value)
    else BlankScreen
  }

  /**
   * The page's state (`card`, `loading`, `notFound`) and its effect, keyed
   * by the route's uuid. `effectUuid` holds the uuid the effect last ran
   * for, as React remembers an effect's dependencies; `CommitEffect` is the
   * commit after a render and `CompleteFetch` the settling of the request.
   */
  class CardDetailPage {
    var uuid: string
    var card: Option<CardDetail>
    var loading: bool
    var notFound: bool
    var effectUuid: Option<string>

    /** The spinner and the not-found message are never both pending. */
    predicate Valid()
      reads this
    {
      loading ==> !notFound
    }

    /** Under the invariant the not-found message is shown whenever
        `notFound` is set: it is never hidden under the spinner. */
    function Screen(): (v: DetailScreen)
      reads this
      ensures Valid() ==> (v.NotFoundScreen? <==> notFound)
      ensures v.LoadingScreen? <==> loading
    {
      ScreenOf(loading, notFound, card)
    }

    /** Mounting: no card, loading, not (yet) not-found, effect never run. */
    constructor(uuid: string)
      ensures Valid()
      ensures this.uuid == uuid && card == None && loading && !notFound && effectUuid == None
    {
      this.uuid := uuid;
      card := None;
      loading := true;
      notFound := false;
      effectUuid := None;
    }

    /** Following a link to another printing changes the route parameter only. */
    method Navigate(uuid: string)
      requires Valid()
      modifies this`uuid
      ensures Valid()
      ensures this.uuid == uuid
    {
      this.uuid := uuid;
    }

    /** The effect: when the uuid changed since its last run and is non-empty,
        it sets loading, clears not-found and issues the request for that
        uuid (returned); otherwise the state is untouched. */
    method CommitEffect() returns (request: Option<string>)
      requires Valid()
      modifies this`loading, this`notFound, this`effectUuid
      ensures Valid()
      ensures effectUuid == Some(uuid)
      ensures request.Some? <==> old(effectUuid) != Some(uuid) && uuid != ""
      ensures request.Some? ==> request.value == uuid && loading && !notFound
      ensures request.None? ==> loading == old(loading) && notFound == old(notFound)
    {
      request := None;
      if effectUuid != Some(uuid) {
        effectUuid := Some(uuid);
        if uuid != "" {
          loading := true;
          notFound := false;
          request := Some(uuid);
        }
      }
    }

    /** The request settles: a body replaces the card, a rejection marks the
        card not found (keeping the old card); either way loading ends. */
    method CompleteFetch(outcome: FetchOutcome<CardDetail>)
      requires Valid()
      modifies this`card, this`loading, this`notFound
      ensures Valid()
      ensures !loading
      ensures outcome.Resolved? ==> card == Some(outcome.value) && notFound == old(notFound)
      ensures outcome.Rejected? ==> notFound && card == old(card)
    {
      match outcome {
        case Resolved(c) => card := Some(c);
        case Rejected => notFound := true;
      }
      loading := false;
    }
  }

  /** What `loading ==> !notFound` buys: with it, the screen shows the
      not-found message exactly when `notFound` is set, so a pending
      spinner never hides it. */
  lemma NotFoundNeverHidden(loading: bool, notFound: bool, card: Option<CardDetail>)
    requires loading ==> !notFound
    ensures ScreenOf(loading, notFound, card).NotFoundScreen? <==> notFound
  {
  }

  /** A fetch started by the effect that then resolves shows the fetched
      card; one that is rejected shows the not-found message. */
  method LoadScenario(uuid: string, outcome: FetchOutcome<CardDetail>) returns (screen: DetailScreen)
    requires uuid != ""
    ensures outcome.Resolved? ==> screen == CardScreen(outcome.value)
    ensures outcome.Rejected? ==> screen == NotFoundScreen
  {
    var page := new CardDetailPage(uuid);
    assert page.Screen() == LoadingScreen;
    var request := page.CommitEffect();
    assert request == Some(uuid) && page.Screen() == LoadingScreen;
    page.CompleteFetch(outcome);
    screen := page.Screen();
  }
}
