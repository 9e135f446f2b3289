/**
 * The shapes the card API returns: a search-result summary (`Card`) and the
 * full record behind the detail page (`CardDetail`). Every price may be
 * missing; a JSON `null` and an absent key are both `None` here.
 */
module CardTypes {
  import opened Wrappers

  /** The two kinds of price: what a shop sells for, what it pays. */
  datatype PriceType = Retail | Buylist

  /** The three cross-vendor statistics kept per finish. */
  datatype Stat = Low | Avg | High

  /** Low, average and high price of one finish across all vendors. */
  datatype Stats = Stats(low: Option<real>, avg: Option<real>, high: Option<real>) {
    function Get(stat: Stat): Option<real> {
      match stat
      case Low => low
      case Avg => avg
      case High => high
    }
  }

  /** Aggregates of one price type, keyed by finish ("normal", "foil", ...). */
  type PriceAggregates = map<string, Stats>

  /** One price per finish. */
  type PricesByFinish = map<string, Option<real>>

  /** The price at `finish`, `None` when the finish is absent or its price is null. */
  function PriceAt(m: PricesByFinish, finish: string): Option<real> {
    if finish in m then m[finish] else None
  }

  /** One price source; a price type it does not quote is absent from `prices`. */
  datatype Vendor = Vendor(vendor: string, purchaseUrl: Option<string>, prices: map<PriceType, PricesByFinish>)

  /** One observed date of the price history. */
  datatype HistoryEntry = HistoryEntry(date: string, retail: PricesByFinish, buylist: PricesByFinish)

  datatype CardDetail = CardDetail(
    uuid: string,
    name: string,
    cardSet: string,
    language: string,
    imageUrl: string,
    finishes: seq<string>,
    prices: map<PriceType, PriceAggregates>,
    vendors: seq<Vendor>,
    history: seq<HistoryEntry>)

  /** A search-result summary of one printing. */
  datatype Card = Card(
    uuid: string,
    name: string,
    cardSet: string,
    imageUrl: string,
    avgRetail: Option<real>,
    avgBuylist: Option<real>,
    weeklyChangePct: Option<real>)

  /** How a request to the card API settled: its JSON body, or a rejection. */
  datatype FetchOutcome<T> = Resolved(value: T) | Rejected
}
