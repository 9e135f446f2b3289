# Goblin Bookie view-model layer in Dafny

Goblin Bookie is a single-page web front end for trading-card prices. It has a home
page with a search form, a search-results page with per-card price summaries and
pagination, and a card-detail page with stat tiles, a price-history chart and a
vendor table. This project models the small view-model layer behind those pages
and proves its contracts:

- `Strings`: the `trim` both search forms apply, over the ECMAScript WhiteSpace
  and LineTerminator code points, and the "submit only a non-blank, trimmed term"
  guard.
- `CardTypes`: the API's data shapes (`Card`, `CardDetail`, `Vendor`,
  `HistoryEntry`, per-finish aggregates). Every price is an `Option<real>`: a JSON
  `null` and an absent key are both `None`.
- `Routes`: the search and card paths the pages navigate to.
- `CardDetailView`: the null-safe lookups `statTileValue` and `vendorPrice`, the
  four fixed stat tiles, the chart-series projection of the history, the finishes
  label, the purchase-link rule, the loading / not-found / card screen choice, and
  the `CardDetailPage` class holding `card`, `loading` and `notFound` with its
  fetch effect.
- `SearchResultsView`: the per-card summary decision (placeholder or figure lines,
  sign and class of the weekly change), the page arithmetic, the rendering rules
  for Previous / Next / "No results", and the `SearchResults` class holding
  `query`, `page`, `cards` and `loading` with its fetch effect keyed by
  `(query, page)`. The class invariant is `page >= 1`.
- `SearchBarView` and `HomepageView`: the `SearchBar` and `Homepage` classes
  holding the text field, with their submit guards. `HomepageView` also holds the
  fixed article list.

React effects are modelled as two atomic steps. `CommitEffect` is the commit after
a render. It runs the effect body only when the effect's dependencies changed
since its last run, so each class keeps the last dependency values (`effectUuid`,
`effectKey`) the way React does. `CompleteFetch` is the settling of the request
it issued, with a `FetchOutcome` (a JSON body or a rejection) as its parameter.
The network itself is outside the model.

Number formatting is passed in as function parameters (`locale`, `fixed2`,
`fixed1`: `real -> string`), and so is `encodeURIComponent` (`encode`). The
contracts therefore say where a `$`, a `+`, a `%` or a dash goes, and not how
digits are printed.

Behaviour of the code that the model keeps, although a reader might expect otherwise:

- A price is shown with *at least* two fraction digits (`minimumFractionDigits: 2`), not exactly two.
- Next always advances the page, and every page change re-runs the fetch effect. A short page only disables the Next button.
- An empty query issues no request and leaves the previous `cards` on screen (`CommitEffect`).
- A rejected search fetch also leaves the previous `cards` in place and only clears `loading` (`CompleteFetch`).
- Back or Forward between two search URLs keeps the same results page mounted: the query follows the URL but the page is not reset, so the effect fetches the old query at the current page (`SearchResults.Navigate`, `PagingScenario`).
- A rejected detail fetch keeps whatever card was loaded before, and a mount with an empty uuid never leaves the loading screen: the effect returns before clearing `loading`.

## Model

| member | source | states |
|---|---|---|
| `Strings.IsWhitespace` | src/components/SearchBar.tsx:34 | the set `trim` removes: ECMAScript WhiteSpace and LineTerminator; space, tab, newline and carriage return are in it, ASCII letters and digits are not |
| `Strings.TrimStart` | src/components/SearchBar.tsx:34 | the result is a suffix of the input, only whitespace was cut off, and it does not start with whitespace |
| `Strings.TrimEnd` | src/components/SearchBar.tsx:34 | the result is a prefix of the input, only whitespace was cut off, and it does not end with whitespace |
| `Strings.Trim` | src/components/SearchBar.tsx:34 | `trim()` yields the contiguous slice left after cutting only whitespace from both ends; it neither starts nor ends with whitespace |
| `Strings.TrimEmptyIffBlank` | src/components/SearchBar.tsx:34 | a string trims to empty exactly when it is all whitespace |
| `Strings.TrimIdempotent` | src/components/SearchBar.tsx:34 | trimming twice is trimming once |
| `Strings.TrimIgnoresPadding` | src/pages/Homepage.tsx:41-42 | surrounding a string with whitespace does not change its trim |
| `Strings.TrimCharacterisation` | src/components/SearchBar.tsx:34 | for any split into whitespace, a core without whitespace at either end, and whitespace, the trim is exactly that core |
| `Strings.TrimmedIfNonBlank` | src/components/SearchBar.tsx:34 | the guard `if (x.trim()) use(x.trim())` yields nothing exactly for an all-whitespace string, else the non-empty trimmed string |
| `Strings.TrimmedIfNonBlankIgnoresPadding` | src/components/SearchBar.tsx:34 | whether the guard fires, and with what, is the same for a padded and a bare term |
| `Strings.Join` | src/pages/CardDetailPage.tsx:106 | `join(', ')`: empty for no elements; exactly the element for one; starts with the first element, then the separator when there are more; ends with the last element |
| `Strings.JoinAppend` | src/pages/CardDetailPage.tsx:106 | joining two non-empty lists is the two joins with one separator between them, so every element appears in order with the separator between neighbours |
| `Routes.SearchPath` | src/pages/Homepage.tsx:42 | the path is `/search?query=` followed by the encoded query |
| `Routes.CardPath` | src/pages/SearchResults.tsx:64 | the path is `/card/` followed by the uuid |
| `CardDetailView.StatTileValue` | src/pages/CardDetailPage.tsx:27-34 | null without a card; a value only when the price type and its normal finish exist, and then the requested statistic of that finish |
| `CardDetailView.FormatPrice` | src/pages/CardDetailPage.tsx:38-40 | a missing price is the dash and only a missing price is; a present one is `$` followed by its locale rendering |
| `CardDetailView.StatTilesLayout` | src/pages/CardDetailPage.tsx:20-25 | exactly four tiles with distinct keys: (retail, avg), (buylist, avg), (retail, low), (buylist, high) in that order |
| `CardDetailView.StatTileValueCases` | src/pages/CardDetailPage.tsx:27-34 | null when there is no card; null exactly when the card, the price type, the normal finish or the statistic is missing; otherwise the stored number |
| `CardDetailView.TileText` | src/pages/CardDetailPage.tsx:85-87 | a tile shows the dash exactly when `statTileValue` is null, and otherwise `$` followed by the locale rendering of that value |
| `CardDetailView.TileTexts` | src/pages/CardDetailPage.tsx:80-90 | the tile row has four entries, one per fixed tile in order, each the dash exactly when its lookup is null |
| `CardDetailView.ExampleTiles` | src/pages/CardDetailPage.tsx:20-34 | retail normal {1, 2, 3} and buylist normal {0.5, 1, 1.5} give the tile values 2, 1, 1 and 1.5, rendered in order as `$` and the locale text of each |
| `CardDetailView.VendorPrice` | src/pages/CardDetailPage.tsx:36-41 | the dash exactly when the price type, the finish or the value is missing (all three collapse to it); otherwise `$` and the value |
| `CardDetailView.VendorPriceDefaultsToNormal` | src/pages/CardDetailPage.tsx:36 | leaving the finish out reads the `"normal"` finish |
| `CardDetailView.RowOf` | src/pages/CardDetailPage.tsx:152-167 | a vendor row shows its name, its retail and buylist cells, and a purchase link exactly when the URL is present and non-empty |
| `CardDetailView.VendorRows` | src/pages/CardDetailPage.tsx:151-169 | one row per vendor, same length and order |
| `CardDetailView.Series` | src/pages/CardDetailPage.tsx:60-64 | the series has one point per history entry, and point i is the projection of entry i |
| `CardDetailView.ChartData` | src/pages/CardDetailPage.tsx:59-65 | empty without a card; otherwise as long as the history, and point i has entry i's date and its normal retail and buylist price, or null |
| `CardDetailView.SeriesAppend` | src/pages/CardDetailPage.tsx:60-64 | projecting a concatenated history is concatenating the projections, so order is preserved |
| `CardDetailView.FinishesText` | src/pages/CardDetailPage.tsx:106 | the label reads "Finishes: " exactly when there is more than one finish and "Finish: " otherwise, followed directly by the finishes joined by commas and nothing else |
| `CardDetailView.ScreenOf` | src/pages/CardDetailPage.tsx:71-76 | loading wins, then not-found, then the card; the card screen carries the loaded card |
| `CardDetailView.CardDetailPage.constructor` | src/pages/CardDetailPage.tsx:44-47 | the page mounts with no card, loading, not not-found |
| `CardDetailView.NotFoundNeverHidden` | src/pages/CardDetailPage.tsx:71-76 | when loading and not-found are never both set, the not-found message shows exactly when not-found is set |
| `CardDetailView.CardDetailPage.Screen` | src/pages/CardDetailPage.tsx:71-76 | the spinner shows exactly while loading; under the page invariant the not-found message shows exactly when not-found is set |
| `CardDetailView.CardDetailPage.Navigate` | src/pages/CardDetailPage.tsx:44 | a new route sets the uuid and nothing else, and keeps the page invariant |
| `CardDetailView.CardDetailPage.CommitEffect` | src/pages/CardDetailPage.tsx:49-57 | no request unless the uuid changed and is non-empty; a request sets loading, clears not-found and is for that uuid; `loading ==> !notFound` is kept |
| `CardDetailView.CardDetailPage.CompleteFetch` | src/pages/CardDetailPage.tsx:53-56 | a body replaces the card, a rejection sets not-found and keeps the card, loading always ends |
| `CardDetailView.LoadScenario` | src/pages/CardDetailPage.tsx:49-76 | mount, commit and settle: a resolved fetch shows the fetched card, a rejected one the not-found message |
| `SearchResultsView.WeeklyClass` | src/pages/SearchResults.tsx:103-107 | the negative class exactly when the change is below zero |
| `SearchResultsView.ShowsPlus` | src/pages/SearchResults.tsx:109 | the `+` exactly when the change is above zero |
| `SearchResultsView.WeeklySignAndClass` | src/pages/SearchResults.tsx:101-111 | `+` only above zero, the negative class only below zero, and a change with neither is exactly zero |
| `SearchResultsView.FieldLines` | src/pages/SearchResults.tsx:88-113 | one line per non-null field and no other: the count is the number of non-null fields, a line is present exactly when its field is non-null, retail comes first and the weekly change last; the weekly line has `+` iff `pct > 0` and the negative class iff `pct < 0` |
| `SearchResultsView.Summarize` | src/pages/SearchResults.tsx:79-114 | the placeholder exactly when all three fields are null, otherwise the figure lines |
| `SearchResultsView.PlaceholderIffNoLines` | src/pages/SearchResults.tsx:79-114 | the placeholder is shown exactly when there would be no figure line; a figures summary is never empty |
| `SearchResultsView.ZeroWeeklyChangeOnly` | src/pages/SearchResults.tsx:101-111 | a card with only a zero weekly change shows that one line, unsigned and with the positive class |
| `SearchResultsView.LineText` | src/pages/SearchResults.tsx:91-110 | the retail and buylist lines are their label, `$` and the two-decimal price; the weekly line is its label, `+` when the sign is shown, the one-decimal change and `%` |
| `SearchResultsView.QueryOf` | src/pages/SearchResults.tsx:24 | an absent query parameter is the empty query |
| `SearchResultsView.NextPage` | src/pages/SearchResults.tsx:42 | Next moves strictly forward and keeps the page at least 1 |
| `SearchResultsView.PrevPage` | src/pages/SearchResults.tsx:43 | Previous never goes below 1, never moves forward, stays put exactly at page 1, and otherwise goes back one |
| `SearchResultsView.PagingInverse` | src/pages/SearchResults.tsx:42-43 | Previous undoes Next; Next undoes Previous except at page 1 |
| `SearchResultsView.PagingExample` | src/pages/SearchResults.tsx:42-43 | three Nexts and one Previous from page 1 give page 3; Previous at page 1 stays at 1 |
| `SearchResultsView.Render` | src/pages/SearchResults.tsx:53-131 | "No results" exactly when not loading and no cards; controls exactly when not loading and some cards; Previous disabled iff page 1; Next disabled iff fewer than 20 cards; one grid tile per card in order |
| `SearchResultsView.SettledShowsOneOf` | src/pages/SearchResults.tsx:57-121 | once not loading, exactly one of "No results" and the pagination bar is shown |
| `SearchResultsView.PrevDisabledIffNoop` | src/pages/SearchResults.tsx:123 | Previous is disabled exactly when pressing it would not change the page |
| `SearchResultsView.SearchResults.constructor` | src/pages/SearchResults.tsx:24-27 | mounts with the URL's query, no cards, not loading, page 1 |
| `SearchResultsView.SearchResults.HandleSearch` | src/pages/SearchResults.tsx:37-40 | navigates to the search path of the value, which becomes the query, and resets the page to 1 whatever it was |
| `SearchResultsView.SearchResults.Navigate` | src/pages/SearchResults.tsx:22-24 | a route change outside `handleSearch` (Back, Forward) sets the query to the URL's `query` parameter or `''`, keeps the page and `page >= 1` |
| `SearchResultsView.SearchResults.HandleNext` | src/pages/SearchResults.tsx:42 | the page becomes `p + 1`; `page >= 1` is kept |
| `SearchResultsView.SearchResults.HandlePrev` | src/pages/SearchResults.tsx:43 | the page becomes `max(1, p - 1)`; `page >= 1` is kept |
| `SearchResultsView.SearchResults.CommitEffect` | src/pages/SearchResults.tsx:29-35 | a request only when (query, page) changed and the query is non-empty; it is keyed by the query, the page size and the page, and sets loading |
| `SearchResultsView.SearchResults.CompleteFetch` | src/pages/SearchResults.tsx:32-34 | a body replaces the cards wholesale, a rejection keeps them, loading always ends |
| `SearchResultsView.PagingScenario` | src/pages/SearchResults.tsx:27-43 | a full first page leads to a request for page 2 after Next, a new search requests page 1 of the new query, and Back from page 2 of the new query requests page 2 of the old one |
| `SearchBarView.SearchBar.constructor` | src/components/SearchBar.tsx:22-29 | the field starts with the initial value, `""` by default |
| `SearchBarView.SearchBar.Change` | src/components/SearchBar.tsx:43 | editing replaces the value wholesale |
| `SearchBarView.SearchBar.Submit` | src/components/SearchBar.tsx:32-35 | `onSearch` is called exactly when the trimmed value is non-empty, and with exactly the trimmed value |
| `SearchBarView.SubmitScenario` | src/components/SearchBar.tsx:34-43 | a padded and a bare term hand `onSearch` the same argument; a whitespace-only value triggers nothing |
| `HomepageView.ArticlesLayout` | src/pages/Homepage.tsx:16-32 | three articles, news1 to news3, in that order |
| `HomepageView.SearchTarget` | src/pages/Homepage.tsx:39-44 | no navigation exactly for a blank term; otherwise the search path of the trimmed term |
| `HomepageView.SearchTargetIgnoresPadding` | src/pages/Homepage.tsx:41-42 | the target is that of the trimmed term, never of the raw one: padding never changes it |
| `HomepageView.Homepage.constructor` | src/pages/Homepage.tsx:35 | the search term starts empty |
| `HomepageView.Homepage.Change` | src/pages/Homepage.tsx:58 | editing replaces the term wholesale |
| `HomepageView.Homepage.Submit` | src/pages/Homepage.tsx:39-44 | navigates exactly when the trimmed term is non-empty, to `/search?query=` and the encoding of the trimmed term |

The helpers `VendorPriceValue`, `ShowsPurchaseLink`, `PointOf` and `WeeklyLine` have no row of their own: they model `v.prices?.[type]?.[finish]` (src/pages/CardDetailPage.tsx:37), the `v.purchaseUrl &&` test (:157), the chart's `map` callback (:60-64) and the weekly figure (src/pages/SearchResults.tsx:101-111), and the contracts of `VendorPrice`, `RowOf`, `ChartData` and `FieldLines` state their behaviour.

## Left out

- src/services/api.ts and src/services/cardService.ts are not part of this model: they are network I/O. Each fetch is an atomic request / settle pair whose outcome is a parameter.
- `fetchCardsByName` takes only the name, so the page size and page that SearchResults passes never reach the server. The model records the request as SearchResults makes it, and claims nothing about what the server returns for a page.
- Overlapping fetches and stale responses: effects have no cancellation, and a slow earlier response can overwrite a later one. This is not modelled, because each fetch is one atomic start and one atomic settle.
- Number formatting is passed in as parameters: `toLocaleString` with locale grouping and a minimum of two fraction digits, `toFixed(2)` and `toFixed(1)`. So is `encodeURIComponent`. These are floating-point and locale library calls.
- Prices are reals: JavaScript's NaN and infinities are not modelled. `typeof NaN === 'number'` would render `$NaN` rather than the dash.
- Trim works on Unicode code points, whereas JavaScript strings are UTF-16 code units. The whitespace set is ECMAScript's WhiteSpace (tab, line tabulation, form feed, zero-width no-break space and the Unicode 15 space separators) and LineTerminator.
- A summary field that is `undefined` rather than `null` is not modelled. The source compares with `=== null`, so an absent field would reach `toFixed` and throw; the Card type rules it out.
- SearchResultsView.SearchResults.HandleSearch: sets the query to the value itself. This assumes the URL parameter decodes back to what `encodeURIComponent` encoded; the router is not modelled.
- The search bar receives the query as its initial value only when it mounts. Later query changes do not reach the field; the model has no separate re-mount step for it.
- Routing (src/App.tsx), the header (src/components/Header.tsx), the image fallback to `/placeholder.png`, keyboard activation of result tiles, the chart's rendering of null points (`connectNulls`) and all JSX/CSS layout.
