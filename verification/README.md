# Product inventory dashboard: reconciliation, query, URL and pagination logic

A Dafny model of the sequential logic inside a small React product-inventory dashboard. The
dashboard shows a filterable, sortable, paginated grid of products fetched from a hosted
query service. What is modelled:

- **The reconciler** (`app.dfy`, module `App`). After every change of page, filters or sort,
  one pass compares the filters and the sort with the snapshot the previous pass left. It
  then does one of three things: it resets the page to 1 and fetches nothing, it fetches
  page 1, or it fetches the current page. Last, it overwrites the snapshot. The class
  `App.Dashboard` holds the component's state: page, filters, sort, the two snapshot refs,
  products, total, loading and error. Its methods are the pass (`Settle`), the start and the
  outcome of a fetch, the filter-bar and pagination handlers, `clearFilters`, and the writing
  of the query string. The functional core (`Decide`, `After`, `Run`) states what a pass and
  a chain of passes do. `Run` re-runs the pass after a page reset, because the reset page is
  itself a dependency of the effect. The lemmas prove that every change ends in exactly one
  fetch, and that after a filter or sort change that fetch is for page 1.
- **The query builder** (`query_builder.dfy`). It is a pure descriptor of the remote query:
  the filter predicates, the sort column and direction, and the inclusive row range.
  `BuildQuery` is the conditional builder chain, proved equal to the declarative `Build`.
- **The URL synchroniser** (`url_sync.dfy`). It writes the state into query parameters and
  reads the initial state back, using the initialisers' fallbacks. Query parameters are a map
  from key to decoded value.
- **The filter bar** (`filter_bar.dfy`). It covers the field-replacing change handler and the
  `column_order` sort key, which is split at its last underscore.
- **The pagination control** (`pagination.dfy`). It covers the page count, the
  previous/next updaters and the predicates that disable the buttons.
- The JavaScript library behaviour these rely on (`js_text.dfy`): `lastIndexOf`, clamping
  `substring`, `parseInt(s, 10)` and `String(n)`.

A page number is `PageNo = Num(int) | NaN`. `parseInt` of a page parameter with no digit
after leading white space and an optional sign yields NaN. The page initialiser never
defaults that NaN to 1, even though a default of 1 on invalid input might be expected. Only
the reset after a filter or sort change (`NaN !== 1` holds, so the page is set to 1;
`App.NaNPageResetOnChange`) or `clearFilters` brings the page back to 1. Otherwise NaN flows
through the comparisons (`NaN >= n` is false), the updaters (`Math.max(NaN, 1)` is NaN) and
the row range.

Comparing `JSON.stringify` renderings is modelled as structural equality of the filter and
sort records. The field order is fixed by the object literals and kept by the spread in the
filter handler, so the two comparisons agree.

Three consequences the proofs make precise:

- The URL round trip holds for every page, including negative pages, 0 and NaN. It holds for
  every filter and sort exactly when category, stock status, sort column and sort order are
  non-empty (`UrlSync.UrlRoundTrip`). The `|| default` initialisers read an empty value back
  as its default (`UrlSync.UrlReadBack`), so an empty page parameter (`?page=`) is page 1
  (`UrlSync.DecodePage`).
- On a NaN page, both pagination buttons are enabled, because `NaN === 1` and
  `NaN >= totalPages` are both false. Both buttons leave the page NaN
  (`Pagination.NaNPageButtonsInert`).
- The default sort, which is also the sort `clearFilters` installs (created_at, asc), has
  the key `created_at_asc`. No option of the sort control has that value
  (`FilterBar.DefaultSortNotOffered`).

## Model

| member | source | states |
|---|---|---|
| `JsText.LastIndexOf` | src/components/FilterBar.jsx:10 | -1 exactly when the character is absent; otherwise a position holding it with no occurrence after it |
| `JsText.JsSubstring` | src/components/FilterBar.jsx:11-12 | in-range indices give the slice; two non-positive indices give the empty string (clamping) |
| `JsText.ParseInt` | src/App.jsx:18 | a non-empty digit string parses to its decimal value; a string with no digit parses to NaN (None) |
| `JsText.ParseIntText` | src/App.jsx:18 | parsing the decimal text of any integer gives that integer back |
| `JsText.ParseIntNegative` | src/App.jsx:18 | a minus sign followed by digits parses to the negated decimal value |
| `FilterBar.WithField` | src/components/FilterBar.jsx:3-6 | the changed field takes the input's value and every other field keeps its previous value |
| `FilterBar.WithFieldOverwrites` | src/components/FilterBar.jsx:5 | a second change of the same field replaces the first entirely |
| `FilterBar.WithFieldCommutes` | src/components/FilterBar.jsx:5 | changes to two different fields give the same record in either order |
| `FilterBar.SortKey` | src/components/FilterBar.jsx:64 | the control value is one character longer than column and order together, with an underscore right after the column; its contents are fixed by `FilterBar.SortKeyRoundTrip` |
| `FilterBar.ParseSortKey` | src/components/FilterBar.jsx:8-13 | with an underscore: column + "_" + order is the value and the order has no underscore (split at the last one); without one: empty column, the whole value as order |
| `FilterBar.SortKeyRoundTrip` | src/components/FilterBar.jsx:10-12 | parsing the key of a sort gives that sort back exactly when its order has no underscore, even for columns with underscores |
| `FilterBar.SortOptionsParse` | src/components/FilterBar.jsx:67-72 | every option value parses to a column in {created_at, price, name, stock_quantity} and an order in {asc, desc} |
| `FilterBar.NoUnderscoreSplit` | src/components/FilterBar.jsx:10-12 | a value without an underscore gives column "" and the whole value as order |
| `FilterBar.DefaultSortNotOffered` | src/components/FilterBar.jsx:64-72 | the key of the default sort, created_at_asc, is not among the option values |
| `Pagination.TotalPages` | src/components/Pagination.jsx:3 | the result is the ceiling of total / perPage: enough pages for every product, one page fewer would not be; 0 pages exactly when there are no products |
| `Pagination.Previous` | src/components/Pagination.jsx:12 | "previous" keeps a page numbered or NaN; a numbered page never goes below 1, never moves forward from page 1 on, moves exactly one back from pages above 1, and goes to exactly 1 from any page up to 1, 0 and negative pages included |
| `Pagination.PreviousDisabled` | src/components/Pagination.jsx:13 | "previous" is disabled only on a numbered page where it would stay put, and never above page 1 |
| `Pagination.PreviousDisabledExactly` | src/components/Pagination.jsx:13 | "previous" is disabled on page 1 and nowhere else |
| `Pagination.Next` | src/components/Pagination.jsx:19 | "next" keeps a page numbered or NaN and moves a numbered page forward by exactly one page |
| `Pagination.NextDisabled` | src/components/Pagination.jsx:20 | only a numbered page can disable "next"; below the page count it is enabled; when enabled on a numbered page it leads to a page within the page count |
| `Pagination.NextStaysInRange` | src/components/Pagination.jsx:19-20 | on a numbered page, whenever "next" is enabled, the page it leads to is at most the page count and starts at or before the last product |
| `Pagination.NaNPageButtonsInert` | src/components/Pagination.jsx:11-20 | on a NaN page both buttons are enabled and both leave the page NaN |
| `Pagination.EmptyResultDisablesBoth` | src/components/Pagination.jsx:3-20 | with no products there are 0 pages and both buttons are disabled on page 1 |
| `Pagination.PreviousUndoesNext` | src/components/Pagination.jsx:12-19 | from any page from 1 on, "previous" after "next" returns to the same page |
| `QueryBuilder.PageRange` | src/App.jsx:74-76 | page n starts at row (n-1)·perPage and spans exactly perPage rows; a NaN page gives a NaN range |
| `QueryBuilder.PagesTile` | src/App.jsx:74-76 | each page's range starts right after the previous page's range ends |
| `QueryBuilder.FirstPageRange` | src/App.jsx:74-76 | page 1 with 10 rows a page is rows 0 to 9 |
| `QueryBuilder.Predicates` | src/App.jsx:51-68 | at most five predicates, and none exactly when no filter field is set (name and prices empty, category "all", stock status neither "in_stock" nor "out_of_stock") |
| `QueryBuilder.Build` | src/App.jsx:48-76 | the order column is the sort column, ascending exactly when the order is "asc", and the range is the page's range |
| `QueryBuilder.QueryRules` | src/App.jsx:51-68 | the predicate for each field is present exactly when that field is set: name, minPrice, maxPrice non-empty; category not "all"; stock_quantity > 0 for "in_stock" and stock_quantity = 0 for "out_of_stock" |
| `QueryBuilder.QueryOperands` | src/App.jsx:51-62 | every predicate carries its own filter field's value: the ilike is on %name%, the equality on the category, the bounds on minPrice and maxPrice |
| `QueryBuilder.QueryLength` | src/App.jsx:51-68 | the number of predicates is the number of set filter fields, so no field adds more than one |
| `QueryBuilder.AtMostOneStockPredicate` | src/App.jsx:63-68 | at most one stock predicate, and none for any status other than the two named ones |
| `QueryBuilder.BuildQuery` | src/App.jsx:48-76 | the chain of conditional refinements yields exactly the descriptor `Build` describes |
| `UrlSync.PageText` | src/App.jsx:138 | the page's text is all digits from page 0 on, a minus sign and digits for a negative page, and digit-free for NaN |
| `UrlSync.Encode` | src/App.jsx:137-145 | page, sortBy and order are always written |
| `UrlSync.EncodeRules` | src/App.jsx:137-145 | page holds the page's text and sortBy/order the sort; name, minPrice and maxPrice are written exactly when non-empty, category and stockStatus exactly when not "all", each with the state's value; no other key is written |
| `UrlSync.GetOr` | src/App.jsx:24-32 | a missing or empty parameter gives the fallback; a present non-empty one gives its value |
| `UrlSync.DecodePage` | src/App.jsx:18 | a missing or empty page parameter gives page 1; one of digits gives their value; a non-empty one without digits gives NaN |
| `UrlSync.Decode` | src/App.jsx:18-33 | the category, stock status, sort column and order read from a URL are never empty |
| `UrlSync.PageRoundTrip` | src/App.jsx:18 | the text written for any page, NaN included, parses back to that page |
| `UrlSync.UrlReadBack` | src/App.jsx:18-33 | reading back the written parameters gives the same page, name and prices, and an empty category, stock status, sort column or order comes back as "all", "all", "created_at" or "asc" |
| `UrlSync.UrlRoundTrip` | src/App.jsx:18-33 | reading back the written parameters reproduces the state exactly when category, stock status, sort column and order are non-empty |
| `UrlSync.DecodeDefaults` | src/App.jsx:18-33 | a missing page gives page 1, a missing sort gives created_at/asc, and no parameters give page 1 with the cleared filters |
| `UrlSync.NonNumericPageIsNaN` | src/App.jsx:18 | a non-empty page parameter without digits gives a NaN page, not page 1 |
| `App.Changed` | src/App.jsx:108-109 | the filters or sort differ from the snapshot exactly when recording the snapshot, as a fetching pass does, would alter the state |
| `App.Decide` | src/App.jsx:108-127 | a fetch under new filters or sort is for page 1; a reset happens only on a change away from page 1; with nothing changed the current page is fetched |
| `App.After` | src/App.jsx:131-132 | after a pass the snapshot equals the current filters and sort |
| `App.DecideCases` | src/App.jsx:108-127 | a change away from page 1 resets the page without fetching; a change on page 1 fetches page 1; no change fetches the current page; a fetch under new filters or sort is always for page 1 |
| `App.Run` | src/App.jsx:112-127 | the passes after one change end in a fetch, after at most one page reset |
| `App.ExactlyOneFetch` | src/App.jsx:111-132 | the passes following any change fetch exactly once, page 1 after a filter or sort change, and the passes are a reset followed by that fetch when away from page 1 |
| `App.NaNPageResetOnChange` | src/App.jsx:115-117 | a filter or sort change on a NaN page resets the page to 1 and then fetches page 1 |
| `App.FilterEditFetchesFirstPage` | src/App.jsx:108-121 | editing a filter field to a new value on any page ends in exactly one fetch, of page 1 |
| `App.SortChangeFetchesFirstPage` | src/App.jsx:109-121 | choosing a different sort on any page ends in exactly one fetch, of page 1 |
| `App.PageChangeFetchesThatPage` | src/App.jsx:123-127 | a page change with filters and sort unchanged is one pass that fetches that page |
| `App.ClearFetchesOnce` | src/App.jsx:36-42 | after clearing, from any state, exactly one fetch follows, of page 1, with no predicates, created_at ascending, rows 0 to 9 |
| `App.Mounted` | src/App.jsx:92-93 | the snapshot starts equal to the state read from the URL |
| `App.InitialLoad` | src/App.jsx:107-127 | mounting without parameters is one pass fetching page 1, unfiltered, created_at ascending, rows 0 to 9 |
| `App.OutOfStockOnPageThree` | src/App.jsx:108-121 | choosing out_of_stock on page 3 resets to page 1, then fetches with the stock_quantity = 0 predicate only and rows 0 to 9 |
| `App.Dashboard.constructor` | src/App.jsx:13-33 | page, filters and sort come from the URL; the snapshot equals them; no products, total 0, loading, no error |
| `App.Dashboard.ChangeFilter` | src/components/FilterBar.jsx:3-6 | only the named filter field changes, to the input's value |
| `App.Dashboard.ChangeSort` | src/components/FilterBar.jsx:8-14 | the sort becomes the parse of the control's value; nothing else changes |
| `App.Dashboard.ClearFilters` | src/App.jsx:36-42 | filters become {'', all, '', '', all}, sort becomes created_at/asc and page becomes 1 |
| `App.Dashboard.PressPrevious` | src/components/Pagination.jsx:11-13 | fires exactly when not on page 1, and then applies max(p-1, 1); otherwise the page is unchanged |
| `App.Dashboard.PressNext` | src/components/Pagination.jsx:18-20 | fires exactly when "next" is not disabled (below the page count, or on a NaN page), then applies p+1; on a numbered page the new page is within the page count |
| `App.Dashboard.StartFetch` | src/App.jsx:44-46 | loading on, error cleared, and the query for the current filters, sort and requested page sent |
| `App.Dashboard.Settle` | src/App.jsx:107-133 | the action is the pass's decision; the page is reset only by a reset; the snapshot is overwritten; a fetch starts loading, clears the error and sends the query for the new filters and sort |
| `App.Dashboard.Complete` | src/App.jsx:78-89 | success replaces products and total; failure empties products and records the message, leaving the total; loading ends; page, filters and sort are untouched |
| `App.Dashboard.SearchParams` | src/App.jsx:136-146 | the parameters set one by one are exactly `Encode` of the current page, filters and sort |

## Left out

- The remote service and the network: the client handle, the awaited query and the category
  fetch (src/App.jsx:96-104) are foreign calls. A fetch is reduced to the query it sends and
  an `Outcome` (rows and count, or an error message) that `Complete` applies. The select
  clause (`*, categories(name)`) and the exact-count mode are the same on every query, so
  the descriptor does not carry them.
- React scheduling: effect dependency tracking, re-rendering, `useCallback` and `useRef`
  mechanics. A pass is an explicit call of `Settle`. `Run` models only the re-run that a page
  reset causes.
- The race between overlapping fetches, where the last response to arrive wins. `Complete`
  applies whichever outcome it is given; no ordering of responses is modelled.
- `URLSearchParams` percent-encoding and `setSearchParams` navigation: parameters are a map
  of decoded strings.
- All rendering and styling, including the product card (src/components/ProductCard.jsx) and
  the "Page x of y" text.
- The service's comparison of price strings with the numeric price column: the bounds stay
  strings inside the predicates.
- Floating point: `Math.ceil` of a float division is natural-number ceiling division. Pages
  beyond 2^53, their exponent rendering from 1e21 on, and the -0 that `parseInt("-0")`
  yields are not distinguished from mathematical integers.
- Filter inputs whose name is not one of the five fields: the spread would add a new key.
  All inputs of the filter bar carry one of the five names, so `FilterField` has five cases.
- A null `count` in a successful response: the count is a natural number.
