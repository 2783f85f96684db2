# Transactions dashboard controller — a Dafny model

This project models the request handlers of `controllers/productsController.js`.
The handlers serve a dashboard over a `Products` collection, where each document is
a product-sale transaction with a title, price, description, category, image, a
`sold` flag and a sale date. It models:

- the **month resolver** that all four month-aware handlers copy. A numeric `month`
  query parameter gives `parseInt(month) - 1`. Anything else is looked up in the twelve
  English month names with `indexOf`, and an absent or unknown name gives `-1`;
- the **pagination arithmetic**: `parseInt(page) || 1`, `parseInt(perPage) || 10`,
  `skip = (page - 1) * perPage` and `Math.ceil(total / perPage)`;
- the **filters** the handlers build. The title/description search is case-insensitive.
  The month condition `$month(dateOfSale) == monthIndex + 1` is combined with the
  sold flag and the price bounds;
- the **handlers**:
  - `listTransactions` and `getProducts`: a page of matches with the count and the page count;
  - `getStatistics`: the sum of sold prices and the sold and not-sold counts of a month;
  - `getBarChartData`: the count of month documents in each of ten price ranges;
  - `getPieChartData`: the count of month documents per category.

The collection is a sequence of `ProductModel.Record` values. A query is a
`Queries.Filter`, and its meaning is the predicate `Queries.Matches`. The store's
operations are functions over the sequence:

- `find` keeps the matching documents in their stored order, then applies skip and limit;
- `countDocuments` is the number of matches;
- `$group` is a sum or a per-category count.

A handler takes the collection and its query parameters (each of them possibly
absent) and returns the JSON body as a datatype. A store error is returned as a
`Failure`. The bar-chart handler fills its counts in a loop, so it is a method
with a loop invariant; everything else is pure.

The store is taken to behave as MongoDB does:

- a negative `skip` is an error;
- `limit(0)` means no limit;
- `limit(-n)` returns at most `n` documents.

The handlers follow `skip`/`limit` with these rules. A page number or page size
below 1 is therefore not excluded: the model says what the source answers then.

## Model

| member | source | states |
|---|---|---|
| Numerals.ParseInt | controllers/productsController.js:28-29 | An absent parameter is NaN. Text yields a number exactly when a digit follows the optional sign. A plain decimal string yields its own value. |
| Numerals.DecimalRoundTrip | controllers/productsController.js:93 | Reading back the decimal rendering of any natural number gives that number. |
| Numerals.ParseIntRoundTrip | controllers/productsController.js:28-29 | `parseInt` of the rendering of any integer, negative ones included, gives that integer. |
| Months.IndexOf | controllers/productsController.js:91 | `indexOf` is -1 exactly when the name is absent. Otherwise it is a position holding the name, with no earlier occurrence. |
| Months.MonthIndex | controllers/productsController.js:75-94 | An absent month gives -1. A decimal string gives its value minus one. A month name gives its position 0..11. Any other text gives -1. The same resolver is copied at lines 153-172, 219-238 and 283-302. |
| Months.NumeralSelectsItsValue | controllers/productsController.js:92-94 | The numeral of any n selects calendar month n in the filter. |
| Months.NameAndNumeralAgree | controllers/productsController.js:75-94 | For every k in 1..12, the k-th month name and the numeral k select the same calendar month, k. |
| Months.UnrecognisedMonthIsZero | controllers/productsController.js:91 | A month that is not a number and not one of the twelve names selects month 0. |
| Months.LowerCaseNameIsUnrecognised | controllers/productsController.js:91 | The lookup is case-sensitive: any text starting with a lower-case letter (such as "march") selects month 0. |
| Queries.ContainsIffOccurs | controllers/productsController.js:25-46 | The recursive substring test holds exactly when the pattern occurs at some window of the text. |
| Queries.EmptyPatternMatchesAll | controllers/productsController.js:25 | The empty pattern occurs in every text. |
| Queries.AbsentSearchMatchesAll | controllers/productsController.js:24-38 | With no search parameter, the transactions query matches every document. |
| Queries.ProductsFilterMeaning | controllers/productsController.js:305-314 | An absent or empty search leaves only the month condition. Otherwise a document matches exactly when its month matches and the search occurs, ignoring case, in its title or its description. |
| Catalog.Select | controllers/productsController.js:41-46 | The result is no longer than the collection, and a document occurs in it exactly when it is in the collection and matches the filter. |
| Catalog.SelectAppend | controllers/productsController.js:41-46 | Selection distributes over concatenation, so the matches keep collection order and multiplicity. |
| Catalog.SelectSingle | controllers/productsController.js:41-46 | A single document is selected exactly when it matches. Together with SelectAppend, this fixes the result, and so `countDocuments`, for every collection. |
| Catalog.Find | controllers/productsController.js:41-48 | A negative skip fails. Otherwise the result is the window of the matches that starts at the skip, with its length fixed by the limit rules. |
| Catalog.SumGroup | controllers/productsController.js:106-111 | `$group` with `_id: null` gives no group for no input and one group, holding the price sum, otherwise. |
| Catalog.SumPriceNonNegative | controllers/productsController.js:109 | A sum of non-negative prices is non-negative. |
| Catalog.SoldPartition | controllers/productsController.js:115-130 | For a filter with no sold clause, the sold and not-sold documents split its matches. Their counts and their price sums add up to those of the whole. |
| Catalog.CountAllOfPartition | controllers/productsController.js:192-201 | When every matching document meets exactly one of the filters in a list, the counts of those filters add up to the count of matches. |
| Catalog.GroupByCategory | controllers/productsController.js:253-258 | Grouping by category gives one entry per distinct category, and no category twice. Each entry's count is the number of documents in that category and is at least 1. |
| Catalog.GroupCountsSum | controllers/productsController.js:253-258 | The per-category counts add up to the number of grouped documents. |
| Pagination.PageParam | controllers/productsController.js:28-29 | A parameter that parses to NaN or 0 falls back to the default, so a non-zero default never gives 0. |
| Pagination.PageNumber | controllers/productsController.js:28 | The page number is never 0. |
| Pagination.PageSize | controllers/productsController.js:29 | The page size is never 0, so the page-count division is defined. |
| Pagination.PageParamOfNumeral | controllers/productsController.js:28-29 | Any non-zero integer written out is taken as given. 0 gives the default. |
| Pagination.PageParamOfNonNumeric | controllers/productsController.js:28-29 | Text with no digit after the optional sign gives the default. |
| Pagination.TotalPages | controllers/productsController.js:51 | The ceiling of total / perPage. For a positive size, the fewest pages that hold all items. For a negative size, the bounds mirror those. |
| Pagination.SkipBounds | controllers/productsController.js:30 | For a page and size of at least 1, the skip is non-negative. It is below the total exactly when the page is at most the page count. |
| Pagination.PageWindow | controllers/productsController.js:30-48 | For a page and size of at least 1, the query succeeds. Its result holds at most perPage documents, each the match at position skip + i. The result runs to the end of the page or of the matches, and is empty past the last page. |
| Pagination.DocumentOnItsPage | controllers/productsController.js:318-331 | Every matching document appears on exactly the page and position that the arithmetic assigns to it, and that page is within the page count. |
| Controller.ListTransactions | controllers/productsController.js:22-66 | Fails exactly when the skip is negative. Otherwise it reports the count of matches, the page, the size and the page count. For a page and size of at least 1, the transactions are that page of the matches. |
| Controller.ListTransactionsWithoutSearch | controllers/productsController.js:24-38 | With no search parameter, the total is the size of the whole collection. |
| Controller.GetProducts | controllers/productsController.js:270-340 | The same guarantees for the month-and-search query, with `totalProducts` as its count of matches. |
| Controller.EmptySearchIsNoSearch | controllers/productsController.js:277 | An empty search and an absent search give the same response. |
| Controller.GetStatistics | controllers/productsController.js:68-138 | The sale amount is the price sum of the month's sold documents, and is 0 when none is sold. The sold count is the count of the month's sold documents. The not-sold count is the count of its not-sold documents. The two counts add up to the month's documents, and so do their sums. |
| Controller.SaleAmountNonNegative | controllers/productsController.js:96-112 | With non-negative prices, the sale amount is non-negative. |
| Controller.GetPieChartData | controllers/productsController.js:212-262 | One entry per distinct category of the month's documents. The counts are exact and positive, and they add up to the month's document count. |
| Controller.NoCalendarMonthSelectsNothing | controllers/productsController.js:102 | In a well-formed collection, no document matches a month outside 1..12. |
| Controller.UnrecognisedMonthYieldsNothing | controllers/productsController.js:91-138 | An unrecognised month name gives statistics (0, 0, 0) and an empty pie chart. |
| Controller.NameAndNumeralSameResponses | controllers/productsController.js:75-94 | For each month k, the name and the numeral give the same statistics, the same pie chart, and the same product page for any search, page and page size. |
| BarChart.NameAndNumeralSameRanges | controllers/productsController.js:153-199 | For each month k, the name and the numeral give the bar chart the same ten range filters, so the same counts under every label. |
| BarChart.Labels | controllers/productsController.js:175-200 | Rendering each range with its template at line 200 gives exactly "0-100", "101-200", …, "801-900", "901-Infinity", in table order. |
| BarChart.LabelsDistinct | controllers/productsController.js:200 | No two ranges share a label, so no count overwrites another. |
| BarChart.GetBarChartData | controllers/productsController.js:146-204 | The response maps exactly the ten labels, each to the count of the month's documents priced within that range's inclusive bounds. |
| BarChart.PriceRangeOf | controllers/productsController.js:175-186 | Each non-negative price outside the nine gaps, every whole price among them, lies in exactly one range, the one at the returned index. |
| BarChart.GapPricesUncounted | controllers/productsController.js:175-194 | Every price strictly between 100k and 100k + 1, for k in 1..9, lies in none of the ranges. |
| BarChart.CountedIffOutsideGaps | controllers/productsController.js:175-194 | A non-negative price lies in exactly one range if and only if it is outside the nine gaps. Otherwise it lies in none. |
| BarChart.RangeCountsCoverMonth | controllers/productsController.js:175-201 | When all prices are non-negative whole numbers, the ten counts add up to the month's document count. |
| BarChart.FractionalPriceUncounted | controllers/productsController.js:175-194 | Worked instance of the gap: the price 100.5 lies in no range. A month with one such document has a count of 1 and range counts that add up to 0. |
| BarChart.CorrectedRangesPartition | controllers/productsController.js:175-186 | With each range starting just above the previous maximum, every non-negative price lies in exactly one range. |
| BarChart.CorrectedCountsCoverMonth | controllers/productsController.js:175-186 | With the corrected ranges, the counts add up to the month's document count for all non-negative prices. |
| BarChart.UnrecognisedMonthCountsZero | controllers/productsController.js:197 | An unrecognised month gives zero in every range. |

## Left out

- `initializeDatabase` (lines 4-20): it fetches seed data over HTTP and inserts it, which is I/O.
- `getCombinedData` (lines 344 onward): it calls identifiers that are not defined, so any request to it fails. It has no route.
- `index.js` and the route table: server setup and wiring only.
- Numerals.ParseInt: covers an optional sign and the longest leading digit run. It does not model leading whitespace or hexadecimal prefixes.
- Months.MonthIndex: takes the numeric branch only for an unsigned digit string. JavaScript's `isNaN` also accepts whitespace, the empty string, a sign, a fraction, an exponent or a hexadecimal prefix ("0x3" is March in the source, but month 0 here). For those inputs the model uses the name lookup, which yields -1.
- Queries.ContainsIgnoreCase: the search is a literal substring with ASCII case-folding. Regular-expression metacharacters and Unicode case-folding are not modelled, and neither is the error an invalid pattern raises (a 400 or 500 response).
- The sale date is represented by its month (`saleMonth`), or none when it is missing. Time zones, the timestamp-to-month conversion, and the unused `startDate`/`endDate` of `getPieChartData` are not modelled.
- Prices are exact reals. Floating-point rounding in `$sum` is not modelled.
- BarChart.GetBarChartData: the response object keeps its keys in insertion order, which is the order of `Labels()`. The result is a map, which records the keys and their counts but not that order.
- Catalog.GroupByCategory: `$group` output order is unspecified in MongoDB. The model fixes first-appearance order, and its contracts do not depend on order beyond that.
- The handlers' `try`/`catch`, status codes, logging, `async` and the `res.json` plumbing are not modelled. A store failure is returned as a `Failure` value.
- `sold` is taken to be a boolean. A document with a missing or non-boolean `sold` field is not represented.
- An unknown month name is not rejected. It yields the index -1, so the filters compare with month 0, which matches nothing.
- Catalog.Find, Pagination.PageWindow, Pagination.DocumentOnItsPage, Controller.ListTransactions and Controller.GetProducts: `find` has no `sort`, so MongoDB guarantees no order, and no stable order across the separate queries of successive pages. The model assumes one fixed collection order for every call. The page contents these members state hold only under that assumption.
- Pagination.PageParam, Pagination.Skip and Catalog.Find: `page`, `perPage` and the skip are JavaScript doubles in the source. `parseInt` loses precision above 2^53, and the store rejects a skip or limit that does not fit a 64-bit integer. The model uses unbounded integers and models neither.

## Findings

| source | as written | input that shows it | evidently intended | confidence | as-written member | corrected member |
|---|---|---|---|---|---|---|
| controllers/productsController.js:175-186 | The ranges use inclusive whole-number bounds 0-100, 101-200, … with `$gte min` and `$lte max`. A price strictly between two ranges (100 < p < 101) is counted in none of them. | a document of the selected month with price 100.5 | every price of the month falls in exactly one range: each range starts just above the previous maximum | medium, not executed | BarChart.FractionalPriceUncounted | BarChart.CorrectedCountsCoverMonth |

`BarChart.GapPricesUncounted` and `BarChart.CountedIffOutsideGaps` state, for every
price, which prices the published ranges lose: exactly the non-negative prices in
the nine gaps (100k, 100k + 1). `BarChart.FractionalPriceUncounted` is the worked
instance with a one-document month.

`BarChart.GetBarChartData` keeps the published ranges, since the labels of the
response are built from them. The corrected ranges are `BarChart.CorrectedRangeFilters`,
which keep the same maxima and replace each minimum with "strictly above the
previous maximum".
