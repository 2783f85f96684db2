/**
 * The request handlers of controllers/productsController.js, as functions
 * of the collection and the query parameters to the response body. A
 * `Failure` is a call that throws, which the handler turns into an error
 * response.
 */
module Controller {
  import opened Wrappers
  import opened ProductModel
  import opened Numerals
  import opened Months
  import opened Queries
  import opened Catalog
  import opened Pagination

  /** The body of a successful listTransactions response. */
  datatype TransactionsPage = TransactionsPage(
    transactions: seq<Record>,
    totalItems: nat,
    totalPages: int,
    currentPage: int,
    itemsPerPage: int)

  /**
   * listTransactions: the documents whose title or description matches
   * `search`, one page of them, with the pagination summary.
   */
  function ListTransactions(db: seq<Record>, search: Option<string>, pageParam: Option<string>,
                            perPageParam: Option<string>): (r: Result<TransactionsPage, StoreError>)
    ensures r.Failure? <==> Skip(PageNumber(pageParam), PageSize(perPageParam)) < 0
    ensures r.Success? ==>
      && r.value.totalItems == Count(db, TransactionsFilter(search))
      && r.value.currentPage == PageNumber(pageParam)
      && r.value.itemsPerPage == PageSize(perPageParam)
      && r.value.totalPages == TotalPages(r.value.totalItems, r.value.itemsPerPage)
    ensures PageNumber(pageParam) >= 1 && PageSize(perPageParam) >= 1 ==>
      r.Success? && IsPage(Select(db, TransactionsFilter(search)), r.value.transactions, PageNumber(pageParam), PageSize(perPageParam))
  {
    var page := PageNumber(pageParam);
    var perPage := PageSize(perPageParam);
    var filter := TransactionsFilter(search);
    var totalCount := Count(db, filter);
    var found := Find(db, filter, Skip(page, perPage), perPage);
    var totalPages := TotalPages(totalCount, perPage);
    var response :=
      if found.Failure? then Failure(found.error)
      else Success(TransactionsPage(found.value, totalCount, totalPages, page, perPage));
    if page >= 1 && perPage >= 1 then PageWindow(db, filter, page, perPage); response else response
  }

  /** Without a search, listTransactions pages through the whole collection. */
  lemma ListTransactionsWithoutSearch(db: seq<Record>, pageParam: Option<string>, perPageParam: Option<string>)
    ensures var r := ListTransactions(db, None, pageParam, perPageParam);
      r.Success? ==> r.value.totalItems == |db|
  {
    forall i | 0 <= i < |db| ensures Matches(TransactionsFilter(None), db[i]) {
      AbsentSearchMatchesAll(db[i]);
    }
    SelectAll(db, TransactionsFilter(None));
  }

  /** The body of a successful getProducts response. */
  datatype ProductsPage = ProductsPage(
    products: seq<Record>,
    page: int,
    perPage: int,
    totalPages: int,
    totalProducts: nat)

  /**
   * getProducts: the documents of the selected month, narrowed by a
   * non-empty search, one page of them, with the pagination summary.
   */
  function GetProducts(db: seq<Record>, search: Option<string>, month: Option<string>,
                       pageParam: Option<string>, perPageParam: Option<string>): (r: Result<ProductsPage, StoreError>)
    ensures r.Failure? <==> Skip(PageNumber(pageParam), PageSize(perPageParam)) < 0
    ensures r.Success? ==>
      && r.value.totalProducts == Count(db, ProductsFilter(search, MonthFilterValue(month)))
      && r.value.page == PageNumber(pageParam)
      && r.value.perPage == PageSize(perPageParam)
      && r.value.totalPages == TotalPages(r.value.totalProducts, r.value.perPage)
    ensures PageNumber(pageParam) >= 1 && PageSize(perPageParam) >= 1 ==>
      r.Success? && IsPage(Select(db, ProductsFilter(search, MonthFilterValue(month))), r.value.products, PageNumber(pageParam), PageSize(perPageParam))
  {
    var page := PageNumber(pageParam);
    var perPage := PageSize(perPageParam);
    var query := ProductsFilter(search, MonthFilterValue(month));
    var found := Find(db, query, Skip(page, perPage), perPage);
    var totalProducts := Count(db, query);
    var totalPages := TotalPages(totalProducts, perPage);
    var response :=
      if found.Failure? then Failure(found.error)
      else Success(ProductsPage(found.value, page, perPage, totalPages, totalProducts));
    if page >= 1 && perPage >= 1 then PageWindow(db, query, page, perPage); response else response
  }

  /** An empty search parameter gives the same response as no search parameter. */
  lemma EmptySearchIsNoSearch(db: seq<Record>, month: Option<string>, pageParam: Option<string>,
                              perPageParam: Option<string>)
    ensures GetProducts(db, Some(""), month, pageParam, perPageParam)
         == GetProducts(db, None, month, pageParam, perPageParam)
  {
  }

  /** The body of a getStatistics response. */
  datatype Statistics = Statistics(totalSaleAmount: real, totalSoldItems: nat, totalNotSoldItems: nat)

  /**
   * getStatistics: the price total of the month's sold documents (0 when
   * the `$group` stage yields nothing) and the counts of its sold and
   * not-sold documents.
   */
  function GetStatistics(db: seq<Record>, month: Option<string>): (r: Statistics)
    ensures var m := MonthFilterValue(month);
      && r.totalSaleAmount == SumPrice(Select(db, SoldFilter(m, true)))
      && r.totalSoldItems == Count(db, SoldFilter(m, true))
      && r.totalNotSoldItems == Count(db, SoldFilter(m, false))
      && r.totalSoldItems + r.totalNotSoldItems == Count(db, MonthFilter(m))
      && r.totalSaleAmount + SumPrice(Select(db, SoldFilter(m, false))) == SumPrice(Select(db, MonthFilter(m)))
      && (r.totalSoldItems == 0 ==> r.totalSaleAmount == 0.0)
  {
    var monthValue := MonthFilterValue(month);
    var totalSaleAmount := SumGroup(Select(db, SoldFilter(monthValue, true)));
    var totalSoldItems := Count(db, SoldFilter(monthValue, true));
    var totalNotSoldItems := Count(db, SoldFilter(monthValue, false));
    SoldPartition(db, MonthFilter(monthValue));
    Statistics(if |totalSaleAmount| > 0 then totalSaleAmount[0] else 0.0, totalSoldItems, totalNotSoldItems)
  }

  /** With non-negative prices the sale total is non-negative. */
  lemma SaleAmountNonNegative(db: seq<Record>, month: Option<string>)
    requires forall i :: 0 <= i < |db| ==> db[i].price >= 0.0
    ensures GetStatistics(db, month).totalSaleAmount >= 0.0
  {
    var sold := Select(db, SoldFilter(MonthFilterValue(month), true));
    assert forall i :: 0 <= i < |sold| ==> sold[i] in db;
    SumPriceNonNegative(sold);
  }

  /**
   * getPieChartData: the month's documents grouped by category, with no
   * `sold` clause: one entry per category present, each counting at least
   * one document, the counts adding up to the month's size.
   */
  function GetPieChartData(db: seq<Record>, month: Option<string>): (categoryCounts: seq<CategoryCount>)
    ensures var monthly := Select(db, MonthFilter(MonthFilterValue(month)));
      && (forall i, j :: 0 <= i < j < |categoryCounts| ==> categoryCounts[i].id != categoryCounts[j].id)
      && (forall i :: 0 <= i < |categoryCounts| ==>
            categoryCounts[i].count == CountCategory(monthly, categoryCounts[i].id) && categoryCounts[i].count >= 1)
      && (forall c :: (exists i :: 0 <= i < |categoryCounts| && categoryCounts[i].id == c) <==> c in Categories(monthly))
      && TotalCount(categoryCounts) == |monthly|
  {
    var monthly := Select(db, MonthFilter(MonthFilterValue(month)));
    GroupCountsSum(monthly);
    GroupByCategory(monthly)
  }

  /** A month clause naming no calendar month matches no document of a well-formed collection. */
  lemma NoCalendarMonthSelectsNothing(db: seq<Record>, f: Filter)
    requires AllWellFormed(db)
    requires f.month.Some? && !(1 <= f.month.value <= 12)
    ensures Select(db, f) == []
  {
    SelectNone(db, f);
  }

  /**
   * An absent month, or text that is neither decimal nor a month name,
   * yields empty statistics and an empty pie chart.
   */
  lemma UnrecognisedMonthYieldsNothing(db: seq<Record>, month: Option<string>)
    requires AllWellFormed(db)
    requires month.Some? ==> !IsDecimal(month.value) && month.value !in MonthNames
    ensures GetStatistics(db, month) == Statistics(0.0, 0, 0)
    ensures GetPieChartData(db, month) == []
  {
    UnrecognisedMonthIsZero(month);
    NoCalendarMonthSelectsNothing(db, SoldFilter(0, true));
    NoCalendarMonthSelectsNothing(db, SoldFilter(0, false));
    NoCalendarMonthSelectsNothing(db, MonthFilter(0));
  }

  /**
   * "March" and "3" (and every other name and its numeral) give the same
   * statistics, pie chart and product pages.
   */
  lemma NameAndNumeralSameResponses(db: seq<Record>, k: int, search: Option<string>,
                                    pageParam: Option<string>, perPageParam: Option<string>)
    requires 1 <= k <= 12
    ensures GetStatistics(db, Some(MonthNames[k - 1])) == GetStatistics(db, Some(NatToString(k)))
    ensures GetPieChartData(db, Some(MonthNames[k - 1])) == GetPieChartData(db, Some(NatToString(k)))
    ensures GetProducts(db, search, Some(MonthNames[k - 1]), pageParam, perPageParam)
         == GetProducts(db, search, Some(NatToString(k)), pageParam, perPageParam)
  {
    NameAndNumeralAgree(k);
  }
}
