/**
 * The pagination arithmetic of listTransactions and getProducts:
 * `parseInt(x) || default` for the page and page-size parameters,
 * `skip = (page - 1) * perPage`, `limit = perPage` and
 * `totalPages = Math.ceil(total / perPage)`.
 */
module Pagination {
  import opened Wrappers
  import opened Numerals
  import opened ProductModel
  import opened Queries
  import opened Catalog

  /** `parseInt(raw) || default`: NaN and 0 are falsy and give way to the default. */
  function PageParam(raw: Option<string>, default: int): (n: int)
    ensures default != 0 ==> n != 0
  {
    match ParseInt(raw)
    case None => default
    case Some(v) => if v != 0 then v else default
  }

  /** The page number: `parseInt(req.query.page) || 1`. */
  function PageNumber(raw: Option<string>): (page: int)
    ensures page != 0
  {
    PageParam(raw, 1)
  }

  /** The page size: `parseInt(req.query.perPage) || 10`. */
  function PageSize(raw: Option<string>): (perPage: int)
    ensures perPage != 0
  {
    PageParam(raw, 10)
  }

  /**
   * The decimal text of any integer other than 0, negative ones included,
   * passes through unchanged; "0" and an absent parameter give the default.
   */
  lemma PageParamOfNumeral(n: int, default: int)
    ensures PageParam(Some(IntToString(n)), default) == if n == 0 then default else n
    ensures PageParam(None, default) == default
  {
    ParseIntRoundTrip(n);
  }

  /** Text that does not start with digits (after an optional sign) parses to NaN and gives the default. */
  lemma PageParamOfNonNumeric(s: string, default: int)
    requires |Unsigned(s)| == 0 || !IsDigit(Unsigned(s)[0])
    ensures PageParam(Some(s), default) == default
  {
  }

  /** Euclidean division by a positive divisor, with the product named. */
  lemma DivisionBounds(a: int, d: int)
    requires d > 0
    ensures (a / d) * d <= a < (a / d) * d + d
    ensures (a / d - 1) * d == (a / d) * d - d
    ensures a >= 0 ==> a / d >= 0
  {
  }

  /** `Math.ceil(total / perPage)` for a page size other than 0. */
  function TotalPages(total: nat, perPage: int): (pages: int)
    requires perPage != 0
    ensures perPage > 0 ==> pages >= 0 && (pages - 1) * perPage < total <= pages * perPage
    ensures perPage < 0 ==> pages <= 0 && pages * perPage <= total < (pages - 1) * perPage
  {
    if perPage > 0 then
      DivisionBounds(total + perPage - 1, perPage);
      (total + perPage - 1) / perPage
    else
      DivisionBounds(total, -perPage);
      NegateProduct(total / -perPage, perPage);
      -(total / -perPage)
  }

  lemma NegateProduct(q: int, p: int)
    ensures -q * p == q * -p
    ensures (-q - 1) * p == q * -p + -p
  {
  }

  /** `skip` for a page. */
  function Skip(page: int, perPage: int): int {
    (page - 1) * perPage
  }

  /** The offset of a page is 0 or more; it falls inside the matches exactly up to the last page. */
  lemma SkipBounds(total: nat, page: int, perPage: int)
    requires page >= 1 && perPage >= 1
    ensures Skip(page, perPage) >= 0
    ensures Skip(page, perPage) + perPage == page * perPage
    ensures page > TotalPages(total, perPage) ==> Skip(page, perPage) >= total
    ensures page <= TotalPages(total, perPage) ==> Skip(page, perPage) < total
  {
    var pages := TotalPages(total, perPage);
    var skip := Skip(page, perPage);
    MulNonNegative(page - 1, perPage);
    if page > pages {
      MulMonotone(pages, page - 1, perPage);
    } else {
      MulMonotone(page - 1, pages - 1, perPage);
    }
  }

  lemma MulNonNegative(a: int, b: int)
    requires a >= 0 && b >= 0
    ensures a * b >= 0
  {
  }

  lemma MulMonotone(a: int, b: int, c: int)
    requires a <= b && c >= 0
    ensures a * c <= b * c
  {
    MulNonNegative(b - a, c);
    assert (b - a) * c == b * c - a * c;
  }

  /**
   * `items` is page `page` of `matching` at `perPage` documents a page: the
   * documents from offset `(page - 1) * perPage` on, at most `perPage` of
   * them, as many as remain up to the end of the page, and none past the
   * last page.
   */
  predicate IsPage(matching: seq<Record>, items: seq<Record>, page: int, perPage: int)
    requires perPage >= 1
  {
    && |items| <= perPage
    && (forall i :: 0 <= i < |items| ==> 0 <= Skip(page, perPage) + i < |matching| && items[i] == matching[Skip(page, perPage) + i])
    && (page <= TotalPages(|matching|, perPage) ==> Skip(page, perPage) + |items| == Min(page * perPage, |matching|))
    && (page > TotalPages(|matching|, perPage) ==> items == [])
  }

  /** For a page and a page size of at least 1, `find` with the page's skip and limit returns that page. */
  lemma PageWindow(db: seq<Record>, f: Filter, page: int, perPage: int)
    requires page >= 1 && perPage >= 1
    ensures var r := Find(db, f, Skip(page, perPage), perPage);
      r.Success? && IsPage(Select(db, f), r.value, page, perPage)
  {
    SkipBounds(Count(db, f), page, perPage);
  }

  /**
   * Every matching document is reachable: document `i` of the match is item
   * `i % perPage` of page `i / perPage + 1`, and that page is within range.
   */
  lemma DocumentOnItsPage(db: seq<Record>, f: Filter, perPage: int, i: int)
    requires perPage >= 1 && 0 <= i < Count(db, f)
    ensures var page := i / perPage + 1;
      && 1 <= page <= TotalPages(Count(db, f), perPage)
      && var r := Find(db, f, Skip(page, perPage), perPage);
         r.Success? && i % perPage < |r.value| && r.value[i % perPage] == Select(db, f)[i]
  {
    var page := i / perPage + 1;
    var total := Count(db, f);
    var skip := Skip(page, perPage);
    assert skip == i - i % perPage by {
      assert (i / perPage) * perPage + i % perPage == i;
    }
    SkipBounds(total, page, perPage);
    PageWindow(db, f, page, perPage);
  }
}
