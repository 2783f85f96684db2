/**
 * The filter objects the controller hands to `find`, `countDocuments` and the
 * `$match` stage of `aggregate`, and what it means for a document to match one.
 */
module Queries {
  import opened Wrappers
  import opened ProductModel

  /** The upper end of a price range: a number, or JavaScript's `Infinity`. */
  datatype Bound = Finite(n: nat) | Infinity

  /** `price: { $gte: min, $lte: max }`, both ends inclusive. */
  datatype PriceRange = PriceRange(min: nat, max: Bound)

  /**
   * A conjunction of optional clauses, each absent clause matching everything:
   * - month: `$expr: { $eq: [{ $month: "$dateOfSale" }, month] }`
   * - text: `$or` of a case-insensitive `$regex` on title and on description
   * - sold: `sold: <bool>`
   * - price: `price: { $gte: min, $lte: max }`
   * - priceAbove: `price: { $gt: n }` (used only by the corrected bar chart)
   */
  datatype Filter = Filter(
    month: Option<int>,
    text: Option<string>,
    sold: Option<bool>,
    price: Option<PriceRange>,
    priceAbove: Option<nat>)

  predicate InRange(p: real, range: PriceRange) {
    range.min as real <= p && (range.max.Finite? ==> p <= range.max.n as real)
  }

  /** ASCII lower-casing, the case folding of the `i` flag on plain letters. */
  function Lower(c: char): char {
    if 'A' <= c <= 'Z' then (c as int + 32) as char else c
  }

  function LowerString(s: string): (t: string)
    ensures |t| == |s| && forall i :: 0 <= i < |s| ==> t[i] == Lower(s[i])
  {
    if s == [] then [] else [Lower(s[0])] + LowerString(s[1..])
  }

  /** `pat` occurs in `text`: it is a prefix of `text` or of one of its suffixes. */
  predicate Contains(text: string, pat: string) {
    pat <= text || (text != [] && Contains(text[1..], pat))
  }

  /** `pat` sits in `text` at offset `i`. */
  predicate OccursAt(text: string, pat: string, i: int) {
    0 <= i <= |text| - |pat| && text[i..i + |pat|] == pat
  }

  /** The occurrence test agrees with "some window of `text` equals `pat`". */
  lemma {:induction false} ContainsIffOccurs(text: string, pat: string)
    ensures Contains(text, pat) <==> exists i :: OccursAt(text, pat, i)
  {
    if pat <= text {
      assert OccursAt(text, pat, 0);
    } else if text == [] {
    } else {
      ContainsIffOccurs(text[1..], pat);
      if exists i :: OccursAt(text, pat, i) {
        var i :| OccursAt(text, pat, i);
        assert i != 0;
        assert OccursAt(text[1..], pat, i - 1);
      }
      if Contains(text[1..], pat) {
        var i :| OccursAt(text[1..], pat, i);
        assert OccursAt(text, pat, i + 1);
      }
    }
  }

  /** A literal pattern compiled with the `i` flag matches `text`. */
  predicate ContainsIgnoreCase(text: string, pat: string) {
    Contains(LowerString(text), LowerString(pat))
  }

  /** The `$or` of the title and description clauses. */
  predicate TextMatches(r: Record, pat: string) {
    ContainsIgnoreCase(r.title, pat) || ContainsIgnoreCase(r.description, pat)
  }

  /** `$month` of a missing date is null, which equals no number. */
  predicate MonthIs(r: Record, m: int) {
    r.saleMonth == Some(m)
  }

  predicate Matches(f: Filter, r: Record) {
    && (f.month.Some? ==> MonthIs(r, f.month.value))
    && (f.text.Some? ==> TextMatches(r, f.text.value))
    && (f.sold.Some? ==> r.sold == f.sold.value)
    && (f.price.Some? ==> InRange(r.price, f.price.value))
    && (f.priceAbove.Some? ==> r.price > f.priceAbove.value as real)
  }

  const NoClause: Filter := Filter(None, None, None, None, None)

  /** The month-only filter `{ $expr: ... }`. */
  function MonthFilter(m: int): Filter {
    NoClause.(month := Some(m))
  }

  /**
   * listTransactions' filter: the `$or` of the two regex clauses, with no
   * month clause. An absent `search` compiles to `new RegExp(undefined, "i")`,
   * whose source is the empty pattern.
   */
  function TransactionsFilter(search: Option<string>): Filter {
    NoClause.(text := Some(search.GetOr("")))
  }

  /**
   * getProducts' filter: `search` is `req.query.search || ""`; a non-empty
   * search adds the `$or` clause beside the month clause, an empty one does not.
   */
  function ProductsFilter(search: Option<string>, m: int): Filter {
    var s := search.GetOr("");
    if s != "" then MonthFilter(m).(text := Some(s)) else MonthFilter(m)
  }

  /** getStatistics' filters: `sold: <bool>` beside the month clause. */
  function SoldFilter(m: int, sold: bool): Filter {
    MonthFilter(m).(sold := Some(sold))
  }

  /** getBarChartData's filter for one price range. */
  function RangeFilter(range: PriceRange, m: int): Filter {
    MonthFilter(m).(price := Some(range))
  }

  /** The empty pattern occurs in every text, so it matches every document. */
  lemma EmptyPatternMatchesAll(r: Record)
    ensures TextMatches(r, "")
  {
  }

  /** An absent search in listTransactions lets every document through. */
  lemma AbsentSearchMatchesAll(r: Record)
    ensures Matches(TransactionsFilter(None), r)
  {
    EmptyPatternMatchesAll(r);
  }

  /**
   * getProducts: an absent or empty search gives exactly the month filter;
   * any other search matches a document iff its month matches and the search
   * occurs, ignoring case, in its title or its description.
   */
  lemma ProductsFilterMeaning(search: Option<string>, m: int, r: Record)
    ensures search.None? || search.value == "" ==> ProductsFilter(search, m) == MonthFilter(m)
    ensures Matches(ProductsFilter(search, m), r) <==>
      MonthIs(r, m) && (search.None? || search.value == "" ||
        (exists i :: OccursAt(LowerString(r.title), LowerString(search.value), i)) ||
        (exists i :: OccursAt(LowerString(r.description), LowerString(search.value), i)))
  {
    if search.Some? {
      var pat := search.value;
      ContainsIffOccurs(LowerString(r.title), LowerString(pat));
      ContainsIffOccurs(LowerString(r.description), LowerString(pat));
      if pat != "" {
        var f := ProductsFilter(search, m);
        assert f == Filter(Some(m), Some(pat), None, None, None);
        assert Matches(f, r) <==> MonthIs(r, m) && TextMatches(r, pat);
        assert TextMatches(r, pat) <==>
          Contains(LowerString(r.title), LowerString(pat)) || Contains(LowerString(r.description), LowerString(pat));
      }
    }
  }
}
