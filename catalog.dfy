/**
 * The Products collection as an in-memory sequence of documents, and the
 * store operations the controller calls on it: `find` with `skip` and
 * `limit`, `countDocuments`, and the two `$group` stages it uses.
 */
module Catalog {
  import opened Wrappers
  import opened ProductModel
  import opened Queries

  /** The documents of `db` that match `f`, in collection order. */
  function Select(db: seq<Record>, f: Filter): (rs: seq<Record>)
    ensures |rs| <= |db|
    ensures forall r :: r in rs <==> r in db && Matches(f, r)
  {
    if db == [] then []
    else
      var rest := Select(db[1..], f);
      if Matches(f, db[0]) then [db[0]] + rest else rest
  }

  /** Selection distributes over concatenation: the matches keep collection order. */
  lemma {:induction false} SelectAppend(a: seq<Record>, b: seq<Record>, f: Filter)
    ensures Select(a + b, f) == Select(a, f) + Select(b, f)
  {
    if a == [] {
      assert a + b == b;
    } else {
      assert (a + b)[0] == a[0];
      assert (a + b)[1..] == a[1..] + b;
      SelectAppend(a[1..], b, f);
    }
  }

  /** A single document is selected exactly when it matches. */
  lemma SelectSingle(r: Record, f: Filter)
    ensures Select([r], f) == if Matches(f, r) then [r] else []
  {
    assert [r][1..] == [];
  }

  /** `countDocuments(f)`. */
  function Count(db: seq<Record>, f: Filter): nat {
    |Select(db, f)|
  }

  /** A filter no document can satisfy selects nothing. */
  lemma {:induction false} SelectNone(db: seq<Record>, f: Filter)
    requires forall i :: 0 <= i < |db| ==> !Matches(f, db[i])
    ensures Select(db, f) == []
  {
    if db != [] {
      SelectNone(db[1..], f);
    }
  }

  /** A filter every document satisfies selects the whole collection. */
  lemma {:induction false} SelectAll(db: seq<Record>, f: Filter)
    requires forall i :: 0 <= i < |db| ==> Matches(f, db[i])
    ensures Select(db, f) == db
  {
    if db != [] {
      SelectAll(db[1..], f);
    }
  }

  /** `$sum: "$price"` over some documents. */
  function SumPrice(rs: seq<Record>): real {
    if rs == [] then 0.0 else rs[0].price + SumPrice(rs[1..])
  }

  /** With non-negative prices the sum is non-negative. */
  lemma {:induction false} SumPriceNonNegative(rs: seq<Record>)
    requires forall i :: 0 <= i < |rs| ==> rs[i].price >= 0.0
    ensures SumPrice(rs) >= 0.0
  {
    if rs != [] {
      SumPriceNonNegative(rs[1..]);
    }
  }

  /**
   * `$group: { _id: null, total: { $sum: "$price" } }`: one group holding the
   * sum when some document reached the stage, no group at all otherwise.
   */
  function SumGroup(rs: seq<Record>): (groups: seq<real>)
    ensures groups == [] <==> rs == []
    ensures rs != [] ==> groups == [SumPrice(rs)]
  {
    if rs == [] then [] else [SumPrice(rs)]
  }

  /**
   * Splitting a filter on `sold` splits its documents in two: the counts and
   * the price sums of the sold and the not-sold halves add up to the whole.
   */
  lemma {:induction false} SoldPartition(db: seq<Record>, f: Filter)
    requires f.sold.None?
    ensures Count(db, f.(sold := Some(true))) + Count(db, f.(sold := Some(false))) == Count(db, f)
    ensures SumPrice(Select(db, f.(sold := Some(true)))) + SumPrice(Select(db, f.(sold := Some(false))))
         == SumPrice(Select(db, f))
  {
    if db != [] {
      SoldPartition(db[1..], f);
    }
  }

  datatype StoreError =
    | NegativeSkip  // the store rejects a negative `skip`

  function Min(a: int, b: int): int {
    if a < b then a else b
  }

  function Abs(n: int): nat {
    if n < 0 then -n else n
  }

  /**
   * `find(f).skip(skip).limit(limit)`. A negative skip is refused by the
   * store; a limit of 0 means no limit, and a negative limit returns at most
   * its absolute value of documents.
   */
  function Find(db: seq<Record>, f: Filter, skip: int, limit: int): (r: Result<seq<Record>, StoreError>)
    ensures r.Failure? <==> skip < 0
    ensures r.Success? ==> skip + |r.value| <= |Select(db, f)| || r.value == []
    ensures r.Success? ==> forall i :: 0 <= i < |r.value| ==> r.value[i] == Select(db, f)[skip + i]
    ensures r.Success? && skip <= |Select(db, f)| ==>
      |r.value| == if limit == 0 then |Select(db, f)| - skip else Min(Abs(limit), |Select(db, f)| - skip)
    ensures r.Success? && skip > |Select(db, f)| ==> r.value == []
  {
    if skip < 0 then Failure(NegativeSkip)
    else
      var matching := Select(db, f);
      var rest := if skip <= |matching| then matching[skip..] else [];
      if limit == 0 || Abs(limit) >= |rest| then Success(rest) else Success(rest[..Abs(limit)])
  }

  /** The total of the counts of several filters. */
  function CountAll(db: seq<Record>, fs: seq<Filter>): nat {
    if fs == [] then 0 else Count(db, fs[0]) + CountAll(db, fs[1..])
  }

  /** How many of the filters `fs` a document satisfies. */
  function Hits(r: Record, fs: seq<Filter>): nat {
    if fs == [] then 0 else (if Matches(fs[0], r) then 1 else 0) + Hits(r, fs[1..])
  }

  lemma {:induction false} CountAllFirst(db: seq<Record>, fs: seq<Filter>)
    requires db != []
    ensures CountAll(db, fs) == CountAll(db[1..], fs) + Hits(db[0], fs)
  {
    if fs != [] {
      CountAllFirst(db, fs[1..]);
    }
  }

  lemma {:induction false} HitsNone(r: Record, fs: seq<Filter>)
    requires forall j :: 0 <= j < |fs| ==> !Matches(fs[j], r)
    ensures Hits(r, fs) == 0
  {
    if fs != [] {
      HitsNone(r, fs[1..]);
    }
  }

  lemma {:induction false} HitsOne(r: Record, fs: seq<Filter>, k: int)
    requires 0 <= k < |fs| && Matches(fs[k], r)
    requires forall j :: 0 <= j < |fs| && j != k ==> !Matches(fs[j], r)
    ensures Hits(r, fs) == 1
  {
    if k == 0 {
      HitsNone(r, fs[1..]);
    } else {
      HitsOne(r, fs[1..], k - 1);
    }
  }

  /** `fs[k]` is the one filter of `fs` that `r` satisfies. */
  predicate OnlyHit(r: Record, fs: seq<Filter>, k: int) {
    0 <= k < |fs| && Matches(fs[k], r) && forall j :: 0 <= j < |fs| && j != k ==> !Matches(fs[j], r)
  }

  /** `r` satisfies exactly one of `fs` when it satisfies `f`, and none of them otherwise. */
  ghost predicate CoveredOnce(r: Record, fs: seq<Filter>, f: Filter) {
    && (Matches(f, r) ==> exists k :: OnlyHit(r, fs, k))
    && (!Matches(f, r) ==> forall j :: 0 <= j < |fs| ==> !Matches(fs[j], r))
  }

  /** Filters that split `f`'s documents among themselves count them all, once each. */
  lemma {:induction false} CountAllOfPartition(db: seq<Record>, fs: seq<Filter>, f: Filter)
    requires forall i :: 0 <= i < |db| ==> CoveredOnce(db[i], fs, f)
    ensures CountAll(db, fs) == Count(db, f)
  {
    if db != [] {
      assert forall i :: 0 <= i < |db[1..]| ==> db[1..][i] == db[i + 1];
      CountAllOfPartition(db[1..], fs, f);
      CountAllFirst(db, fs);
      var r := db[0];
      assert CoveredOnce(r, fs, f);
      assert Count(db, f) == Count(db[1..], f) + if Matches(f, r) then 1 else 0;
      if Matches(f, r) {
        var k :| OnlyHit(r, fs, k);
        HitsOne(r, fs, k);
      } else {
        HitsNone(r, fs);
      }
    } else {
      CountAllEmpty(fs);
    }
  }

  lemma {:induction false} CountAllEmpty(fs: seq<Filter>)
    ensures CountAll([], fs) == 0
  {
    if fs != [] {
      CountAllEmpty(fs[1..]);
    }
  }

  // ---- `$group: { _id: "$category", count: { $sum: 1 } }` ----

  /** One output document of the category grouping: `{ _id, count }`. */
  datatype CategoryCount = CategoryCount(id: string, count: nat)

  predicate NoDuplicates(xs: seq<string>) {
    forall i, j :: 0 <= i < j < |xs| ==> xs[i] != xs[j]
  }

  function Categories(rs: seq<Record>): (cs: seq<string>)
    ensures |cs| == |rs| && forall i :: 0 <= i < |rs| ==> cs[i] == rs[i].category
  {
    if rs == [] then [] else [rs[0].category] + Categories(rs[1..])
  }

  /** The distinct values of `xs`, in order of first appearance. */
  function Distinct(xs: seq<string>): (ds: seq<string>)
    ensures NoDuplicates(ds)
    ensures forall x :: x in ds <==> x in xs
  {
    if xs == [] then []
    else
      var d := Distinct(xs[..|xs| - 1]);
      var last := xs[|xs| - 1];
      assert xs == xs[..|xs| - 1] + [last];
      if last in d then d else d + [last]
  }

  /** The number of documents in `rs` whose category is `c`. */
  function CountCategory(rs: seq<Record>, c: string): nat {
    if rs == [] then 0 else (if rs[0].category == c then 1 else 0) + CountCategory(rs[1..], c)
  }

  lemma {:induction false} CountCategoryPositive(rs: seq<Record>, c: string)
    requires c in Categories(rs)
    ensures CountCategory(rs, c) >= 1
  {
    if rs[0].category != c {
      assert c in Categories(rs[1..]);
      CountCategoryPositive(rs[1..], c);
    }
  }

  function Entries(cats: seq<string>, rs: seq<Record>): (es: seq<CategoryCount>)
    ensures |es| == |cats|
    ensures forall i :: 0 <= i < |cats| ==> es[i] == CategoryCount(cats[i], CountCategory(rs, cats[i]))
  {
    if cats == [] then [] else [CategoryCount(cats[0], CountCategory(rs, cats[0]))] + Entries(cats[1..], rs)
  }

  /**
   * The category grouping of `rs`: one entry per distinct category, holding
   * the number of documents of that category. The store does not fix the
   * order of the groups; this model lists them by first appearance.
   */
  function GroupByCategory(rs: seq<Record>): (groups: seq<CategoryCount>)
    ensures forall i, j :: 0 <= i < j < |groups| ==> groups[i].id != groups[j].id
    ensures forall i :: 0 <= i < |groups| ==>
      groups[i].count == CountCategory(rs, groups[i].id) && groups[i].count >= 1
    ensures forall c :: (exists i :: 0 <= i < |groups| && groups[i].id == c) <==> c in Categories(rs)
  {
    var cats := Distinct(Categories(rs));
    forall c | c in cats ensures CountCategory(rs, c) >= 1 {
      CountCategoryPositive(rs, c);
    }
    Entries(cats, rs)
  }

  function TotalCount(groups: seq<CategoryCount>): nat {
    if groups == [] then 0 else groups[0].count + TotalCount(groups[1..])
  }

  /** How many times `x` occurs in `xs`. */
  function Occurrences(xs: seq<string>, x: string): nat {
    if xs == [] then 0 else (if xs[0] == x then 1 else 0) + Occurrences(xs[1..], x)
  }

  lemma {:induction false} OccurrencesOfDistinct(xs: seq<string>, x: string)
    requires NoDuplicates(xs)
    ensures Occurrences(xs, x) == if x in xs then 1 else 0
  {
    if xs != [] {
      OccurrencesOfDistinct(xs[1..], x);
      if xs[0] == x {
        assert x !in xs[1..];
      }
    }
  }

  lemma {:induction false} EntriesFirst(cats: seq<string>, rs: seq<Record>)
    requires rs != []
    ensures TotalCount(Entries(cats, rs)) == TotalCount(Entries(cats, rs[1..])) + Occurrences(cats, rs[0].category)
  {
    if cats != [] {
      EntriesFirst(cats[1..], rs);
    }
  }

  lemma {:induction false} EntriesTotal(cats: seq<string>, rs: seq<Record>)
    requires NoDuplicates(cats)
    requires forall i :: 0 <= i < |rs| ==> rs[i].category in cats
    ensures TotalCount(Entries(cats, rs)) == |rs|
  {
    if rs == [] {
      if cats != [] {
        EntriesTotal(cats[1..], rs);
      }
    } else {
      EntriesTotal(cats, rs[1..]);
      EntriesFirst(cats, rs);
      OccurrencesOfDistinct(cats, rs[0].category);
    }
  }

  /** The group counts add up to the number of grouped documents. */
  lemma GroupCountsSum(rs: seq<Record>)
    ensures TotalCount(GroupByCategory(rs)) == |rs|
  {
    var cats := Distinct(Categories(rs));
    assert forall i :: 0 <= i < |rs| ==> rs[i].category in Categories(rs);
    EntriesTotal(cats, rs);
  }
}
