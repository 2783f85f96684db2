/**
 * getBarChartData: ten fixed price ranges, each counted among the documents
 * of the selected month by its own `countDocuments`, the counts gathered in
 * an object keyed by the range's label.
 */
module BarChart {
  import opened Wrappers
  import opened ProductModel
  import opened Numerals
  import opened Months
  import opened Queries
  import opened Catalog

  const PriceRanges: seq<PriceRange> := [
    PriceRange(0, Finite(100)),
    PriceRange(101, Finite(200)),
    PriceRange(201, Finite(300)),
    PriceRange(301, Finite(400)),
    PriceRange(401, Finite(500)),
    PriceRange(501, Finite(600)),
    PriceRange(601, Finite(700)),
    PriceRange(701, Finite(800)),
    PriceRange(801, Finite(900)),
    PriceRange(901, Infinity)]

  /** The template `${range.min}-${range.max}`; `Infinity` prints as "Infinity". */
  function Label(range: PriceRange): string {
    NatToString(range.min) + "-" +
    match range.max
    case Finite(n) => NatToString(n)
    case Infinity => "Infinity"
  }

  /** The keys of the response object, in table order: "0-100" to "901-Infinity". */
  function Labels(): (labels: seq<string>)
    ensures labels == ["0-100", "101-200", "201-300", "301-400", "401-500",
                       "501-600", "601-700", "701-800", "801-900", "901-Infinity"]
  {
    LowerLabels();
    UpperLabels();
    seq(|PriceRanges|, i requires 0 <= i < |PriceRanges| => Label(PriceRanges[i]))
  }

  lemma DigitChars()
    ensures DigitChar(0) == '0' && DigitChar(1) == '1' && DigitChar(2) == '2' && DigitChar(3) == '3'
    ensures DigitChar(4) == '4' && DigitChar(5) == '5' && DigitChar(6) == '6' && DigitChar(7) == '7'
    ensures DigitChar(8) == '8' && DigitChar(9) == '9'
  {
  }

  /** `String(n)` of the bounds in the table. */
  lemma BoundNumerals()
    ensures NatToString(0) == "0" && NatToString(100) == "100" && NatToString(200) == "200"
    ensures NatToString(300) == "300" && NatToString(400) == "400" && NatToString(500) == "500"
    ensures NatToString(600) == "600" && NatToString(700) == "700" && NatToString(800) == "800"
    ensures NatToString(900) == "900" && NatToString(101) == "101" && NatToString(201) == "201"
    ensures NatToString(301) == "301" && NatToString(401) == "401" && NatToString(501) == "501"
    ensures NatToString(601) == "601" && NatToString(701) == "701" && NatToString(801) == "801"
    ensures NatToString(901) == "901"
  {
    DigitChars();
    assert NatToString(10) == "10" && NatToString(20) == "20" && NatToString(30) == "30";
    assert NatToString(40) == "40" && NatToString(50) == "50" && NatToString(60) == "60";
    assert NatToString(70) == "70" && NatToString(80) == "80" && NatToString(90) == "90";
  }

  lemma LowerLabels()
    ensures Label(PriceRanges[0]) == "0-100" && Label(PriceRanges[1]) == "101-200"
    ensures Label(PriceRanges[2]) == "201-300" && Label(PriceRanges[3]) == "301-400"
    ensures Label(PriceRanges[4]) == "401-500"
  {
    BoundNumerals();
  }

  lemma UpperLabels()
    ensures Label(PriceRanges[5]) == "501-600" && Label(PriceRanges[6]) == "601-700"
    ensures Label(PriceRanges[7]) == "701-800" && Label(PriceRanges[8]) == "801-900"
    ensures Label(PriceRanges[9]) == "901-Infinity"
  {
    BoundNumerals();
  }

  /** No two ranges share a label, so no count overwrites another. */
  lemma LabelsDistinct()
    ensures forall i, j :: 0 <= i < j < |PriceRanges| ==> Label(PriceRanges[i]) != Label(PriceRanges[j])
  {
    var labels := Labels();
    assert forall i :: 0 <= i < |PriceRanges| ==> labels[i] == Label(PriceRanges[i]);
    assert forall i, j :: 0 <= i < j < |labels| ==> labels[i] != labels[j];
  }

  /** The `countDocuments` filters of the loop, one per range, for month value `m`. */
  function RangeFilters(m: int): (fs: seq<Filter>)
    ensures |fs| == |PriceRanges|
    ensures forall i :: 0 <= i < |PriceRanges| ==> fs[i] == RangeFilter(PriceRanges[i], m)
  {
    seq(|PriceRanges|, i requires 0 <= i < |PriceRanges| => RangeFilter(PriceRanges[i], m))
  }

  /** `counts` holds, under each of the first `k` labels, the count of the matching filter. */
  ghost predicate Filled(counts: map<string, nat>, labels: seq<string>, db: seq<Record>, filters: seq<Filter>, k: int)
    requires 0 <= k <= |labels| && |labels| == |filters|
  {
    && counts.Keys == (set i | 0 <= i < k :: labels[i])
    && forall i :: 0 <= i < k ==> counts[labels[i]] == Count(db, filters[i])
  }

  /** Storing the next count under its own label keeps the earlier ones, as the labels differ. */
  lemma FillNext(counts: map<string, nat>, labels: seq<string>, db: seq<Record>, filters: seq<Filter>, k: int)
    requires 0 <= k < |labels| && |labels| == |filters|
    requires forall i, j :: 0 <= i < j < |labels| ==> labels[i] != labels[j]
    requires Filled(counts, labels, db, filters, k)
    ensures Filled(counts[labels[k] := Count(db, filters[k])], labels, db, filters, k + 1)
  {
    var next := counts[labels[k] := Count(db, filters[k])];
    assert next.Keys == (set i | 0 <= i < k :: labels[i]) + {labels[k]};
    assert (set i | 0 <= i < k + 1 :: labels[i]) == (set i | 0 <= i < k :: labels[i]) + {labels[k]};
  }

  /**
   * The handler's loop: for each range in table order, count the month's
   * documents priced within it and store the count under the range's label.
   * The JSON object keeps its keys in insertion order, which is the order of
   * `Labels()`; the map here records the keys and their counts, not that order.
   */
  method GetBarChartData(db: seq<Record>, month: Option<string>) returns (priceRangeCounts: map<string, nat>)
    ensures priceRangeCounts.Keys == set i | 0 <= i < |PriceRanges| :: Labels()[i]
    ensures forall i :: 0 <= i < |PriceRanges| ==>
      priceRangeCounts[Labels()[i]] == Count(db, RangeFilters(MonthFilterValue(month))[i])
  {
    var monthValue := MonthFilterValue(month);
    ghost var labels := Labels();
    ghost var filters := RangeFilters(monthValue);
    LabelsDistinct();
    priceRangeCounts := map[];
    for k := 0 to |PriceRanges|
      invariant Filled(priceRangeCounts, labels, db, filters, k)
    {
      var range := PriceRanges[k];
      var count := Count(db, RangeFilter(range, monthValue));
      FillNext(priceRangeCounts, labels, db, filters, k);
      priceRangeCounts := priceRangeCounts[Label(range) := count];
    }
  }

  /** The table row by row: range j > 0 starts one above the previous range's top. */
  lemma PriceRangeShape()
    ensures forall j :: 0 <= j < |PriceRanges| ==>
      PriceRanges[j].min == (if j == 0 then 0 else 100 * j + 1) &&
      PriceRanges[j].max == (if j == 9 then Infinity else Finite(100 * (j + 1)))
  {
  }

  predicate IsWholeNumber(p: real) {
    p.Floor as real == p
  }

  /** `p` lies in range `k` of `ranges` and in no other. */
  predicate InOnlyRange(p: real, ranges: seq<PriceRange>, k: int) {
    0 <= k < |ranges| && InRange(p, ranges[k]) &&
    forall j :: 0 <= j < |ranges| && j != k ==> !InRange(p, ranges[j])
  }

  /**
   * `p` lies strictly between the top of one range and the minimum of the
   * next, 100k < p < 100k + 1 for some k in 1..9.
   */
  predicate InGap(p: real) {
    !IsWholeNumber(p) && 100 <= p.Floor <= 900 && p.Floor % 100 == 0
  }

  /** A price inside a gap lies in none of the ranges. */
  lemma GapPricesUncounted(p: real, k: int)
    requires 1 <= k <= 9 && (100 * k) as real < p < (100 * k + 1) as real
    ensures forall j :: 0 <= j < |PriceRanges| ==> !InRange(p, PriceRanges[j])
  {
    PriceRangeShape();
  }

  /** The range a non-negative price outside the gaps falls in; every whole price is one. */
  function PriceRangeOf(p: real): (k: int)
    requires p >= 0.0 && !InGap(p)
    ensures InOnlyRange(p, PriceRanges, k)
  {
    PriceRangeShape();
    var n := p.Floor;
    if p <= 100.0 then 0
    else if p > 900.0 then
      assert n >= 901;
      9
    else if IsWholeNumber(p) then
      assert 101 <= n <= 900;
      var k := (n - 1) / 100;
      assert 100 * k + 1 <= n <= 100 * (k + 1);
      k
    else
      assert 101 <= n < 900 && n % 100 != 0;
      var k := n / 100;
      assert 100 * k + 1 <= n && n + 1 <= 100 * (k + 1);
      k
  }

  /** Exactly the non-negative prices outside the nine gaps are counted, each in one range. */
  lemma CountedIffOutsideGaps(p: real)
    requires p >= 0.0
    ensures (exists k :: InOnlyRange(p, PriceRanges, k)) <==> !InGap(p)
  {
    if InGap(p) {
      var k := p.Floor / 100;
      GapPricesUncounted(p, k);
    } else {
      var k := PriceRangeOf(p);
    }
  }

  /** Every document of the month with a whole, non-negative price is counted in exactly one range. */
  lemma {:induction false} WholePricesCoveredOnce(r: Record, m: int)
    requires MonthIs(r, m) ==> r.price >= 0.0 && IsWholeNumber(r.price)
    ensures CoveredOnce(r, RangeFilters(m), MonthFilter(m))
  {
    var fs := RangeFilters(m);
    if MonthIs(r, m) {
      var k := PriceRangeOf(r.price);
      assert OnlyHit(r, fs, k);
    }
  }

  /**
   * When every price of the month is a whole non-negative number, the ten
   * counts add up to the number of the month's documents.
   */
  lemma RangeCountsCoverMonth(db: seq<Record>, m: int)
    requires forall i :: 0 <= i < |db| && MonthIs(db[i], m) ==> db[i].price >= 0.0 && IsWholeNumber(db[i].price)
    ensures CountAll(db, RangeFilters(m)) == Count(db, MonthFilter(m))
  {
    forall i | 0 <= i < |db| ensures CoveredOnce(db[i], RangeFilters(m), MonthFilter(m)) {
      WholePricesCoveredOnce(db[i], m);
    }
    CountAllOfPartition(db, RangeFilters(m), MonthFilter(m));
  }

  /**
   * As written, the ranges leave gaps: a price strictly between 100 and 101
   * (or between 200 and 201, ...) lies in no range, so a month holding one
   * such document reports ten counts that add up to one less than its size.
   */
  lemma FractionalPriceUncounted()
    ensures forall j :: 0 <= j < |PriceRanges| ==> !InRange(100.5, PriceRanges[j])
    ensures var db := [Record(1, "Backpack", 100.5, "Fits 15 inch laptops", "men's clothing", "", true, Some(3))];
      CountAll(db, RangeFilters(3)) == 0 && Count(db, MonthFilter(3)) == 1
  {
    PriceRangeShape();
    var db := [Record(1, "Backpack", 100.5, "Fits 15 inch laptops", "men's clothing", "", true, Some(3))];
    HitsNone(db[0], RangeFilters(3));
    CountAllFirst(db, RangeFilters(3));
    CountAllEmpty(RangeFilters(3));
  }

  /**
   * The evidently intended ranges: each starts just above the previous
   * range's top (`$gt: prevMax`) instead of at `prevMax + 1`, so
   * [0,100], (100,200], ..., (800,900], (900,Infinity) with the same labels.
   */
  function CorrectedRangeFilters(m: int): (fs: seq<Filter>)
    ensures |fs| == |PriceRanges|
  {
    seq(|PriceRanges|, i requires 0 <= i < |PriceRanges| =>
      MonthFilter(m).(price := Some(PriceRange(0, PriceRanges[i].max)),
                      priceAbove := if i == 0 then None else Some(PriceRanges[i - 1].max.n)))
  }

  /** Under the corrected ranges every non-negative price, whole or not, lies in exactly one range. */
  lemma CorrectedRangesPartition(r: Record, m: int)
    requires MonthIs(r, m) ==> r.price >= 0.0
    ensures CoveredOnce(r, CorrectedRangeFilters(m), MonthFilter(m))
  {
    PriceRangeShape();
    var fs := CorrectedRangeFilters(m);
    var p := r.price;
    if MonthIs(r, m) {
      var k;
      if p <= 100.0 {
        k := 0;
      } else if p > 900.0 {
        k := 9;
      } else {
        var n := p.Floor;
        k := if n as real == p then (n - 1) / 100 else n / 100;
        assert 1 <= k <= 8;
        assert (100 * k) as real < p <= (100 * (k + 1)) as real;
      }
      assert OnlyHit(r, fs, k);
    }
  }

  /** Under the corrected ranges the ten counts always add up to the month's size. */
  lemma CorrectedCountsCoverMonth(db: seq<Record>, m: int)
    requires forall i :: 0 <= i < |db| && MonthIs(db[i], m) ==> db[i].price >= 0.0
    ensures CountAll(db, CorrectedRangeFilters(m)) == Count(db, MonthFilter(m))
  {
    forall i | 0 <= i < |db| ensures CoveredOnce(db[i], CorrectedRangeFilters(m), MonthFilter(m)) {
      CorrectedRangesPartition(db[i], m);
    }
    CountAllOfPartition(db, CorrectedRangeFilters(m), MonthFilter(m));
  }

  /** An absent or unrecognised month gives a count of 0 in every range. */
  lemma UnrecognisedMonthCountsZero(db: seq<Record>, month: Option<string>)
    requires AllWellFormed(db)
    requires month.Some? ==> !IsDecimal(month.value) && month.value !in MonthNames
    ensures forall i :: 0 <= i < |PriceRanges| ==> Count(db, RangeFilters(MonthFilterValue(month))[i]) == 0
  {
    UnrecognisedMonthIsZero(month);
    forall i | 0 <= i < |PriceRanges| ensures Count(db, RangeFilters(0)[i]) == 0 {
      SelectNone(db, RangeFilters(0)[i]);
    }
  }

  /**
   * A month name and its numeral give the bar chart the same range filters,
   * so by the ensures of GetBarChartData the same counts under every label.
   */
  lemma NameAndNumeralSameRanges(k: int)
    requires 1 <= k <= 12
    ensures RangeFilters(MonthFilterValue(Some(MonthNames[k - 1])))
         == RangeFilters(MonthFilterValue(Some(NatToString(k))))
  {
    NameAndNumeralAgree(k);
  }
}
