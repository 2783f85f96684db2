/**
 * The month resolver that opens getStatistics, getBarChartData,
 * getPieChartData and getProducts: the `month` query parameter becomes a
 * zero-based `monthIndex`, and every month filter then compares the record's
 * month with `monthIndex + 1`.
 */
module Months {
  import opened Wrappers
  import opened Numerals

  const MonthNames: seq<string> := [
    "January", "February", "March", "April", "May", "June",
    "July", "August", "September", "October", "November", "December"]

  /** `Array.prototype.indexOf`: the first position holding `s`, or -1. */
  function IndexOf(names: seq<string>, s: string): (i: int)
    ensures -1 <= i < |names|
    ensures i == -1 <==> s !in names
    ensures 0 <= i ==> names[i] == s && forall j :: 0 <= j < i ==> names[j] != s
  {
    if names == [] then -1
    else if names[0] == s then 0
    else
      var k := IndexOf(names[1..], s);
      if k == -1 then -1 else k + 1
  }

  /**
   * `monthIndex`. An absent parameter is not a number (`isNaN(undefined)`),
   * and `indexOf(undefined)` finds no name. Decimal text goes through
   * `parseInt(...) - 1`; any other text is looked up, case-sensitively, among
   * the English month names.
   */
  function MonthIndex(selected: Option<string>): (i: int)
    ensures selected.None? ==> i == -1
    ensures selected.Some? && IsDecimal(selected.value) ==> i == DecimalValue(selected.value) - 1
    ensures selected.Some? && !IsDecimal(selected.value) ==>
      -1 <= i < 12 && (i == -1 <==> selected.value !in MonthNames)
    ensures selected.Some? && !IsDecimal(selected.value) && i >= 0 ==> MonthNames[i] == selected.value
  {
    match selected
    case None => -1
    case Some(s) =>
      if IsDecimal(s) then ParseInt(selected).value - 1
      else IndexOf(MonthNames, s)
  }

  /** The value the filters compare `$month` of `dateOfSale` with: `monthIndex + 1`. */
  function MonthFilterValue(selected: Option<string>): int {
    MonthIndex(selected) + 1
  }

  /** The decimal text of a number `n` selects month `n`, whatever `n` is. */
  lemma NumeralSelectsItsValue(n: nat)
    ensures MonthFilterValue(Some(NatToString(n))) == n
  {
    DecimalRoundTrip(n);
  }

  /** The twelve names differ from each other. */
  lemma MonthNamesDistinct()
    ensures forall i, j :: 0 <= i < j < |MonthNames| ==> MonthNames[i] != MonthNames[j]
  {
  }

  /** No month name is decimal text: each starts with a capital letter. */
  lemma MonthNamesNotDecimal()
    ensures forall i :: 0 <= i < |MonthNames| ==> |MonthNames[i]| > 0 && !IsDigit(MonthNames[i][0])
  {
  }

  /** Name `k` of the list and the numeral `k` select the same month, `k`. */
  lemma NameAndNumeralAgree(k: int)
    requires 1 <= k <= 12
    ensures MonthFilterValue(Some(MonthNames[k - 1])) == k
    ensures MonthFilterValue(Some(NatToString(k))) == k
  {
    NumeralSelectsItsValue(k);
    MonthNamesDistinct();
    MonthNamesNotDecimal();
    var name := MonthNames[k - 1];
    assert !IsDecimal(name);
    var i := IndexOf(MonthNames, name);
    assert 0 <= i <= k - 1 && MonthNames[i] == name;
  }

  /** An absent parameter, or text that is neither decimal nor a month name, gives filter value 0. */
  lemma UnrecognisedMonthIsZero(selected: Option<string>)
    requires selected.Some? ==> !IsDecimal(selected.value) && selected.value !in MonthNames
    ensures MonthFilterValue(selected) == 0
  {
  }

  /** The lookup is case-sensitive: text starting with a lower-case letter, such as "march", selects month 0. */
  lemma LowerCaseNameIsUnrecognised(s: string)
    requires |s| > 0 && 'a' <= s[0] <= 'z'
    ensures MonthFilterValue(Some(s)) == 0
  {
    assert !IsDigit(s[0]);
    MonthNamesNotDecimal();
    assert s !in MonthNames by {
      assert forall i :: 0 <= i < |MonthNames| ==> 'A' <= MonthNames[i][0] <= 'Z';
    }
  }
}
