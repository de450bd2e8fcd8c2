/** `MultipleDaysStatisticsManager`: the takings of several days, one entry per
 *  fetched day, kept in date order. The download and the JSON decoding are
 *  outside the model: what the decoder produced arrives as a parameter, and so
 *  does the fresh UUID of the new entry. Dates are whole numbers. */
module DailyStatistics {
  import opened Wrappers
  import opened Lists
  import opened Sorting
  import opened Products

  /** The two takings of one day. */
  datatype CurrencyResponse = CurrencyResponse(eCurrency: real, cash: real)

  datatype OneDayCurrency = OneDayCurrency(id: Uuid, date: int, currencyResponse: CurrencyResponse)

  /** `OneDayCurrency.<`: by date. */
  predicate DateLess(a: OneDayCurrency, b: OneDayCurrency) {
    a.date < b.date
  }

  /** `OneDayCurrency.==`: by date, whatever the takings. */
  predicate DateEqual(a: OneDayCurrency, b: OneDayCurrency) {
    a.date == b.date
  }

  lemma DateLessIsStrict()
    ensures StrictWeakOrder(DateLess)
  {
  }

  /** Equal entries are exactly the unordered ones: `<` is a strict weak order
   *  whose equivalence is `==`. */
  lemma DateEqualIffUnordered(a: OneDayCurrency, b: OneDayCurrency)
    ensures DateEqual(a, b) <==> !DateLess(a, b) && !DateLess(b, a)
  {
  }

  /** `parseJSONData`: the decoded takings, or zero takings when decoding fails. */
  function ParseJSONData(decoded: Option<CurrencyResponse>): (r: CurrencyResponse)
    ensures decoded.Some? ==> r == decoded.value
    ensures decoded.None? ==> r.eCurrency == 0.0 && r.cash == 0.0
  {
    decoded.GetOr(CurrencyResponse(0.0, 0.0))
  }

  /** The dates never decrease along the list. */
  predicate Ascending(list: seq<OneDayCurrency>) {
    forall i, j :: 0 <= i < j < |list| ==> list[i].date <= list[j].date
  }

  /** The list after a day arrives: appended, then `sorted(by: <)`. */
  function WithDay(list: seq<OneDayCurrency>, day: OneDayCurrency): seq<OneDayCurrency> {
    Sort(list + [day], DateLess)
  }

  /** Adding a day grows the list by one entry, that day, and leaves it in date
   *  order; nothing else is gained or lost. */
  lemma WithDayProperties(list: seq<OneDayCurrency>, day: OneDayCurrency)
    ensures var r := WithDay(list, day);
      && |r| == |list| + 1
      && day in r
      && multiset(r) == multiset(list) + multiset{day}
      && Ascending(r)
  {
    DateLessIsStrict();
    StrictWeakEverywhere(list + [day], DateLess);
    SortSorted(list + [day], DateLess);
    var r := WithDay(list, day);
    assert multiset(r) == multiset(list + [day]);
    assert day in multiset(r);
  }

  /** The test of `removeCurrencyInfo`'s `filter`. */
  function NotOn(date: int): OneDayCurrency -> bool {
    (e: OneDayCurrency) => e.date != date
  }

  /** The list after `removeCurrencyInfo(date)`. */
  function WithoutDate(list: seq<OneDayCurrency>, date: int): seq<OneDayCurrency> {
    Filter(list, NotOn(date))
  }

  /** Removal takes out exactly the entries of that date and keeps the others in
   *  their order. */
  lemma WithoutDateContents(list: seq<OneDayCurrency>, date: int)
    ensures var r := WithoutDate(list, date);
      && (forall e :: e in r <==> e in list && e.date != date)
      && IsSubsequence(r, list)
  {
    FilterContents(list, NotOn(date));
    FilterIsSubsequence(list, NotOn(date));
  }

  /** Removing a date that is not in the list changes nothing. */
  lemma WithoutAbsentDate(list: seq<OneDayCurrency>, date: int)
    requires forall i :: 0 <= i < |list| ==> list[i].date != date
    ensures WithoutDate(list, date) == list
  {
    FilterAll(list, NotOn(date));
  }

  /** Removal keeps the list in date order. */
  lemma {:induction false} WithoutDateAscending(list: seq<OneDayCurrency>, date: int)
    requires Ascending(list)
    ensures Ascending(WithoutDate(list, date))
  {
    if list != [] {
      var rest := list[1..];
      assert Ascending(rest);
      WithoutDateAscending(rest, date);
      var tail := WithoutDate(rest, date);
      forall e | e in tail ensures list[0].date <= e.date {
        var i :| 0 <= i < |rest| && rest[i] == e;
        assert list[i + 1] == e;
      }
    }
  }

  class MultipleDaysStatisticsManager {
    var multipleDaysCurrency: seq<OneDayCurrency>

    constructor ()
      ensures multipleDaysCurrency == []
    {
      multipleDaysCurrency := [];
    }

    /** The main-queue step of `fetchStatisticsJson` once the data for `date`
     *  has arrived: append the day with its takings, then re-sort by date. */
    method ReceiveStatistics(date: int, id: Uuid, decoded: Option<CurrencyResponse>)
      modifies this
      ensures multipleDaysCurrency ==
        WithDay(old(multipleDaysCurrency), OneDayCurrency(id, date, ParseJSONData(decoded)))
    {
      multipleDaysCurrency := multipleDaysCurrency + [OneDayCurrency(id, date, ParseJSONData(decoded))];
      multipleDaysCurrency := Sort(multipleDaysCurrency, DateLess);
    }

    /** `removeCurrencyInfo`. */
    method RemoveCurrencyInfo(date: int)
      modifies this
      ensures multipleDaysCurrency == WithoutDate(old(multipleDaysCurrency), date)
    {
      multipleDaysCurrency := Filter(multipleDaysCurrency, NotOn(date));
    }
  }
}
