/** `Pharmacy_Stock_Management_App/src/components/Sales.tsx`: the sales
    history page. It narrows the sales by a date window and a search text,
    lists them newest first and shows their revenue and average. `now` is
    the page's clock and `dateOf` the parse of a sale's `date`. */
module Sales {
  import opened Common
  import opened Records
  import opened Text
  import opened Sorting

  /** The `dateFilter` selector. */
  datatype DateWindow = Today | Week | Month | AllDates

  /** One case of `filterSalesByDate`: `today` compares calendar days in the
      zone `offset` ms ahead of UTC; an unparseable date (`Invalid Date`)
      passes none of the three windows. */
  predicate InWindow(w: DateWindow, date: string, now: int, offset: int, dateOf: string -> Option<int>)
  {
    match w
    case Today => dateOf(date).Some? && LocalDay(dateOf(date).value, offset) == LocalDay(now, offset)
    case Week => dateOf(date).Some? && dateOf(date).value >= now - 7 * DAY_MS
    case Month => dateOf(date).Some? && dateOf(date).value >= now - 30 * DAY_MS
    case AllDates => true
  }

  /** Each window lies inside the next one. */
  lemma {:induction false} WindowsNest(date: string, now: int, offset: int, dateOf: string -> Option<int>)
    ensures InWindow(Today, date, now, offset, dateOf) ==> InWindow(Week, date, now, offset, dateOf)
    ensures InWindow(Week, date, now, offset, dateOf) ==> InWindow(Month, date, now, offset, dateOf)
    ensures InWindow(Month, date, now, offset, dateOf) ==> InWindow(AllDates, date, now, offset, dateOf)
  {
    if InWindow(Today, date, now, offset, dateOf) {
      SameDayIsWithinADay(dateOf(date).value, now, offset);
    }
  }

  function FilterByDate(sales: seq<SaleRow>, w: DateWindow, now: int, offset: int,
                        dateOf: string -> Option<int>): (r: seq<SaleRow>)
    ensures forall s :: s in r <==> s in sales && InWindow(w, s.date, now, offset, dateOf)
  {
    Filter(sales, (s: SaleRow) => InWindow(w, s.date, now, offset, dateOf))
  }

  /** Today's sales are among the week's, the week's among the month's, and
      the month's among all. */
  lemma DateWindowsNest(sales: seq<SaleRow>, now: int, offset: int, dateOf: string -> Option<int>)
    ensures |FilterByDate(sales, Today, now, offset, dateOf)| <= |FilterByDate(sales, Week, now, offset, dateOf)|
    ensures |FilterByDate(sales, Week, now, offset, dateOf)| <= |FilterByDate(sales, Month, now, offset, dateOf)|
    ensures forall s :: s in FilterByDate(sales, Today, now, offset, dateOf) ==> s in FilterByDate(sales, Week, now, offset, dateOf)
    ensures forall s :: s in FilterByDate(sales, Week, now, offset, dateOf) ==> s in FilterByDate(sales, Month, now, offset, dateOf)
    ensures FilterByDate(sales, AllDates, now, offset, dateOf) == sales
  {
    forall i | 0 <= i < |sales| ensures InWindow(Today, sales[i].date, now, offset, dateOf) ==> InWindow(Week, sales[i].date, now, offset, dateOf)
      ensures InWindow(Week, sales[i].date, now, offset, dateOf) ==> InWindow(Month, sales[i].date, now, offset, dateOf)
    {
      WindowsNest(sales[i].date, now, offset, dateOf);
    }
    FilterMonotone(sales, (s: SaleRow) => InWindow(Today, s.date, now, offset, dateOf),
                   (s: SaleRow) => InWindow(Week, s.date, now, offset, dateOf));
    FilterMonotone(sales, (s: SaleRow) => InWindow(Week, s.date, now, offset, dateOf),
                   (s: SaleRow) => InWindow(Month, s.date, now, offset, dateOf));
    FilterKeepsAll(sales, (s: SaleRow) => InWindow(AllDates, s.date, now, offset, dateOf));
  }

  /** The search text is, case-insensitively, in the sale number, the
      customer name or the medicine name of some line. */
  predicate MatchesSaleSearch(s: SaleRow, term: string)
  {
    var t := LowerStr(term);
    Contains(LowerStr(s.saleNumber), t) ||
    (s.customerName.Some? && Contains(LowerStr(s.customerName.value), t)) ||
    exists k :: 0 <= k < |s.items| && Contains(LowerStr(s.items[k].medicineName), t)
  }

  /** `new Date(sale.date).getTime()`, an unparseable date counting as 0. */
  function SaleTime(s: SaleRow, dateOf: string -> Option<int>): int
  {
    match dateOf(s.date) case None => 0 case Some(t) => t
  }

  /** `filteredSales`: the date window, then the search, then newest first. */
  function FilteredSales(sales: seq<SaleRow>, term: string, w: DateWindow, now: int, offset: int,
                         dateOf: string -> Option<int>): (r: seq<SaleRow>)
    ensures |r| <= |sales|
    ensures forall i, j :: 0 <= i < j < |r| ==> SaleTime(r[j], dateOf) <= SaleTime(r[i], dateOf)
  {
    var byDate := FilterByDate(sales, w, now, offset, dateOf);
    var found := Filter(byDate, (s: SaleRow) => MatchesSaleSearch(s, term));
    var sorted := SortBy(found, (s: SaleRow) => -SaleTime(s, dateOf));
    assert forall i, j :: 0 <= i < j < |sorted| ==> -SaleTime(sorted[i], dateOf) <= -SaleTime(sorted[j], dateOf);
    sorted
  }

  /** The list is a rearrangement of exactly the sales in the window that
      match the search. */
  lemma FilteredSalesContents(sales: seq<SaleRow>, term: string, w: DateWindow, now: int, offset: int,
                              dateOf: string -> Option<int>)
    ensures forall s :: s in FilteredSales(sales, term, w, now, offset, dateOf) <==>
      s in sales && InWindow(w, s.date, now, offset, dateOf) && MatchesSaleSearch(s, term)
    ensures multiset(FilteredSales(sales, term, w, now, offset, dateOf)) ==
      multiset(Filter(FilterByDate(sales, w, now, offset, dateOf), (s: SaleRow) => MatchesSaleSearch(s, term)))
  {
    var found := Filter(FilterByDate(sales, w, now, offset, dateOf), (s: SaleRow) => MatchesSaleSearch(s, term));
    SortByMembers(found, (s: SaleRow) => -SaleTime(s, dateOf));
  }

  /** With no search text and no window, every sale is listed. */
  lemma NoFilterListsAll(sales: seq<SaleRow>, now: int, offset: int, dateOf: string -> Option<int>)
    ensures multiset(FilteredSales(sales, [], AllDates, now, offset, dateOf)) == multiset(sales)
  {
    DateWindowsNest(sales, now, offset, dateOf);
    forall i | 0 <= i < |sales| ensures MatchesSaleSearch(sales[i], []) {
      ContainsEmpty(LowerStr(sales[i].saleNumber));
    }
    FilterKeepsAll(sales, (s: SaleRow) => MatchesSaleSearch(s, []));
    FilteredSalesContents(sales, [], AllDates, now, offset, dateOf);
  }

  function SaleTotal(s: SaleRow): int
  {
    s.total
  }

  /** `totalRevenue` and `averageSale` over the listed sales. */
  datatype SalesSummary = SalesSummary(revenue: int, average: real)

  function Summary(shown: seq<SaleRow>): (r: SalesSummary)
    ensures |shown| == 0 ==> r == SalesSummary(0, 0.0)
    ensures |shown| > 0 ==> r.average * (|shown| as real) == r.revenue as real
  {
    SalesSummary(Sum(shown, SaleTotal), Average(Sum(shown, SaleTotal), |shown|))
  }

  /** The average lies between the smallest and the largest sale. */
  lemma SummaryMeans(shown: seq<SaleRow>, lo: int, hi: int)
    requires |shown| > 0
    requires forall i :: 0 <= i < |shown| ==> lo <= shown[i].total <= hi
    ensures lo as real <= Summary(shown).average <= hi as real
  {
    AverageBounds(shown, SaleTotal, lo, hi);
  }

  /** The revenue does not depend on the display order. */
  lemma RevenueIgnoresOrder(a: seq<SaleRow>, b: seq<SaleRow>)
    requires multiset(a) == multiset(b)
    ensures Sum(a, SaleTotal) == Sum(b, SaleTotal)
  {
    SumPermutation(a, b, SaleTotal);
  }
}
