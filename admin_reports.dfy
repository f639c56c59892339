/** The `Reports` panel of
    `Pharmacy_Stock_Management_App/src/components/AdminSettings.tsx`: sales
    totals, the count of today's sales, a filtered list and the CSV export.
    `today` is the date part of `new Date().toISOString()`. */
module AdminReports {
  import opened Common
  import opened Records
  import opened Text

  /** `sale.total || sale.totalPrice || 0`. */
  function ReportedTotal(s: SaleRow): int
  {
    IntOr(s.total, 0)
  }

  /** `totalSales`. */
  function TotalSales(sales: seq<SaleRow>): (r: int)
    ensures |sales| == 0 ==> r == 0
  {
    Sum(sales, ReportedTotal)
  }

  /** `s.date?.startsWith(today)`. */
  predicate SoldOn(s: SaleRow, today: string)
  {
    StartsWith(s.date, today)
  }

  /** `todaySales`, a count. */
  function TodaySales(sales: seq<SaleRow>, today: string): (r: nat)
    ensures r <= |sales|
  {
    |Filter(sales, (s: SaleRow) => SoldOn(s, today))|
  }

  /** `averageSale`. */
  function AverageSale(sales: seq<SaleRow>): (r: real)
    ensures |sales| == 0 ==> r == 0.0
    ensures |sales| > 0 ==> r * (|sales| as real) == TotalSales(sales) as real
  {
    Average(TotalSales(sales), |sales|)
  }

  /** The average lies between the smallest and the largest reported total. */
  lemma AverageSaleBounds(sales: seq<SaleRow>, lo: int, hi: int)
    requires |sales| > 0
    requires forall i :: 0 <= i < |sales| ==> lo <= ReportedTotal(sales[i]) <= hi
    ensures lo as real <= AverageSale(sales) <= hi as real
  {
    AverageBounds(sales, ReportedTotal, lo, hi);
  }

  /** `matchesSearch`: an empty term, the id's text containing the term as
      typed, or the customer name containing it case-insensitively. */
  predicate MatchesReportSearch(s: SaleRow, term: string)
  {
    term == [] || Contains(NatToString(s.id), term) ||
    (s.customerName.Some? && Contains(LowerStr(s.customerName.value), LowerStr(term)))
  }

  /** `matchesDate`: only the `'today'` filter restricts the dates. */
  predicate MatchesReportDate(s: SaleRow, dateFilter: string, today: string)
  {
    dateFilter != "today" || SoldOn(s, today)
  }

  predicate Listed(s: SaleRow, term: string, dateFilter: string, today: string)
  {
    MatchesReportSearch(s, term) && MatchesReportDate(s, dateFilter, today)
  }

  /** `filteredSales`. */
  function FilteredSales(sales: seq<SaleRow>, term: string, dateFilter: string, today: string): (r: seq<SaleRow>)
    ensures forall s :: s in r <==> s in sales && MatchesReportSearch(s, term) && MatchesReportDate(s, dateFilter, today)
  {
    Filter(sales, (s: SaleRow) => Listed(s, term, dateFilter, today))
  }

  /** With no term and the `'all'` filter the list is every sale, in order. */
  lemma NoFilterListsAll(sales: seq<SaleRow>, today: string)
    ensures FilteredSales(sales, [], "all", today) == sales
  {
    FilterKeepsAll(sales, (s: SaleRow) => Listed(s, [], "all", today));
  }

  /** With no term, the `'today'` list has as many sales as the `todaySales` card counts. */
  lemma TodayListMatchesCount(sales: seq<SaleRow>, today: string)
    ensures |FilteredSales(sales, [], "today", today)| == TodaySales(sales, today)
  {
    FilterAgree(sales, (s: SaleRow) => Listed(s, [], "today", today), (s: SaleRow) => SoldOn(s, today));
  }

  /** Typing a sale's id finds it. */
  lemma IdFindsSale(sales: seq<SaleRow>, s: SaleRow, dateFilter: string, today: string)
    requires s in sales && MatchesReportDate(s, dateFilter, today)
    ensures s in FilteredSales(sales, NatToString(s.id), dateFilter, today)
  {
    assert StartsWith(NatToString(s.id), NatToString(s.id));
  }

  const CSV_HEADER: seq<string> := ["ID", "Date", "Client", "Total", "Paiement"]

  /** One exported row: `s.id || ''`, `s.date || ''`, `s.customerName ||
      'Client'`, the reported total and `s.paymentMethod || ''`. */
  function CsvFields(s: SaleRow): (r: seq<string>)
    ensures |r| == |CSV_HEADER|
  {
    [if s.id == 0 then [] else NatToString(s.id),
     s.date,
     StrOr(OrEmpty(s.customerName), "Client"),
     IntToString(ReportedTotal(s)),
     s.paymentMethod]
  }

  function CsvLine(fields: seq<string>): string
  {
    JoinWith(fields, ',')
  }

  /** The data lines of the export, one per sale. */
  function RowLines(sales: seq<SaleRow>): (r: seq<string>)
    ensures |r| == |sales|
    ensures forall i :: 0 <= i < |sales| ==> r[i] == CsvLine(CsvFields(sales[i]))
  {
    seq(|sales|, i requires 0 <= i < |sales| => CsvLine(CsvFields(sales[i])))
  }

  /** The CSV text of `exportSales`: every sale, not only the listed ones. */
  function ExportSales(sales: seq<SaleRow>): string
  {
    JoinWith([CsvLine(CSV_HEADER)] + RowLines(sales), '\n')
  }

  /** A field holds character `c` only where a text of the sale holds it. */
  lemma FieldsAvoid(s: SaleRow, c: char)
    requires c != '-' && !('0' <= c <= '9') && c !in "Client"
    requires c !in s.date && c !in s.paymentMethod
    requires s.customerName.Some? ==> c !in s.customerName.value
    ensures forall i :: 0 <= i < |CsvFields(s)| ==> c !in CsvFields(s)[i]
  {
    NumberText(s.id, c);
    NumberText(ReportedTotal(s), c);
  }

  /** The header line holds no line break. */
  lemma HeaderAvoidsBreak()
    ensures '\n' !in CsvLine(CSV_HEADER)
  {
    forall i | 0 <= i < |CSV_HEADER| ensures '\n' !in CSV_HEADER[i] {
      assert CSV_HEADER[i] in {"ID", "Date", "Client", "Total", "Paiement"};
    }
    JoinAvoids(CSV_HEADER, ',', '\n');
  }

  /** A row holds no line break when the sale's texts hold none. */
  lemma RowAvoidsBreak(s: SaleRow)
    requires '\n' !in s.date && '\n' !in s.paymentMethod
    requires s.customerName.Some? ==> '\n' !in s.customerName.value
    ensures '\n' !in CsvLine(CsvFields(s))
  {
    FieldsAvoid(s, '\n');
    JoinAvoids(CsvFields(s), ',', '\n');
  }

  /** No text holding a line break: the export has the header line and then
      exactly one line per sale, in order. */
  lemma ExportHasOneLinePerSale(sales: seq<SaleRow>)
    requires forall i :: 0 <= i < |sales| ==> '\n' !in sales[i].date && '\n' !in sales[i].paymentMethod
    requires forall i :: 0 <= i < |sales| ==> sales[i].customerName.Some? ==> '\n' !in sales[i].customerName.value
    ensures SplitOn(ExportSales(sales), '\n') == [CsvLine(CSV_HEADER)] + RowLines(sales)
    ensures |SplitOn(ExportSales(sales), '\n')| == |sales| + 1
  {
    var rows := RowLines(sales);
    var lines := [CsvLine(CSV_HEADER)] + rows;
    HeaderAvoidsBreak();
    forall i | 0 <= i < |rows| ensures '\n' !in rows[i] {
      RowAvoidsBreak(sales[i]);
    }
    forall i | 0 <= i < |lines| ensures '\n' !in lines[i] {
      if i > 0 {
        assert lines[i] == rows[i - 1];
      }
    }
    SplitJoin(lines, '\n');
  }

  /** Splitting a row on `,` gives five fields plus one for every comma
      inside them, since nothing is quoted. */
  lemma RowFieldCount(s: SaleRow)
    ensures |SplitOn(CsvLine(CsvFields(s)), ',')| == 5 + CharsIn(CsvFields(s), ',')
  {
    SplitCount(CsvLine(CsvFields(s)), ',');
    JoinCount(CsvFields(s), ',');
  }

  /** Without commas in the sale's texts the row splits back into its fields. */
  lemma RowRoundTrip(s: SaleRow)
    requires ',' !in s.date && ',' !in s.paymentMethod
    requires s.customerName.Some? ==> ',' !in s.customerName.value
    ensures SplitOn(CsvLine(CsvFields(s)), ',') == CsvFields(s)
  {
    FieldsAvoid(s, ',');
    SplitJoin(CsvFields(s), ',');
  }

  /** A comma in a customer name shifts the columns that follow it. */
  lemma CommaInNameAddsField(s: SaleRow)
    requires s.customerName.Some? && ',' in s.customerName.value
    ensures |SplitOn(CsvLine(CsvFields(s)), ',')| >= 6
  {
    RowFieldCount(s);
    CountCharZero(s.customerName.value, ',');
    assert CsvFields(s)[2] == s.customerName.value;
    CharsInPart(CsvFields(s), ',', 2);
  }
}
