/** `Pharmacy_Stock_Management_App/src/components/Dashboard.tsx`: the
    dashboard's load step. It normalises the medicines, scans their batches
    for expired and soon-expiring lots, lists low-stock medicines, and adds
    up the stock and the pending orders.

    Instants are milliseconds since the epoch. `dateOf(s)` is
    `new Date(s).getTime()`, `None` when that is `NaN`. `today` is the
    `new Date()` of the load. */
module Dashboard {
  import opened Common
  import opened Records
  import opened Sorting
  import opened ClientRecords
  import opened Store
  import opened Text
  import AdminReports
  import DashboardController

  /** A batch as the dashboard keeps it. Its dates are parsed instants, or
      `None` where the client stores `''`. */
  datatype Batch = Batch(
    id: nat,
    batchNumber: string,
    quantity: int,
    purchasePrice: int,
    sellPrice: int,
    expiry: Option<int>,
    manufactured: Option<int>,
    received: Option<int>,
    supplierId: nat)

  /** `{ ...batch, medicineName }`, one line of the alert panel. */
  datatype AlertEntry = AlertEntry(batch: Batch, medicineName: string)

  datatype Urgency = Expired | ExpiringSoon | NoAlert

  /** `setDate(today.getDate() + 45)`: the look-ahead of the alert scan. */
  const ALERT_WINDOW_MS: int := 45 * DAY_MS

  /** The text the database uses for a missing date. */
  const ZERO_DATE: string := "0000-00-00"
  const ZERO_DATETIME: string := "0000-00-00 00:00:00"

  /** `parseSafeDate`: no date for empty text, the database's zero dates,
      and text that does not parse. */
  function ParseSafeDate(s: string, dateOf: string -> Option<int>): (r: Option<int>)
    ensures r.None? <==> s == [] || s == ZERO_DATE || s == ZERO_DATETIME || dateOf(s).None?
    ensures r.Some? ==> r == dateOf(s)
  {
    if s == [] || s == ZERO_DATE || s == ZERO_DATETIME then None else dateOf(s)
  }

  /** The batch mapping of `loadData`. `parseInt(quantity) || 0` keeps the
      integer quantity, and a missing quantity (0 in this model) stays 0. */
  function NormalizeBatch(b: BatchRow, dateOf: string -> Option<int>): Batch
  {
    Batch(b.id, b.batchNumber, IntOr(b.quantity, 0), b.purchasePrice, b.sellPrice,
          ParseSafeDate(b.expiryDate, dateOf), ParseSafeDate(b.manufacturingDate, dateOf),
          ParseSafeDate(b.receivedDate, dateOf), b.supplierId)
  }

  function NormalizeBatches(bs: seq<BatchRow>, dateOf: string -> Option<int>): (r: seq<Batch>)
    ensures |r| == |bs|
    ensures forall i :: 0 <= i < |bs| ==> r[i] == NormalizeBatch(bs[i], dateOf)
  {
    seq(|bs|, i requires 0 <= i < |bs| => NormalizeBatch(bs[i], dateOf))
  }

  function NormalizeAll(ms: seq<MedicineJson>, dateOf: string -> Option<int>): (r: seq<Medicine<Batch>>)
    ensures |r| == |ms|
    ensures forall i :: 0 <= i < |ms| ==>
      r[i] == NormalizeMedicine(ms[i].row, NormalizeBatches(ms[i].batches, dateOf))
  {
    seq(|ms|, i requires 0 <= i < |ms| => NormalizeMedicine(ms[i].row, NormalizeBatches(ms[i].batches, dateOf)))
  }

  /** The two tests of the scan, in order. A batch without an expiry date is
      skipped, and so is an empty one. */
  function Classify(b: Batch, today: int): (u: Urgency)
    ensures u != NoAlert ==> b.expiry.Some? && b.quantity > 0
  {
    match b.expiry
    case None => NoAlert
    case Some(t) =>
      if t < today && b.quantity > 0 then Expired
      else if t <= today + ALERT_WINDOW_MS && t >= today && b.quantity > 0 then ExpiringSoon
      else NoAlert
  }

  /** The classification stated by expiry instant and quantity alone. */
  lemma ClassifyMeans(b: Batch, today: int)
    ensures Classify(b, today) == Expired <==>
      b.expiry.Some? && b.expiry.value < today && b.quantity > 0
    ensures Classify(b, today) == ExpiringSoon <==>
      b.expiry.Some? && today <= b.expiry.value <= today + ALERT_WINDOW_MS && b.quantity > 0
  {
  }

  /** The entries a scan of batches `bs` of medicine `name` pushes onto the
      list for `u`, in scan order. */
  function BatchEntries(name: string, bs: seq<Batch>, today: int, u: Urgency): (r: seq<AlertEntry>)
    ensures |r| <= |bs|
    ensures forall e :: e in r ==> Classify(e.batch, today) == u && e.medicineName == name
  {
    if |bs| == 0 then []
    else
      var b := bs[|bs| - 1];
      BatchEntries(name, bs[..|bs| - 1], today, u)
        + (if Classify(b, today) == u then [AlertEntry(b, name)] else [])
  }

  /** The entries the whole scan pushes onto the list for `u`. */
  function Entries(ms: seq<Medicine<Batch>>, today: int, u: Urgency): (r: seq<AlertEntry>)
    ensures forall e :: e in r ==> Classify(e.batch, today) == u
  {
    if |ms| == 0 then []
    else
      var m := ms[|ms| - 1];
      Entries(ms[..|ms| - 1], today, u) + BatchEntries(m.name, m.batches, today, u)
  }

  /** Scanning one more batch appends at most its own entry. */
  lemma BatchScanStep(name: string, bs: seq<Batch>, j: nat, today: int, u: Urgency)
    requires j < |bs|
    ensures BatchEntries(name, bs[..j + 1], today, u)
         == BatchEntries(name, bs[..j], today, u) + (if Classify(bs[j], today) == u then [AlertEntry(bs[j], name)] else [])
  {
    assert bs[..j + 1][..j] == bs[..j];
  }

  /** Scanning one more medicine appends the entries of its batches. */
  lemma MedicineScanStep(ms: seq<Medicine<Batch>>, i: nat, today: int, u: Urgency)
    requires i < |ms|
    ensures Entries(ms[..i + 1], today, u) == Entries(ms[..i], today, u) + BatchEntries(ms[i].name, ms[i].batches, today, u)
  {
    assert ms[..i + 1][..i] == ms[..i];
  }

  /** The inner `forEach` of `loadData`: the entries it pushes onto
      `expired` and `expiring` for the batches of medicine `name`, in order. */
  method ScanBatches(name: string, bs: seq<Batch>, today: int)
    returns (expired: seq<AlertEntry>, expiring: seq<AlertEntry>)
    ensures expired == BatchEntries(name, bs, today, Expired)
    ensures expiring == BatchEntries(name, bs, today, ExpiringSoon)
  {
    expired, expiring := [], [];
    var j := 0;
    while j < |bs|
      invariant 0 <= j <= |bs|
      invariant expired == BatchEntries(name, bs[..j], today, Expired)
      invariant expiring == BatchEntries(name, bs[..j], today, ExpiringSoon)
    {
      var b := bs[j];
      BatchScanStep(name, bs, j, today, Expired);
      BatchScanStep(name, bs, j, today, ExpiringSoon);
      if b.expiry.Some? {
        var t := b.expiry.value;
        if t < today && b.quantity > 0 {
          assert Classify(b, today) == Expired;
          expired := expired + [AlertEntry(b, name)];
        } else if t <= today + ALERT_WINDOW_MS && t >= today && b.quantity > 0 {
          assert Classify(b, today) == ExpiringSoon;
          expiring := expiring + [AlertEntry(b, name)];
        } else {
          assert Classify(b, today) == NoAlert;
        }
      } else {
        assert Classify(b, today) == NoAlert;
      }
      j := j + 1;
    }
    assert bs[..|bs|] == bs;
  }

  /** The outer `forEach` of `loadData`: every medicine's batches, in order. */
  method CollectAlerts(ms: seq<Medicine<Batch>>, today: int)
    returns (expired: seq<AlertEntry>, expiring: seq<AlertEntry>)
    ensures expired == Entries(ms, today, Expired)
    ensures expiring == Entries(ms, today, ExpiringSoon)
  {
    expired, expiring := [], [];
    var i := 0;
    while i < |ms|
      invariant 0 <= i <= |ms|
      invariant expired == Entries(ms[..i], today, Expired)
      invariant expiring == Entries(ms[..i], today, ExpiringSoon)
    {
      MedicineScanStep(ms, i, today, Expired);
      MedicineScanStep(ms, i, today, ExpiringSoon);
      var pushedExpired, pushedExpiring := ScanBatches(ms[i].name, ms[i].batches, today);
      expired, expiring := expired + pushedExpired, expiring + pushedExpiring;
      i := i + 1;
    }
    assert ms[..|ms|] == ms;
  }

  /** The sort key `new Date(expiryDate).getTime()` of an entry. */
  function ExpiryKey(e: AlertEntry): int
  {
    match e.batch.expiry
    case None => 0
    case Some(t) => t
  }

  /** `[...expired, ...expiring]` after both lists were sorted by expiry. */
  function AlertList(ms: seq<Medicine<Batch>>, today: int): (r: seq<AlertEntry>)
    ensures |r| == |Entries(ms, today, Expired)| + |Entries(ms, today, ExpiringSoon)|
  {
    SortBy(Entries(ms, today, Expired), ExpiryKey) + SortBy(Entries(ms, today, ExpiringSoon), ExpiryKey)
  }

  /** The scan, the two sorts and the concatenation of `loadData`. */
  method LoadAlerts(ms: seq<Medicine<Batch>>, today: int) returns (alerts: seq<AlertEntry>)
    ensures alerts == AlertList(ms, today)
  {
    var expired, expiring := CollectAlerts(ms, today);
    expiring := SortBy(expiring, ExpiryKey);
    expired := SortBy(expired, ExpiryKey);
    alerts := expired + expiring;
  }

  /** The alert list is all expired entries, oldest expiry first, followed
      by all soon-expiring entries, soonest first. */
  lemma AlertListOrder(ms: seq<Medicine<Batch>>, today: int)
    ensures var r := AlertList(ms, today);
      var n := |Entries(ms, today, Expired)|;
      && n <= |r|
      && (forall i :: 0 <= i < n ==> Classify(r[i].batch, today) == Expired)
      && (forall i :: n <= i < |r| ==> Classify(r[i].batch, today) == ExpiringSoon)
      && SortedBy(r[..n], ExpiryKey)
      && SortedBy(r[n..], ExpiryKey)
  {
    var ea := Entries(ms, today, Expired);
    var eb := Entries(ms, today, ExpiringSoon);
    var a := SortBy(ea, ExpiryKey);
    var b := SortBy(eb, ExpiryKey);
    SortByMembers(ea, ExpiryKey);
    SortByMembers(eb, ExpiryKey);
    var r := a + b;
    assert r[..|a|] == a && r[|a|..] == b;
    forall i | 0 <= i < |a| ensures Classify(r[i].batch, today) == Expired {
      assert r[i] == a[i] && a[i] in a;
    }
    forall i | |a| <= i < |r| ensures Classify(r[i].batch, today) == ExpiringSoon {
      assert r[i] == b[i - |a|] && b[i - |a|] in b;
    }
  }

  /** `BatchEntries` pushes exactly the batches of class `u`. */
  lemma {:induction false} BatchEntriesMembership(name: string, bs: seq<Batch>, today: int, u: Urgency, e: AlertEntry)
    ensures e in BatchEntries(name, bs, today, u) <==>
      exists j :: 0 <= j < |bs| && e == AlertEntry(bs[j], name) && Classify(bs[j], today) == u
  {
    if |bs| > 0 {
      var init := bs[..|bs| - 1];
      BatchEntriesMembership(name, init, today, u, e);
      if e in BatchEntries(name, init, today, u) {
        var j :| 0 <= j < |init| && e == AlertEntry(init[j], name) && Classify(init[j], today) == u;
        assert bs[j] == init[j];
      }
      if exists j :: 0 <= j < |bs| && e == AlertEntry(bs[j], name) && Classify(bs[j], today) == u {
        var j :| 0 <= j < |bs| && e == AlertEntry(bs[j], name) && Classify(bs[j], today) == u;
        if j < |bs| - 1 {
          assert init[j] == bs[j];
        }
      }
    }
  }

  /** Every entry of the scan comes from some batch of some medicine. */
  lemma {:induction false} EntriesWitness(ms: seq<Medicine<Batch>>, today: int, u: Urgency, e: AlertEntry)
    returns (i: nat, j: nat)
    requires e in Entries(ms, today, u)
    ensures i < |ms| && j < |ms[i].batches|
    ensures e == AlertEntry(ms[i].batches[j], ms[i].name) && Classify(ms[i].batches[j], today) == u
  {
    var init := ms[..|ms| - 1];
    var m := ms[|ms| - 1];
    if e in Entries(init, today, u) {
      i, j := EntriesWitness(init, today, u, e);
      assert ms[i] == init[i];
    } else {
      BatchEntriesMembership(m.name, m.batches, today, u, e);
      i := |ms| - 1;
      j :| 0 <= j < |m.batches| && e == AlertEntry(m.batches[j], m.name) && Classify(m.batches[j], today) == u;
    }
  }

  /** Every batch of class `u` of every medicine has its entry in the scan. */
  lemma {:induction false} EntriesComplete(ms: seq<Medicine<Batch>>, today: int, u: Urgency, i: nat, j: nat)
    requires i < |ms| && j < |ms[i].batches| && Classify(ms[i].batches[j], today) == u
    ensures AlertEntry(ms[i].batches[j], ms[i].name) in Entries(ms, today, u)
  {
    var init := ms[..|ms| - 1];
    var m := ms[|ms| - 1];
    if i < |ms| - 1 {
      assert init[i] == ms[i];
      EntriesComplete(init, today, u, i, j);
    } else {
      BatchEntriesMembership(m.name, m.batches, today, u, AlertEntry(m.batches[j], m.name));
    }
  }

  /** The scan lists an entry for `u` iff some batch of some medicine has class `u`. */
  lemma EntriesMembership(ms: seq<Medicine<Batch>>, today: int, u: Urgency, e: AlertEntry)
    ensures e in Entries(ms, today, u) <==>
      exists i, j :: 0 <= i < |ms| && 0 <= j < |ms[i].batches|
        && e == AlertEntry(ms[i].batches[j], ms[i].name) && Classify(ms[i].batches[j], today) == u
  {
    if e in Entries(ms, today, u) {
      var i, j := EntriesWitness(ms, today, u, e);
    }
    if exists i, j :: 0 <= i < |ms| && 0 <= j < |ms[i].batches|
         && e == AlertEntry(ms[i].batches[j], ms[i].name) && Classify(ms[i].batches[j], today) == u
    {
      var i, j :| 0 <= i < |ms| && 0 <= j < |ms[i].batches|
        && e == AlertEntry(ms[i].batches[j], ms[i].name) && Classify(ms[i].batches[j], today) == u;
      EntriesComplete(ms, today, u, i, j);
    }
  }

  /** An entry is in the alert list iff it stands for a batch that is
      expired or expiring soon; in particular a batch with quantity 0 or less
      never appears, whatever its date. */
  lemma AlertListMembership(ms: seq<Medicine<Batch>>, today: int, e: AlertEntry)
    ensures e in AlertList(ms, today) <==>
      exists i, j :: 0 <= i < |ms| && 0 <= j < |ms[i].batches|
        && e == AlertEntry(ms[i].batches[j], ms[i].name) && Classify(ms[i].batches[j], today) != NoAlert
    ensures e in AlertList(ms, today) ==> e.batch.quantity > 0
  {
    var a := Entries(ms, today, Expired);
    var b := Entries(ms, today, ExpiringSoon);
    assert e in SortBy(a, ExpiryKey) <==> e in multiset(a);
    assert e in SortBy(b, ExpiryKey) <==> e in multiset(b);
    EntriesMembership(ms, today, Expired, e);
    EntriesMembership(ms, today, ExpiringSoon, e);
  }

  /** The number of batches of `bs` the scan pushes onto either list. */
  function AlertingBatches(bs: seq<Batch>, today: int): nat
  {
    if |bs| == 0 then 0
    else AlertingBatches(bs[..|bs| - 1], today) + (if Classify(bs[|bs| - 1], today) != NoAlert then 1 else 0)
  }

  function AlertingCount(ms: seq<Medicine<Batch>>, today: int): nat
  {
    if |ms| == 0 then 0
    else AlertingCount(ms[..|ms| - 1], today) + AlertingBatches(ms[|ms| - 1].batches, today)
  }

  lemma {:induction false} BatchEntriesCount(name: string, bs: seq<Batch>, today: int)
    ensures |BatchEntries(name, bs, today, Expired)| + |BatchEntries(name, bs, today, ExpiringSoon)|
         == AlertingBatches(bs, today)
  {
    if |bs| > 0 {
      BatchEntriesCount(name, bs[..|bs| - 1], today);
    }
  }

  /** The alert list has one entry per qualifying batch. */
  lemma {:induction false} AlertListLength(ms: seq<Medicine<Batch>>, today: int)
    ensures |AlertList(ms, today)| == AlertingCount(ms, today)
  {
    if |ms| > 0 {
      AlertListLength(ms[..|ms| - 1], today);
      BatchEntriesCount(ms[|ms| - 1].name, ms[|ms| - 1].batches, today);
    }
  }

  /** `getDaysUntilExpiry`: 999 for a batch without a date, else the
      rounded-up number of days from `now`. */
  function DaysUntilExpiry(expiry: Option<int>, now: int): (d: int)
    ensures expiry.None? ==> d == 999
    ensures expiry.Some? ==> (d - 1) * DAY_MS < expiry.value - now <= d * DAY_MS
  {
    match expiry
    case None => 999
    case Some(t) => DaysCeil(t - now)
  }

  /** The render filter: an entry is hidden when it is not expired and more
      than 365 days away. */
  predicate Rendered(e: AlertEntry, now: int)
  {
    var daysLeft := DaysUntilExpiry(e.batch.expiry, now);
    var isExpired := daysLeft <= 0;
    !(!isExpired && daysLeft > 365)
  }

  /** Rendered at or after the load, every listed entry is at most 45 days
      away, so the 365-day filter hides nothing. */
  lemma RenderFilterHidesNothing(ms: seq<Medicine<Batch>>, today: int, now: int, e: AlertEntry)
    requires today <= now
    requires e in AlertList(ms, today)
    ensures DaysUntilExpiry(e.batch.expiry, now) <= 45
    ensures Rendered(e, now)
  {
    AlertListMembership(ms, today, e);
    var t := e.batch.expiry.value;
    var d := DaysUntilExpiry(e.batch.expiry, now);
    assert t - now <= ALERT_WINDOW_MS;
    assert (d - 1) * DAY_MS < 45 * DAY_MS;
  }

  /** `quantity || 0` of a batch. */
  function BatchQuantity(b: Batch): int
  {
    IntOr(b.quantity, 0)
  }

  /** The `reduce` over a medicine's batches. */
  function MedicineStock(m: Medicine<Batch>): int
  {
    Sum(m.batches, BatchQuantity)
  }

  predicate IsLow(m: Medicine<Batch>)
  {
    MedicineStock(m) < m.minStock && MedicineStock(m) >= 0
  }

  /** The low-stock list: the medicines whose stock is not negative and
      strictly below their minimum, in their original order. */
  function LowStock(ms: seq<Medicine<Batch>>): (r: seq<Medicine<Batch>>)
    ensures forall m :: m in r <==> m in ms && 0 <= MedicineStock(m) < m.minStock
  {
    Filter(ms, IsLow)
  }

  /** The low-stock list is stable: it distributes over any split of the medicines. */
  lemma LowStockKeepsOrder(a: seq<Medicine<Batch>>, b: seq<Medicine<Batch>>)
    ensures LowStock(a + b) == LowStock(a) + LowStock(b)
  {
    FilterConcat(a, b, IsLow);
  }

  /** A medicine stored with `minStock` 0 and a correct cached total below
      10 shows on the dashboard as low (against the default 10) while the
      backend's count, which reads a 0 minimum as 0, does not count it. */
  lemma MinimumDefaultsDisagree(row: MedicineRow, bs: seq<Batch>)
    requires row.minStock == 0 && row.totalQuantity == Sum(bs, BatchQuantity)
    requires 0 <= row.totalQuantity < 10
    ensures IsLow(NormalizeMedicine(row, bs))
    ensures !DashboardController.LowOnCachedStock(row)
  {
  }

  /** Every batch of every medicine, in order. */
  function AllBatches(ms: seq<Medicine<Batch>>): seq<Batch>
  {
    if |ms| == 0 then [] else ms[0].batches + AllBatches(ms[1..])
  }

  /** `totalStock`: the sum over medicines of their batch sums. */
  function TotalStock(ms: seq<Medicine<Batch>>): int
  {
    Sum(ms, MedicineStock)
  }

  /** The total stock is the sum over all batches taken together. */
  lemma {:induction false} TotalStockIsSumOfAllBatches(ms: seq<Medicine<Batch>>)
    ensures TotalStock(ms) == Sum(AllBatches(ms), BatchQuantity)
  {
    if |ms| > 0 {
      TotalStockIsSumOfAllBatches(ms[1..]);
      SumConcat(ms[0].batches, AllBatches(ms[1..]), BatchQuantity);
    }
  }

  /** The dashboard's stock of a medicine loaded from the API is the
      backend's batch sum for it. */
  lemma {:induction false} LoadedStockIsBatchSum(row: MedicineRow, bs: seq<BatchRow>, dateOf: string -> Option<int>)
    ensures MedicineStock(NormalizeMedicine(row, NormalizeBatches(BatchesOf(bs, row.id), dateOf)))
         == StockOf(bs, row.id)
  {
    var own := BatchesOf(bs, row.id);
    StockOfIsSumOfBatches(bs, row.id);
    NormalizedSum(own, dateOf);
  }

  lemma {:induction false} NormalizedSum(bs: seq<BatchRow>, dateOf: string -> Option<int>)
    ensures Sum(NormalizeBatches(bs, dateOf), BatchQuantity) == Sum(bs, Quantity)
  {
    if |bs| > 0 {
      assert NormalizeBatches(bs, dateOf)[1..] == NormalizeBatches(bs[1..], dateOf);
      NormalizedSum(bs[1..], dateOf);
    }
  }

  predicate IsPending(o: OrderRow)
  {
    o.status == "pending"
  }

  /** `pendingOrdersCount`. */
  function PendingOrders(orders: seq<OrderRow>): (r: nat)
    ensures r <= |orders|
  {
    |Filter(orders, IsPending)|
  }

  /** The pending count and the count of all other orders add up to the number of orders. */
  lemma PendingSplitsOrders(orders: seq<OrderRow>)
    ensures PendingOrders(orders) + |Filter(orders, (o: OrderRow) => !IsPending(o))| == |orders|
  {
    FilterSplitsCount(orders, IsPending, (o: OrderRow) => !IsPending(o));
  }

  /** `saleDate?.startsWith(todayStr)`: an empty date falls through the
      alias chain to `undefined` and never matches. */
  predicate SoldToday(s: SaleRow, todayStr: string)
  {
    s.date != [] && StartsWith(s.date, todayStr)
  }

  /** `todaySalesAmount`: the totals (`sale.total || 0`) of today's sales. */
  function TodaySalesAmount(sales: seq<SaleRow>, todayStr: string): int
  {
    Sum(Filter(sales, (s: SaleRow) => SoldToday(s, todayStr)), AdminReports.ReportedTotal)
  }

  /** The dashboard's revenue card adds up exactly the sales that the
      report panel lists under `'today'` with no search term. */
  lemma TodayAmountMatchesReport(sales: seq<SaleRow>, todayStr: string)
    requires todayStr != []
    ensures TodaySalesAmount(sales, todayStr) ==
      Sum(AdminReports.FilteredSales(sales, [], "today", todayStr), AdminReports.ReportedTotal)
  {
    FilterAgree(sales, (s: SaleRow) => SoldToday(s, todayStr),
                (s: SaleRow) => AdminReports.Listed(s, [], "today", todayStr));
  }
}
