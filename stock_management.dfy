/** `Pharmacy_Stock_Management_App/src/components/StockManagement.tsx`: the
    stock page. It keeps the medicines with their batches as the API sends
    them, and computes their stock, the low-stock badge, the expiry badges of
    each batch and the search filter. */
module StockManagement {
  import opened Common
  import opened Records
  import opened Text
  import opened ClientRecords
  import opened Store
  import Dashboard

  /** `setMedicines(data.map(...))`: the defaults are those the dashboard
      fills; the batches are kept as received. */
  function LoadMedicines(ms: seq<MedicineJson>): (r: seq<Medicine<BatchRow>>)
    ensures |r| == |ms|
    ensures forall i :: 0 <= i < |ms| ==> r[i] == NormalizeMedicine(ms[i].row, ms[i].batches)
  {
    seq(|ms|, i requires 0 <= i < |ms| => NormalizeMedicine(ms[i].row, ms[i].batches))
  }

  /** `batch.quantity || 0`. */
  function RawQuantity(b: BatchRow): int
  {
    IntOr(b.quantity, 0)
  }

  /** `getTotalStock`. */
  function GetTotalStock(m: Medicine<BatchRow>): (r: int)
    ensures |m.batches| == 0 ==> r == 0
  {
    Sum(m.batches, RawQuantity)
  }

  /** The page's stock of a medicine loaded from the API is the backend's
      batch sum for it. */
  lemma TotalStockIsBatchSum(row: MedicineRow, bs: seq<BatchRow>)
    ensures GetTotalStock(NormalizeMedicine(row, BatchesOf(bs, row.id))) == StockOf(bs, row.id)
  {
    StockOfIsSumOfBatches(bs, row.id);
    SumAgree(BatchesOf(bs, row.id), RawQuantity, Quantity);
  }

  /** `totalStock < medicine.minStock`. */
  predicate IsLowStock(m: Medicine<BatchRow>)
  {
    GetTotalStock(m) < m.minStock
  }

  /** The page and the dashboard agree on low stock, except that the page
      also flags a negative total. */
  lemma LowStockAgreesWithDashboard(row: MedicineRow, bs: seq<BatchRow>, dateOf: string -> Option<int>)
    ensures var page := NormalizeMedicine(row, bs);
      (Dashboard.IsLow(NormalizeMedicine(row, Dashboard.NormalizeBatches(bs, dateOf))) <==>
       IsLowStock(page) && GetTotalStock(page) >= 0)
  {
    Dashboard.NormalizedSum(bs, dateOf);
    SumAgree(bs, RawQuantity, Quantity);
  }

  /** The look-ahead of the "expires soon" badge, in days. */
  const SOON_DAYS: int := 90

  datatype ExpiryBadges = ExpiryBadges(expiringSoon: bool, expired: bool)

  /** `isExpiringSoon = daysLeft <= 90 && daysLeft > 0` and
      `isExpired = daysLeft <= 0`; every comparison with `NaN` is false. */
  function Badges(expiryDate: string, now: int, dateOf: string -> Option<int>): (r: ExpiryBadges)
    ensures !(r.expired && r.expiringSoon)
  {
    match DaysUntil(expiryDate, now, dateOf)
    case None => ExpiryBadges(false, false)
    case Some(d) => ExpiryBadges(d <= SOON_DAYS && d > 0, d <= 0)
  }

  /** The badges read off the expiry instant: expired once it is reached,
      soon within the next 90 days, never both, and neither when the date
      does not parse. The batch's quantity plays no part. */
  lemma BadgesByInstant(expiryDate: string, now: int, dateOf: string -> Option<int>)
    ensures var f := Badges(expiryDate, now, dateOf);
      var t := dateOf(expiryDate);
      && (f.expired <==> t.Some? && t.value <= now)
      && (f.expiringSoon <==> t.Some? && now < t.value <= now + SOON_DAYS * DAY_MS)
      && !(f.expired && f.expiringSoon)
  {
    if dateOf(expiryDate).Some? {
      var t := dateOf(expiryDate).value;
      var d := DaysUntil(expiryDate, now, dateOf).value;
      assert (d - 1) * DAY_MS < t - now <= d * DAY_MS;
      if d <= 0 {
        assert d * DAY_MS <= 0;
      }
      if t - now <= 0 {
        assert (d - 1) * DAY_MS < 0;
      }
      if d <= SOON_DAYS {
        assert d * DAY_MS <= SOON_DAYS * DAY_MS;
      }
      if t - now <= SOON_DAYS * DAY_MS {
        assert (d - 1) * DAY_MS < SOON_DAYS * DAY_MS;
      }
    }
  }

  /** The search test: the lower-cased term occurs in the lower-cased name,
      generic name or category. */
  predicate MatchesSearch(m: Medicine<BatchRow>, term: string)
  {
    var t := LowerStr(term);
    Contains(LowerStr(m.name), t) || Contains(LowerStr(m.genericName), t) || Contains(LowerStr(m.category), t)
  }

  /** `filteredMedicines`. */
  function FilteredMedicines(ms: seq<Medicine<BatchRow>>, term: string): (r: seq<Medicine<BatchRow>>)
    ensures forall m :: m in r <==> m in ms && MatchesSearch(m, term)
  {
    Filter(ms, (m: Medicine<BatchRow>) => MatchesSearch(m, term))
  }

  /** An empty search keeps every medicine, in order. */
  lemma EmptySearchKeepsAll(ms: seq<Medicine<BatchRow>>)
    ensures FilteredMedicines(ms, []) == ms
  {
    forall i | 0 <= i < |ms| ensures MatchesSearch(ms[i], []) {
      ContainsEmpty(LowerStr(ms[i].name));
    }
    FilterKeepsAll(ms, (m: Medicine<BatchRow>) => MatchesSearch(m, []));
  }

  /** The search keeps the input order: it distributes over any split. */
  lemma SearchKeepsOrder(a: seq<Medicine<BatchRow>>, b: seq<Medicine<BatchRow>>, term: string)
    ensures FilteredMedicines(a + b, term) == FilteredMedicines(a, term) + FilteredMedicines(b, term)
  {
    FilterConcat(a, b, (m: Medicine<BatchRow>) => MatchesSearch(m, term));
  }

  /** The search ignores the case of the term. */
  lemma SearchIgnoresCase(ms: seq<Medicine<BatchRow>>, term: string)
    ensures FilteredMedicines(ms, term) == FilteredMedicines(ms, LowerStr(term))
  {
    LowerStrIdempotent(term);
    FilterAgree(ms, (m: Medicine<BatchRow>) => MatchesSearch(m, term),
                (m: Medicine<BatchRow>) => MatchesSearch(m, LowerStr(term)));
  }

  /** Typing more narrows the list: whatever matches a term also matches
      every part of it. */
  lemma LongerTermNarrows(m: Medicine<BatchRow>, term: string, part: string)
    requires Contains(term, part) && MatchesSearch(m, term)
    ensures MatchesSearch(m, part)
  {
    ContainsLower(term, part);
    var t, p := LowerStr(term), LowerStr(part);
    if Contains(LowerStr(m.name), t) {
      ContainsTransitive(LowerStr(m.name), t, p);
    } else if Contains(LowerStr(m.genericName), t) {
      ContainsTransitive(LowerStr(m.genericName), t, p);
    } else {
      ContainsTransitive(LowerStr(m.category), t, p);
    }
  }
}
