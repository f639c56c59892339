/** `backend/src/controllers/dashboard.controller.ts`: the four counts of
    `GET /api/dashboard`. The `datetime` column `expiryDate` is compared with
    today's `YYYY-MM-DD`, which MySQL reads as today's midnight. `dayOf`
    reads a stored expiry as a day number, which is exact for the midnight
    values the stock page's date inputs store. */
module DashboardController {
  import opened Common
  import opened Records
  import opened Store

  datatype DashboardData = DashboardData(
    totalMedicines: nat,
    expiredBatches: nat,
    totalSales: nat,
    lowStockMedicines: nat)

  /** `med.totalQuantity < (med.minStock || 0)`, on the cached total. */
  predicate LowOnCachedStock(m: MedicineRow)
  {
    m.totalQuantity < IntOr(m.minStock, 0)
  }

  /** `batch.expiryDate <= :today`: expiring today counts as expired. */
  predicate ExpiredOn(dayOf: string -> int, today: int, b: BatchRow)
  {
    dayOf(b.expiryDate) <= today
  }

  function ExpiredBatches(bs: seq<BatchRow>, dayOf: string -> int, today: int): (r: seq<BatchRow>)
    ensures forall b :: b in r <==> b in bs && ExpiredOn(dayOf, today, b)
  {
    Filter(bs, (b: BatchRow) => ExpiredOn(dayOf, today, b))
  }

  function LowStockMedicines(ms: seq<MedicineRow>): (r: seq<MedicineRow>)
    ensures forall m :: m in r <==> m in ms && LowOnCachedStock(m)
  {
    Filter(ms, LowOnCachedStock)
  }

  function GetDashboardData(ms: seq<MedicineRow>, bs: seq<BatchRow>, sales: seq<SaleRow>,
                            dayOf: string -> int, today: int): (r: DashboardData)
    ensures r.totalMedicines == |ms| && r.totalSales == |sales|
    ensures r.expiredBatches <= |bs| && r.lowStockMedicines <= |ms|
  {
    DashboardData(|ms|, |ExpiredBatches(bs, dayOf, today)|, |sales|, |LowStockMedicines(ms)|)
  }

  /** The low-stock predicate on the true stock, the sum of the batches. */
  predicate LowOnBatchStock(bs: seq<BatchRow>, m: MedicineRow)
  {
    StockOf(bs, m.id) < IntOr(m.minStock, 0)
  }

  /** While the cache is right, counting on the cached totals gives the same
      medicines as counting on the batch sums. */
  lemma CachedCountMatchesBatches(ms: seq<MedicineRow>, bs: seq<BatchRow>)
    requires CacheConsistent(ms, bs)
    ensures LowStockMedicines(ms) == Filter(ms, (m: MedicineRow) => LowOnBatchStock(bs, m))
  {
    FilterAgree(ms, LowOnCachedStock, (m: MedicineRow) => LowOnBatchStock(bs, m));
  }

  /** A medicine whose `minStock` is 0 or missing is never counted while its
      cached total is not negative. */
  lemma NoMinimumNeverLow(m: MedicineRow)
    requires m.minStock == 0 && m.totalQuantity >= 0
    ensures !LowOnCachedStock(m)
  {
  }

  /** A batch that expires today is counted, and one that expires tomorrow is not. */
  lemma ExpiryBoundary(bs: seq<BatchRow>, dayOf: string -> int, today: int, b: BatchRow)
    requires b in bs
    ensures dayOf(b.expiryDate) == today ==> b in ExpiredBatches(bs, dayOf, today)
    ensures dayOf(b.expiryDate) == today + 1 ==> b !in ExpiredBatches(bs, dayOf, today)
  {
  }

  /** The expired count can only grow as the days pass. */
  lemma ExpiredCountMonotone(bs: seq<BatchRow>, dayOf: string -> int, d1: int, d2: int)
    requires d1 <= d2
    ensures |ExpiredBatches(bs, dayOf, d1)| <= |ExpiredBatches(bs, dayOf, d2)|
    ensures forall b :: b in ExpiredBatches(bs, dayOf, d1) ==> b in ExpiredBatches(bs, dayOf, d2)
  {
    FilterMonotone(bs, (b: BatchRow) => ExpiredOn(dayOf, d1, b), (b: BatchRow) => ExpiredOn(dayOf, d2, b));
  }
}
