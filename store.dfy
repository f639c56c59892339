/** The backend's database: one table per entity, each an ordered list of
    rows with auto-increment ids, and the lookups the controllers make
    through their repositories (`findOneBy`, `findBy`, `remove`).

    `Medicine.totalQuantity` is a cached copy of the sum of the medicine's
    batch quantities; `CacheConsistent` states that the cache is right. */
module Store {
  import opened Common
  import opened Records

  function MedicineIdOf(m: MedicineRow): nat { m.id }
  function BatchIdOf(b: BatchRow): nat { b.id }
  function SaleIdOf(s: SaleRow): nat { s.id }
  function OrderIdOf(o: OrderRow): nat { o.id }

  /** `repo.findOneBy({ id })`: the position of the first row with that id. */
  function IndexOf<T>(rows: seq<T>, idOf: T -> nat, id: nat): (r: Option<nat>)
    ensures r.Some? ==> r.value < |rows| && idOf(rows[r.value]) == id
    ensures r.Some? ==> forall i :: 0 <= i < r.value ==> idOf(rows[i]) != id
    ensures r.None? <==> forall i :: 0 <= i < |rows| ==> idOf(rows[i]) != id
  {
    if |rows| == 0 then None
    else if idOf(rows[0]) == id then Some(0)
    else match IndexOf(rows[1..], idOf, id)
      case None => None
      case Some(k) => Some(k + 1)
  }

  /** `repo.remove(row)`: deletes the row with that primary key. */
  function RemoveId<T(!new)>(rows: seq<T>, idOf: T -> nat, id: nat): (r: seq<T>)
    ensures forall x :: x in r <==> x in rows && idOf(x) != id
  {
    Filter(rows, (x: T) => idOf(x) != id)
  }

  ghost predicate UniqueIds<T>(rows: seq<T>, idOf: T -> nat)
  {
    forall i, j :: 0 <= i < j < |rows| ==> idOf(rows[i]) != idOf(rows[j])
  }

  /** The rows have distinct ids, all below the table's next auto-increment value. */
  ghost predicate Keyed<T>(rows: seq<T>, idOf: T -> nat, next: nat)
  {
    UniqueIds(rows, idOf) && forall i :: 0 <= i < |rows| ==> idOf(rows[i]) < next
  }

  /** Inserting a row under the next auto-increment id keeps the table keyed. */
  lemma KeyedAppend<T>(rows: seq<T>, idOf: T -> nat, next: nat, x: T)
    requires Keyed(rows, idOf, next) && idOf(x) == next
    ensures Keyed(rows + [x], idOf, next + 1)
  {
  }

  /** Rewriting a row without touching its id keeps the table keyed. */
  lemma KeyedUpdate<T>(rows: seq<T>, idOf: T -> nat, next: nat, k: nat, x: T)
    requires Keyed(rows, idOf, next) && k < |rows| && idOf(x) == idOf(rows[k])
    ensures Keyed(rows[k := x], idOf, next)
  {
  }

  /** With distinct ids, removing the id of row `k` removes exactly that row. */
  lemma {:induction false} RemoveUniqueRow<T(!new)>(rows: seq<T>, idOf: T -> nat, k: nat)
    requires UniqueIds(rows, idOf) && k < |rows|
    ensures RemoveId(rows, idOf, idOf(rows[k])) == rows[..k] + rows[k + 1..]
  {
    var id := idOf(rows[k]);
    var p := (x: T) => idOf(x) != id;
    assert rows == rows[..k] + ([rows[k]] + rows[k + 1..]);
    FilterConcat(rows[..k], [rows[k]] + rows[k + 1..], p);
    FilterConcat([rows[k]], rows[k + 1..], p);
    FilterKeepsAll(rows[..k], p);
    FilterKeepsAll(rows[k + 1..], p);
    assert Filter([rows[k]], p) == [];
  }

  /** Position `i` of the table without row `k` is this position of the table. */
  function Shifted(i: nat, k: nat): nat
  {
    if i < k then i else i + 1
  }

  lemma DropAt<T>(rows: seq<T>, k: nat, i: nat)
    requires k < |rows| && i < |rows| - 1
    ensures Shifted(i, k) < |rows| && (rows[..k] + rows[k + 1..])[i] == rows[Shifted(i, k)]
  {
  }

  /** Dropping a row keeps the table keyed. */
  lemma KeyedDrop<T>(rows: seq<T>, idOf: T -> nat, next: nat, k: nat)
    requires Keyed(rows, idOf, next) && k < |rows|
    ensures Keyed(rows[..k] + rows[k + 1..], idOf, next)
  {
    var r := rows[..k] + rows[k + 1..];
    forall i, j | 0 <= i < j < |r| ensures idOf(r[i]) != idOf(r[j]) {
      DropAt(rows, k, i);
      DropAt(rows, k, j);
    }
    forall i | 0 <= i < |r| ensures idOf(r[i]) < next {
      DropAt(rows, k, i);
    }
  }

  lemma KeyedRemove<T(!new)>(rows: seq<T>, idOf: T -> nat, next: nat, k: nat)
    requires Keyed(rows, idOf, next) && k < |rows|
    ensures Keyed(RemoveId(rows, idOf, idOf(rows[k])), idOf, next)
  {
    RemoveUniqueRow(rows, idOf, k);
    KeyedDrop(rows, idOf, next, k);
  }

  /** The tail of a keyed table is keyed, and no row of it shares the head's id. */
  lemma KeyedTail<T>(rows: seq<T>, idOf: T -> nat, next: nat)
    requires Keyed(rows, idOf, next) && |rows| > 0
    ensures Keyed(rows[1..], idOf, next)
    ensures forall x :: x in rows[1..] ==> idOf(x) != idOf(rows[0])
  {
    var t := rows[1..];
    forall i, j | 0 <= i < j < |t| ensures idOf(t[i]) != idOf(t[j]) {
      assert t[i] == rows[i + 1] && t[j] == rows[j + 1];
    }
    forall x | x in t ensures idOf(x) != idOf(rows[0]) {
      var j :| 0 <= j < |t| && t[j] == x;
      assert rows[j + 1] == x;
    }
  }

  /** A row in front of a keyed table whose ids it avoids. */
  lemma KeyedCons<T>(x: T, rest: seq<T>, idOf: T -> nat, next: nat)
    requires Keyed(rest, idOf, next) && idOf(x) < next
    requires forall y :: y in rest ==> idOf(y) != idOf(x)
    ensures Keyed([x] + rest, idOf, next)
  {
    var r := [x] + rest;
    forall i, j | 0 <= i < j < |r| ensures idOf(r[i]) != idOf(r[j]) {
      assert r[j] == rest[j - 1];
      if i > 0 {
        assert r[i] == rest[i - 1];
      } else {
        assert rest[j - 1] in rest;
      }
    }
    forall i | 0 < i < |r| ensures idOf(r[i]) < next {
      assert r[i] == rest[i - 1];
    }
  }

  /** Keeping some rows of a keyed table keeps it keyed. */
  lemma {:induction false} KeyedFilter<T(!new)>(rows: seq<T>, idOf: T -> nat, next: nat, p: T -> bool)
    requires Keyed(rows, idOf, next)
    ensures Keyed(Filter(rows, p), idOf, next)
    decreases |rows|
  {
    if |rows| > 0 {
      KeyedTail(rows, idOf, next);
      KeyedFilter(rows[1..], idOf, next, p);
      if p(rows[0]) {
        KeyedCons(rows[0], Filter(rows[1..], p), idOf, next);
      }
    }
  }

  class Database {
    var medicines: seq<MedicineRow>
    var batches: seq<BatchRow>
    var sales: seq<SaleRow>
    var orders: seq<OrderRow>
    var nextMedicineId: nat
    var nextBatchId: nat
    var nextSaleId: nat
    var nextOrderId: nat

    ghost predicate Valid()
      reads this
    {
      && Keyed(medicines, MedicineIdOf, nextMedicineId)
      && Keyed(batches, BatchIdOf, nextBatchId)
      && Keyed(sales, SaleIdOf, nextSaleId)
      && Keyed(orders, OrderIdOf, nextOrderId)
    }

    /** Empty tables whose auto-increment counters start at 1. */
    constructor ()
      ensures Valid()
      ensures medicines == [] && batches == [] && sales == [] && orders == []
      ensures nextMedicineId == 1 && nextBatchId == 1 && nextSaleId == 1 && nextOrderId == 1
    {
      medicines, batches, sales, orders := [], [], [], [];
      nextMedicineId, nextBatchId, nextSaleId, nextOrderId := 1, 1, 1, 1;
    }
  }

  /** What a batch adds to the stock of medicine `mid`. */
  function Contribution(mid: nat): BatchRow -> int
  {
    (b: BatchRow) => if b.medicineId == mid then b.quantity else 0
  }

  /** The sum of the quantities of the batches of medicine `mid`. */
  function StockOf(bs: seq<BatchRow>, mid: nat): int
  {
    Sum(bs, Contribution(mid))
  }

  function Quantity(b: BatchRow): int { b.quantity }

  /** `batchRepo.findBy({ medicineId })`, also the `batches` relation of a medicine. */
  function BatchesOf(bs: seq<BatchRow>, mid: nat): (r: seq<BatchRow>)
    ensures forall b :: b in r <==> b in bs && b.medicineId == mid
  {
    Filter(bs, (b: BatchRow) => b.medicineId == mid)
  }

  /** The stock of a medicine is the sum over the batches its relation loads. */
  lemma {:induction false} StockOfIsSumOfBatches(bs: seq<BatchRow>, mid: nat)
    ensures StockOf(bs, mid) == Sum(BatchesOf(bs, mid), Quantity)
  {
    if |bs| > 0 {
      StockOfIsSumOfBatches(bs[1..], mid);
    }
  }

  /** Every medicine's cached `totalQuantity` equals the sum of its batches. */
  ghost predicate CacheConsistent(ms: seq<MedicineRow>, bs: seq<BatchRow>)
  {
    forall i :: 0 <= i < |ms| ==> ms[i].totalQuantity == StockOf(bs, ms[i].id)
  }

  ghost predicate NonNegativeStock(bs: seq<BatchRow>)
  {
    forall i :: 0 <= i < |bs| ==> bs[i].quantity >= 0
  }

  lemma StockOfNonNegative(bs: seq<BatchRow>, mid: nat)
    requires NonNegativeStock(bs)
    ensures StockOf(bs, mid) >= 0
  {
    SumNonNegative(bs, Contribution(mid));
  }

  /** Dropping a row keeps every quantity non-negative. */
  lemma NonNegativeDrop(bs: seq<BatchRow>, k: nat)
    requires NonNegativeStock(bs) && k < |bs|
    ensures NonNegativeStock(bs[..k] + bs[k + 1..])
  {
    var r := bs[..k] + bs[k + 1..];
    forall i | 0 <= i < |r| ensures r[i].quantity >= 0 {
      DropAt(bs, k, i);
    }
  }

  /** Splitting the batch table around row `k`. */
  lemma StockAround(bs: seq<BatchRow>, k: nat, mid: nat)
    requires k < |bs|
    ensures StockOf(bs, mid)
         == StockOf(bs[..k], mid) + Contribution(mid)(bs[k]) + StockOf(bs[k + 1..], mid)
  {
    var f := Contribution(mid);
    assert bs == bs[..k] + ([bs[k]] + bs[k + 1..]);
    SumConcat(bs[..k], [bs[k]] + bs[k + 1..], f);
    SumConcat([bs[k]], bs[k + 1..], f);
  }

  lemma StockAppend(bs: seq<BatchRow>, b: BatchRow, mid: nat)
    ensures StockOf(bs + [b], mid) == StockOf(bs, mid) + Contribution(mid)(b)
  {
    SumConcat(bs, [b], Contribution(mid));
  }

  /** Replacing row `k` changes each stock by the difference of the two contributions. */
  lemma StockReplace(bs: seq<BatchRow>, k: nat, b: BatchRow, mid: nat)
    requires k < |bs|
    ensures StockOf(bs[k := b], mid)
         == StockOf(bs, mid) - Contribution(mid)(bs[k]) + Contribution(mid)(b)
  {
    StockAround(bs, k, mid);
    StockAround(bs[k := b], k, mid);
    assert bs[k := b][..k] == bs[..k];
    assert bs[k := b][k + 1..] == bs[k + 1..];
  }

  /** Removing row `k` (with distinct ids) takes its contribution away. */
  lemma StockRemove(bs: seq<BatchRow>, k: nat, mid: nat)
    requires UniqueIds(bs, BatchIdOf) && k < |bs|
    ensures StockOf(RemoveId(bs, BatchIdOf, bs[k].id), mid)
         == StockOf(bs, mid) - Contribution(mid)(bs[k])
  {
    RemoveUniqueRow(bs, BatchIdOf, k);
    StockAround(bs, k, mid);
    SumConcat(bs[..k], bs[k + 1..], Contribution(mid));
  }
}
