/** `backend/src/controllers/sale.controller.ts`: recording a sale, which
    checks and decrements the batches item by item, and the edit and delete
    endpoints of the sales table. */
module SaleController {
  import opened Common
  import opened Records
  import opened Store
  import opened Text

  /** The body of `POST /api/sales`. `saleNumber`, `date` and `total` are
      whatever the client sent; the server replaces all three. */
  datatype SaleInput = SaleInput(
    saleNumber: string,
    date: string,
    customerName: Option<string>,
    prescriptionId: Option<string>,
    items: seq<SaleItem>,
    total: int,
    paymentMethod: string,
    status: string)

  /** The body of `PUT /api/sales/:id`: the fields it carries. */
  datatype SalePatch = SalePatch(
    saleNumber: Option<string>,
    date: Option<string>,
    customerName: Option<Option<string>>,
    prescriptionId: Option<Option<string>>,
    items: Option<seq<SaleItem>>,
    total: Option<int>,
    paymentMethod: Option<string>,
    status: Option<string>)

  /** What the item loop leaves behind: the batch table as saved, and either
      the accumulated total or the position of the item that was refused. */
  datatype SaleOutcome =
    | Accepted(batches: seq<BatchRow>, total: int)
    | Rejected(batches: seq<BatchRow>, failedAt: nat)

  /** Whether item `item` passes the stock check against table `bs`. */
  predicate InStock(bs: seq<BatchRow>, item: SaleItem)
  {
    match IndexOf(bs, BatchIdOf, item.batchId)
    case None => false
    case Some(k) => bs[k].quantity >= item.quantity
  }

  /** The table after item `item`'s batch was decremented and saved. */
  function Decrement(bs: seq<BatchRow>, item: SaleItem): seq<BatchRow>
    requires InStock(bs, item)
  {
    var k := IndexOf(bs, BatchIdOf, item.batchId).value;
    bs[k := bs[k].(quantity := bs[k].quantity - item.quantity)]
  }

  /** The check and the decrement at the position `findOneBy` returns. */
  lemma DecrementAt(bs: seq<BatchRow>, item: SaleItem, k: nat)
    requires IndexOf(bs, BatchIdOf, item.batchId) == Some(k) && bs[k].quantity >= item.quantity
    ensures InStock(bs, item)
    ensures Decrement(bs, item) == bs[k := bs[k].(quantity := bs[k].quantity - item.quantity)]
  {
  }

  /** The loop of `createSale` over `items`, each re-reading the table that
      the previous ones saved. */
  function ProcessItems(bs: seq<BatchRow>, items: seq<SaleItem>): SaleOutcome
    decreases |items|
  {
    if |items| == 0 then Accepted(bs, 0)
    else if !InStock(bs, items[0]) then Rejected(bs, 0)
    else match ProcessItems(Decrement(bs, items[0]), items[1..])
      case Accepted(after, t) => Accepted(after, SaleLineAmount(items[0]) + t)
      case Rejected(after, j) => Rejected(after, j + 1)
  }

  /** The loop keeps the table's length, and a refused position is one of the items. */
  lemma {:induction false} ProcessItemsShape(bs: seq<BatchRow>, items: seq<SaleItem>)
    ensures |ProcessItems(bs, items).batches| == |bs|
    ensures ProcessItems(bs, items).Rejected? ==> ProcessItems(bs, items).failedAt < |items|
    decreases |items|
  {
    if |items| > 0 && InStock(bs, items[0]) {
      ProcessItemsShape(Decrement(bs, items[0]), items[1..]);
    }
  }

  /** The outcome of the whole loop seen from a point where `n` items were
      already processed with running total `acc`. */
  function Resume(o: SaleOutcome, n: nat, acc: int): SaleOutcome
  {
    match o
    case Accepted(after, t) => Accepted(after, acc + t)
    case Rejected(after, j) => Rejected(after, j + n)
  }

  /** One turn of the loop: item `i` passes and the rest resumes from the
      decremented table with the line amount added. */
  lemma ResumeAccepted(bs: seq<BatchRow>, items: seq<SaleItem>, i: nat, acc: int)
    requires i < |items| && InStock(bs, items[i])
    ensures Resume(ProcessItems(bs, items[i..]), i, acc)
         == Resume(ProcessItems(Decrement(bs, items[i]), items[i + 1..]), i + 1, acc + SaleLineAmount(items[i]))
  {
    assert items[i..][0] == items[i] && items[i..][1..] == items[i + 1..];
  }

  /** One turn of the loop: item `i` is refused. */
  lemma ResumeRejected(bs: seq<BatchRow>, items: seq<SaleItem>, i: nat, acc: int)
    requires i < |items| && !InStock(bs, items[i])
    ensures Resume(ProcessItems(bs, items[i..]), i, acc) == Rejected(bs, i)
  {
    assert items[i..][0] == items[i];
  }

  /** A turn of the item loop that refuses item `i`. */
  lemma RejectStep(bs: seq<BatchRow>, items: seq<SaleItem>, current: seq<BatchRow>, i: nat, total: int, k: Option<nat>)
    requires i < |items| && ProcessItems(bs, items) == Resume(ProcessItems(current, items[i..]), i, total)
    requires k == IndexOf(current, BatchIdOf, items[i].batchId)
    requires k.None? || current[k.value].quantity < items[i].quantity
    ensures ProcessItems(bs, items) == Rejected(current, i)
  {
    ResumeRejected(current, items, i, total);
  }

  /** A turn of the item loop that accepts item `i`, leaving table `next`
      and running total `nextTotal`. */
  lemma AcceptStep(bs: seq<BatchRow>, items: seq<SaleItem>, current: seq<BatchRow>, i: nat, total: int,
                   item: SaleItem, k: nat, b: BatchRow, next: seq<BatchRow>, nextTotal: int)
    requires i < |items| && ProcessItems(bs, items) == Resume(ProcessItems(current, items[i..]), i, total)
    requires item == items[i] && IndexOf(current, BatchIdOf, item.batchId) == Some(k)
    requires k < |current| && b == current[k] && b.quantity >= item.quantity
    requires next == current[k := b.(quantity := b.quantity - item.quantity)]
    requires nextTotal == total + item.quantity * item.unitPrice
    ensures ProcessItems(bs, items) == Resume(ProcessItems(next, items[i + 1..]), i + 1, nextTotal)
  {
    DecrementAt(current, items[i], k);
    ResumeAccepted(current, items, i, total);
  }

  /** `saleRepo.create({...saleData, date, saleNumber, items, total})`. */
  function NewSale(id: nat, body: SaleInput, nowIso: string, nowMs: nat, total: int): SaleRow
  {
    SaleRow(id, "VTE" + NatToString(nowMs), nowIso, body.customerName, body.prescriptionId,
            body.items, total, body.paymentMethod, body.status)
  }

  /** `Object.assign(sale, req.body)`. */
  function PatchSale(s: SaleRow, p: SalePatch): SaleRow
  {
    SaleRow(s.id, Assign(s.saleNumber, p.saleNumber), Assign(s.date, p.date),
            Assign(s.customerName, p.customerName), Assign(s.prescriptionId, p.prescriptionId),
            Assign(s.items, p.items), Assign(s.total, p.total),
            Assign(s.paymentMethod, p.paymentMethod), Assign(s.status, p.status))
  }

  /** The item loop of `createSale` on the batch table `bs`: each item's
      batch is looked up in the table as decremented so far, checked and
      decremented; the loop stops at the first refused item, keeping the
      decrements already made. */
  method DecrementItems(bs: seq<BatchRow>, items: seq<SaleItem>) returns (outcome: SaleOutcome)
    ensures outcome == ProcessItems(bs, items)
  {
    var current := bs;
    var i := 0;
    var total := 0;
    while i < |items|
      invariant 0 <= i <= |items|
      invariant ProcessItems(bs, items) == Resume(ProcessItems(current, items[i..]), i, total)
    {
      var item := items[i];
      var k := IndexOf(current, BatchIdOf, item.batchId);
      if k.None? || current[k.value].quantity < item.quantity {
        RejectStep(bs, items, current, i, total, k);
        return Rejected(current, i);
      }
      var b := current[k.value];
      ghost var before, totalBefore := current, total;
      current := current[k.value := b.(quantity := b.quantity - item.quantity)];
      total := total + item.quantity * item.unitPrice;
      AcceptStep(bs, items, before, i, totalBefore, item, k.value, b, current, total);
      i := i + 1;
    }
    assert items[i..] == [];
    outcome := Accepted(current, total);
  }

  /** `POST /api/sales`. `nowIso` and `nowMs` are the server clock
      (`new Date().toISOString()` and `Date.now()`). */
  method CreateSale(db: Database, body: SaleInput, nowIso: string, nowMs: nat)
    returns (status: HttpStatus, sale: Option<SaleRow>)
    requires db.Valid()
    modifies db
    ensures db.Valid()
    ensures var out := ProcessItems(old(db.batches), body.items);
      && db.batches == out.batches
      && (out.Rejected? ==> status == BadRequest && sale == None
                            && db.sales == old(db.sales) && db.nextSaleId == old(db.nextSaleId))
      && (out.Accepted? ==>
            && status == Created
            && sale == Some(NewSale(old(db.nextSaleId), body, nowIso, nowMs, out.total))
            && db.sales == old(db.sales) + [sale.value]
            && db.nextSaleId == old(db.nextSaleId) + 1)
    ensures db.medicines == old(db.medicines) && db.orders == old(db.orders)
    ensures db.nextMedicineId == old(db.nextMedicineId) && db.nextBatchId == old(db.nextBatchId)
    ensures db.nextOrderId == old(db.nextOrderId)
  {
    var outcome := DecrementItems(db.batches, body.items);
    ProcessKeepsKeyed(db.batches, body.items, db.nextBatchId);
    db.batches := outcome.batches;
    if outcome.Rejected? {
      return BadRequest, None;
    }
    var id := db.nextSaleId;
    var created := NewSale(id, body, nowIso, nowMs, outcome.total);
    KeyedAppend(db.sales, SaleIdOf, id, created);
    db.sales := db.sales + [created];
    db.nextSaleId := id + 1;
    status, sale := Created, Some(created);
  }

  /** A recorded sale carries the server's clock and a number made of `VTE`
      and the creation time, which can be read back from it, whatever the
      client sent for either. */
  lemma NewSaleShape(id: nat, body: SaleInput, nowIso: string, nowMs: nat, total: int)
    ensures var s := NewSale(id, body, nowIso, nowMs, total);
      && s.date == nowIso && s.total == total && s.items == body.items
      && StartsWith(s.saleNumber, "VTE")
      && ParseNat(s.saleNumber[3..]) == nowMs
  {
    var s := NewSale(id, body, nowIso, nowMs, total);
    assert s.saleNumber[3..] == NatToString(nowMs);
    NatToStringRoundTrip(nowMs);
  }

  /** The total of an accepted sale is the sum of its line amounts,
      whatever total the client sent. */
  lemma {:induction false} AcceptedTotal(bs: seq<BatchRow>, items: seq<SaleItem>)
    requires ProcessItems(bs, items).Accepted?
    ensures ProcessItems(bs, items).total == Sum(items, SaleLineAmount)
    decreases |items|
  {
    if |items| > 0 {
      AcceptedTotal(Decrement(bs, items[0]), items[1..]);
    }
  }

  /** No rollback: when item `k` is refused, the items before it were all
      accepted and their decrements are exactly what stays saved, and item
      `k` fails the check against that already-decremented table. */
  lemma {:induction false} RejectedKeepsEarlierDecrements(bs: seq<BatchRow>, items: seq<SaleItem>)
    requires ProcessItems(bs, items).Rejected?
    ensures var out := ProcessItems(bs, items);
      && out.failedAt < |items|
      && ProcessItems(bs, items[..out.failedAt]).Accepted?
      && ProcessItems(bs, items[..out.failedAt]).batches == out.batches
      && !InStock(out.batches, items[out.failedAt])
    decreases |items|
  {
    var out := ProcessItems(bs, items);
    if InStock(bs, items[0]) {
      var next := Decrement(bs, items[0]);
      RejectedKeepsEarlierDecrements(next, items[1..]);
      assert items[..out.failedAt][1..] == items[1..][..out.failedAt - 1];
    } else {
      assert items[..0] == [];
    }
  }

  /** The stock check refuses a line iff its batch is missing or holds less
      than the line asks for. */
  lemma InStockMeans(bs: seq<BatchRow>, item: SaleItem)
    ensures InStock(bs, item) <==>
      exists k :: 0 <= k < |bs| && bs[k].id == item.batchId && bs[k].quantity >= item.quantity
        && forall i :: 0 <= i < k ==> bs[i].id != item.batchId
  {
    var r := IndexOf(bs, BatchIdOf, item.batchId);
    if InStock(bs, item) {
      assert bs[r.value].id == item.batchId;
    }
  }

  /** Every decremented batch ends with a non-negative quantity, so a table
      without negative stock keeps none. */
  lemma {:induction false} ProcessKeepsNonNegative(bs: seq<BatchRow>, items: seq<SaleItem>)
    requires NonNegativeStock(bs)
    ensures NonNegativeStock(ProcessItems(bs, items).batches)
    decreases |items|
  {
    if |items| > 0 && InStock(bs, items[0]) {
      DecrementAt(bs, items[0], IndexOf(bs, BatchIdOf, items[0].batchId).value);
      ProcessKeepsNonNegative(Decrement(bs, items[0]), items[1..]);
    }
  }

  /** The loop rewrites quantities only: every row keeps its position, id,
      medicine and all other columns. */
  lemma {:induction false} ProcessChangesOnlyQuantities(bs: seq<BatchRow>, items: seq<SaleItem>)
    ensures var after := ProcessItems(bs, items).batches;
      && |after| == |bs|
      && forall i :: 0 <= i < |bs| ==> after[i] == bs[i].(quantity := after[i].quantity)
    decreases |items|
  {
    if |items| > 0 && InStock(bs, items[0]) {
      DecrementAt(bs, items[0], IndexOf(bs, BatchIdOf, items[0].batchId).value);
      ProcessChangesOnlyQuantities(Decrement(bs, items[0]), items[1..]);
    }
  }

  /** The loop keeps the batch table keyed. */
  lemma ProcessKeepsKeyed(bs: seq<BatchRow>, items: seq<SaleItem>, next: nat)
    requires Keyed(bs, BatchIdOf, next)
    ensures Keyed(ProcessItems(bs, items).batches, BatchIdOf, next)
  {
    var after := ProcessItems(bs, items).batches;
    ProcessChangesOnlyQuantities(bs, items);
    assert forall i :: 0 <= i < |bs| ==> after[i].id == bs[i].id;
  }

  function ItemQuantity(item: SaleItem): int { item.quantity }

  /** An accepted sale takes exactly the quantities it lists out of stock. */
  lemma {:induction false} AcceptedConservesStock(bs: seq<BatchRow>, items: seq<SaleItem>)
    requires ProcessItems(bs, items).Accepted?
    ensures Sum(ProcessItems(bs, items).batches, Quantity) == Sum(bs, Quantity) - Sum(items, ItemQuantity)
    decreases |items|
  {
    if |items| > 0 {
      var k := IndexOf(bs, BatchIdOf, items[0].batchId).value;
      DecrementAt(bs, items[0], k);
      SumReplace(bs, k, bs[k].(quantity := bs[k].quantity - items[0].quantity), Quantity);
      AcceptedConservesStock(Decrement(bs, items[0]), items[1..]);
    }
  }

  /** `createSale` never touches `totalQuantity`, so selling a non-zero
      quantity of a medicine whose cache was right leaves it wrong. */
  lemma SaleBreaksCache(ms: seq<MedicineRow>, bs: seq<BatchRow>, item: SaleItem, j: nat)
    requires CacheConsistent(ms, bs) && InStock(bs, item) && item.quantity != 0
    requires j < |ms| && ms[j].id == bs[IndexOf(bs, BatchIdOf, item.batchId).value].medicineId
    ensures ProcessItems(bs, [item]).Accepted?
    ensures !CacheConsistent(ms, ProcessItems(bs, [item]).batches)
  {
    var k := IndexOf(bs, BatchIdOf, item.batchId).value;
    assert [item][1..] == [];
    StockReplace(bs, k, bs[k].(quantity := bs[k].quantity - item.quantity), ms[j].id);
  }

  /** A batch listed twice is checked the second time against what the first
      line left: two lines of 3 on a batch of 5 are refused at the second. */
  lemma RepeatedBatchSeesDecrement(b: BatchRow, line: SaleItem)
    requires b.quantity == 5 && line.batchId == b.id && line.quantity == 3
    ensures ProcessItems([b], [line, line]) == Rejected([b.(quantity := 2)], 1)
  {
    assert [line, line][1..] == [line];
    assert InStock([b], line);
    assert Decrement([b], line) == [b.(quantity := 2)];
    assert !InStock([b.(quantity := 2)], line);
  }

  /** `PUT /api/sales/:id`. */
  method UpdateSale(db: Database, id: nat, patch: SalePatch) returns (status: HttpStatus, updated: Option<SaleRow>)
    requires db.Valid()
    modifies db
    ensures db.Valid()
    ensures var k := IndexOf(old(db.sales), SaleIdOf, id);
      && (k.None? ==> status == NotFound && updated == None && db.sales == old(db.sales))
      && (k.Some? ==> status == Ok && updated == Some(PatchSale(old(db.sales)[k.value], patch))
                      && db.sales == old(db.sales)[k.value := updated.value])
    ensures db.medicines == old(db.medicines) && db.batches == old(db.batches) && db.orders == old(db.orders)
    ensures db.nextMedicineId == old(db.nextMedicineId) && db.nextBatchId == old(db.nextBatchId)
    ensures db.nextSaleId == old(db.nextSaleId) && db.nextOrderId == old(db.nextOrderId)
  {
    var k := IndexOf(db.sales, SaleIdOf, id);
    if k.None? {
      return NotFound, None;
    }
    var s := PatchSale(db.sales[k.value], patch);
    KeyedUpdate(db.sales, SaleIdOf, db.nextSaleId, k.value, s);
    db.sales := db.sales[k.value := s];
    status, updated := Ok, Some(s);
  }

  /** `DELETE /api/sales/:id`. */
  method DeleteSale(db: Database, id: nat) returns (status: HttpStatus)
    requires db.Valid()
    modifies db
    ensures db.Valid()
    ensures var k := IndexOf(old(db.sales), SaleIdOf, id);
      && (k.None? ==> status == NotFound && db.sales == old(db.sales))
      && (k.Some? ==> status == Ok && db.sales == old(db.sales)[..k.value] + old(db.sales)[k.value + 1..])
    ensures db.medicines == old(db.medicines) && db.batches == old(db.batches) && db.orders == old(db.orders)
    ensures db.nextMedicineId == old(db.nextMedicineId) && db.nextBatchId == old(db.nextBatchId)
    ensures db.nextSaleId == old(db.nextSaleId) && db.nextOrderId == old(db.nextOrderId)
  {
    var k := IndexOf(db.sales, SaleIdOf, id);
    if k.None? {
      return NotFound;
    }
    KeyedRemove(db.sales, SaleIdOf, db.nextSaleId, k.value);
    RemoveUniqueRow(db.sales, SaleIdOf, k.value);
    db.sales := RemoveId(db.sales, SaleIdOf, id);
    status := Ok;
  }
}
