/** `backend/src/controllers/order.controller.fixed.ts`: creating, editing
    and deleting supplier orders. */
module OrderController {
  import opened Common
  import opened Records
  import opened Store
  import opened Text

  /** The body of `POST /api/orders`. `orderNumber`, `date`, `status` and
      `total` are whatever the client sent; the server replaces all four. */
  datatype OrderInput = OrderInput(
    orderNumber: string,
    supplierId: nat,
    supplierName: string,
    date: string,
    expectedDelivery: string,
    status: string,
    items: seq<OrderItem>,
    total: int)

  /** The body of `PUT /api/orders/:id`: the fields it carries. */
  datatype OrderPatch = OrderPatch(
    orderNumber: Option<string>,
    supplierId: Option<nat>,
    supplierName: Option<string>,
    date: Option<string>,
    expectedDelivery: Option<string>,
    status: Option<string>,
    items: Option<seq<OrderItem>>,
    total: Option<int>)

  /** The loop of `createOrder` that adds up `quantity * unitPrice`. */
  method OrderTotal(items: seq<OrderItem>) returns (total: int)
    ensures total == Sum(items, OrderLineAmount)
  {
    total := 0;
    for i := 0 to |items|
      invariant total == Sum(items[..i], OrderLineAmount)
    {
      SumConcat(items[..i], [items[i]], OrderLineAmount);
      assert items[..i + 1] == items[..i] + [items[i]];
      total := total + items[i].quantity * items[i].unitPrice;
    }
    assert items[..|items|] == items;
  }

  /** `orderRepo.create({...orderData, orderNumber, supplierName, date,
      status: 'pending', items, total})` saved under id `id`. `today` is
      `new Date().toISOString().split('T')[0]` and `nowMs` is `Date.now()`. */
  function NewOrder(id: nat, body: OrderInput, today: string, nowMs: nat, total: int): OrderRow
  {
    OrderRow(id, "CMD" + NatToString(nowMs), body.supplierId, body.supplierName, today,
             body.expectedDelivery, "pending", body.items, total)
  }

  /** `Object.assign(order, req.body)`. */
  function PatchOrder(o: OrderRow, p: OrderPatch): OrderRow
  {
    OrderRow(o.id, Assign(o.orderNumber, p.orderNumber), Assign(o.supplierId, p.supplierId),
             Assign(o.supplierName, p.supplierName), Assign(o.date, p.date),
             Assign(o.expectedDelivery, p.expectedDelivery), Assign(o.status, p.status),
             Assign(o.items, p.items), Assign(o.total, p.total))
  }

  /** `POST /api/orders`. */
  method CreateOrder(db: Database, body: OrderInput, today: string, nowMs: nat)
    returns (status: HttpStatus, order: OrderRow)
    requires db.Valid()
    modifies db
    ensures db.Valid()
    ensures status == Created
    ensures order == NewOrder(old(db.nextOrderId), body, today, nowMs, Sum(body.items, OrderLineAmount))
    ensures db.orders == old(db.orders) + [order] && db.nextOrderId == old(db.nextOrderId) + 1
    ensures db.medicines == old(db.medicines) && db.batches == old(db.batches) && db.sales == old(db.sales)
    ensures db.nextMedicineId == old(db.nextMedicineId) && db.nextBatchId == old(db.nextBatchId)
    ensures db.nextSaleId == old(db.nextSaleId)
  {
    var total := OrderTotal(body.items);
    var id := db.nextOrderId;
    order := NewOrder(id, body, today, nowMs, total);
    KeyedAppend(db.orders, OrderIdOf, id, order);
    db.orders := db.orders + [order];
    db.nextOrderId := id + 1;
    status := Created;
  }

  /** A created order is pending and priced from its lines, whatever status
      and total the client sent, and its number is `CMD` followed by the
      creation time, which can be read back from it. */
  lemma NewOrderShape(id: nat, body: OrderInput, today: string, nowMs: nat)
    ensures var o := NewOrder(id, body, today, nowMs, Sum(body.items, OrderLineAmount));
      && o.status == "pending"
      && o.total == Sum(body.items, OrderLineAmount)
      && StartsWith(o.orderNumber, "CMD")
      && ParseNat(o.orderNumber[3..]) == nowMs
  {
    var o := NewOrder(id, body, today, nowMs, Sum(body.items, OrderLineAmount));
    assert o.orderNumber[3..] == NatToString(nowMs);
    NatToStringRoundTrip(nowMs);
  }

  /** Orders created at different times get different numbers. */
  lemma OrderNumbersDiffer(a: OrderRow, b: OrderRow, ia: nat, ib: nat, ba: OrderInput, bb: OrderInput,
                           ta: string, tb: string, ma: nat, mb: nat)
    requires a == NewOrder(ia, ba, ta, ma, a.total) && b == NewOrder(ib, bb, tb, mb, b.total)
    requires ma != mb
    ensures a.orderNumber != b.orderNumber
  {
    if a.orderNumber == b.orderNumber {
      assert a.orderNumber[3..] == NatToString(ma);
      assert b.orderNumber[3..] == NatToString(mb);
      NatToStringInjective(ma, mb);
    }
  }

  /** `PUT /api/orders/:id`: any status the body carries is stored as it is. */
  method UpdateOrder(db: Database, id: nat, patch: OrderPatch) returns (status: HttpStatus, updated: Option<OrderRow>)
    requires db.Valid()
    modifies db
    ensures db.Valid()
    ensures var k := IndexOf(old(db.orders), OrderIdOf, id);
      && (k.None? ==> status == NotFound && updated == None && db.orders == old(db.orders))
      && (k.Some? ==> status == Ok && updated == Some(PatchOrder(old(db.orders)[k.value], patch))
                      && db.orders == old(db.orders)[k.value := updated.value])
    ensures updated.Some? && patch.status.Some? ==> updated.value.status == patch.status.value
    ensures db.medicines == old(db.medicines) && db.batches == old(db.batches) && db.sales == old(db.sales)
    ensures db.nextMedicineId == old(db.nextMedicineId) && db.nextBatchId == old(db.nextBatchId)
    ensures db.nextSaleId == old(db.nextSaleId) && db.nextOrderId == old(db.nextOrderId)
  {
    var k := IndexOf(db.orders, OrderIdOf, id);
    if k.None? {
      return NotFound, None;
    }
    var o := PatchOrder(db.orders[k.value], patch);
    KeyedUpdate(db.orders, OrderIdOf, db.nextOrderId, k.value, o);
    db.orders := db.orders[k.value := o];
    status, updated := Ok, Some(o);
  }

  /** `DELETE /api/orders/:id`. */
  method DeleteOrder(db: Database, id: nat) returns (status: HttpStatus)
    requires db.Valid()
    modifies db
    ensures db.Valid()
    ensures var k := IndexOf(old(db.orders), OrderIdOf, id);
      && (k.None? ==> status == NotFound && db.orders == old(db.orders))
      && (k.Some? ==> status == Ok && db.orders == old(db.orders)[..k.value] + old(db.orders)[k.value + 1..])
    ensures db.medicines == old(db.medicines) && db.batches == old(db.batches) && db.sales == old(db.sales)
    ensures db.nextMedicineId == old(db.nextMedicineId) && db.nextBatchId == old(db.nextBatchId)
    ensures db.nextSaleId == old(db.nextSaleId) && db.nextOrderId == old(db.nextOrderId)
  {
    var k := IndexOf(db.orders, OrderIdOf, id);
    if k.None? {
      return NotFound;
    }
    KeyedRemove(db.orders, OrderIdOf, db.nextOrderId, k.value);
    RemoveUniqueRow(db.orders, OrderIdOf, k.value);
    db.orders := RemoveId(db.orders, OrderIdOf, id);
    status := Ok;
  }
}
