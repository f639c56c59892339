/** `backend/src/controllers/batch.controller.ts`: creating, editing and
    deleting stock batches, and the bookkeeping each does on the cached
    `totalQuantity` and prices of the batch's medicine. */
module BatchController {
  import opened Common
  import opened Records
  import opened Store

  /** The body of `POST /api/batches`. */
  datatype BatchInput = BatchInput(
    medicineId: nat,
    batchNumber: string,
    manufacturingDate: string,
    expiryDate: string,
    purchasePrice: int,
    sellPrice: int,
    quantity: int,
    supplierId: nat,
    receivedDate: string)

  /** The body of `PUT /api/batches/:id`: the fields it carries. */
  datatype BatchPatch = BatchPatch(
    medicineId: Option<nat>,
    batchNumber: Option<string>,
    manufacturingDate: Option<string>,
    expiryDate: Option<string>,
    purchasePrice: Option<int>,
    sellPrice: Option<int>,
    quantity: Option<int>,
    supplierId: Option<nat>,
    receivedDate: Option<string>)

  /** `batchRepo.create(req.body)` saved under auto-increment id `id`. */
  function NewBatch(id: nat, body: BatchInput): BatchRow
  {
    BatchRow(id, body.medicineId, body.batchNumber, body.manufacturingDate, body.expiryDate,
             body.purchasePrice, body.sellPrice, body.quantity, body.supplierId, body.receivedDate)
  }

  /** `Object.assign(batch, req.body)`. */
  function PatchBatch(b: BatchRow, p: BatchPatch): BatchRow
  {
    BatchRow(b.id, Assign(b.medicineId, p.medicineId), Assign(b.batchNumber, p.batchNumber),
             Assign(b.manufacturingDate, p.manufacturingDate), Assign(b.expiryDate, p.expiryDate),
             Assign(b.purchasePrice, p.purchasePrice), Assign(b.sellPrice, p.sellPrice),
             Assign(b.quantity, p.quantity), Assign(b.supplierId, p.supplierId),
             Assign(b.receivedDate, p.receivedDate))
  }

  /** `Math.max(0, x)`. */
  function Max0(x: int): (r: int)
    ensures r >= 0 && r >= x
    ensures r == x || r == 0
  {
    if x > 0 then x else 0
  }

  /** The medicines after `createBatch` credited batch `b`: the medicine it
      names, when there is one, takes the batch's prices and its quantity. */
  function AfterCreate(ms: seq<MedicineRow>, b: BatchRow): seq<MedicineRow>
  {
    match IndexOf(ms, MedicineIdOf, b.medicineId)
    case None => ms
    case Some(k) =>
      ms[k := ms[k].(purchasePrice := b.purchasePrice, salePrice := b.sellPrice,
                     totalQuantity := ms[k].totalQuantity + b.quantity)]
  }

  /** The medicines after `updateBatch` rewrote a batch holding `oldQuantity`
      into `b`: the medicine `b` now names takes its prices and the quantity
      difference, floored at zero. */
  function AfterUpdate(ms: seq<MedicineRow>, b: BatchRow, oldQuantity: int): seq<MedicineRow>
  {
    match IndexOf(ms, MedicineIdOf, b.medicineId)
    case None => ms
    case Some(k) =>
      ms[k := ms[k].(purchasePrice := b.purchasePrice, salePrice := b.sellPrice,
                     totalQuantity := Max0(ms[k].totalQuantity + (b.quantity - oldQuantity)))]
  }

  /** The medicines after `deleteBatch` removed a batch of medicine `mid`
      holding `quantity`. */
  function AfterDelete(ms: seq<MedicineRow>, mid: nat, quantity: int): seq<MedicineRow>
  {
    match IndexOf(ms, MedicineIdOf, mid)
    case None => ms
    case Some(k) => ms[k := ms[k].(totalQuantity := Max0(ms[k].totalQuantity - quantity))]
  }

  /** Row `i` after `AfterCreate`: only the medicine the batch names changes. */
  lemma AfterCreateAt(ms: seq<MedicineRow>, b: BatchRow, i: nat)
    requires UniqueIds(ms, MedicineIdOf) && i < |ms|
    ensures |AfterCreate(ms, b)| == |ms|
    ensures AfterCreate(ms, b)[i] ==
      if ms[i].id == b.medicineId
      then ms[i].(purchasePrice := b.purchasePrice, salePrice := b.sellPrice,
                  totalQuantity := ms[i].totalQuantity + b.quantity)
      else ms[i]
  {
  }

  /** Row `i` after `AfterUpdate`: only the medicine the batch now names changes. */
  lemma AfterUpdateAt(ms: seq<MedicineRow>, b: BatchRow, oldQuantity: int, i: nat)
    requires UniqueIds(ms, MedicineIdOf) && i < |ms|
    ensures |AfterUpdate(ms, b, oldQuantity)| == |ms|
    ensures AfterUpdate(ms, b, oldQuantity)[i] ==
      if ms[i].id == b.medicineId
      then ms[i].(purchasePrice := b.purchasePrice, salePrice := b.sellPrice,
                  totalQuantity := Max0(ms[i].totalQuantity + (b.quantity - oldQuantity)))
      else ms[i]
  {
  }

  /** Row `i` after `AfterDelete`: only medicine `mid` changes. */
  lemma AfterDeleteAt(ms: seq<MedicineRow>, mid: nat, quantity: int, i: nat)
    requires UniqueIds(ms, MedicineIdOf) && i < |ms|
    ensures |AfterDelete(ms, mid, quantity)| == |ms|
    ensures AfterDelete(ms, mid, quantity)[i] ==
      if ms[i].id == mid then ms[i].(totalQuantity := Max0(ms[i].totalQuantity - quantity)) else ms[i]
  {
  }

  /** The medicine table stays keyed through `AfterUpdate` and `AfterDelete`. */
  lemma KeyedAfterUpdate(ms: seq<MedicineRow>, next: nat, b: BatchRow, oldQuantity: int)
    requires Keyed(ms, MedicineIdOf, next)
    ensures Keyed(AfterUpdate(ms, b, oldQuantity), MedicineIdOf, next)
  {
    match IndexOf(ms, MedicineIdOf, b.medicineId)
    case None =>
    case Some(k) =>
      KeyedUpdate(ms, MedicineIdOf, next, k,
                  ms[k].(purchasePrice := b.purchasePrice, salePrice := b.sellPrice,
                         totalQuantity := Max0(ms[k].totalQuantity + (b.quantity - oldQuantity))));
  }

  lemma KeyedAfterDelete(ms: seq<MedicineRow>, next: nat, mid: nat, quantity: int)
    requires Keyed(ms, MedicineIdOf, next)
    ensures Keyed(AfterDelete(ms, mid, quantity), MedicineIdOf, next)
  {
    match IndexOf(ms, MedicineIdOf, mid)
    case None =>
    case Some(k) =>
      KeyedUpdate(ms, MedicineIdOf, next, k, ms[k].(totalQuantity := Max0(ms[k].totalQuantity - quantity)));
  }

  method CreateBatch(db: Database, body: BatchInput) returns (status: HttpStatus, batch: BatchRow)
    requires db.Valid()
    modifies db
    ensures db.Valid()
    ensures status == Created
    ensures batch == NewBatch(old(db.nextBatchId), body)
    ensures db.batches == old(db.batches) + [batch]
    ensures db.medicines == AfterCreate(old(db.medicines), batch)
    ensures db.nextBatchId == old(db.nextBatchId) + 1
    ensures db.sales == old(db.sales) && db.orders == old(db.orders)
    ensures db.nextMedicineId == old(db.nextMedicineId)
    ensures db.nextSaleId == old(db.nextSaleId) && db.nextOrderId == old(db.nextOrderId)
  {
    var id := db.nextBatchId;
    batch := NewBatch(id, body);
    KeyedAppend(db.batches, BatchIdOf, id, batch);
    db.batches := db.batches + [batch];
    db.nextBatchId := id + 1;
    var k := IndexOf(db.medicines, MedicineIdOf, batch.medicineId);
    if k.Some? {
      var m := db.medicines[k.value];
      var credited := m.(purchasePrice := batch.purchasePrice, salePrice := batch.sellPrice,
                         totalQuantity := m.totalQuantity + batch.quantity);
      KeyedUpdate(db.medicines, MedicineIdOf, db.nextMedicineId, k.value, credited);
      db.medicines := db.medicines[k.value := credited];
    }
    status := Created;
  }

  method UpdateBatch(db: Database, id: nat, patch: BatchPatch) returns (status: HttpStatus, updated: Option<BatchRow>)
    requires db.Valid()
    modifies db
    ensures db.Valid()
    ensures var k := IndexOf(old(db.batches), BatchIdOf, id);
      && (k.None? ==> status == NotFound && updated == None
                      && db.batches == old(db.batches) && db.medicines == old(db.medicines))
      && (k.Some? ==>
            var b := PatchBatch(old(db.batches)[k.value], patch);
            && status == Ok && updated == Some(b)
            && db.batches == old(db.batches)[k.value := b]
            && db.medicines == AfterUpdate(old(db.medicines), b, old(db.batches)[k.value].quantity))
    ensures db.sales == old(db.sales) && db.orders == old(db.orders)
    ensures db.nextMedicineId == old(db.nextMedicineId) && db.nextBatchId == old(db.nextBatchId)
    ensures db.nextSaleId == old(db.nextSaleId) && db.nextOrderId == old(db.nextOrderId)
  {
    var k := IndexOf(db.batches, BatchIdOf, id);
    if k.None? {
      return NotFound, None;
    }
    var oldQuantity := db.batches[k.value].quantity;
    var b := PatchBatch(db.batches[k.value], patch);
    KeyedUpdate(db.batches, BatchIdOf, db.nextBatchId, k.value, b);
    KeyedAfterUpdate(db.medicines, db.nextMedicineId, b, oldQuantity);
    db.batches := db.batches[k.value := b];
    db.medicines := AfterUpdate(db.medicines, b, oldQuantity);
    status, updated := Ok, Some(b);
  }

  method DeleteBatch(db: Database, id: nat) returns (status: HttpStatus)
    requires db.Valid()
    modifies db
    ensures db.Valid()
    ensures var k := IndexOf(old(db.batches), BatchIdOf, id);
      && (k.None? ==> status == NotFound
                      && db.batches == old(db.batches) && db.medicines == old(db.medicines))
      && (k.Some? ==>
            var b := old(db.batches)[k.value];
            && status == Ok
            && db.batches == RemoveId(old(db.batches), BatchIdOf, id)
            && db.medicines == AfterDelete(old(db.medicines), b.medicineId, b.quantity))
    ensures db.sales == old(db.sales) && db.orders == old(db.orders)
    ensures db.nextMedicineId == old(db.nextMedicineId) && db.nextBatchId == old(db.nextBatchId)
    ensures db.nextSaleId == old(db.nextSaleId) && db.nextOrderId == old(db.nextOrderId)
  {
    var k := IndexOf(db.batches, BatchIdOf, id);
    if k.None? {
      return NotFound;
    }
    var b := db.batches[k.value];
    KeyedRemove(db.batches, BatchIdOf, db.nextBatchId, k.value);
    KeyedAfterDelete(db.medicines, db.nextMedicineId, b.medicineId, b.quantity);
    db.batches := RemoveId(db.batches, BatchIdOf, id);
    db.medicines := AfterDelete(db.medicines, b.medicineId, b.quantity);
    status := Ok;
  }

  /** Creating a batch keeps every cached total right, whether or not the
      medicine it names exists. */
  lemma CreateBatchKeepsCache(ms: seq<MedicineRow>, bs: seq<BatchRow>, b: BatchRow)
    requires UniqueIds(ms, MedicineIdOf) && CacheConsistent(ms, bs)
    ensures CacheConsistent(AfterCreate(ms, b), bs + [b])
  {
    var r := AfterCreate(ms, b);
    forall i | 0 <= i < |r| ensures r[i].totalQuantity == StockOf(bs + [b], r[i].id) {
      AfterCreateAt(ms, b, i);
      StockAppend(bs, b, ms[i].id);
    }
  }

  /** Editing a batch without moving it to another medicine keeps the cache
      right, provided stock is never negative (so the floor at 0 never bites). */
  lemma UpdateBatchInPlaceKeepsCache(ms: seq<MedicineRow>, bs: seq<BatchRow>, k: nat, b: BatchRow)
    requires UniqueIds(ms, MedicineIdOf) && CacheConsistent(ms, bs) && NonNegativeStock(bs)
    requires k < |bs| && b.medicineId == bs[k].medicineId && b.quantity >= 0
    ensures CacheConsistent(AfterUpdate(ms, b, bs[k].quantity), bs[k := b])
  {
    var r := AfterUpdate(ms, b, bs[k].quantity);
    var after := bs[k := b];
    assert NonNegativeStock(after);
    forall i | 0 <= i < |r| ensures r[i].totalQuantity == StockOf(after, r[i].id) {
      AfterUpdateAt(ms, b, bs[k].quantity, i);
      StockReplace(bs, k, b, ms[i].id);
      StockOfNonNegative(after, ms[i].id);
    }
  }

  /** Moving a non-empty batch to another medicine leaves the previous
      medicine's cached total unchanged although its batches shrank: the
      cache is no longer right. */
  lemma UpdateBatchMoveBreaksCache(ms: seq<MedicineRow>, bs: seq<BatchRow>, k: nat, b: BatchRow, j: nat)
    requires UniqueIds(ms, MedicineIdOf) && CacheConsistent(ms, bs)
    requires k < |bs| && b.medicineId != bs[k].medicineId && bs[k].quantity != 0
    requires j < |ms| && ms[j].id == bs[k].medicineId
    ensures AfterUpdate(ms, b, bs[k].quantity)[j] == ms[j]
    ensures !CacheConsistent(AfterUpdate(ms, b, bs[k].quantity), bs[k := b])
  {
    AfterUpdateAt(ms, b, bs[k].quantity, j);
    StockReplace(bs, k, b, ms[j].id);
  }

  /** Deleting a batch keeps the cache right when stock is never negative. */
  lemma DeleteBatchKeepsCache(ms: seq<MedicineRow>, bs: seq<BatchRow>, k: nat)
    requires UniqueIds(ms, MedicineIdOf) && UniqueIds(bs, BatchIdOf)
    requires CacheConsistent(ms, bs) && NonNegativeStock(bs)
    requires k < |bs|
    ensures CacheConsistent(AfterDelete(ms, bs[k].medicineId, bs[k].quantity),
                            RemoveId(bs, BatchIdOf, bs[k].id))
  {
    var r := AfterDelete(ms, bs[k].medicineId, bs[k].quantity);
    var after := RemoveId(bs, BatchIdOf, bs[k].id);
    RemoveUniqueRow(bs, BatchIdOf, k);
    NonNegativeDrop(bs, k);
    forall i | 0 <= i < |r| ensures r[i].totalQuantity == StockOf(after, r[i].id) {
      AfterDeleteAt(ms, bs[k].medicineId, bs[k].quantity, i);
      StockRemove(bs, k, ms[i].id);
      StockOfNonNegative(after, ms[i].id);
    }
  }
}
