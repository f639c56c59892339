/** `backend/src/controllers/medicine.controller.ts`: creating a medicine
    with its defaults, editing it, and deleting it together with its batches.

    The database's own failures (a unique-key violation, a rejected query, a
    foreign-key violation) cannot be seen from the controller's code; each
    method takes the failure the database reports, if any, as a parameter. */
module MedicineController {
  import opened Common
  import opened Records
  import opened Store

  datatype DbError = DupEntry | QueryFailed | RowReferenced | OtherError

  /** The body of `POST /api/medicines`. A missing text field is the empty
      string and a missing `minStock` is 0: both are falsy for `!name`,
      `x || null` and `minStock ? … : 10`. */
  datatype MedicineInput = MedicineInput(
    name: string,
    genericName: string,
    category: string,
    dosage: string,
    form: string,
    minStock: int)

  /** The body of `PUT /api/medicines/:id`: the fields it carries. */
  datatype MedicinePatch = MedicinePatch(
    name: Option<string>,
    genericName: Option<Option<string>>,
    dosage: Option<Option<string>>,
    form: Option<Option<string>>,
    category: Option<Option<string>>,
    purchasePrice: Option<int>,
    salePrice: Option<int>,
    totalQuantity: Option<int>,
    minStock: Option<int>)

  /** `repo.create({...})` saved under auto-increment id `id`: no stock, no
      prices, and a minimum stock of 10 unless a non-zero one was given. */
  function NewMedicine(id: nat, body: MedicineInput): (r: MedicineRow)
    ensures r.id == id && r.name == body.name
    ensures r.totalQuantity == 0 && r.purchasePrice == 0 && r.salePrice == 0
    ensures body.minStock != 0 ==> r.minStock == body.minStock
    ensures body.minStock == 0 ==> r.minStock == 10
    ensures r.genericName.None? <==> body.genericName == []
    ensures r.dosage.None? <==> body.dosage == []
    ensures r.form.None? <==> body.form == []
    ensures r.category.None? <==> body.category == []
    ensures r.genericName.Some? ==> r.genericName.value == body.genericName
    ensures r.dosage.Some? ==> r.dosage.value == body.dosage
    ensures r.form.Some? ==> r.form.value == body.form
    ensures r.category.Some? ==> r.category.value == body.category
  {
    MedicineRow(id, body.name, TextOrNone(body.genericName), TextOrNone(body.dosage),
                TextOrNone(body.form), TextOrNone(body.category),
                0, 0, 0, IntOr(body.minStock, 10))
  }

  /** `Object.assign(medicine, req.body)`. */
  function PatchMedicine(m: MedicineRow, p: MedicinePatch): MedicineRow
  {
    MedicineRow(m.id, Assign(m.name, p.name), Assign(m.genericName, p.genericName),
                Assign(m.dosage, p.dosage), Assign(m.form, p.form), Assign(m.category, p.category),
                Assign(m.purchasePrice, p.purchasePrice), Assign(m.salePrice, p.salePrice),
                Assign(m.totalQuantity, p.totalQuantity), Assign(m.minStock, p.minStock))
  }

  /** The status `createMedicine`'s handler sends for a failed save. */
  function CreateFailure(e: DbError): (s: HttpStatus)
    ensures s == Conflict <==> e == DupEntry
    ensures s == BadRequest <==> e == QueryFailed
    ensures e != DupEntry && e != QueryFailed ==> s == ServerError
  {
    match e
    case DupEntry => Conflict
    case QueryFailed => BadRequest
    case _ => ServerError
  }

  /** The status `updateMedicine`'s handler sends for a failed save. */
  function UpdateFailure(e: DbError): (s: HttpStatus)
    ensures s == Conflict <==> e == DupEntry
    ensures s != Conflict ==> s == ServerError
  {
    if e == DupEntry then Conflict else ServerError
  }

  /** The status `deleteMedicine`'s handler sends for a failed removal. */
  function DeleteFailure(e: DbError): (s: HttpStatus)
    ensures s == Conflict <==> e == RowReferenced
    ensures s != Conflict ==> s == ServerError
  {
    if e == RowReferenced then Conflict else ServerError
  }

  /** The batches that survive the removal of medicine `mid`. */
  function OtherBatches(bs: seq<BatchRow>, mid: nat): (r: seq<BatchRow>)
    ensures forall b :: b in r <==> b in bs && b.medicineId != mid
  {
    Filter(bs, (b: BatchRow) => b.medicineId != mid)
  }

  /** `POST /api/medicines`; `failure` is the error `repo.save` raises, if any. */
  method CreateMedicine(db: Database, body: MedicineInput, failure: Option<DbError>)
    returns (status: HttpStatus, created: Option<MedicineRow>)
    requires db.Valid()
    modifies db
    ensures db.Valid()
    ensures body.name == [] ==> status == BadRequest && created == None && db.medicines == old(db.medicines)
    ensures body.name != [] && failure.Some? ==>
      status == CreateFailure(failure.value) && created == None && db.medicines == old(db.medicines)
    ensures body.name != [] && failure.None? ==>
      && status == Created
      && created == Some(NewMedicine(old(db.nextMedicineId), body))
      && db.medicines == old(db.medicines) + [created.value]
    ensures db.nextMedicineId == old(db.nextMedicineId) + (if created.Some? then 1 else 0)
    ensures db.batches == old(db.batches) && db.sales == old(db.sales) && db.orders == old(db.orders)
    ensures db.nextBatchId == old(db.nextBatchId)
    ensures db.nextSaleId == old(db.nextSaleId) && db.nextOrderId == old(db.nextOrderId)
  {
    if body.name == [] {
      return BadRequest, None;
    }
    var medicine := NewMedicine(db.nextMedicineId, body);
    if failure.Some? {
      return CreateFailure(failure.value), None;
    }
    KeyedAppend(db.medicines, MedicineIdOf, db.nextMedicineId, medicine);
    db.medicines := db.medicines + [medicine];
    db.nextMedicineId := db.nextMedicineId + 1;
    status, created := Created, Some(medicine);
  }

  /** `PUT /api/medicines/:id`; `failure` is the error `repo.save` raises, if any. */
  method UpdateMedicine(db: Database, id: nat, patch: MedicinePatch, failure: Option<DbError>)
    returns (status: HttpStatus, updated: Option<MedicineRow>)
    requires db.Valid()
    modifies db
    ensures db.Valid()
    ensures var k := IndexOf(old(db.medicines), MedicineIdOf, id);
      && (k.None? ==> status == NotFound && updated == None && db.medicines == old(db.medicines))
      && (k.Some? && failure.Some? ==>
            status == UpdateFailure(failure.value) && updated == None && db.medicines == old(db.medicines))
      && (k.Some? && failure.None? ==>
            && status == Ok
            && updated == Some(PatchMedicine(old(db.medicines)[k.value], patch))
            && db.medicines == old(db.medicines)[k.value := updated.value])
    ensures db.batches == old(db.batches) && db.sales == old(db.sales) && db.orders == old(db.orders)
    ensures db.nextMedicineId == old(db.nextMedicineId) && db.nextBatchId == old(db.nextBatchId)
    ensures db.nextSaleId == old(db.nextSaleId) && db.nextOrderId == old(db.nextOrderId)
  {
    var k := IndexOf(db.medicines, MedicineIdOf, id);
    if k.None? {
      return NotFound, None;
    }
    var m := PatchMedicine(db.medicines[k.value], patch);
    if failure.Some? {
      return UpdateFailure(failure.value), None;
    }
    KeyedUpdate(db.medicines, MedicineIdOf, db.nextMedicineId, k.value, m);
    db.medicines := db.medicines[k.value := m];
    status, updated := Ok, Some(m);
  }

  /** The cascade of `deleteMedicine`: `batchRepo.findBy({ medicineId })`,
      then `batchRepo.remove` of what it found, when it found anything. */
  method RemoveBatchesOf(db: Database, id: nat) returns (count: nat)
    requires db.Valid()
    modifies db
    ensures db.Valid()
    ensures db.batches == OtherBatches(old(db.batches), id) && count == |BatchesOf(old(db.batches), id)|
    ensures db.medicines == old(db.medicines) && db.sales == old(db.sales) && db.orders == old(db.orders)
    ensures db.nextMedicineId == old(db.nextMedicineId) && db.nextBatchId == old(db.nextBatchId)
    ensures db.nextSaleId == old(db.nextSaleId) && db.nextOrderId == old(db.nextOrderId)
  {
    var batches := BatchesOf(db.batches, id);
    if |batches| > 0 {
      OtherBatchesKeyed(db.batches, id, db.nextBatchId);
      db.batches := OtherBatches(db.batches, id);
    } else {
      NoBatchesKeepsAll(db.batches, id);
    }
    count := |batches|;
  }

  /** `DELETE /api/medicines/:id`: the medicine's batches are removed first,
      then the medicine. `cascadeFailure` is the error `batchRepo.remove`
      raises, if any: it is only called when there are batches, and TypeORM
      removes an array in one transaction, so a failed cascade removes no
      batch and leaves the medicine. `failure` is the error removing the
      medicine raises, if any, which leaves the batches already removed.
      `deletedBatches` is the count the success response reports. */
  method DeleteMedicine(db: Database, id: nat, cascadeFailure: Option<DbError>, failure: Option<DbError>)
    returns (status: HttpStatus, deletedBatches: nat)
    requires db.Valid()
    modifies db
    ensures db.Valid()
    ensures var k := IndexOf(old(db.medicines), MedicineIdOf, id);
      && (k.None? ==> status == NotFound && deletedBatches == 0
                      && db.medicines == old(db.medicines) && db.batches == old(db.batches))
      && (k.Some? && |BatchesOf(old(db.batches), id)| > 0 && cascadeFailure.Some? ==>
            && status == DeleteFailure(cascadeFailure.value) && deletedBatches == 0
            && db.medicines == old(db.medicines) && db.batches == old(db.batches))
      && (k.Some? && (|BatchesOf(old(db.batches), id)| == 0 || cascadeFailure.None?) ==>
            && db.batches == OtherBatches(old(db.batches), id)
            && deletedBatches == |BatchesOf(old(db.batches), id)|
            && (failure.Some? ==> status == DeleteFailure(failure.value) && db.medicines == old(db.medicines))
            && (failure.None? ==> status == Ok
                                  && db.medicines == old(db.medicines)[..k.value] + old(db.medicines)[k.value + 1..]))
    ensures db.sales == old(db.sales) && db.orders == old(db.orders)
    ensures db.nextMedicineId == old(db.nextMedicineId) && db.nextBatchId == old(db.nextBatchId)
    ensures db.nextSaleId == old(db.nextSaleId) && db.nextOrderId == old(db.nextOrderId)
  {
    var k := IndexOf(db.medicines, MedicineIdOf, id);
    if k.None? {
      return NotFound, 0;
    }
    if |BatchesOf(db.batches, id)| > 0 && cascadeFailure.Some? {
      return DeleteFailure(cascadeFailure.value), 0;
    }
    deletedBatches := RemoveBatchesOf(db, id);
    if failure.Some? {
      return DeleteFailure(failure.value), deletedBatches;
    }
    KeyedRemove(db.medicines, MedicineIdOf, db.nextMedicineId, k.value);
    RemoveUniqueRow(db.medicines, MedicineIdOf, k.value);
    db.medicines := RemoveId(db.medicines, MedicineIdOf, id);
    status := Ok;
  }

  /** When a medicine has no batches, the cascade removes nothing. */
  lemma {:induction false} NoBatchesKeepsAll(bs: seq<BatchRow>, mid: nat)
    requires |BatchesOf(bs, mid)| == 0
    ensures OtherBatches(bs, mid) == bs
  {
    forall i | 0 <= i < |bs| ensures bs[i].medicineId != mid {
      assert bs[i] in bs;
    }
    FilterKeepsAll(bs, (b: BatchRow) => b.medicineId != mid);
  }

  /** The cascade keeps the batch table keyed. */
  lemma OtherBatchesKeyed(bs: seq<BatchRow>, mid: nat, next: nat)
    requires Keyed(bs, BatchIdOf, next)
    ensures Keyed(OtherBatches(bs, mid), BatchIdOf, next)
  {
    KeyedFilter(bs, BatchIdOf, next, (b: BatchRow) => b.medicineId != mid);
  }

  /** The cascade splits the batch table: every batch is either removed (and
      counted) or kept. */
  lemma {:induction false} CascadeSplitsBatches(bs: seq<BatchRow>, mid: nat)
    ensures |BatchesOf(bs, mid)| + |OtherBatches(bs, mid)| == |bs|
    decreases |bs|
  {
    if |bs| > 0 {
      CascadeSplitsBatches(bs[1..], mid);
    }
  }

  /** Removing the batches of `mid` leaves every other medicine's stock as it was. */
  lemma {:induction false} CascadeKeepsOtherStock(bs: seq<BatchRow>, mid: nat, other: nat)
    requires other != mid
    ensures StockOf(OtherBatches(bs, mid), other) == StockOf(bs, other)
    decreases |bs|
  {
    if |bs| > 0 {
      CascadeKeepsOtherStock(bs[1..], mid, other);
    }
  }

  /** A successful delete keeps the stock cache right for the medicines that remain. */
  lemma DeleteMedicineKeepsCache(ms: seq<MedicineRow>, bs: seq<BatchRow>, k: nat)
    requires UniqueIds(ms, MedicineIdOf) && CacheConsistent(ms, bs) && k < |ms|
    ensures CacheConsistent(ms[..k] + ms[k + 1..], OtherBatches(bs, ms[k].id))
  {
    var r := ms[..k] + ms[k + 1..];
    forall i | 0 <= i < |r| ensures r[i].totalQuantity == StockOf(OtherBatches(bs, ms[k].id), r[i].id) {
      var j := if i < k then i else i + 1;
      assert r[i] == ms[j];
      CascadeKeepsOtherStock(bs, ms[k].id, ms[j].id);
    }
  }

  /** A new medicine's cache is right iff no batch already names its id:
      `createBatch` accepts a `medicineId` no medicine has yet. */
  lemma CreateMedicineCache(ms: seq<MedicineRow>, bs: seq<BatchRow>, id: nat, body: MedicineInput)
    requires CacheConsistent(ms, bs)
    ensures CacheConsistent(ms + [NewMedicine(id, body)], bs) <==> StockOf(bs, id) == 0
  {
    var r := ms + [NewMedicine(id, body)];
    assert r[|ms|] == NewMedicine(id, body);
    if StockOf(bs, id) == 0 {
      forall i | 0 <= i < |r| ensures r[i].totalQuantity == StockOf(bs, r[i].id) {
        if i < |ms| {
          assert r[i] == ms[i];
        }
      }
    }
  }
}
