/** The medicine record the stock pages of the web client hold once the
    `GET /api/medicines` JSON is loaded: both the dashboard and the stock
    page fill the same defaults, and differ only in what they do with the
    batches (`B` is the batch record each keeps). */
module ClientRecords {
  import opened Common
  import opened Records

  datatype Medicine<B> = Medicine(
    id: nat,
    name: string,
    genericName: string,
    dosage: string,
    form: string,
    category: string,
    minStock: int,
    batches: seq<B>)

  /** The load-time defaults: `name || 'Sans nom'`, nullable texts `|| ''`,
      `minStock || 10` and `batches || []` (a missing relation is `[]`). */
  function NormalizeMedicine<B>(row: MedicineRow, batches: seq<B>): (r: Medicine<B>)
    ensures r.id == row.id && r.batches == batches
    ensures r.name != []
    ensures row.name != [] ==> r.name == row.name
    ensures row.name == [] ==> r.name == "Sans nom"
    ensures r.minStock != 0
    ensures row.minStock != 0 ==> r.minStock == row.minStock
    ensures row.minStock == 0 ==> r.minStock == 10
    ensures r.genericName == OrEmpty(row.genericName) && r.category == OrEmpty(row.category)
    ensures r.dosage == OrEmpty(row.dosage) && r.form == OrEmpty(row.form)
  {
    Medicine(row.id, StrOr(row.name, "Sans nom"), OrEmpty(row.genericName), OrEmpty(row.dosage),
             OrEmpty(row.form), OrEmpty(row.category), IntOr(row.minStock, 10), batches)
  }
}
