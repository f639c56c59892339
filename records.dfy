/** The persisted records of the backend (its TypeORM entities) and the
    HTTP outcomes of the controllers. The frontend receives the same records
    as JSON, so the components' inputs are these types too.

    Dates are the text the database returns (`datetime` / `date` columns);
    money is an integer amount; nullable columns are `Option`s. */
module Records {
  import opened Common

  datatype MedicineRow = MedicineRow(
    id: nat,
    name: string,
    genericName: Option<string>,
    dosage: Option<string>,
    form: Option<string>,
    category: Option<string>,
    purchasePrice: int,
    salePrice: int,
    totalQuantity: int,
    minStock: int)

  datatype BatchRow = BatchRow(
    id: nat,
    medicineId: nat,
    batchNumber: string,
    manufacturingDate: string,
    expiryDate: string,
    purchasePrice: int,
    sellPrice: int,
    quantity: int,
    supplierId: nat,
    receivedDate: string)

  /** One line of a sale, stored inside the sale as JSON. */
  datatype SaleItem = SaleItem(
    medicineId: nat,
    medicineName: string,
    batchId: nat,
    batchNumber: string,
    quantity: int,
    unitPrice: int,
    total: int)

  datatype SaleRow = SaleRow(
    id: nat,
    saleNumber: string,
    date: string,
    customerName: Option<string>,
    prescriptionId: Option<string>,
    items: seq<SaleItem>,
    total: int,
    paymentMethod: string,
    status: string)

  /** One line of a supplier order, stored inside the order as JSON. */
  datatype OrderItem = OrderItem(
    medicineId: string,
    medicineName: string,
    quantity: int,
    unitPrice: int,
    total: int)

  datatype OrderRow = OrderRow(
    id: nat,
    orderNumber: string,
    supplierId: nat,
    supplierName: string,
    date: string,
    expectedDelivery: string,
    status: string,
    items: seq<OrderItem>,
    total: int)

  datatype SupplierRow = SupplierRow(id: nat, name: string)

  /** A medicine as `GET /api/medicines` returns it: the row with its batches. */
  datatype MedicineJson = MedicineJson(row: MedicineRow, batches: seq<BatchRow>)

  datatype HttpStatus = Ok | Created | BadRequest | NotFound | Conflict | ServerError

  function Code(s: HttpStatus): (c: int)
    ensures 200 <= c < 600
    ensures s.Ok? || s.Created? <==> c < 300
  {
    match s
    case Ok => 200
    case Created => 201
    case BadRequest => 400
    case NotFound => 404
    case Conflict => 409
    case ServerError => 500
  }

  /** `quantity * unitPrice`, the amount of one sale or order line. */
  function SaleLineAmount(item: SaleItem): int
  {
    item.quantity * item.unitPrice
  }

  function OrderLineAmount(item: OrderItem): int
  {
    item.quantity * item.unitPrice
  }

  /** A field of a request body: present with a value, or absent. */
  function Assign<T>(current: T, field: Option<T>): (r: T)
    ensures field.Some? ==> r == field.value
    ensures field.None? ==> r == current
  {
    match field
    case None => current
    case Some(v) => v
  }
}
