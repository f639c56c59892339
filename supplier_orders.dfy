/** `Pharmacy_Stock_Management_App/src/components/SupplierOrders.tsx`: the
    supplier order page. It turns the lines of the order form into order
    items, posts the new order, offers the status buttons of each order,
    raises delivery alerts and filters and sorts the list. The medicines and
    suppliers are the JSON rows of the API. */
module SupplierOrders {
  import opened Common
  import opened Records
  import opened Text
  import opened Sorting
  import OrderController

  /** One line of the form: the selected medicine id (`''` when none), and
      `parseInt` / `parseFloat` of the quantity and price fields (`None` is
      `NaN`). */
  datatype FormLine = FormLine(medicineId: string, quantity: Option<int>, unitPrice: Option<int>)

  /** The fields `handleAddOrder` reads from the form. */
  datatype OrderForm = OrderForm(
    supplierId: string,
    expectedDelivery: string,
    manufacturingDate: string,
    receivedDate: string,
    lines: seq<FormLine>)

  /** `medicineId && quantity && unitPrice && !isNaN(quantity) && !isNaN(unitPrice)`:
      `0` and `NaN` are both falsy. */
  predicate LineFilled(l: FormLine)
  {
    l.medicineId != [] && l.quantity.Some? && l.quantity.value != 0 &&
    l.unitPrice.Some? && l.unitPrice.value != 0
  }

  /** `medicines.find(m => String(m.id) === String(medicineId))`. */
  function FindMedicine(ms: seq<MedicineRow>, id: string): (r: Option<MedicineRow>)
    ensures r.Some? ==> r.value in ms && NatToString(r.value.id) == id
    ensures r.None? <==> forall m :: m in ms ==> NatToString(m.id) != id
  {
    if |ms| == 0 then None
    else if NatToString(ms[0].id) == id then Some(ms[0])
    else FindMedicine(ms[1..], id)
  }

  /** `${medicine.name} ${medicine.dosage}`: a null dosage prints as `null`. */
  function MedicineLabel(m: MedicineRow): string
  {
    m.name + " " + (match m.dosage case None => "null" case Some(d) => d)
  }

  /** The item one form line contributes, if any. */
  function LineItem(l: FormLine, ms: seq<MedicineRow>): (r: Option<OrderItem>)
    ensures r.Some? <==> LineFilled(l) && exists m :: m in ms && NatToString(m.id) == l.medicineId
    ensures r.Some? ==> && r.value.medicineId == l.medicineId
                        && r.value.quantity == l.quantity.value
                        && r.value.unitPrice == l.unitPrice.value
                        && r.value.total == OrderLineAmount(r.value)
  {
    if !LineFilled(l) then None
    else match FindMedicine(ms, l.medicineId)
      case None => None
      case Some(m) =>
        Some(OrderItem(l.medicineId, MedicineLabel(m), l.quantity.value, l.unitPrice.value,
                       l.unitPrice.value * l.quantity.value))
  }

  /** The items of the first lines of the form, in form order. */
  function ValidItems(lines: seq<FormLine>, ms: seq<MedicineRow>): seq<OrderItem>
  {
    if |lines| == 0 then []
    else
      ValidItems(lines[..|lines| - 1], ms) +
      (match LineItem(lines[|lines| - 1], ms) case None => [] case Some(it) => [it])
  }

  /** An item comes from some form line, and every accepted line gives one. */
  lemma {:induction false} ValidItemsMembership(lines: seq<FormLine>, ms: seq<MedicineRow>, it: OrderItem)
    ensures it in ValidItems(lines, ms) <==> exists i :: 0 <= i < |lines| && LineItem(lines[i], ms) == Some(it)
  {
    if |lines| > 0 {
      var front := lines[..|lines| - 1];
      ValidItemsMembership(front, ms, it);
      if it in ValidItems(lines, ms) && it !in ValidItems(front, ms) {
        assert LineItem(lines[|lines| - 1], ms) == Some(it);
      }
      if exists i :: 0 <= i < |lines| && LineItem(lines[i], ms) == Some(it) {
        var i :| 0 <= i < |lines| && LineItem(lines[i], ms) == Some(it);
        if i < |lines| - 1 {
          assert front[i] == lines[i];
        }
      }
    }
  }

  /** No more items than form lines. */
  lemma {:induction false} ValidItemsLength(lines: seq<FormLine>, ms: seq<MedicineRow>)
    ensures |ValidItems(lines, ms)| <= |lines|
  {
    if |lines| > 0 {
      ValidItemsLength(lines[..|lines| - 1], ms);
    }
  }

  /** The amount the page adds up: each item's own `total`. */
  function ItemTotal(it: OrderItem): int
  {
    it.total
  }

  /** Every collected item carries `unitPrice * quantity` as its total. */
  lemma {:induction false} ValidItemsPriced(lines: seq<FormLine>, ms: seq<MedicineRow>)
    ensures forall k :: 0 <= k < |ValidItems(lines, ms)| ==>
      ItemTotal(ValidItems(lines, ms)[k]) == OrderLineAmount(ValidItems(lines, ms)[k])
  {
    if |lines| > 0 {
      ValidItemsPriced(lines[..|lines| - 1], ms);
    }
  }

  /** The total the page posts is the one the server recomputes from the
      lines (`createOrder`), so the two never disagree. */
  lemma ClientTotalIsServerTotal(lines: seq<FormLine>, ms: seq<MedicineRow>)
    ensures Sum(ValidItems(lines, ms), ItemTotal) == Sum(ValidItems(lines, ms), OrderLineAmount)
  {
    ValidItemsPriced(lines, ms);
    SumAgree(ValidItems(lines, ms), ItemTotal, OrderLineAmount);
  }

  /** The loop of `handleAddOrder` over the form lines. */
  method CollectItems(lines: seq<FormLine>, ms: seq<MedicineRow>) returns (items: seq<OrderItem>, total: int)
    ensures items == ValidItems(lines, ms)
    ensures total == Sum(items, OrderLineAmount)
  {
    items, total := [], 0;
    for i := 0 to |lines|
      invariant items == ValidItems(lines[..i], ms)
      invariant total == Sum(items, ItemTotal)
    {
      assert lines[..i + 1][..i] == lines[..i];
      var line := lines[i];
      if line.medicineId != [] && line.quantity.Some? && line.quantity.value != 0 &&
         line.unitPrice.Some? && line.unitPrice.value != 0 {
        var medicine := FindMedicine(ms, line.medicineId);
        if medicine.Some? {
          var itemTotal := line.unitPrice.value * line.quantity.value;
          var item := OrderItem(line.medicineId, MedicineLabel(medicine.value), line.quantity.value,
                                line.unitPrice.value, itemTotal);
          SumConcat(items, [item], ItemTotal);
          items := items + [item];
          total := total + itemTotal;
        }
      }
    }
    assert lines[..|lines|] == lines;
    ClientTotalIsServerTotal(lines, ms);
  }

  /** A JavaScript value as `===` sees it: a number is never strictly equal
      to a string. */
  datatype JsValue = JsNumber(num: int) | JsString(str: string)

  predicate StrictEquals(a: JsValue, b: JsValue)
  {
    a == b
  }

  /** `suppliers.find(s => s.id === supplierId)` as written: the JSON id is
      a number and the form value a string. */
  function FindSupplierAsWritten(suppliers: seq<SupplierRow>, supplierId: string): Option<SupplierRow>
  {
    if |suppliers| == 0 then None
    else if StrictEquals(JsNumber(suppliers[0].id), JsString(supplierId)) then Some(suppliers[0])
    else FindSupplierAsWritten(suppliers[1..], supplierId)
  }

  /** `supplier?.name || ''` on the lookup as written. */
  function SupplierNameAsWritten(suppliers: seq<SupplierRow>, supplierId: string): string
  {
    match FindSupplierAsWritten(suppliers, supplierId)
    case None => []
    case Some(s) => s.name
  }

  lemma {:induction false} AsWrittenFindsNothing(suppliers: seq<SupplierRow>, supplierId: string)
    ensures FindSupplierAsWritten(suppliers, supplierId) == None
  {
    if |suppliers| > 0 {
      AsWrittenFindsNothing(suppliers[1..], supplierId);
    }
  }

  /** The order is posted with an empty supplier name even for a supplier
      picked from the list, whose option value is `String(s.id)`. */
  lemma SupplierNameAsWrittenIsEmpty(suppliers: seq<SupplierRow>, s: SupplierRow)
    requires s in suppliers && s.name != []
    ensures SupplierNameAsWritten(suppliers, NatToString(s.id)) == []
    ensures SupplierNameAsWritten(suppliers, NatToString(s.id)) != s.name
  {
    AsWrittenFindsNothing(suppliers, NatToString(s.id));
  }

  /** The lookup as intended: compare the id as text, as the medicine lookup
      of the same handler does. */
  function FindSupplier(suppliers: seq<SupplierRow>, supplierId: string): (r: Option<SupplierRow>)
    ensures r.Some? ==> r.value in suppliers && NatToString(r.value.id) == supplierId
    ensures r.None? <==> forall s :: s in suppliers ==> NatToString(s.id) != supplierId
  {
    if |suppliers| == 0 then None
    else if NatToString(suppliers[0].id) == supplierId then Some(suppliers[0])
    else FindSupplier(suppliers[1..], supplierId)
  }

  function SupplierName(suppliers: seq<SupplierRow>, supplierId: string): string
  {
    match FindSupplier(suppliers, supplierId)
    case None => []
    case Some(s) => s.name
  }

  predicate UniqueSupplierIds(suppliers: seq<SupplierRow>)
  {
    forall i, j :: 0 <= i < j < |suppliers| ==> suppliers[i].id != suppliers[j].id
  }

  /** With the corrected lookup, the supplier picked in the form names the order. */
  lemma ChosenSupplierNamesOrder(suppliers: seq<SupplierRow>, s: SupplierRow)
    requires UniqueSupplierIds(suppliers) && s in suppliers
    ensures SupplierName(suppliers, NatToString(s.id)) == s.name
  {
    var f := FindSupplier(suppliers, NatToString(s.id));
    assert f.Some?;
    NatToStringInjective(f.value.id, s.id);
    var i :| 0 <= i < |suppliers| && suppliers[i] == s;
    var j :| 0 <= j < |suppliers| && suppliers[j] == f.value;
    assert i == j;
  }

  /** The `SupplierOrder` object `handleAddOrder` posts. */
  datatype OrderDraft = OrderDraft(
    id: string,
    orderNumber: string,
    supplierId: string,
    supplierName: string,
    date: string,
    manufacturingDate: Option<string>,
    receivedDate: Option<string>,
    expectedDelivery: string,
    status: string,
    items: seq<OrderItem>,
    total: int)

  /** `handleAddOrder` up to the `POST`: `None` is the "add at least one
      item" alert. `nowMs` is `Date.now()` and `today` the date part of
      `new Date().toISOString()`. */
  method HandleAddOrder(form: OrderForm, ms: seq<MedicineRow>, suppliers: seq<SupplierRow>,
                        nowMs: nat, today: string) returns (posted: Option<OrderDraft>)
    ensures posted.None? <==> ValidItems(form.lines, ms) == []
    ensures posted.Some? ==> var d := posted.value;
      && d.id == NatToString(nowMs)
      && d.items == ValidItems(form.lines, ms)
      && d.total == Sum(d.items, OrderLineAmount)
      && d.status == "pending"
      && d.orderNumber == "CMD" + NatToString(nowMs)
      && d.supplierId == form.supplierId
      && d.supplierName == SupplierName(suppliers, form.supplierId)
      && d.date == today && d.expectedDelivery == form.expectedDelivery
      && d.manufacturingDate == TextOrNone(form.manufacturingDate)
      && d.receivedDate == TextOrNone(form.receivedDate)
  {
    var items, total := CollectItems(form.lines, ms);
    if |items| == 0 {
      return None;
    }
    var stamp := NatToString(nowMs);
    posted := Some(OrderDraft(stamp, "CMD" + stamp, form.supplierId, SupplierName(suppliers, form.supplierId),
                              today, TextOrNone(form.manufacturingDate), TextOrNone(form.receivedDate),
                              form.expectedDelivery, "pending", items, total));
  }

  /** The five statuses of a supplier order. */
  datatype Status = Pending | Confirmed | Shipped | Delivered | Cancelled

  function StatusName(s: Status): string
  {
    match s
    case Pending => "pending"
    case Confirmed => "confirmed"
    case Shipped => "shipped"
    case Delivered => "delivered"
    case Cancelled => "cancelled"
  }

  function ParseStatus(t: string): (r: Option<Status>)
    ensures r.Some? ==> StatusName(r.value) == t
  {
    if t == "pending" then Some(Pending)
    else if t == "confirmed" then Some(Confirmed)
    else if t == "shipped" then Some(Shipped)
    else if t == "delivered" then Some(Delivered)
    else if t == "cancelled" then Some(Cancelled)
    else None
  }

  /** Status names and parsing are inverse. */
  lemma StatusRoundTrip(s: Status, t: string)
    ensures ParseStatus(StatusName(s)) == Some(s)
    ensures ParseStatus(t).None? <==> forall s' :: StatusName(s') != t
  {
    if ParseStatus(t).None? {
      forall s' ensures StatusName(s') != t {
        match s'
        case Pending =>
        case Confirmed =>
        case Shipped =>
        case Delivered =>
        case Cancelled =>
      }
    }
  }

  /** The action buttons under an order, in display order; every button sends
      `PUT /api/orders/:id` with the status it names. */
  function OfferedTransitions(status: string): (r: seq<Status>)
    ensures r == [] <==> ParseStatus(status).None?
  {
    if status == "pending" then [Confirmed, Cancelled]
    else if status == "confirmed" then [Shipped, Cancelled]
    else if status == "shipped" then [Delivered, Cancelled]
    else if status == "delivered" then [Confirmed]
    else if status == "cancelled" then [Pending]
    else []
  }

  predicate Step(from: Status, to: Status)
  {
    to in OfferedTransitions(StatusName(from))
  }

  /** No button leaves an order where it is; only a delivered or cancelled
      order cannot be cancelled; only a cancelled order can go back to
      pending. */
  lemma TransitionShape(s: Status)
    ensures !Step(s, s)
    ensures Step(s, Cancelled) <==> s != Delivered && s != Cancelled
    ensures Step(s, Pending) <==> s == Cancelled
  {
  }

  ghost predicate Path(p: seq<Status>)
  {
    forall k :: 0 <= k < |p| - 1 ==> Step(p[k], p[k + 1])
  }

  /** The clicks `Reactivation` uses are all offered. */
  lemma ReactivationSteps()
    ensures Step(Confirmed, Cancelled) && Step(Shipped, Cancelled)
    ensures Step(Delivered, Confirmed) && Step(Cancelled, Pending)
  {
  }

  /** A sequence of clicks that brings an order back to pending. */
  function Reactivation(s: Status): (p: seq<Status>)
    ensures |p| >= 1 && p[0] == s && p[|p| - 1] == Pending
    ensures Path(p)
  {
    ReactivationSteps();
    match s
    case Pending => [Pending]
    case Confirmed => [Confirmed, Cancelled, Pending]
    case Shipped => [Shipped, Cancelled, Pending]
    case Delivered => [Delivered, Confirmed, Cancelled, Pending]
    case Cancelled => [Cancelled, Pending]
  }

  /** `{ status }`, the body a status button sends. */
  function StatusPatch(s: Status): OrderController.OrderPatch
  {
    OrderController.OrderPatch(None, None, None, None, None, Some(StatusName(s)), None, None)
  }

  /** A click changes the order's status and nothing else. */
  lemma ClickChangesOnlyStatus(o: OrderRow, s: Status)
    ensures OrderController.PatchOrder(o, StatusPatch(s)) == o.(status := StatusName(s))
  {
  }

  /** `getStatusInfo(status).label`: any other status shows as it is. */
  function StatusLabel(status: string): (r: string)
    ensures ParseStatus(status).None? ==> r == status
  {
    if status == "pending" then "En attente"
    else if status == "confirmed" then "Confirmée"
    else if status == "shipped" then "Expédiée"
    else if status == "delivered" then "Livrée"
    else if status == "cancelled" then "Annulée"
    else status
  }

  /** Different statuses get different labels. */
  lemma LabelsDistinct(a: Status, b: Status)
    requires a != b
    ensures StatusLabel(StatusName(a)) != StatusLabel(StatusName(b))
  {
  }

  /** `getOrderAlert`: `Warning(d)` and `Info(d)` carry the day count the
      message prints. */
  datatype OrderAlertKind = ErrorAlert | Warning(lateDays: int) | Info(inDays: int)

  /** The alert of an order with the given status and day count; every
      comparison with `NaN` is false. */
  function OrderAlert(status: string, days: Option<int>): (r: Option<OrderAlertKind>)
    ensures r == Some(ErrorAlert) <==> status == "cancelled"
    ensures r.Some? && r.value.Warning? <==>
      (status == "pending" || status == "shipped") && days.Some? && days.value < 0
    ensures r.Some? && r.value.Warning? ==> r.value.lateDays == -days.value && r.value.lateDays > 0
    ensures r.Some? && r.value.Info? <==> status == "pending" && days.Some? && 0 <= days.value <= 2
    ensures r.Some? && r.value.Info? ==> r.value.inDays == days.value
    ensures status != "cancelled" && status != "pending" && status != "shipped" ==> r.None?
  {
    if status == "cancelled" then Some(ErrorAlert)
    else if status == "pending" && days.Some? && days.value < 0 then Some(Warning(-days.value))
    else if status == "shipped" && days.Some? && days.value < 0 then Some(Warning(-days.value))
    else if status == "pending" && days.Some? && days.value <= 2 && days.value >= 0 then Some(Info(days.value))
    else None
  }

  /** Read off the expected instant: an order is late once it is a full day
      past its date, and a pending order is announced from two days before
      until that moment. */
  lemma AlertByInstant(status: string, expected: string, now: int, dateOf: string -> Option<int>)
    requires dateOf(expected).Some?
    ensures var t := dateOf(expected).value;
      var a := OrderAlert(status, DaysUntil(expected, now, dateOf));
      && (a.Some? && a.value.Warning? <==> (status == "pending" || status == "shipped") && t - now <= -DAY_MS)
      && (a.Some? && a.value.Info? <==> status == "pending" && -DAY_MS < t - now <= 2 * DAY_MS)
  {
    var t := dateOf(expected).value;
    var d := DaysUntil(expected, now, dateOf).value;
    assert (d - 1) * DAY_MS < t - now <= d * DAY_MS;
    if d < 0 {
      assert d * DAY_MS <= -DAY_MS;
    }
    if t - now <= -DAY_MS {
      assert (d - 1) * DAY_MS < -DAY_MS;
    }
    if d <= 2 {
      assert d * DAY_MS <= 2 * DAY_MS;
    }
    if t - now <= 2 * DAY_MS {
      assert (d - 1) * DAY_MS < 2 * DAY_MS;
    }
  }

  /** The search of the order list: order number, supplier name or any item's
      medicine name contains the term, case-insensitively. */
  predicate MatchesOrderSearch(o: OrderRow, term: string)
  {
    var t := LowerStr(term);
    Contains(LowerStr(o.orderNumber), t) || Contains(LowerStr(o.supplierName), t) ||
    exists k :: 0 <= k < |o.items| && Contains(LowerStr(o.items[k].medicineName), t)
  }

  predicate MatchesStatus(o: OrderRow, filterStatus: string)
  {
    filterStatus == "all" || o.status == filterStatus
  }

  predicate Shown(o: OrderRow, term: string, filterStatus: string)
  {
    MatchesOrderSearch(o, term) && MatchesStatus(o, filterStatus)
  }

  /** `new Date(date).getTime()`, an unparseable date counting as 0. */
  function OrderTime(o: OrderRow, dateOf: string -> Option<int>): int
  {
    match dateOf(o.date) case None => 0 case Some(t) => t
  }

  /** `filteredOrders`: filter, then sort newest first. */
  function FilteredOrders(orders: seq<OrderRow>, term: string, filterStatus: string,
                          dateOf: string -> Option<int>): (r: seq<OrderRow>)
    ensures |r| <= |orders|
    ensures forall i, j :: 0 <= i < j < |r| ==> OrderTime(r[j], dateOf) <= OrderTime(r[i], dateOf)
  {
    var kept := Filter(orders, (o: OrderRow) => Shown(o, term, filterStatus));
    var sorted := SortBy(kept, (o: OrderRow) => -OrderTime(o, dateOf));
    assert forall i, j :: 0 <= i < j < |sorted| ==> -OrderTime(sorted[i], dateOf) <= -OrderTime(sorted[j], dateOf);
    sorted
  }

  /** The list is a rearrangement of exactly the orders passing both filters. */
  lemma FilteredOrdersContents(orders: seq<OrderRow>, term: string, filterStatus: string,
                               dateOf: string -> Option<int>)
    ensures forall o :: o in FilteredOrders(orders, term, filterStatus, dateOf) <==>
      o in orders && MatchesOrderSearch(o, term) && MatchesStatus(o, filterStatus)
    ensures multiset(FilteredOrders(orders, term, filterStatus, dateOf)) ==
      multiset(Filter(orders, (o: OrderRow) => Shown(o, term, filterStatus)))
  {
    var kept := Filter(orders, (o: OrderRow) => Shown(o, term, filterStatus));
    SortByMembers(kept, (o: OrderRow) => -OrderTime(o, dateOf));
  }

  /** With no search text and every status, the page lists all orders. */
  lemma NoFilterListsAll(orders: seq<OrderRow>, dateOf: string -> Option<int>)
    ensures multiset(FilteredOrders(orders, [], "all", dateOf)) == multiset(orders)
  {
    forall i | 0 <= i < |orders| ensures Shown(orders[i], [], "all") {
      ContainsEmpty(LowerStr(orders[i].orderNumber));
    }
    FilterKeepsAll(orders, (o: OrderRow) => Shown(o, [], "all"));
    FilteredOrdersContents(orders, [], "all", dateOf);
  }

  /** The `+ Ajouter un article` and `Retirer` buttons of the form. */
  datatype Click = AddLine | RemoveLine

  /** `itemsCount` after some clicks, starting from `useState(1)`:
      `itemsCount + 1` or `Math.max(1, itemsCount - 1)`. */
  function ItemsCount(clicks: seq<Click>): (r: int)
    ensures 1 <= r <= 1 + |clicks|
  {
    if |clicks| == 0 then 1
    else
      var n := ItemsCount(clicks[..|clicks| - 1]);
      match clicks[|clicks| - 1]
      case AddLine => n + 1
      case RemoveLine => if n - 1 > 1 then n - 1 else 1
  }
}
