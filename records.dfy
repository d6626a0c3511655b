/**
 * The persisted records of the engine: one datatype per table row, and `Db`, the contents of
 * all tables at one moment.  Rows refer to each other by id; a table is a sequence in id order.
 * A `has_one` child (the capture or the cancel of an inventory unit) is kept as an optional
 * field of its parent row.
 */
module Records {
  import opened Wrappers
  import opened Money

  /** The exceptions the engine raises. */
  datatype Error =
    | InventoryPreviouslyProcessed   // UnprocessedInventoryUnitAmountCalculator::InventoryPreviouslyProcessedError
    | ZeroDivision                   // a share divided among zero units
    | RecordNotFound                 // an id that names no row (a nil association)
    | ArgumentError                  // "Not all inventory units belong to this order", a wrong argument list
    | InvalidTransition              // a state-machine event not allowed from the current state
    | AdjustmentAlreadyCreated       // UnitCancel#adjust! called twice
    | AdjustableMismatch             // "Adjustable does not match line item"
    | CaptureTooLarge                // CartonCapturing::CaptureTooLargeError
    | NoPendingPayment               // a capture loop that ran out of payments (nil receiver)
    | IncomparablePriorities         // sort_by over keys Ruby cannot compare
    | BehaviorNotFound               // Behavior::BehaviorNotFoundError
    | InvalidMovement                // StockLocation::InvalidMovementError
    | ShipmentTransferError          // Spree::ShipmentTransferError
    | RecordInvalid                  // a failed validation raised by a bang method

  datatype UnitState = OnHand | Backordered | Shipped | Returned | Canceled

  datatype ShipmentState = Pending | Ready | Shipped | Canceled

  /** The states of a payment. */
  datatype PaymentState = Checkout | Processing | Pending | Completed | Failed | Void | Invalid

  /** The payment state of an order, written by UpdateOrderPaymentState. */
  datatype OrderPaymentState = BalanceDue | Paid | CreditOwed | Failed | Void | Pending

  /** The shipment state of an order, written by UpdateOrderShipmentState. */
  datatype OrderShipmentState = Backorder | Partial | Uniform(state: ShipmentState)

  datatype OrderState = Cart | Address | Delivery | Payment | Confirm | Complete | Canceled
                      | AwaitingReturn | Returned | Resumed

  /** The five ledger amounts a capture or a cancel records for one unit, in cents. */
  datatype Breakdown = Breakdown(
    price: int, promoTotal: int, additionalTaxTotal: int, includedTaxTotal: int,
    orderAdjustmentTotal: int)

  /** The amounts the ledger splits among a line item's units. */
  datatype Pool = Promotion | AdditionalTax | IncludedTax | OrderAdjustment

  function PoolAmount(b: Breakdown, p: Pool): int
  {
    match p
    case Promotion => b.promoTotal
    case AdditionalTax => b.additionalTaxTotal
    case IncludedTax => b.includedTaxTotal
    case OrderAdjustment => b.orderAdjustmentTotal
  }

  /** An InventoryUnitCapture row. */
  datatype UnitCapture = UnitCapture(cartonCaptureId: nat, currency: string, amounts: Breakdown)

  /** A UnitCancel row; `createdBy` is the whodunnit or the user. */
  datatype UnitCancel = UnitCancel(reason: string, createdBy: Option<string>, amounts: Breakdown)

  datatype InventoryUnit = InventoryUnit(
    id: nat, orderId: nat, lineItemId: nat, variantId: nat, shipmentId: Option<nat>,
    state: UnitState, pending: bool,
    exchange: bool,                  // the unit has an original_return_item
    capture: Option<UnitCapture>,    // has_one inventory_unit_capture
    cancel: Option<UnitCancel>,      // has_one unit_cancel
    updatedAt: int)

  datatype LineItem = LineItem(
    id: nat, orderId: nat, variantId: nat, price: int, quantity: nat, currency: string,
    adjustmentTotal: int, promoTotal: int, additionalTaxTotal: int, includedTaxTotal: int,
    promotionable: bool)

  datatype Shipment = Shipment(
    id: nat, orderId: nat, stockLocationId: nat, state: ShipmentState, cost: int,
    adjustmentTotal: int, promoTotal: int, additionalTaxTotal: int, includedTaxTotal: int,
    persisted: bool, updatedAt: int)

  datatype Payment = Payment(
    id: nat, orderId: nat, methodKind: nat, state: PaymentState, amount: int, captured: int)

  /** What an adjustment is attached to. */
  datatype Adjustable = LineItemRef(lineItemId: nat) | ShipmentRef(shipmentId: nat) | OrderRef(orderId: nat)

  /** What created an adjustment. */
  datatype AdjustmentSource =
    | TaxRate(included: bool)
    | PromotionAction(actionId: nat)
    | UnitCancelOf(unitId: nat)
    | OtherSource

  datatype Adjustment = Adjustment(
    adjustable: Adjustable, orderId: nat, amount: int, labelText: string, eligible: bool,
    closed: bool, source: AdjustmentSource, promotionCodeId: Option<nat>)

  datatype Order = Order(
    id: nat, state: OrderState, completedAt: Option<int>, currency: string,
    paymentState: Option<OrderPaymentState>, shipmentState: Option<OrderShipmentState>,
    itemCount: int, itemTotal: int, shipmentTotal: int, adjustmentTotal: int, promoTotal: int,
    includedTaxTotal: int, additionalTaxTotal: int, paymentTotal: int, total: int, updatedAt: int)

  datatype CartonCapture = CartonCapture(id: nat, capturedAt: int)

  /** A PaymentCaptureEvent: `amount` cents captured from one payment. */
  datatype CaptureEvent = CaptureEvent(paymentId: nat, amount: int)

  /** A StateChange row. */
  datatype StateChange =
    | PaymentStateChange(orderId: nat, previous: Option<OrderPaymentState>, next: Option<OrderPaymentState>)
    | ShipmentStateChange(orderId: nat, was: Option<OrderShipmentState>, now: Option<OrderShipmentState>)
    | ShipmentTransition(shipmentId: nat, from: ShipmentState, to: ShipmentState)

  datatype StockLocation = StockLocation(
    id: nat, name: string, active: bool, isDefault: bool, backorderableDefault: bool,
    fulfillable: bool)

  datatype StockItem = StockItem(
    id: nat, locationId: nat, variantId: nat, countOnHand: int, backorderable: bool)

  /** What moved stock: a shipment, or nothing recorded. */
  datatype Originator = ShipmentOrigin(shipmentId: nat) | NoOriginator

  datatype StockMovement = StockMovement(stockItemId: nat, quantity: int, originator: Originator)

  datatype Db = Db(
    orders: seq<Order>,
    lineItems: seq<LineItem>,
    units: seq<InventoryUnit>,
    shipments: seq<Shipment>,
    payments: seq<Payment>,
    adjustments: seq<Adjustment>,
    cartonCaptures: seq<CartonCapture>,
    captureEvents: seq<CaptureEvent>,
    stateChanges: seq<StateChange>,
    shipNotices: seq<nat>,           // shipments handed to OrderShipping#ship_shipment
    stockLocations: seq<StockLocation>,
    stockItems: seq<StockItem>,
    stockMovements: seq<StockMovement>)

  /** The result of an operation that may raise part way, after some of its writes are saved. */
  datatype Outcome = Outcome(db: Db, err: Option<Error>)

  /** LineItem#amount: the price of all its units. */
  function LineItemAmount(li: LineItem): int
  {
    li.price * li.quantity
  }

  /** LineItem#total: the amount with the line item's adjustments. */
  function LineItemTotal(li: LineItem): int
  {
    LineItemAmount(li) + li.adjustmentTotal
  }

  // ---------------------------------------------------------------- lookups by id

  function FindOrder(orders: seq<Order>, id: nat): (r: Option<Order>)
    ensures r.Some? ==> r.value in orders && r.value.id == id
    ensures r.None? ==> forall o :: o in orders ==> o.id != id
  {
    if orders == [] then None
    else if orders[0].id == id then Some(orders[0])
    else FindOrder(orders[1..], id)
  }

  function FindLineItem(items: seq<LineItem>, id: nat): (r: Option<LineItem>)
    ensures r.Some? ==> r.value in items && r.value.id == id
    ensures r.None? ==> forall li :: li in items ==> li.id != id
  {
    if items == [] then None
    else if items[0].id == id then Some(items[0])
    else FindLineItem(items[1..], id)
  }

  function FindUnit(units: seq<InventoryUnit>, id: nat): (r: Option<InventoryUnit>)
    ensures r.Some? ==> r.value in units && r.value.id == id
    ensures r.None? ==> forall u :: u in units ==> u.id != id
  {
    if units == [] then None
    else if units[0].id == id then Some(units[0])
    else FindUnit(units[1..], id)
  }

  function FindShipment(shipments: seq<Shipment>, id: nat): (r: Option<Shipment>)
    ensures r.Some? ==> r.value in shipments && r.value.id == id
    ensures r.None? ==> forall s :: s in shipments ==> s.id != id
  {
    if shipments == [] then None
    else if shipments[0].id == id then Some(shipments[0])
    else FindShipment(shipments[1..], id)
  }

  function FindStockLocation(locations: seq<StockLocation>, id: nat): (r: Option<StockLocation>)
    ensures r.Some? ==> r.value in locations && r.value.id == id
    ensures r.None? ==> forall l :: l in locations ==> l.id != id
  {
    if locations == [] then None
    else if locations[0].id == id then Some(locations[0])
    else FindStockLocation(locations[1..], id)
  }

  /** After a row is replaced by id, looking the id up finds the replacement. */
  lemma {:induction false} FindShipmentAfterPut(shipments: seq<Shipment>, s: Shipment)
    requires FindShipment(shipments, s.id).Some?
    ensures FindShipment(PutShipment(shipments, s), s.id) == Some(s)
  {
    if shipments[0].id != s.id {
      FindShipmentAfterPut(shipments[1..], s);
      assert PutShipment(shipments, s)[1..] == PutShipment(shipments[1..], s);
    }
  }

  lemma {:induction false} FindOrderAfterPut(orders: seq<Order>, o: Order)
    requires FindOrder(orders, o.id).Some?
    ensures FindOrder(PutOrder(orders, o), o.id) == Some(o)
  {
    if orders[0].id != o.id {
      FindOrderAfterPut(orders[1..], o);
      assert PutOrder(orders, o)[1..] == PutOrder(orders[1..], o);
    }
  }

  lemma {:induction false} FindUnitAfterPut(units: seq<InventoryUnit>, u: InventoryUnit, id: nat)
    requires FindUnit(units, u.id).Some?
    ensures FindUnit(PutUnit(units, u), id) == if id == u.id then Some(u) else FindUnit(units, id)
  {
    var put := PutUnit(units, u);
    assert put[1..] == PutUnit(units[1..], u);
    if units[0].id == u.id {
      assert put[0] == u;
      if id != u.id {
        FindUnitOtherPut(units[1..], u, id);
      }
    } else {
      assert put[0] == units[0];
      if units[0].id != id {
        FindUnitAfterPut(units[1..], u, id);
      }
    }
  }

  /** Replacing the rows of one id leaves the lookups of every other id as they were. */
  lemma {:induction false} FindUnitOtherPut(units: seq<InventoryUnit>, u: InventoryUnit, id: nat)
    requires id != u.id
    ensures FindUnit(PutUnit(units, u), id) == FindUnit(units, id)
  {
    if units != [] {
      var put := PutUnit(units, u);
      assert put[1..] == PutUnit(units[1..], u);
      FindUnitOtherPut(units[1..], u, id);
    }
  }

  // ---------------------------------------------------------------- row updates by id

  /** The units table with every row whose id is `u.id` replaced by `u`. */
  function PutUnit(units: seq<InventoryUnit>, u: InventoryUnit): (r: seq<InventoryUnit>)
    ensures |r| == |units|
    ensures forall i :: 0 <= i < |r| ==> r[i] == (if units[i].id == u.id then u else units[i])
  {
    if units == [] then []
    else [if units[0].id == u.id then u else units[0]] + PutUnit(units[1..], u)
  }

  /** Two writes of rows with the same id: the second one wins. */
  lemma PutUnitTwice(units: seq<InventoryUnit>, v: InventoryUnit, w: InventoryUnit)
    requires v.id == w.id
    ensures PutUnit(PutUnit(units, v), w) == PutUnit(units, w)
  {
    var a := PutUnit(PutUnit(units, v), w);
    var b := PutUnit(units, w);
    assert |a| == |b|;
    assert forall i :: 0 <= i < |a| ==> a[i] == b[i];
  }

  function PutLineItem(items: seq<LineItem>, li: LineItem): (r: seq<LineItem>)
    ensures |r| == |items|
    ensures forall i :: 0 <= i < |r| ==> r[i] == (if items[i].id == li.id then li else items[i])
  {
    if items == [] then []
    else [if items[0].id == li.id then li else items[0]] + PutLineItem(items[1..], li)
  }

  function PutShipment(shipments: seq<Shipment>, s: Shipment): (r: seq<Shipment>)
    ensures |r| == |shipments|
    ensures forall i :: 0 <= i < |r| ==> r[i] == (if shipments[i].id == s.id then s else shipments[i])
  {
    if shipments == [] then []
    else [if shipments[0].id == s.id then s else shipments[0]] + PutShipment(shipments[1..], s)
  }

  function PutOrder(orders: seq<Order>, o: Order): (r: seq<Order>)
    ensures |r| == |orders|
    ensures forall i :: 0 <= i < |r| ==> r[i] == (if orders[i].id == o.id then o else orders[i])
  {
    if orders == [] then []
    else [if orders[0].id == o.id then o else orders[0]] + PutOrder(orders[1..], o)
  }

  function PutPayment(payments: seq<Payment>, p: Payment): (r: seq<Payment>)
    ensures |r| == |payments|
    ensures forall i :: 0 <= i < |r| ==> r[i] == (if payments[i].id == p.id then p else payments[i])
  {
    if payments == [] then []
    else [if payments[0].id == p.id then p else payments[0]] + PutPayment(payments[1..], p)
  }

  /** Ids are primary keys: no two rows of the units table share one. */
  ghost predicate UniqueUnitIds(units: seq<InventoryUnit>)
  {
    forall i, j :: 0 <= i < j < |units| ==> units[i].id != units[j].id
  }

  ghost predicate UniqueShipmentIds(shipments: seq<Shipment>)
  {
    forall i, j :: 0 <= i < j < |shipments| ==> shipments[i].id != shipments[j].id
  }

  ghost predicate UniqueLineItemIds(items: seq<LineItem>)
  {
    forall i, j :: 0 <= i < j < |items| ==> items[i].id != items[j].id
  }

  ghost predicate UniquePaymentIds(payments: seq<Payment>)
  {
    forall i, j :: 0 <= i < j < |payments| ==> payments[i].id != payments[j].id
  }
}
