/**
 * The steps of the order update pipeline (Behaviors::*) and the registry that lists them
 * (Behavior).  Each step reads the order's children from the tables and writes fields of the
 * in-memory order; AdvanceShipments and CalculateAdjustments write child rows, and
 * PersistOrderTotals writes the order's row.
 *
 * Amounts are integer cents, so `round_money` leaves them unchanged.  Order#quantity,
 * #completed?, #can_ship?, #paid?, #backordered? and #state_changed, and ItemAdjustments,
 * are not part of this model; the readings used for them are stated where they are defined.
 */
module OrderBehaviors {
  import opened Wrappers
  import opened Money
  import opened Records
  import opened ShippingManifest
  import Shipments

  // ---------------------------------------------------------------- the order's children

  function LineItemsOf(items: seq<LineItem>, orderId: nat): (r: seq<LineItem>)
    ensures forall li :: li in r <==> li in items && li.orderId == orderId
  {
    if items == [] then []
    else
      assert forall li :: li in items <==> li == items[0] || li in items[1..] by {
        assert items == [items[0]] + items[1..];
      }
      (if items[0].orderId == orderId then [items[0]] else []) + LineItemsOf(items[1..], orderId)
  }

  function ShipmentsOf(shipments: seq<Shipment>, orderId: nat): (r: seq<Shipment>)
    ensures forall s :: s in r <==> s in shipments && s.orderId == orderId
  {
    if shipments == [] then []
    else
      assert forall s :: s in shipments <==> s == shipments[0] || s in shipments[1..] by {
        assert shipments == [shipments[0]] + shipments[1..];
      }
      (if shipments[0].orderId == orderId then [shipments[0]] else []) + ShipmentsOf(shipments[1..], orderId)
  }

  /** The order's payments, in id order. */
  function PaymentsOf(payments: seq<Payment>, orderId: nat): (r: seq<Payment>)
    ensures forall p :: p in r <==> p in payments && p.orderId == orderId
  {
    if payments == [] then []
    else
      assert forall p :: p in payments <==> p == payments[0] || p in payments[1..] by {
        assert payments == [payments[0]] + payments[1..];
      }
      (if payments[0].orderId == orderId then [payments[0]] else []) + PaymentsOf(payments[1..], orderId)
  }

  /** `payments.completed.sum(:amount)`. */
  function CompletedTotal(payments: seq<Payment>): int
  {
    if payments == [] then 0
    else (if payments[0].state == PaymentState.Completed then payments[0].amount else 0) + CompletedTotal(payments[1..])
  }

  /** Order#quantity, read as the sum of the line items' quantities. */
  function Quantity(items: seq<LineItem>): int
  {
    if items == [] then 0 else items[0].quantity + Quantity(items[1..])
  }

  function ItemAmount(li: LineItem): int { LineItemAmount(li) }
  function ItemAdjustmentTotal(li: LineItem): int { li.adjustmentTotal }
  function ItemPromoTotal(li: LineItem): int { li.promoTotal }
  function ItemIncludedTax(li: LineItem): int { li.includedTaxTotal }
  function ItemAdditionalTax(li: LineItem): int { li.additionalTaxTotal }
  function ShipmentCost(s: Shipment): int { s.cost }
  function ShipmentAdjustmentTotal(s: Shipment): int { s.adjustmentTotal }
  function ShipmentPromoTotal(s: Shipment): int { s.promoTotal }
  function ShipmentIncludedTax(s: Shipment): int { s.includedTaxTotal }
  function ShipmentAdditionalTax(s: Shipment): int { s.additionalTaxTotal }

  // ---------------------------------------------------------------- adjustment sums

  /** The eligible adjustments of one adjustable, added up by kind. */
  datatype AdjustmentSums = AdjustmentSums(eligible: int, promo: int, included: int, additional: int, nonIncluded: int)

  function Contribution(a: Adjustment): AdjustmentSums
  {
    AdjustmentSums(
      a.amount,
      if a.source.PromotionAction? then a.amount else 0,
      if a.source == TaxRate(true) then a.amount else 0,
      if a.source == TaxRate(false) then a.amount else 0,
      if a.source == TaxRate(true) then 0 else a.amount)
  }

  function Plus(x: AdjustmentSums, y: AdjustmentSums): AdjustmentSums
  {
    AdjustmentSums(x.eligible + y.eligible, x.promo + y.promo, x.included + y.included,
                   x.additional + y.additional, x.nonIncluded + y.nonIncluded)
  }

  const NoSums := AdjustmentSums(0, 0, 0, 0, 0)

  /** The sums over the eligible adjustments whose adjustable is `target`. */
  function SumsFor(adjustments: seq<Adjustment>, target: Adjustable): (r: AdjustmentSums)
    ensures r.eligible == r.included + r.nonIncluded
  {
    if adjustments == [] then NoSums
    else
      var rest := SumsFor(adjustments[1..], target);
      if adjustments[0].adjustable == target && adjustments[0].eligible then Plus(Contribution(adjustments[0]), rest)
      else rest
  }

  /** A new adjustment adds its own contribution to the sums of its adjustable, and nothing to the others. */
  lemma {:induction false} SumsForAppend(adjustments: seq<Adjustment>, a: Adjustment, target: Adjustable)
    ensures SumsFor(adjustments + [a], target)
            == if a.adjustable == target && a.eligible then Plus(SumsFor(adjustments, target), Contribution(a))
               else SumsFor(adjustments, target)
  {
    if adjustments == [] {
      assert [] + [a] == [a];
    } else {
      assert (adjustments + [a])[1..] == adjustments[1..] + [a];
      SumsForAppend(adjustments[1..], a, target);
    }
  }

  // ---------------------------------------------------------------- UpdateOrderTotals

  /**
   * UpdateOrderTotals#run: the item count, payment total, item and shipment totals, the
   * adjustment, tax and promotion totals, and the order total, all read off the children.
   */
  function UpdateOrderTotals(o: Order, db: Db): (r: Order)
    ensures r.total == r.itemTotal + r.shipmentTotal + r.adjustmentTotal
    ensures r == o.(itemCount := r.itemCount, paymentTotal := r.paymentTotal, itemTotal := r.itemTotal,
                    shipmentTotal := r.shipmentTotal, adjustmentTotal := r.adjustmentTotal,
                    includedTaxTotal := r.includedTaxTotal, additionalTaxTotal := r.additionalTaxTotal,
                    promoTotal := r.promoTotal, total := r.total)
    ensures r.itemTotal == SumOf(LineItemsOf(db.lineItems, o.id), ItemAmount)
    ensures r.shipmentTotal == SumOf(ShipmentsOf(db.shipments, o.id), ShipmentCost)
    ensures r.paymentTotal == CompletedTotal(PaymentsOf(db.payments, o.id))
    ensures r.adjustmentTotal == SumOf(LineItemsOf(db.lineItems, o.id), ItemAdjustmentTotal)
                                 + SumOf(ShipmentsOf(db.shipments, o.id), ShipmentAdjustmentTotal)
                                 + SumsFor(db.adjustments, OrderRef(o.id)).eligible
  {
    var items := LineItemsOf(db.lineItems, o.id);
    var shipments := ShipmentsOf(db.shipments, o.id);
    var own := SumsFor(db.adjustments, OrderRef(o.id));
    var itemTotal := SumOf(items, ItemAmount);
    var shipmentTotal := SumOf(shipments, ShipmentCost);
    var adjustmentTotal := SumOf(items, ItemAdjustmentTotal) + SumOf(shipments, ShipmentAdjustmentTotal) + own.eligible;
    o.(itemCount := Quantity(items),
       paymentTotal := CompletedTotal(PaymentsOf(db.payments, o.id)),
       itemTotal := itemTotal,
       shipmentTotal := shipmentTotal,
       adjustmentTotal := adjustmentTotal,
       includedTaxTotal := SumOf(items, ItemIncludedTax) + SumOf(shipments, ShipmentIncludedTax),
       additionalTaxTotal := SumOf(items, ItemAdditionalTax) + SumOf(shipments, ShipmentAdditionalTax),
       promoTotal := SumOf(items, ItemPromoTotal) + SumOf(shipments, ShipmentPromoTotal) + own.promo,
       total := itemTotal + shipmentTotal + adjustmentTotal)
  }

  /** The step reads nothing of the order but its id: running it again changes nothing. */
  lemma UpdateOrderTotalsIdempotent(o: Order, o': Order, db: Db)
    requires o'.id == o.id
    ensures UpdateOrderTotals(UpdateOrderTotals(o, db), db) == UpdateOrderTotals(o, db)
    ensures UpdateOrderTotals(o', db) == o'.(itemCount := UpdateOrderTotals(o, db).itemCount,
      paymentTotal := UpdateOrderTotals(o, db).paymentTotal, itemTotal := UpdateOrderTotals(o, db).itemTotal,
      shipmentTotal := UpdateOrderTotals(o, db).shipmentTotal, adjustmentTotal := UpdateOrderTotals(o, db).adjustmentTotal,
      includedTaxTotal := UpdateOrderTotals(o, db).includedTaxTotal,
      additionalTaxTotal := UpdateOrderTotals(o, db).additionalTaxTotal,
      promoTotal := UpdateOrderTotals(o, db).promoTotal, total := UpdateOrderTotals(o, db).total)
  {
  }

  /** Two line items of one 10.00 unit each give an item total of 20.00. */
  lemma TwoTenDollarItems(o: Order, db: Db)
    requires |db.lineItems| == 2
    requires forall i :: 0 <= i < 2 ==> db.lineItems[i].orderId == o.id && db.lineItems[i].price == 1000 && db.lineItems[i].quantity == 1
    ensures UpdateOrderTotals(o, db).itemTotal == 2000
  {
    var items := db.lineItems;
    assert items[1..][1..] == [];
    assert LineItemsOf(items[1..], o.id) == [items[1]];
    assert LineItemsOf(items, o.id) == items;
    assert SumOf(items[1..], ItemAmount) == 1000;
    assert SumOf(items, ItemAmount) == 2000;
  }

  /** 10.00 of items, 10.00 of shipping and a 0.50 order adjustment make 20.50. */
  lemma ItemsShippingAndAdjustment(o: Order, db: Db, li: LineItem, s: Shipment, a: Adjustment)
    requires db.lineItems == [li] && li.orderId == o.id && li.price == 1000 && li.quantity == 1 && li.adjustmentTotal == 0
    requires db.shipments == [s] && s.orderId == o.id && s.cost == 1000 && s.adjustmentTotal == 0
    requires db.adjustments == [a] && a.adjustable == OrderRef(o.id) && a.eligible && a.amount == 50
    ensures UpdateOrderTotals(o, db).total == 2050
  {
    OneItemSums(o.id, li);
    OneShipmentSums(o.id, s);
    OneAdjustmentSums(a);
  }

  lemma OneAdjustmentSums(a: Adjustment)
    requires a.eligible
    ensures SumsFor([a], a.adjustable) == Contribution(a)
  {
    assert [a][1..] == [];
  }

  lemma OneItemSums(orderId: nat, li: LineItem)
    requires li.orderId == orderId
    ensures SumOf(LineItemsOf([li], orderId), ItemAmount) == LineItemAmount(li)
    ensures SumOf(LineItemsOf([li], orderId), ItemAdjustmentTotal) == li.adjustmentTotal
  {
    assert [li][1..] == [];
    assert LineItemsOf([li], orderId) == [li];
  }

  lemma OneShipmentSums(orderId: nat, s: Shipment)
    requires s.orderId == orderId
    ensures SumOf(ShipmentsOf([s], orderId), ShipmentCost) == s.cost
    ensures SumOf(ShipmentsOf([s], orderId), ShipmentAdjustmentTotal) == s.adjustmentTotal
  {
    assert [s][1..] == [];
    assert ShipmentsOf([s], orderId) == [s];
  }

  // ---------------------------------------------------------------- UpdateOrderPaymentState

  /** The last payment, by id order, is in state `st`. */
  predicate LastIs(payments: seq<Payment>, st: PaymentState)
  {
    payments != [] && payments[|payments| - 1].state == st
  }

  /**
   * The payment-state decision table.  An order that has no line items or is underpaid takes
   * its state from its payments; otherwise it is paid or owes credit.
   */
  function PaymentStateFor(hasLineItems: bool, paymentTotal: int, total: int, payments: seq<Payment>, canceled: bool)
    : (r: OrderPaymentState)
    ensures var short := !hasLineItems || paymentTotal < total;
      && (r == Paid <==> !short && paymentTotal == total)
      && (r == OrderPaymentState.Void <==> short && payments != [] && canceled)
      && (r == OrderPaymentState.Failed <==> short && !canceled && LastIs(payments, PaymentState.Failed))
      && (r == OrderPaymentState.Pending <==> short && !canceled && LastIs(payments, PaymentState.Checkout))
      && (r == BalanceDue <==>
            short && (payments == [] || (!canceled && (LastIs(payments, PaymentState.Pending)
                                                       || (LastIs(payments, PaymentState.Completed) && hasLineItems)))))
      && (r == CreditOwed <==>
            (!short && paymentTotal > total)
            || (short && payments != [] && !canceled
                && !LastIs(payments, PaymentState.Failed) && !LastIs(payments, PaymentState.Checkout)
                && !LastIs(payments, PaymentState.Pending)
                && (LastIs(payments, PaymentState.Completed) ==> !hasLineItems)))
  {
    if !hasLineItems || paymentTotal < total then
      if payments != [] then
        var last := payments[|payments| - 1].state;
        if canceled then OrderPaymentState.Void
        else if last == PaymentState.Failed then OrderPaymentState.Failed
        else if last == PaymentState.Checkout then OrderPaymentState.Pending
        else if last == PaymentState.Completed then (if !hasLineItems then CreditOwed else BalanceDue)
        else if last == PaymentState.Pending then BalanceDue
        else CreditOwed
      else BalanceDue
    else if paymentTotal > total then CreditOwed
    else Paid
  }

  /** 29.00 paid of 30.00, with line items and a completed last payment: a balance is due. */
  lemma PartlyPaidOrderOwesBalance(p: Payment)
    requires p.state == PaymentState.Completed
    ensures PaymentStateFor(true, 2900, 3000, [p], false) == BalanceDue
  {
  }

  /** What a step leaves: the in-memory order, the tables, and the error it raised, if any. */
  datatype Run = Run(order: Order, db: Db, err: Option<Error>)

  /** UpdateOrderPaymentState#run: assigns the state and records the change. */
  function UpdateOrderPaymentState(o: Order, db: Db): (r: Run)
    ensures r.err.None?
    ensures r.order == o.(paymentState := r.order.paymentState)
    ensures r.db == db.(stateChanges := db.stateChanges + [PaymentStateChange(o.id, o.paymentState, r.order.paymentState)])
    ensures r.order.paymentState == Some(PaymentStateFor(LineItemsOf(db.lineItems, o.id) != [], o.paymentTotal, o.total,
                                                         PaymentsOf(db.payments, o.id), o.state == OrderState.Canceled))
  {
    var next := PaymentStateFor(LineItemsOf(db.lineItems, o.id) != [], o.paymentTotal, o.total,
                                PaymentsOf(db.payments, o.id), o.state == OrderState.Canceled);
    Run(o.(paymentState := Some(next)),
        db.(stateChanges := db.stateChanges + [PaymentStateChange(o.id, o.paymentState, Some(next))]), None)
  }

  // ---------------------------------------------------------------- UpdateOrderShipmentState

  function ShipmentStates(shipments: seq<Shipment>): (r: seq<ShipmentState>)
    ensures |r| == |shipments|
    ensures forall i :: 0 <= i < |r| ==> r[i] == shipments[i].state
  {
    if shipments == [] then [] else [shipments[0].state] + ShipmentStates(shipments[1..])
  }

  /** Order#backordered?, read as: some shipment of the order has a backordered unit. */
  function OrderBackordered(db: Db, orderId: nat): bool
  {
    AnyShipmentBackordered(db.units, ShipmentsOf(db.shipments, orderId))
  }

  function AnyShipmentBackordered(units: seq<InventoryUnit>, shipments: seq<Shipment>): bool
  {
    if shipments == [] then false
    else Shipments.AnyBackordered(Shipments.UnitsOf(units, shipments[0].id)) || AnyShipmentBackordered(units, shipments[1..])
  }

  lemma OrderBackorderedMeans(db: Db, orderId: nat)
    ensures OrderBackordered(db, orderId)
            <==> exists s :: s in ShipmentsOf(db.shipments, orderId) && Shipments.AnyBackordered(Shipments.UnitsOf(db.units, s.id))
  {
    AnyShipmentBackorderedMeans(db.units, ShipmentsOf(db.shipments, orderId));
  }

  lemma {:induction false} AnyShipmentBackorderedMeans(units: seq<InventoryUnit>, shipments: seq<Shipment>)
    ensures AnyShipmentBackordered(units, shipments)
            <==> exists s :: s in shipments && Shipments.AnyBackordered(Shipments.UnitsOf(units, s.id))
  {
    if shipments != [] {
      AnyShipmentBackorderedMeans(units, shipments[1..]);
      assert forall s :: s in shipments <==> s == shipments[0] || s in shipments[1..] by {
        assert shipments == [shipments[0]] + shipments[1..];
      }
    }
  }

  /**
   * The shipment-state rule: backorder when the order is backordered; otherwise partial when
   * the shipments are in more than one state, their one state when they share it, and nil
   * when there are none.
   */
  function ShipmentStateFor(backordered: bool, shipments: seq<Shipment>): Option<OrderShipmentState>
  {
    var states := Distinct(ShipmentStates(shipments));
    if backordered then Some(Backorder)
    else if |states| > 1 then Some(Partial)
    else if |states| == 1 then Some(Uniform(states[0]))
    else None
  }

  lemma ShipmentStateForMeans(backordered: bool, shipments: seq<Shipment>)
    ensures var r := ShipmentStateFor(backordered, shipments);
      && (backordered ==> r == Some(Backorder))
      && (!backordered ==>
            && (r.None? <==> shipments == [])
            && (forall st :: r == Some(Uniform(st)) <==> shipments != [] && forall s :: s in shipments ==> s.state == st)
            && (r == Some(Partial) <==> exists s, t :: s in shipments && t in shipments && s.state != t.state))
  {
    var states := Distinct(ShipmentStates(shipments));
    assert forall s :: s in shipments ==> s.state in states by {
      forall s | s in shipments ensures s.state in states {
        var i :| 0 <= i < |shipments| && shipments[i] == s;
        assert ShipmentStates(shipments)[i] == s.state;
      }
    }
    assert forall st :: st in states ==> exists s :: s in shipments && s.state == st by {
      forall st | st in states ensures exists s :: s in shipments && s.state == st {
        var i :| 0 <= i < |shipments| && ShipmentStates(shipments)[i] == st;
        assert shipments[i] in shipments;
      }
    }
    assert shipments != [] ==> shipments[0] in shipments;
    if !backordered && |states| > 1 {
      assert states[0] in states && states[1] in states;
    }
  }

  /** UpdateOrderShipmentState#run: assigns the state, records the change, and answers the state. */
  function UpdateOrderShipmentState(o: Order, db: Db): (r: Run)
    ensures r.err.None?
    ensures r.order == o.(shipmentState := ShipmentStateFor(OrderBackordered(db, o.id), ShipmentsOf(db.shipments, o.id)))
    ensures r.db == db.(stateChanges := db.stateChanges + [ShipmentStateChange(o.id, o.shipmentState, r.order.shipmentState)])
  {
    var next := ShipmentStateFor(OrderBackordered(db, o.id), ShipmentsOf(db.shipments, o.id));
    Run(o.(shipmentState := next), db.(stateChanges := db.stateChanges + [ShipmentStateChange(o.id, o.shipmentState, next)]), None)
  }

  // ---------------------------------------------------------------- AdvanceShipments

  /** What a shipment reads of the order: canceled?, can_ship? (complete, resumed, awaiting return or returned) and paid?. */
  function FactsOf(o: Order): Shipments.OrderFacts
  {
    Shipments.OrderFacts(
      o.state == OrderState.Canceled,
      o.state in {OrderState.Complete, OrderState.Resumed, OrderState.AwaitingReturn, OrderState.Returned},
      o.paymentState == Some(Paid) || o.paymentState == Some(CreditOwed))
  }

  /** `update!(order)` on each of the given shipments, in order. */
  function AdvanceAll(db: Db, shipments: seq<Shipment>, facts: Shipments.OrderFacts, now: int): (r: Db)
    ensures r == db.(shipments := r.shipments, shipNotices := r.shipNotices)
    ensures r.shipNotices == db.shipNotices
    decreases |shipments|
  {
    if shipments == [] then db
    else
      Shipments.UpdateNeverShips(db, shipments[0], facts, now);
      AdvanceAll(Shipments.Update(db, shipments[0], facts, now), shipments[1..], facts, now)
  }

  function Persisted(shipments: seq<Shipment>): (r: seq<Shipment>)
    ensures forall s :: s in r <==> s in shipments && s.persisted
  {
    if shipments == [] then []
    else
      assert forall s :: s in shipments <==> s == shipments[0] || s in shipments[1..] by {
        assert shipments == [shipments[0]] + shipments[1..];
      }
      (if shipments[0].persisted then [shipments[0]] else []) + Persisted(shipments[1..])
  }

  /** AdvanceShipments#run: every persisted shipment of the order updated against the in-memory order. */
  function AdvanceShipments(o: Order, db: Db, now: int): (r: Run)
    ensures r.err.None? && r.order == o
    ensures r.db == db.(shipments := r.db.shipments)
  {
    Run(o, AdvanceAll(db, Persisted(ShipmentsOf(db.shipments, o.id)), FactsOf(o), now), None)
  }

  // ---------------------------------------------------------------- CalculateAdjustments

  /**
   * ItemAdjustments#update, read as: the promotion, included-tax and additional-tax totals of
   * the adjustable are the sums of its eligible adjustments of each kind, and its adjustment
   * total is the sum of those that are not included tax.
   */
  function RecomputedLineItem(li: LineItem, sums: AdjustmentSums): LineItem
  {
    li.(promoTotal := sums.promo, includedTaxTotal := sums.included, additionalTaxTotal := sums.additional,
        adjustmentTotal := sums.nonIncluded)
  }

  function RecomputedShipment(s: Shipment, sums: AdjustmentSums): Shipment
  {
    s.(promoTotal := sums.promo, includedTaxTotal := sums.included, additionalTaxTotal := sums.additional,
       adjustmentTotal := sums.nonIncluded)
  }

  function RecomputeLineItems(items: seq<LineItem>, id: nat, sums: AdjustmentSums): (r: seq<LineItem>)
    ensures |r| == |items|
    ensures forall i :: 0 <= i < |r| ==> r[i] == if items[i].id == id then RecomputedLineItem(items[i], sums) else items[i]
  {
    if items == [] then []
    else [if items[0].id == id then RecomputedLineItem(items[0], sums) else items[0]] + RecomputeLineItems(items[1..], id, sums)
  }

  function RecomputeShipments(shipments: seq<Shipment>, id: nat, sums: AdjustmentSums): (r: seq<Shipment>)
    ensures |r| == |shipments|
    ensures forall i :: 0 <= i < |r| ==> r[i] == if shipments[i].id == id then RecomputedShipment(shipments[i], sums) else shipments[i]
  {
    if shipments == [] then []
    else [if shipments[0].id == id then RecomputedShipment(shipments[0], sums) else shipments[0]] + RecomputeShipments(shipments[1..], id, sums)
  }

  /** ItemAdjustments#update on one adjustable; the order's own sums are rewritten by UpdateOrderTotals. */
  function RecalculateOne(db: Db, target: Adjustable): (r: Db)
    ensures r == db.(lineItems := r.lineItems, shipments := r.shipments)
  {
    match target
    case LineItemRef(id) => db.(lineItems := RecomputeLineItems(db.lineItems, id, SumsFor(db.adjustments, target)))
    case ShipmentRef(id) => db.(shipments := RecomputeShipments(db.shipments, id, SumsFor(db.adjustments, target)))
    case OrderRef(_) => db
  }

  function RecalculateAll(db: Db, targets: seq<Adjustable>): (r: Db)
    ensures r == db.(lineItems := r.lineItems, shipments := r.shipments)
    decreases |targets|
  {
    if targets == [] then db else RecalculateAll(RecalculateOne(db, targets[0]), targets[1..])
  }

  /** The adjustables of `order.all_adjustments`: of every adjustment that belongs to the order. */
  function AdjustablesOf(adjustments: seq<Adjustment>, orderId: nat): (r: seq<Adjustable>)
    ensures forall t :: t in r <==> exists a :: a in adjustments && a.orderId == orderId && a.adjustable == t
  {
    if adjustments == [] then []
    else
      assert forall a :: a in adjustments <==> a == adjustments[0] || a in adjustments[1..] by {
        assert adjustments == [adjustments[0]] + adjustments[1..];
      }
      (if adjustments[0].orderId == orderId then [adjustments[0].adjustable] else []) + AdjustablesOf(adjustments[1..], orderId)
  }

  /** CalculateAdjustments#run: each distinct adjustable of the order's adjustments recomputed once. */
  function CalculateAdjustments(o: Order, db: Db): (r: Run)
    ensures r.err.None? && r.order == o
    ensures r.db == db.(lineItems := r.db.lineItems, shipments := r.db.shipments)
  {
    Run(o, RecalculateAll(db, Distinct(AdjustablesOf(db.adjustments, o.id))), None)
  }

  // ---------------------------------------------------------------- what one adjustment does to the totals

  /** A line item as recalculation over `targets` leaves it: recomputed exactly when it is a target. */
  function LineItemAfter(li: LineItem, adjustments: seq<Adjustment>, targets: seq<Adjustable>): LineItem
  {
    if LineItemRef(li.id) in targets then RecomputedLineItem(li, SumsFor(adjustments, LineItemRef(li.id))) else li
  }

  lemma {:induction false} RecalculateAllLineItems(db: Db, targets: seq<Adjustable>)
    ensures var r := RecalculateAll(db, targets);
      && |r.lineItems| == |db.lineItems|
      && (forall i :: 0 <= i < |db.lineItems| ==>
            r.lineItems[i] == LineItemAfter(db.lineItems[i], db.adjustments, targets))
    decreases |targets|
  {
    if targets != [] {
      var db1 := RecalculateOne(db, targets[0]);
      RecalculateAllLineItems(db1, targets[1..]);
      assert forall t :: t in targets <==> t == targets[0] || t in targets[1..] by {
        assert targets == [targets[0]] + targets[1..];
      }
    }
  }

  /** After recalculation, a shipment is recomputed exactly when its adjustable is a target. */
  lemma {:induction false} RecalculateAllShipments(db: Db, targets: seq<Adjustable>)
    ensures var r := RecalculateAll(db, targets);
      && |r.shipments| == |db.shipments|
      && (forall i :: 0 <= i < |db.shipments| ==>
            r.shipments[i] == (if ShipmentRef(db.shipments[i].id) in targets
             then RecomputedShipment(db.shipments[i], SumsFor(db.adjustments, ShipmentRef(db.shipments[i].id)))
             else db.shipments[i]))
    decreases |targets|
  {
    if targets != [] {
      var db1 := RecalculateOne(db, targets[0]);
      RecalculateAllShipments(db1, targets[1..]);
      assert forall t :: t in targets <==> t == targets[0] || t in targets[1..] by {
        assert targets == [targets[0]] + targets[1..];
      }
    }
  }

  /** A new adjustment of the order adds its adjustable to the order's adjustables, and nothing else. */
  lemma {:induction false} AdjustablesAppend(adjustments: seq<Adjustment>, a: Adjustment, orderId: nat)
    ensures AdjustablesOf(adjustments + [a], orderId)
            == AdjustablesOf(adjustments, orderId) + (if a.orderId == orderId then [a.adjustable] else [])
  {
    if adjustments == [] {
      assert [] + [a] == [a];
    } else {
      var head := if adjustments[0].orderId == orderId then [adjustments[0].adjustable] else [];
      var tail := if a.orderId == orderId then [a.adjustable] else [];
      assert (adjustments + [a])[0] == adjustments[0];
      assert (adjustments + [a])[1..] == adjustments[1..] + [a];
      assert AdjustablesOf(adjustments + [a], orderId) == head + AdjustablesOf(adjustments[1..] + [a], orderId);
      AdjustablesAppend(adjustments[1..], a, orderId);
      assert head + (AdjustablesOf(adjustments[1..], orderId) + tail)
          == (head + AdjustablesOf(adjustments[1..], orderId)) + tail;
    }
  }

  /** Two tables of line items that differ in one row have order sums that differ by that row. */
  lemma {:induction false} OrderItemsSumOneChanged(a: seq<LineItem>, b: seq<LineItem>, f: LineItem -> int, orderId: nat, k: nat)
    requires |a| == |b| && k < |a|
    requires forall i :: 0 <= i < |a| ==> a[i].orderId == b[i].orderId
    requires forall i :: 0 <= i < |a| && i != k ==> f(a[i]) == f(b[i])
    ensures SumOf(LineItemsOf(b, orderId), f)
            == SumOf(LineItemsOf(a, orderId), f) + (if a[k].orderId == orderId then f(b[k]) - f(a[k]) else 0)
  {
    var ha := if a[0].orderId == orderId then [a[0]] else [];
    var hb := if b[0].orderId == orderId then [b[0]] else [];
    SumOfConcat(ha, LineItemsOf(a[1..], orderId), f);
    SumOfConcat(hb, LineItemsOf(b[1..], orderId), f);
    if k == 0 {
      OrderItemsSumSame(a[1..], b[1..], f, orderId);
    } else {
      OrderItemsSumOneChanged(a[1..], b[1..], f, orderId, k - 1);
    }
  }

  lemma {:induction false} OrderItemsSumSame(a: seq<LineItem>, b: seq<LineItem>, f: LineItem -> int, orderId: nat)
    requires |a| == |b|
    requires forall i :: 0 <= i < |a| ==> a[i].orderId == b[i].orderId && f(a[i]) == f(b[i])
    ensures SumOf(LineItemsOf(b, orderId), f) == SumOf(LineItemsOf(a, orderId), f)
  {
    if a != [] {
      var ha := if a[0].orderId == orderId then [a[0]] else [];
      var hb := if b[0].orderId == orderId then [b[0]] else [];
      SumOfConcat(ha, LineItemsOf(a[1..], orderId), f);
      SumOfConcat(hb, LineItemsOf(b[1..], orderId), f);
      OrderItemsSumSame(a[1..], b[1..], f, orderId);
    }
  }

  /** The order's totals once its adjustables are recalculated: the first two steps of `:order_updater`. */
  function Recalculated(o: Order, db: Db): Order
  {
    UpdateOrderTotals(o, CalculateAdjustments(o, db).db)
  }

  /**
   * A new eligible adjustment on one of the order's line items, other than an included tax,
   * moves the recalculated adjustment total and the order total by exactly its amount, and
   * leaves the item and shipment totals alone.  This is how a unit cancellation's negative
   * adjustment lowers what the order costs.  The line item's stored adjustment total is
   * assumed current, which the previous recalculation leaves it.
   */
  lemma AdjustmentMovesTotal(o: Order, db: Db, a: Adjustment, k: nat)
    requires k < |db.lineItems| && db.lineItems[k].orderId == o.id
    requires forall i :: 0 <= i < |db.lineItems| && i != k ==> db.lineItems[i].id != db.lineItems[k].id
    requires a.adjustable == LineItemRef(db.lineItems[k].id) && a.orderId == o.id && a.eligible
    requires a.source != TaxRate(true)
    requires db.lineItems[k].adjustmentTotal == SumsFor(db.adjustments, a.adjustable).nonIncluded
    ensures var before := Recalculated(o, db);
      var after := Recalculated(o, db.(adjustments := db.adjustments + [a]));
      && after.adjustmentTotal == before.adjustmentTotal + a.amount
      && after.total == before.total + a.amount
      && after.itemTotal == before.itemTotal && after.shipmentTotal == before.shipmentTotal
  {
    var db' := db.(adjustments := db.adjustments + [a]);
    var r := CalculateAdjustments(o, db).db;
    var r' := CalculateAdjustments(o, db').db;
    RowsAfterNewAdjustment(o, db, a, k);
    OrderItemsSumOneChanged(r.lineItems, r'.lineItems, ItemAdjustmentTotal, o.id, k);
    OrderItemsSumOneChanged(r.lineItems, r'.lineItems, ItemAmount, o.id, k);
    SumsForAppend(db.adjustments, a, OrderRef(o.id));
    assert r.adjustments == db.adjustments && r'.adjustments == db'.adjustments;
  }

  /** The recalculated rows with and without the new adjustment: only the adjusted line item differs. */
  lemma RowsAfterNewAdjustment(o: Order, db: Db, a: Adjustment, k: nat)
    requires k < |db.lineItems|
    requires forall i :: 0 <= i < |db.lineItems| && i != k ==> db.lineItems[i].id != db.lineItems[k].id
    requires a.adjustable == LineItemRef(db.lineItems[k].id) && a.orderId == o.id && a.eligible
    requires a.source != TaxRate(true)
    requires db.lineItems[k].adjustmentTotal == SumsFor(db.adjustments, a.adjustable).nonIncluded
    ensures var r := CalculateAdjustments(o, db).db;
      var r' := CalculateAdjustments(o, db.(adjustments := db.adjustments + [a])).db;
      && |r.lineItems| == |r'.lineItems| == |db.lineItems|
      && r'.shipments == r.shipments
      && (forall i :: 0 <= i < |r.lineItems| ==> r.lineItems[i].orderId == r'.lineItems[i].orderId)
      && (forall i :: 0 <= i < |r.lineItems| && i != k ==> r'.lineItems[i] == r.lineItems[i])
      && r'.lineItems[k].adjustmentTotal == r.lineItems[k].adjustmentTotal + a.amount
      && LineItemAmount(r'.lineItems[k]) == LineItemAmount(r.lineItems[k])
      && r.lineItems[k].orderId == db.lineItems[k].orderId
  {
    var db' := db.(adjustments := db.adjustments + [a]);
    var targets := Distinct(AdjustablesOf(db.adjustments, o.id));
    var targets' := Distinct(AdjustablesOf(db'.adjustments, o.id));
    AdjustablesAppend(db.adjustments, a, o.id);
    assert forall t :: t in targets' <==> t in targets || t == a.adjustable;
    ShipmentsAfterNewAdjustment(db, a, targets, targets');
    LineItemsAfterNewAdjustment(db, a, k, targets, targets');
  }

  lemma ShipmentsAfterNewAdjustment(db: Db, a: Adjustment, targets: seq<Adjustable>, targets': seq<Adjustable>)
    requires a.adjustable.LineItemRef?
    requires forall t :: t in targets' <==> t in targets || t == a.adjustable
    ensures RecalculateAll(db.(adjustments := db.adjustments + [a]), targets').shipments
            == RecalculateAll(db, targets).shipments
  {
    var db' := db.(adjustments := db.adjustments + [a]);
    RecalculateAllShipments(db, targets);
    RecalculateAllShipments(db', targets');
    var r := RecalculateAll(db, targets);
    var r' := RecalculateAll(db', targets');
    forall i | 0 <= i < |r.shipments| ensures r'.shipments[i] == r.shipments[i] {
      SumsForAppend(db.adjustments, a, ShipmentRef(db.shipments[i].id));
    }
  }

  lemma LineItemsAfterNewAdjustment(db: Db, a: Adjustment, k: nat, targets: seq<Adjustable>, targets': seq<Adjustable>)
    requires k < |db.lineItems|
    requires forall i :: 0 <= i < |db.lineItems| && i != k ==> db.lineItems[i].id != db.lineItems[k].id
    requires a.adjustable == LineItemRef(db.lineItems[k].id) && a.eligible && a.source != TaxRate(true)
    requires db.lineItems[k].adjustmentTotal == SumsFor(db.adjustments, a.adjustable).nonIncluded
    requires forall t :: t in targets' <==> t in targets || t == a.adjustable
    ensures var r := RecalculateAll(db, targets);
      var r' := RecalculateAll(db.(adjustments := db.adjustments + [a]), targets');
      && |r.lineItems| == |r'.lineItems| == |db.lineItems|
      && (forall i :: 0 <= i < |r.lineItems| ==> r.lineItems[i].orderId == r'.lineItems[i].orderId)
      && (forall i :: 0 <= i < |r.lineItems| && i != k ==> r'.lineItems[i] == r.lineItems[i])
      && r'.lineItems[k].adjustmentTotal == r.lineItems[k].adjustmentTotal + a.amount
      && LineItemAmount(r'.lineItems[k]) == LineItemAmount(r.lineItems[k])
      && r.lineItems[k].orderId == db.lineItems[k].orderId
  {
    var db' := db.(adjustments := db.adjustments + [a]);
    RecalculateAllLineItems(db, targets);
    RecalculateAllLineItems(db', targets');
    var r := RecalculateAll(db, targets);
    var r' := RecalculateAll(db', targets');
    forall i | 0 <= i < |r.lineItems| && i != k ensures r'.lineItems[i] == r.lineItems[i] {
      SumsForAppend(db.adjustments, a, LineItemRef(db.lineItems[i].id));
    }
    SumsForAppend(db.adjustments, a, a.adjustable);
  }

  /**
   * The same new adjustment moves the recalculated total of its own line item by exactly its
   * amount, so an adjustment of minus the line item's total leaves the line item at zero.
   */
  lemma AdjustmentMovesLineItemTotal(o: Order, db: Db, a: Adjustment, k: nat)
    requires k < |db.lineItems|
    requires forall i :: 0 <= i < |db.lineItems| && i != k ==> db.lineItems[i].id != db.lineItems[k].id
    requires a.adjustable == LineItemRef(db.lineItems[k].id) && a.orderId == o.id && a.eligible
    requires a.source != TaxRate(true)
    requires db.lineItems[k].adjustmentTotal == SumsFor(db.adjustments, a.adjustable).nonIncluded
    ensures var r' := CalculateAdjustments(o, db.(adjustments := db.adjustments + [a])).db;
      k < |r'.lineItems| && LineItemTotal(r'.lineItems[k]) == LineItemTotal(db.lineItems[k]) + a.amount
  {
    RowsAfterNewAdjustment(o, db, a, k);
    RecalculateAllLineItems(db, Distinct(AdjustablesOf(db.adjustments, o.id)));
  }

  /** Recalculation and the totals read no inventory units. */
  lemma RecalculatedIgnoresUnits(o: Order, db: Db, units: seq<InventoryUnit>)
    ensures Recalculated(o, db.(units := units)) == Recalculated(o, db)
  {
    var targets := Distinct(AdjustablesOf(db.adjustments, o.id));
    RecalculateAllIgnoresUnits(db, targets, units);
  }

  lemma {:induction false} RecalculateAllIgnoresUnits(db: Db, targets: seq<Adjustable>, units: seq<InventoryUnit>)
    ensures RecalculateAll(db.(units := units), targets) == RecalculateAll(db, targets).(units := units)
    decreases |targets|
  {
    if targets != [] {
      assert RecalculateOne(db.(units := units), targets[0]) == RecalculateOne(db, targets[0]).(units := units);
      RecalculateAllIgnoresUnits(RecalculateOne(db, targets[0]), targets[1..], units);
    }
  }

  // ---------------------------------------------------------------- PersistOrderTotals

  /** The stored row once `update_columns` has written the in-memory states, totals and the time. */
  function PersistedRow(row: Order, o: Order, now: int): Order
  {
    row.(paymentState := o.paymentState, shipmentState := o.shipmentState, itemTotal := o.itemTotal,
         itemCount := o.itemCount, adjustmentTotal := o.adjustmentTotal, includedTaxTotal := o.includedTaxTotal,
         additionalTaxTotal := o.additionalTaxTotal, paymentTotal := o.paymentTotal,
         shipmentTotal := o.shipmentTotal, promoTotal := o.promoTotal, total := o.total, updatedAt := now)
  }

  /**
   * PersistOrderTotals#run: one `update_columns` of the order's row, which raises when the
   * order has no row.  No callback runs, so the pipeline is not entered again.
   */
  function PersistOrderTotals(o: Order, db: Db, now: int): (r: Run)
    ensures r.order == o
    ensures r.err.Some? <==> FindOrder(db.orders, o.id).None?
    ensures r.err.Some? ==> r.err == Some(RecordNotFound) && r.db == db
    ensures r.err.None? ==> r.db == db.(orders := PutOrder(db.orders, PersistedRow(FindOrder(db.orders, o.id).value, o, now)))
  {
    match FindOrder(db.orders, o.id)
    case None => Run(o, db, Some(RecordNotFound))
    case Some(row) => Run(o, db.(orders := PutOrder(db.orders, PersistedRow(row, o, now))), None)
  }

  /** The stored row carries exactly the in-memory values of the written columns, and keeps the others. */
  lemma PersistedRowMatches(row: Order, o: Order, now: int)
    ensures var p := PersistedRow(row, o, now);
      && p.paymentState == o.paymentState && p.shipmentState == o.shipmentState
      && p.itemTotal == o.itemTotal && p.itemCount == o.itemCount && p.adjustmentTotal == o.adjustmentTotal
      && p.includedTaxTotal == o.includedTaxTotal && p.additionalTaxTotal == o.additionalTaxTotal
      && p.paymentTotal == o.paymentTotal && p.shipmentTotal == o.shipmentTotal
      && p.promoTotal == o.promoTotal && p.total == o.total && p.updatedAt == now
      && p.id == row.id && p.state == row.state && p.completedAt == row.completedAt && p.currency == row.currency
  {
  }

  // ---------------------------------------------------------------- DenormalizeTotals

  /** Order#completed?, read as: the order has a completion time. */
  predicate Completed(o: Order)
  {
    o.completedAt.Some?
  }

  /**
   * DenormalizeTotals#run: the totals of UpdateOrderTotals, then, for a completed order only,
   * the payment state and the shipment state by the same rules, each change recorded.
   */
  function DenormalizeTotals(o: Order, db: Db): (r: Run)
    ensures r.err.None?
    ensures !Completed(o) ==> r.order.paymentState == o.paymentState && r.order.shipmentState == o.shipmentState
    ensures !Completed(o) ==> r.db == db
  {
    var totals := UpdateOrderTotals(o, db);
    if Completed(o) then
      var paid := UpdateOrderPaymentState(totals, db);
      UpdateOrderShipmentState(paid.order, paid.db)
    else Run(totals, db, None)
  }

  /** A completed order's denormalized fields are those of the three separate steps run in turn. */
  lemma DenormalizeMatchesSteps(o: Order, db: Db)
    requires Completed(o)
    ensures var t := UpdateOrderTotals(o, db);
      var p := UpdateOrderPaymentState(t, db);
      DenormalizeTotals(o, db) == UpdateOrderShipmentState(p.order, p.db)
    ensures DenormalizeTotals(o, db).order.total == DenormalizeTotals(o, db).order.itemTotal
            + DenormalizeTotals(o, db).order.shipmentTotal + DenormalizeTotals(o, db).order.adjustmentTotal
  {
  }

  // ---------------------------------------------------------------- the registry

  datatype Step = CalculateAdjustmentsStep | UpdateOrderTotalsStep | UpdateOrderPaymentStateStep
                | AdvanceShipmentsStep | UpdateOrderShipmentStateStep | PersistOrderTotalsStep

  /** The steps of `:order_updater`: the payment and shipment states come between two totals passes. */
  const OrderUpdaterSteps: seq<Step> := [
    CalculateAdjustmentsStep, UpdateOrderTotalsStep, UpdateOrderPaymentStateStep, AdvanceShipmentsStep,
    UpdateOrderShipmentStateStep, CalculateAdjustmentsStep, UpdateOrderTotalsStep, PersistOrderTotalsStep]

  /** `Behavior.registry[name]`. */
  function Registry(name: string): (r: Option<seq<Step>>)
    ensures r.Some? <==> name == "order_updater"
    ensures r.Some? ==> r.value == OrderUpdaterSteps && |r.value| == 8 && r.value[|r.value| - 1] == PersistOrderTotalsStep
  {
    if name == "order_updater" then Some(OrderUpdaterSteps) else None
  }

  function RunStep(step: Step, o: Order, db: Db, now: int): Run
  {
    match step
    case CalculateAdjustmentsStep => CalculateAdjustments(o, db)
    case UpdateOrderTotalsStep => Run(UpdateOrderTotals(o, db), db, None)
    case UpdateOrderPaymentStateStep => UpdateOrderPaymentState(o, db)
    case AdvanceShipmentsStep => AdvanceShipments(o, db, now)
    case UpdateOrderShipmentStateStep => UpdateOrderShipmentState(o, db)
    case PersistOrderTotalsStep => PersistOrderTotals(o, db, now)
  }

  /** The steps run in turn on the same order, stopping at the first that raises. */
  function RunSteps(steps: seq<Step>, o: Order, db: Db, now: int): (r: Run)
    decreases |steps|
  {
    if steps == [] then Run(o, db, None)
    else
      var first := RunStep(steps[0], o, db, now);
      if first.err.Some? then first else RunSteps(steps[1..], first.order, first.db, now)
  }

  /** `Behavior.call(name, order: order)`: raises for a name with no registered steps. */
  function CallBehavior(name: string, o: Order, db: Db, now: int): (r: Run)
    ensures Registry(name).None? ==> r == Run(o, db, Some(BehaviorNotFound))
  {
    match Registry(name)
    case None => Run(o, db, Some(BehaviorNotFound))
    case Some(steps) => RunSteps(steps, o, db, now)
  }
  /** The first four steps of `:order_updater`: recalculation, totals, payment state, shipments. */
  function OrderUpdaterFirstHalf(o: Order, db: Db, now: int): Run
  {
    var r1 := CalculateAdjustments(o, db);
    var r3 := UpdateOrderPaymentState(UpdateOrderTotals(o, r1.db), r1.db);
    AdvanceShipments(r3.order, r3.db, now)
  }

  /** The last four: shipment state, recalculation, totals, persistence. */
  function OrderUpdaterSecondHalf(o: Order, db: Db, now: int): Run
  {
    var r5 := UpdateOrderShipmentState(o, db);
    var r6 := CalculateAdjustments(r5.order, r5.db);
    PersistOrderTotals(UpdateOrderTotals(r6.order, r6.db), r6.db, now)
  }

  /** The eight steps of `:order_updater` written out one after another. */
  function OrderUpdaterRun(o: Order, db: Db, now: int): Run
  {
    var half := OrderUpdaterFirstHalf(o, db, now);
    OrderUpdaterSecondHalf(half.order, half.db, now)
  }

  /** One step of a run that does not raise hands its order and tables to the rest. */
  lemma RunStepsAt(steps: seq<Step>, k: nat, o: Order, db: Db, now: int)
    requires k < |steps|
    requires RunStep(steps[k], o, db, now).err.None?
    ensures RunSteps(steps[k..], o, db, now)
            == RunSteps(steps[k + 1..], RunStep(steps[k], o, db, now).order, RunStep(steps[k], o, db, now).db, now)
  {
    assert steps[k..][1..] == steps[k + 1..];
  }

  /** Step `k` of `:order_updater`, when it yields `r` without raising, hands `r` to the steps after it. */
  lemma StepAt(k: nat, step: Step, o: Order, db: Db, now: int, r: Run)
    requires k < |OrderUpdaterSteps| && OrderUpdaterSteps[k] == step
    requires RunStep(step, o, db, now) == r && r.err.None?
    ensures RunSteps(OrderUpdaterSteps[k..], o, db, now) == RunSteps(OrderUpdaterSteps[k + 1..], r.order, r.db, now)
  {
    RunStepsAt(OrderUpdaterSteps, k, o, db, now);
  }

  lemma FirstHalfSteps(o: Order, db: Db, now: int)
    ensures var half := OrderUpdaterFirstHalf(o, db, now);
      RunSteps(OrderUpdaterSteps, o, db, now) == RunSteps(OrderUpdaterSteps[4..], half.order, half.db, now)
  {
    var r1 := CalculateAdjustments(o, db);
    var t1 := UpdateOrderTotals(o, r1.db);
    assert OrderUpdaterSteps[0..] == OrderUpdaterSteps;
    StepAt(0, CalculateAdjustmentsStep, o, db, now, r1);
    StepAt(1, UpdateOrderTotalsStep, o, r1.db, now, Run(t1, r1.db, None));
    PaymentAndShipmentSteps(t1, r1.db, now);
  }

  lemma PaymentAndShipmentSteps(o: Order, db: Db, now: int)
    ensures var r3 := UpdateOrderPaymentState(o, db);
      RunSteps(OrderUpdaterSteps[2..], o, db, now)
      == RunSteps(OrderUpdaterSteps[4..], o.(paymentState := r3.order.paymentState), AdvanceShipments(r3.order, r3.db, now).db, now)
  {
    var r3 := UpdateOrderPaymentState(o, db);
    StepAt(2, UpdateOrderPaymentStateStep, o, db, now, r3);
    ShipmentsStep(r3.order, r3.db, now);
  }

  lemma ShipmentsStep(o: Order, db: Db, now: int)
    ensures RunSteps(OrderUpdaterSteps[3..], o, db, now) == RunSteps(OrderUpdaterSteps[4..], o, AdvanceShipments(o, db, now).db, now)
  {
    StepAt(3, AdvanceShipmentsStep, o, db, now, AdvanceShipments(o, db, now));
  }

  lemma SecondHalfSteps(o: Order, db: Db, now: int)
    ensures var r5 := UpdateOrderShipmentState(o, db);
      var r6 := CalculateAdjustments(r5.order, r5.db);
      RunSteps(OrderUpdaterSteps[4..], o, db, now) == PersistOrderTotals(UpdateOrderTotals(r6.order, r6.db), r6.db, now)
  {
    var r5 := UpdateOrderShipmentState(o, db);
    StepAt(4, UpdateOrderShipmentStateStep, o, db, now, r5);
    FromRecalculation(r5.order, r5.db, now);
  }

  lemma FromRecalculation(o: Order, db: Db, now: int)
    ensures var r6 := CalculateAdjustments(o, db);
      RunSteps(OrderUpdaterSteps[5..], o, db, now) == PersistOrderTotals(UpdateOrderTotals(r6.order, r6.db), r6.db, now)
  {
    var r6 := CalculateAdjustments(o, db);
    StepAt(5, CalculateAdjustmentsStep, o, db, now, r6);
    LastSteps(r6.order, r6.db, now);
  }

  lemma LastSteps(o: Order, db: Db, now: int)
    ensures RunSteps(OrderUpdaterSteps[6..], o, db, now) == PersistOrderTotals(UpdateOrderTotals(o, db), db, now)
  {
    StepAt(6, UpdateOrderTotalsStep, o, db, now, Run(UpdateOrderTotals(o, db), db, None));
    assert OrderUpdaterSteps[7..][1..] == [];
  }

  /** `Behavior.call(:order_updater)` runs every registered step once, in order, with none skipped. */
  lemma CallIsOrderUpdaterRun(o: Order, db: Db, now: int)
    ensures CallBehavior("order_updater", o, db, now) == OrderUpdaterRun(o, db, now)
  {
    FirstHalfSteps(o, db, now);
    var half := OrderUpdaterFirstHalf(o, db, now);
    SecondHalfSteps(half.order, half.db, now);
  }

  /**
   * The `:order_updater` pipeline raises only when the order has no row.  The payment state it
   * leaves is the decision table applied to the first totals pass; the totals it leaves satisfy
   * the total invariant; and, when it succeeds, the order's row holds exactly those values.
   */
  lemma OrderUpdaterPipeline(o: Order, db: Db, now: int)
    ensures var r := CallBehavior("order_updater", o, db, now);
      var first := Recalculated(o, db);
      && (r.err.Some? <==> FindOrder(db.orders, o.id).None?)
      && (r.err.Some? ==> r.err == Some(RecordNotFound))
      && r.order.total == r.order.itemTotal + r.order.shipmentTotal + r.order.adjustmentTotal
      && r.order.paymentState == Some(PaymentStateFor(LineItemsOf(CalculateAdjustments(o, db).db.lineItems, o.id) != [],
                                                      first.paymentTotal, first.total, PaymentsOf(db.payments, o.id),
                                                      o.state == OrderState.Canceled))
      && (r.err.None? ==> FindOrder(r.db.orders, o.id) == Some(PersistedRow(FindOrder(db.orders, o.id).value, r.order, now)))
  {
    CallIsOrderUpdaterRun(o, db, now);
    var r1 := CalculateAdjustments(o, db);
    var t1 := UpdateOrderTotals(o, r1.db);
    var r3 := UpdateOrderPaymentState(t1, r1.db);
    var r4 := AdvanceShipments(r3.order, r3.db, now);
    var r5 := UpdateOrderShipmentState(r4.order, r4.db);
    var r6 := CalculateAdjustments(r5.order, r5.db);
    var t7 := UpdateOrderTotals(r6.order, r6.db);
    assert r6.db.orders == db.orders;
    assert t7.paymentState == r3.order.paymentState;
    if FindOrder(db.orders, o.id).Some? {
      FindOrderAfterPut(db.orders, PersistedRow(FindOrder(db.orders, o.id).value, t7, now));
    }
  }
  // ---------------------------------------------------------------- the second totals pass

  /** Two shipments tables that agree row by row except in the state and the update time. */
  ghost predicate SameButState(a: seq<Shipment>, b: seq<Shipment>)
  {
    |a| == |b| && forall i :: 0 <= i < |a| ==> b[i] == a[i].(state := b[i].state, updatedAt := b[i].updatedAt)
  }

  /** `update!` writes only the state and the update time of the shipments it is given. */
  lemma {:induction false} AdvanceAllKeepsMoney(orig: seq<Shipment>, db: Db, shipments: seq<Shipment>, facts: Shipments.OrderFacts, now: int)
    requires UniqueShipmentIds(orig) && SameButState(orig, db.shipments)
    requires forall s :: s in shipments ==> s in orig
    ensures SameButState(orig, AdvanceAll(db, shipments, facts, now).shipments)
    decreases |shipments|
  {
    if shipments != [] {
      var s := shipments[0];
      var db1 := Shipments.Update(db, s, facts, now);
      forall i | 0 <= i < |orig|
        ensures db1.shipments[i] == orig[i].(state := db1.shipments[i].state, updatedAt := db1.shipments[i].updatedAt)
      {
        if db.shipments[i].id == s.id {
          assert s in orig by {
            assert shipments[0] in shipments;
          }
          var j :| 0 <= j < |orig| && orig[j] == s;
          assert orig[i].id == orig[j].id;
        }
      }
      assert forall t :: t in shipments[1..] ==> t in shipments;
      AdvanceAllKeepsMoney(orig, db1, shipments[1..], facts, now);
    }
  }

  /** Recomputing a recomputed row with the same sums changes nothing. */
  lemma RecomputeTwice(li: LineItem, sums: AdjustmentSums)
    ensures RecomputedLineItem(RecomputedLineItem(li, sums), sums) == RecomputedLineItem(li, sums)
  {
  }

  /** The money columns of a shipment, which the totals read. */
  predicate SameMoney(s: Shipment, t: Shipment)
  {
    s.orderId == t.orderId && s.cost == t.cost && s.adjustmentTotal == t.adjustmentTotal
    && s.promoTotal == t.promoTotal && s.includedTaxTotal == t.includedTaxTotal
    && s.additionalTaxTotal == t.additionalTaxTotal
  }

  lemma {:induction false} OrderShipmentsSumSame(a: seq<Shipment>, b: seq<Shipment>, f: Shipment -> int, orderId: nat)
    requires |a| == |b|
    requires forall i :: 0 <= i < |a| ==> a[i].orderId == b[i].orderId && f(a[i]) == f(b[i])
    ensures SumOf(ShipmentsOf(b, orderId), f) == SumOf(ShipmentsOf(a, orderId), f)
  {
    if a != [] {
      var ha := if a[0].orderId == orderId then [a[0]] else [];
      var hb := if b[0].orderId == orderId then [b[0]] else [];
      SumOfConcat(ha, ShipmentsOf(a[1..], orderId), f);
      SumOfConcat(hb, ShipmentsOf(b[1..], orderId), f);
      OrderShipmentsSumSame(a[1..], b[1..], f, orderId);
    }
  }

  /** The totals read nothing of the order but its id, and nothing of a shipment but its money columns. */
  lemma TotalsFromChildren(o: Order, o': Order, db: Db, db': Db)
    requires o.id == o'.id
    requires db'.lineItems == db.lineItems && db'.payments == db.payments && db'.adjustments == db.adjustments
    requires |db.shipments| == |db'.shipments|
    requires forall i :: 0 <= i < |db.shipments| ==> SameMoney(db.shipments[i], db'.shipments[i])
    ensures var t := UpdateOrderTotals(o, db); var t' := UpdateOrderTotals(o', db');
      && t'.itemCount == t.itemCount && t'.paymentTotal == t.paymentTotal && t'.itemTotal == t.itemTotal
      && t'.shipmentTotal == t.shipmentTotal && t'.adjustmentTotal == t.adjustmentTotal
      && t'.includedTaxTotal == t.includedTaxTotal && t'.additionalTaxTotal == t.additionalTaxTotal
      && t'.promoTotal == t.promoTotal && t'.total == t.total
  {
    OrderShipmentsSumSame(db.shipments, db'.shipments, ShipmentCost, o.id);
    OrderShipmentsSumSame(db.shipments, db'.shipments, ShipmentAdjustmentTotal, o.id);
    OrderShipmentsSumSame(db.shipments, db'.shipments, ShipmentPromoTotal, o.id);
    OrderShipmentsSumSame(db.shipments, db'.shipments, ShipmentIncludedTax, o.id);
    OrderShipmentsSumSame(db.shipments, db'.shipments, ShipmentAdditionalTax, o.id);
  }

  /**
   * The second recalculation of `:order_updater` finds nothing left to change: advancing the
   * shipments and assigning the states move no money, so the totals the pipeline leaves are
   * those of its first pass.
   */
  lemma SecondPassAgrees(o: Order, db: Db, now: int)
    requires UniqueShipmentIds(db.shipments)
    ensures var r := OrderUpdaterRun(o, db, now); var first := Recalculated(o, db);
      && r.order.itemCount == first.itemCount && r.order.paymentTotal == first.paymentTotal
      && r.order.itemTotal == first.itemTotal && r.order.shipmentTotal == first.shipmentTotal
      && r.order.adjustmentTotal == first.adjustmentTotal && r.order.promoTotal == first.promoTotal
      && r.order.includedTaxTotal == first.includedTaxTotal && r.order.additionalTaxTotal == first.additionalTaxTotal
      && r.order.total == first.total
  {
    var targets := Distinct(AdjustablesOf(db.adjustments, o.id));
    var r1 := CalculateAdjustments(o, db);
    var t1 := UpdateOrderTotals(o, r1.db);
    var r3 := UpdateOrderPaymentState(t1, r1.db);
    var r4 := AdvanceShipments(r3.order, r3.db, now);
    var r5 := UpdateOrderShipmentState(r4.order, r4.db);
    var r6 := CalculateAdjustments(r5.order, r5.db);
    SecondRecalculation(o, db, r1.db, r5.db, r6.db, targets, now, r3.order);
    TotalsFromChildren(o, r6.order, r1.db, r6.db);
  }

  lemma RecalculatedShipmentsUnique(db: Db, targets: seq<Adjustable>)
    requires UniqueShipmentIds(db.shipments)
    ensures UniqueShipmentIds(RecalculateAll(db, targets).shipments)
  {
    var db1 := RecalculateAll(db, targets);
    RecalculateAllShipments(db, targets);
    forall i, j | 0 <= i < j < |db1.shipments| ensures db1.shipments[i].id != db1.shipments[j].id {
      assert db.shipments[i].id != db.shipments[j].id;
    }
  }

  lemma SecondRecalculation(o: Order, db: Db, db1: Db, db5: Db, db6: Db, targets: seq<Adjustable>, now: int, o3: Order)
    requires UniqueShipmentIds(db.shipments)
    requires targets == Distinct(AdjustablesOf(db.adjustments, o.id))
    requires db1 == RecalculateAll(db, targets)
    requires var r3 := UpdateOrderPaymentState(UpdateOrderTotals(o, db1), db1);
      o3 == r3.order && db5 == UpdateOrderShipmentState(o3, AdvanceShipments(o3, r3.db, now).db).db
    requires db6 == RecalculateAll(db5, targets)
    ensures db6.lineItems == db1.lineItems && db6.payments == db1.payments && db6.adjustments == db1.adjustments
    ensures |db1.shipments| == |db6.shipments|
    ensures forall i :: 0 <= i < |db1.shipments| ==> SameMoney(db1.shipments[i], db6.shipments[i])
  {
    var r3 := UpdateOrderPaymentState(UpdateOrderTotals(o, db1), db1);
    RecalculateAllShipments(db, targets);
    RecalculatedShipmentsUnique(db, targets);
    MiddleStepsKeepMoney(o3, r3.db, now);
    LineItemsSettled(db, targets, db5);
    ShipmentsSettled(db, targets, db5);
  }

  /** Advancing the shipments and assigning the shipment state move no money. */
  lemma MiddleStepsKeepMoney(o3: Order, db3: Db, now: int)
    requires UniqueShipmentIds(db3.shipments)
    ensures var db5 := UpdateOrderShipmentState(o3, AdvanceShipments(o3, db3, now).db).db;
      && db5.lineItems == db3.lineItems && db5.payments == db3.payments && db5.adjustments == db3.adjustments
      && SameButState(db3.shipments, db5.shipments)
  {
    var ss := Persisted(ShipmentsOf(db3.shipments, o3.id));
    assert SameButState(db3.shipments, db3.shipments);
    AdvanceAllKeepsMoney(db3.shipments, db3, ss, FactsOf(o3), now);
  }

  /** Recalculating line items already recalculated from the same adjustments changes none of them. */
  lemma LineItemsSettled(db: Db, targets: seq<Adjustable>, db5: Db)
    requires db5.lineItems == RecalculateAll(db, targets).lineItems && db5.adjustments == db.adjustments
    ensures RecalculateAll(db5, targets).lineItems == RecalculateAll(db, targets).lineItems
  {
    LineItemsSettledPointwise(db, targets, db5);
    SameRows(RecalculateAll(db5, targets).lineItems, RecalculateAll(db, targets).lineItems);
  }

  lemma SameRows(xs: seq<LineItem>, ys: seq<LineItem>)
    requires |xs| == |ys| && forall i :: 0 <= i < |xs| ==> xs[i] == ys[i]
    ensures xs == ys
  {
  }

  lemma LineItemsSettledPointwise(db: Db, targets: seq<Adjustable>, db5: Db)
    requires db5.lineItems == RecalculateAll(db, targets).lineItems && db5.adjustments == db.adjustments
    ensures |RecalculateAll(db5, targets).lineItems| == |RecalculateAll(db, targets).lineItems|
    ensures forall i :: 0 <= i < |RecalculateAll(db, targets).lineItems| ==>
      RecalculateAll(db5, targets).lineItems[i] == RecalculateAll(db, targets).lineItems[i]
  {
    RecalculateAllLineItems(db, targets);
    RecalculateAllLineItems(db5, targets);
    var once := RecalculateAll(db, targets).lineItems;
    var twice := RecalculateAll(db5, targets).lineItems;
    forall i | 0 <= i < |once| ensures twice[i] == once[i] {
      LineItemAfterTwice(db.lineItems[i], db.adjustments, targets);
    }
  }

  lemma LineItemAfterTwice(li: LineItem, adjustments: seq<Adjustment>, targets: seq<Adjustable>)
    ensures LineItemAfter(LineItemAfter(li, adjustments, targets), adjustments, targets)
            == LineItemAfter(li, adjustments, targets)
  {
    RecomputeTwice(li, SumsFor(adjustments, LineItemRef(li.id)));
  }

  /** Recalculating shipments whose money was already recalculated from the same adjustments moves none of it. */
  lemma ShipmentsSettled(db: Db, targets: seq<Adjustable>, db5: Db)
    requires SameButState(RecalculateAll(db, targets).shipments, db5.shipments) && db5.adjustments == db.adjustments
    ensures |RecalculateAll(db5, targets).shipments| == |RecalculateAll(db, targets).shipments|
    ensures forall i :: 0 <= i < |RecalculateAll(db, targets).shipments| ==>
      SameMoney(RecalculateAll(db, targets).shipments[i], RecalculateAll(db5, targets).shipments[i])
  {
    RecalculateAllShipments(db, targets);
    RecalculateAllShipments(db5, targets);
    var db1 := RecalculateAll(db, targets);
    forall i | 0 <= i < |db1.shipments| ensures SameMoney(db1.shipments[i], RecalculateAll(db5, targets).shipments[i]) {
      assert db5.shipments[i].id == db.shipments[i].id;
    }
  }
}
