/**
 * OrderUpdater and Behavior.call as the imperative code they are: each step updates fields of
 * the one in-memory order object in place, and the rows it saves, in turn.  Every method is
 * proved to leave exactly the order and tables of the step functions in OrderBehaviors.
 */
module OrderUpdaters {
  import opened Wrappers
  import opened Money
  import opened Records
  import opened ShippingManifest
  import opened Stores
  import opened OrderBehaviors
  import Shipments

  class OrderUpdater {
    var order: Order
    const store: Store

    constructor (order: Order, store: Store)
      ensures this.order == order && this.store == store
    {
      this.order := order;
      this.store := store;
    }

    /** `Behavior.call(name, order: order)`: every registered step once, in order; a raise ends the run. */
    method Call(name: string, now: int) returns (err: Option<Error>)
      modifies this, store
      ensures Run(order, store.db, err) == CallBehavior(name, old(order), old(store.db), now)
    {
      var steps := Registry(name);
      if steps.None? {
        return Some(BehaviorNotFound);
      }
      var k := 0;
      err := None;
      while k < |steps.value| && err.None?
        invariant 0 <= k <= |steps.value|
        invariant err.None? ==>
          RunSteps(steps.value[k..], order, store.db, now) == RunSteps(steps.value, old(order), old(store.db), now)
        invariant err.Some? ==> Run(order, store.db, err) == RunSteps(steps.value, old(order), old(store.db), now)
      {
        assert steps.value[k..][1..] == steps.value[k + 1..];
        err := Perform(steps.value[k], now);
        k := k + 1;
      }
    }

    /** `run_item.new(order: order).run` for one step. */
    method Perform(step: Step, now: int) returns (err: Option<Error>)
      modifies this, store
      ensures Run(order, store.db, err) == RunStep(step, old(order), old(store.db), now)
    {
      err := None;
      match step
      case CalculateAdjustmentsStep => RecalculateAdjustments();
      case UpdateOrderTotalsStep => UpdateTotals();
      case UpdateOrderPaymentStateStep => UpdatePaymentState();
      case AdvanceShipmentsStep => UpdateShipments(now);
      case UpdateOrderShipmentStateStep => var _ := UpdateShipmentState();
      case PersistOrderTotalsStep => err := PersistTotals(now);
    }

    /**
     * `update`: the `:order_updater` pipeline on this order.  It raises only when the order has
     * no row, and otherwise leaves the row holding the totals it computed.
     */
    method Update(now: int) returns (err: Option<Error>)
      modifies this, store
      ensures Run(order, store.db, err) == OrderUpdaterRun(old(order), old(store.db), now)
      ensures err.Some? <==> FindOrder(old(store.db).orders, old(order).id).None?
      ensures order.total == order.itemTotal + order.shipmentTotal + order.adjustmentTotal
      ensures err.None? ==> FindOrder(store.db.orders, order.id)
                            == Some(PersistedRow(FindOrder(old(store.db).orders, order.id).value, order, now))
    {
      CallIsOrderUpdaterRun(order, store.db, now);
      OrderUpdaterPipeline(order, store.db, now);
      err := Call("order_updater", now);
    }

    /** `recalculate_adjustments`: ItemAdjustments#update on each distinct adjustable of the order's adjustments. */
    method RecalculateAdjustments()
      modifies store
      ensures Run(order, store.db, None) == CalculateAdjustments(order, old(store.db))
    {
      var targets := Distinct(AdjustablesOf(store.db.adjustments, order.id));
      ghost var start := store.db;
      var k := 0;
      while k < |targets|
        invariant 0 <= k <= |targets|
        invariant RecalculateAll(store.db, targets[k..]) == RecalculateAll(start, targets)
      {
        assert targets[k..][1..] == targets[k + 1..];
        store.db := RecalculateOne(store.db, targets[k]);
        k := k + 1;
      }
    }

    /** `update_totals`: every money and count field of the order read off its children. */
    method UpdateTotals()
      modifies this
      ensures order == UpdateOrderTotals(old(order), store.db)
    {
      var items := LineItemsOf(store.db.lineItems, order.id);
      var shipments := ShipmentsOf(store.db.shipments, order.id);
      var own := SumsFor(store.db.adjustments, OrderRef(order.id));
      order := order.(itemCount := Quantity(items));
      order := order.(paymentTotal := CompletedTotal(PaymentsOf(store.db.payments, order.id)));
      order := order.(itemTotal := SumOf(items, ItemAmount));
      order := order.(shipmentTotal := SumOf(shipments, ShipmentCost));
      order := order.(adjustmentTotal := SumOf(items, ItemAdjustmentTotal) + SumOf(shipments, ShipmentAdjustmentTotal) + own.eligible);
      order := order.(includedTaxTotal := SumOf(items, ItemIncludedTax) + SumOf(shipments, ShipmentIncludedTax));
      order := order.(additionalTaxTotal := SumOf(items, ItemAdditionalTax) + SumOf(shipments, ShipmentAdditionalTax));
      order := order.(promoTotal := SumOf(items, ItemPromoTotal) + SumOf(shipments, ShipmentPromoTotal) + own.promo);
      order := order.(total := order.itemTotal + order.shipmentTotal + order.adjustmentTotal);
    }

    /** `update_shipment_total`, which runs the whole totals step. */
    method UpdateShipmentTotal()
      modifies this
      ensures order == UpdateOrderTotals(old(order), store.db)
      ensures order.shipmentTotal == SumOf(ShipmentsOf(store.db.shipments, order.id), ShipmentCost)
    {
      UpdateTotals();
    }

    /** `update_order_total`, which runs the whole totals step. */
    method UpdateOrderTotal()
      modifies this
      ensures order == UpdateOrderTotals(old(order), store.db)
      ensures order.total == order.itemTotal + order.shipmentTotal + order.adjustmentTotal
    {
      UpdateTotals();
    }

    /** `update_item_count`, which runs the whole totals step. */
    method UpdateItemCount()
      modifies this
      ensures order == UpdateOrderTotals(old(order), store.db)
      ensures order.itemCount == Quantity(LineItemsOf(store.db.lineItems, order.id))
    {
      UpdateTotals();
    }

    /** `update_item_total`, which runs the whole totals step. */
    method UpdateItemTotal()
      modifies this
      ensures order == UpdateOrderTotals(old(order), store.db)
      ensures order.itemTotal == SumOf(LineItemsOf(store.db.lineItems, order.id), ItemAmount)
    {
      UpdateTotals();
    }

    /** `update_adjustment_total`: the adjustables recalculated, then the totals. */
    method UpdateAdjustmentTotal()
      modifies this, store
      ensures store.db == CalculateAdjustments(old(order), old(store.db)).db
      ensures order == Recalculated(old(order), old(store.db))
    {
      RecalculateAdjustments();
      UpdateTotals();
    }

    /** `update_shipments`: `update!(order)` on each persisted shipment of the order, in table order. */
    method UpdateShipments(now: int)
      modifies store
      ensures Run(order, store.db, None) == AdvanceShipments(order, old(store.db), now)
    {
      var shipments := Persisted(ShipmentsOf(store.db.shipments, order.id));
      var facts := FactsOf(order);
      ghost var start := store.db;
      var k := 0;
      while k < |shipments|
        invariant 0 <= k <= |shipments|
        invariant AdvanceAll(store.db, shipments[k..], facts, now) == AdvanceAll(start, shipments, facts, now)
      {
        assert shipments[k..][1..] == shipments[k + 1..];
        store.db := Shipments.Update(store.db, shipments[k], facts, now);
        k := k + 1;
      }
    }

    /** `persist_totals`: one `update_columns` of the order's row with the in-memory values. */
    method PersistTotals(now: int) returns (err: Option<Error>)
      modifies store
      ensures Run(order, store.db, err) == PersistOrderTotals(order, old(store.db), now)
      ensures err.Some? <==> FindOrder(old(store.db).orders, order.id).None?
    {
      match FindOrder(store.db.orders, order.id)
      case None =>
        err := Some(RecordNotFound);
      case Some(row) =>
        store.db := store.db.(orders := PutOrder(store.db.orders, PersistedRow(row, order, now)));
        err := None;
    }

    /** `update_shipment_state`: assigns the order's shipment state, records the change, and answers the state. */
    method UpdateShipmentState() returns (state: Option<OrderShipmentState>)
      modifies this, store
      ensures Run(order, store.db, None) == UpdateOrderShipmentState(old(order), old(store.db))
      ensures state == order.shipmentState
      ensures OrderBackordered(old(store.db), order.id) ==> state == Some(Backorder)
    {
      var was := order.shipmentState;
      state := ShipmentStateFor(OrderBackordered(store.db, order.id), ShipmentsOf(store.db.shipments, order.id));
      ShipmentStateForMeans(OrderBackordered(store.db, order.id), ShipmentsOf(store.db.shipments, order.id));
      order := order.(shipmentState := state);
      store.db := store.db.(stateChanges := store.db.stateChanges + [ShipmentStateChange(order.id, was, state)]);
    }

    /** `update_payment_state`: assigns the order's payment state by the decision table and records the change. */
    method UpdatePaymentState()
      modifies this, store
      ensures Run(order, store.db, None) == UpdateOrderPaymentState(old(order), old(store.db))
    {
      var was := order.paymentState;
      var next := PaymentStateFor(LineItemsOf(store.db.lineItems, order.id) != [], order.paymentTotal, order.total,
                                  PaymentsOf(store.db.payments, order.id), order.state == OrderState.Canceled);
      order := order.(paymentState := Some(next));
      store.db := store.db.(stateChanges := store.db.stateChanges + [PaymentStateChange(order.id, was, Some(next))]);
    }
  }
}
