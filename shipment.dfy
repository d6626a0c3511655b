/**
 * Shipment: the state machine of a shipment (ready, pend, ship, cancel, resume) with the
 * stock it gives back on cancel and takes again on resume, `determine_state`, `update!`,
 * `finalize!`, its money readers and the guards of the two transfer operations.
 *
 * The order a shipment belongs to enters only through three of its predicates, which are
 * not part of this model, and saving a shipment is taken to succeed.
 */
module Shipments {
  import opened Wrappers
  import opened Records
  import opened Stores
  import opened ShippingManifest
  import opened StockLocations
  import InventoryUnits

  /** What a shipment asks of its order: `canceled?`, `can_ship?` and `paid?`. */
  datatype OrderFacts = OrderFacts(canceled: bool, canShip: bool, paid: bool)

  // ---------------------------------------------------------------- readers

  /** `inventory_units`: the units of the units table that belong to the shipment. */
  function UnitsOf(units: seq<InventoryUnit>, shipmentId: nat): (r: seq<InventoryUnit>)
    ensures forall u :: u in r <==> u in units && u.shipmentId == Some(shipmentId)
  {
    if units == [] then []
    else
      assert forall u :: u in units <==> u == units[0] || u in units[1..] by {
        assert units == [units[0]] + units[1..];
      }
      (if units[0].shipmentId == Some(shipmentId) then [units[0]] else []) + UnitsOf(units[1..], shipmentId)
  }

  function UnitIds(units: seq<InventoryUnit>): (r: seq<nat>)
    ensures forall u :: u in units ==> u.id in r
  {
    if units == [] then []
    else
      assert forall u :: u in units <==> u == units[0] || u in units[1..] by {
        assert units == [units[0]] + units[1..];
      }
      [units[0].id] + UnitIds(units[1..])
  }

  /** `backordered?`: some unit of the shipment is backordered. */
  function AnyBackordered(units: seq<InventoryUnit>): (r: bool)
    ensures r <==> exists u :: u in units && u.state == UnitState.Backordered
  {
    if units == [] then false
    else
      assert forall u :: u in units <==> u == units[0] || u in units[1..] by {
        assert units == [units[0]] + units[1..];
      }
      units[0].state == UnitState.Backordered || AnyBackordered(units[1..])
  }

  /** `ready_or_pending?`. */
  function ReadyOrPending(s: Shipment): (r: bool)
    ensures r <==> s.state != ShipmentState.Shipped && s.state != ShipmentState.Canceled
  {
    s.state == ShipmentState.Ready || s.state == ShipmentState.Pending
  }

  /** `discounted_cost`: the cost with the promotions taken off. */
  function DiscountedCost(s: Shipment): int
  {
    s.cost + s.promoTotal
  }

  /** `tax_total`: only one of the two tax totals is ever set, so this is the tax of the shipment. */
  function TaxTotal(s: Shipment): (r: int)
    ensures s.includedTaxTotal == 0 ==> r == s.additionalTaxTotal
    ensures s.additionalTaxTotal == 0 ==> r == s.includedTaxTotal
  {
    s.includedTaxTotal + s.additionalTaxTotal
  }

  /** `final_price`: the discounted cost plus the tax. */
  function FinalPrice(s: Shipment): (r: int)
    ensures r - TaxTotal(s) == DiscountedCost(s)
    ensures s.includedTaxTotal == 0 && s.additionalTaxTotal == 0 ==> r == s.cost + s.promoTotal
  {
    DiscountedCost(s) + TaxTotal(s)
  }

  // ---------------------------------------------------------------- determine_state

  /**
   * `determine_state(order)`: canceled with the order; pending while the order cannot ship or
   * a unit is backordered; shipped stays shipped; otherwise ready once the order is paid.
   */
  function DetermineState(facts: OrderFacts, units: seq<InventoryUnit>, current: ShipmentState): (r: ShipmentState)
    ensures r == ShipmentState.Canceled <==> facts.canceled
    ensures r == ShipmentState.Shipped ==> current == ShipmentState.Shipped
    ensures r == ShipmentState.Ready ==> facts.canShip && facts.paid && current != ShipmentState.Shipped
                                         && forall u :: u in units ==> u.state != UnitState.Backordered
    ensures !facts.canceled && (!facts.canShip || AnyBackordered(units)) ==> r == ShipmentState.Pending
    ensures !facts.canceled && facts.canShip && !AnyBackordered(units) && current == ShipmentState.Shipped
            ==> r == ShipmentState.Shipped
  {
    if facts.canceled then ShipmentState.Canceled
    else if !facts.canShip then ShipmentState.Pending
    else if AnyBackordered(units) then ShipmentState.Pending
    else if current == ShipmentState.Shipped then ShipmentState.Shipped
    else if facts.paid then ShipmentState.Ready
    else ShipmentState.Pending
  }

  /** Writing the determined state and determining again gives the same state. */
  lemma DetermineStateIdempotent(facts: OrderFacts, units: seq<InventoryUnit>, current: ShipmentState)
    ensures DetermineState(facts, units, DetermineState(facts, units, current)) == DetermineState(facts, units, current)
  {
  }

  // ---------------------------------------------------------------- the state machine

  datatype ShipmentEvent = ReadyEvent | PendEvent | ShipEvent | CancelEvent | ResumeEvent

  /** A Ruby value as a guard compares it: `determine_state` answers with strings. */
  datatype RubyValue = Str(text: string) | Sym(name: string)

  function StateName(s: ShipmentState): RubyValue
  {
    match s
    case Pending => Str("pending")
    case Ready => Str("ready")
    case Shipped => Str("shipped")
    case Canceled => Str("canceled")
  }

  /**
   * The target of `resume` as written: both guarded transitions compare the string that
   * `determine_state` returns with the symbol `:ready`, which never holds, so the last
   * transition, to pending, is the one taken.
   */
  function ResumeTargetAsWritten(determined: ShipmentState): (r: ShipmentState)
    ensures r == ShipmentState.Pending
  {
    if StateName(determined) == Sym("ready") then ShipmentState.Ready
    else if StateName(determined) == Sym("ready") then ShipmentState.Pending
    else ShipmentState.Pending
  }

  /** A shipment that is ready to go is still resumed to pending as written. */
  lemma ResumeAsWrittenIgnoresReady()
    ensures StateName(ShipmentState.Ready) == Str("ready")
    ensures ResumeTargetAsWritten(ShipmentState.Ready) != ShipmentState.Ready
  {
  }

  /** The target of `resume` as evidently intended: ready when the shipment would be ready. */
  function ResumeTarget(determined: ShipmentState): (r: ShipmentState)
    ensures r == ShipmentState.Ready <==> determined == ShipmentState.Ready
    ensures r == ShipmentState.Ready || r == ShipmentState.Pending
  {
    if StateName(determined) == Str("ready") then ShipmentState.Ready else ShipmentState.Pending
  }

  /**
   * The transition an event takes from `from`, or None when the event cannot fire there.
   * `requiresShipment` is `requires_shipment?` (the stock location is fulfillable) and
   * `determined` is `determine_state(order)`.
   */
  function Transition(e: ShipmentEvent, from: ShipmentState, requiresShipment: bool, determined: ShipmentState)
    : (r: Option<ShipmentState>)
    ensures r.Some? ==> r.value != from
    ensures e == ReadyEvent ==>
      (r == Some(ShipmentState.Shipped) <==> from == ShipmentState.Pending && !requiresShipment)
      && (r == Some(ShipmentState.Ready) <==> from == ShipmentState.Pending && requiresShipment && determined == ShipmentState.Ready)
      && (r.None? <==> from != ShipmentState.Pending || (requiresShipment && determined != ShipmentState.Ready))
    ensures e == PendEvent ==> (r.Some? <==> from == ShipmentState.Ready) && (r.Some? ==> r.value == ShipmentState.Pending)
    ensures e == ShipEvent ==>
      (r.Some? <==> from == ShipmentState.Ready || from == ShipmentState.Canceled)
      && (r.Some? ==> r.value == ShipmentState.Shipped)
    ensures e == CancelEvent ==>
      (r.Some? <==> from == ShipmentState.Pending || from == ShipmentState.Ready)
      && (r.Some? ==> r.value == ShipmentState.Canceled)
    ensures e == ResumeEvent ==>
      (r.Some? <==> from == ShipmentState.Canceled)
      && (r.Some? ==> (r.value == ShipmentState.Ready <==> determined == ShipmentState.Ready))
  {
    match e
    case ReadyEvent =>
      if from != ShipmentState.Pending then None
      else if !requiresShipment then Some(ShipmentState.Shipped)
      else if StateName(determined) == Str("ready") then Some(ShipmentState.Ready)
      else None
    case PendEvent =>
      if from == ShipmentState.Ready then Some(ShipmentState.Pending) else None
    case ShipEvent =>
      if from == ShipmentState.Ready || from == ShipmentState.Canceled then Some(ShipmentState.Shipped) else None
    case CancelEvent =>
      if from == ShipmentState.Pending || from == ShipmentState.Ready then Some(ShipmentState.Canceled) else None
    case ResumeEvent =>
      if from == ShipmentState.Canceled then Some(ResumeTarget(determined)) else None
  }

  /** A canceled shipment is left only by `resume` and `ship`. */
  lemma LeavingCanceled(e: ShipmentEvent, requiresShipment: bool, determined: ShipmentState)
    requires Transition(e, ShipmentState.Canceled, requiresShipment, determined).Some?
    ensures e == ResumeEvent || e == ShipEvent
  {
  }

  // ---------------------------------------------------------------- stock hooks

  function Origin(shipmentId: nat): Originator
  {
    ShipmentOrigin(shipmentId)
  }

  /**
   * `manifest_restock(item)`: the on-hand units go back through a movement, the backordered
   * units through `restock_backordered`, each only when there are some.
   */
  function RestockItem(db: Db, loc: StockLocation, shipmentId: nat, it: ManifestItem): (r: Db)
    ensures r == db.(stockItems := r.stockItems, stockMovements := r.stockMovements)
  {
    var onHand := CountIn(it.states, UnitState.OnHand);
    var back := CountIn(it.states, UnitState.Backordered);
    var db1 := if onHand > 0 then Restock(db, loc, it.variantId, onHand, Origin(shipmentId)).value else db;
    if back > 0 then RestockBackordered(db1, loc, it.variantId, back) else db1
  }

  /** `after_cancel`: every item of the manifest restocked, in order. */
  function RestockAll(db: Db, loc: StockLocation, shipmentId: nat, items: seq<ManifestItem>): (r: Db)
    ensures r == db.(stockItems := r.stockItems, stockMovements := r.stockMovements)
    decreases |items|
  {
    if items == [] then db
    else RestockAll(RestockItem(db, loc, shipmentId, items[0]), loc, shipmentId, items[1..])
  }

  /**
   * `after_resume` and the second half of `finalize!`: every item's quantity unstocked, in
   * order, stopping at the first movement that raises; the movements made before it stay.
   */
  function UnstockAll(db: Db, loc: StockLocation, shipmentId: nat, items: seq<ManifestItem>): (r: Outcome)
    ensures r.db == db.(stockItems := r.db.stockItems, stockMovements := r.db.stockMovements)
    ensures r.err.Some? ==> r.err == Some(InvalidMovement)
    decreases |items|
  {
    if items == [] then Outcome(db, None)
    else
      match Unstock(db, loc, items[0].variantId, items[0].quantity, Origin(shipmentId))
      case Err(e) => Outcome(db, Some(e))
      case Ok(db1) => UnstockAll(db1, loc, shipmentId, items[1..])
  }

  method AfterCancel(store: Store, loc: StockLocation, shipmentId: nat, items: seq<ManifestItem>)
    modifies store
    ensures store.db == RestockAll(old(store.db), loc, shipmentId, items)
  {
    var k := 0;
    while k < |items|
      invariant 0 <= k <= |items|
      invariant RestockAll(store.db, loc, shipmentId, items[k..]) == RestockAll(old(store.db), loc, shipmentId, items)
    {
      assert items[k..][1..] == items[k + 1..];
      store.db := RestockItem(store.db, loc, shipmentId, items[k]);
      k := k + 1;
    }
  }

  method UnstockManifest(store: Store, loc: StockLocation, shipmentId: nat, items: seq<ManifestItem>)
    returns (err: Option<Error>)
    modifies store
    ensures Outcome(store.db, err) == UnstockAll(old(store.db), loc, shipmentId, items)
  {
    var db := store.db;
    var k := 0;
    err := None;
    while k < |items| && err.None?
      invariant 0 <= k <= |items|
      invariant err.None? ==> UnstockAll(db, loc, shipmentId, items[k..]) == UnstockAll(old(store.db), loc, shipmentId, items)
      invariant err.Some? ==> Outcome(db, err) == UnstockAll(old(store.db), loc, shipmentId, items)
    {
      var moved := Unstock(db, loc, items[k].variantId, items[k].quantity, Origin(shipmentId));
      UnstockAllFirst(db, loc, shipmentId, items[k..]);
      assert items[k..][0] == items[k] && items[k..][1..] == items[k + 1..];
      if moved.Err? {
        err := Some(moved.error);
      } else {
        db := moved.value;
      }
      k := k + 1;
    }
    store.db := db;
  }

  /** The first item of a non-empty manifest either raises, leaving the tables as they were, or hands its tables on. */
  lemma UnstockAllFirst(db: Db, loc: StockLocation, shipmentId: nat, items: seq<ManifestItem>)
    requires items != []
    ensures var moved := Unstock(db, loc, items[0].variantId, items[0].quantity, Origin(shipmentId));
      UnstockAll(db, loc, shipmentId, items)
      == if moved.Err? then Outcome(db, Some(moved.error)) else UnstockAll(moved.value, loc, shipmentId, items[1..])
  {
  }

  // ---------------------------------------------------------------- firing an event

  /** `after_ship`: the shipment is handed to the order's shipping, recorded as a notice. */
  function AfterShip(db: Db, shipmentId: nat): (r: Db)
    ensures r == db.(shipNotices := db.shipNotices + [shipmentId])
  {
    db.(shipNotices := db.shipNotices + [shipmentId])
  }

  /**
   * The callbacks after a transition, in the order they are declared: `after_ship` on
   * entering shipped, `after_cancel` on entering canceled, `after_resume` on leaving canceled,
   * and the state change log for every transition.  Without a transaction, an unstock that
   * raises leaves the saved state and the earlier writes in place and logs nothing.
   */
  function AfterTransition(db: Db, loc: StockLocation, shipmentId: nat, from: ShipmentState, to: ShipmentState,
                           items: seq<ManifestItem>): (r: Outcome)
    ensures r.err.Some? ==> r.err == Some(InvalidMovement)
  {
    var db1 := if to == ShipmentState.Shipped then AfterShip(db, shipmentId) else db;
    var db2 := if to == ShipmentState.Canceled then RestockAll(db1, loc, shipmentId, items) else db1;
    var o := if from == ShipmentState.Canceled then UnstockAll(db2, loc, shipmentId, items) else Outcome(db2, None);
    if o.err.Some? then o
    else Outcome(o.db.(stateChanges := o.db.stateChanges + [ShipmentTransition(shipmentId, from, to)]), None)
  }

  /**
   * Firing event `e` on shipment `shipmentId` at time `now`: the transition is chosen, the new
   * state saved, and the callbacks run.  An event that cannot fire raises and changes nothing.
   */
  function FireSpec(db: Db, shipmentId: nat, e: ShipmentEvent, facts: OrderFacts, now: int): (r: Outcome)
    ensures r.err == Some(RecordNotFound) || r.err == Some(InvalidTransition) ==> r.db == db
  {
    match FindShipment(db.shipments, shipmentId)
    case None => Outcome(db, Some(RecordNotFound))
    case Some(s) =>
      match FindStockLocation(db.stockLocations, s.stockLocationId)
      case None => Outcome(db, Some(RecordNotFound))
      case Some(loc) =>
        var units := UnitsOf(db.units, shipmentId);
        match Transition(e, s.state, loc.fulfillable, DetermineState(facts, units, s.state))
        case None => Outcome(db, Some(InvalidTransition))
        case Some(to) =>
          var saved := db.(shipments := PutShipment(db.shipments, s.(state := to, updatedAt := now)));
          AfterTransition(saved, loc, shipmentId, s.state, to, Manifest(units))
  }

  method Fire(store: Store, shipmentId: nat, e: ShipmentEvent, facts: OrderFacts, now: int)
    returns (err: Option<Error>)
    modifies store
    ensures Outcome(store.db, err) == FireSpec(old(store.db), shipmentId, e, facts, now)
  {
    var found := FindShipment(store.db.shipments, shipmentId);
    if found.None? {
      return Some(RecordNotFound);
    }
    var s := found.value;
    var place := FindStockLocation(store.db.stockLocations, s.stockLocationId);
    if place.None? {
      return Some(RecordNotFound);
    }
    var loc := place.value;
    var units := UnitsOf(store.db.units, shipmentId);
    var next := Transition(e, s.state, loc.fulfillable, DetermineState(facts, units, s.state));
    if next.None? {
      return Some(InvalidTransition);
    }
    var to := next.value;
    var items := Manifest(units);
    store.db := store.db.(shipments := PutShipment(store.db.shipments, s.(state := to, updatedAt := now)));
    if to == ShipmentState.Shipped {
      store.db := AfterShip(store.db, shipmentId);
    }
    if to == ShipmentState.Canceled {
      AfterCancel(store, loc, shipmentId, items);
    }
    if s.state == ShipmentState.Canceled {
      err := UnstockManifest(store, loc, shipmentId, items);
      if err.Some? {
        return;
      }
    }
    store.db := store.db.(stateChanges := store.db.stateChanges + [ShipmentTransition(shipmentId, s.state, to)]);
    err := None;
  }

  /**
   * An event fires exactly when its transition exists; when it fires and nothing raises, the
   * shipment holds the new state and time, one transition is logged, and a notice is sent
   * exactly when the new state is shipped.
   */
  lemma FireEffect(db: Db, shipmentId: nat, e: ShipmentEvent, facts: OrderFacts, now: int)
    requires FindShipment(db.shipments, shipmentId).Some?
    requires FindStockLocation(db.stockLocations, FindShipment(db.shipments, shipmentId).value.stockLocationId).Some?
    ensures var s := FindShipment(db.shipments, shipmentId).value;
            var loc := FindStockLocation(db.stockLocations, s.stockLocationId).value;
            var next := Transition(e, s.state, loc.fulfillable, DetermineState(facts, UnitsOf(db.units, shipmentId), s.state));
            var r := FireSpec(db, shipmentId, e, facts, now);
            && (next.None? <==> r.err == Some(InvalidTransition))
            && (r.err.None? ==>
                  && FindShipment(r.db.shipments, shipmentId) == Some(s.(state := next.value, updatedAt := now))
                  && r.db.stateChanges == db.stateChanges + [ShipmentTransition(shipmentId, s.state, next.value)]
                  && r.db.shipNotices == db.shipNotices + (if next.value == ShipmentState.Shipped then [shipmentId] else []))
  {
    var s := FindShipment(db.shipments, shipmentId).value;
    var loc := FindStockLocation(db.stockLocations, s.stockLocationId).value;
    var units := UnitsOf(db.units, shipmentId);
    var next := Transition(e, s.state, loc.fulfillable, DetermineState(facts, units, s.state));
    if next.Some? {
      var saved := db.(shipments := PutShipment(db.shipments, s.(state := next.value, updatedAt := now)));
      FindShipmentAfterPut(db.shipments, s.(state := next.value, updatedAt := now));
      AfterTransitionWrites(saved, loc, shipmentId, s.state, next.value, Manifest(units));
    }
  }

  /** The callbacks leave the shipments alone, log the transition, and send a notice only on shipping. */
  lemma AfterTransitionWrites(db: Db, loc: StockLocation, shipmentId: nat, from: ShipmentState, to: ShipmentState,
                              items: seq<ManifestItem>)
    ensures var r := AfterTransition(db, loc, shipmentId, from, to, items);
            r.err.None? ==>
              && r.db.shipments == db.shipments
              && r.db.stateChanges == db.stateChanges + [ShipmentTransition(shipmentId, from, to)]
              && r.db.shipNotices == db.shipNotices + (if to == ShipmentState.Shipped then [shipmentId] else [])
  {
  }

  // ---------------------------------------------------------------- cancel and resume

  /** The units of a manifest item that `manifest_restock` puts back. */
  function Returned(it: ManifestItem): nat
  {
    CountIn(it.states, UnitState.OnHand) + CountIn(it.states, UnitState.Backordered)
  }

  /** The units of variant `w` that restocking the items puts back. */
  function RestockedFor(items: seq<ManifestItem>, w: nat): nat
  {
    if items == [] then 0
    else (if items[0].variantId == w then Returned(items[0]) else 0) + RestockedFor(items[1..], w)
  }

  /** The units of variant `w` that unstocking the items takes. */
  function QuantityFor(items: seq<ManifestItem>, w: nat): nat
  {
    if items == [] then 0
    else (if items[0].variantId == w then items[0].quantity else 0) + QuantityFor(items[1..], w)
  }

  /** Restocking one item adds its returned units to its variant at the location, and only there. */
  lemma RestockItemEffect(db: Db, loc: StockLocation, shipmentId: nat, it: ManifestItem, l: nat, w: nat)
    ensures CountOrZero(RestockItem(db, loc, shipmentId, it).stockItems, l, w)
            == CountOrZero(db.stockItems, l, w) + (if l == loc.id && w == it.variantId then Returned(it) else 0)
    ensures StockItemOf(db.stockItems, l, w).Some? || (l == loc.id && w == it.variantId && Returned(it) > 0)
            ==> StockItemOf(RestockItem(db, loc, shipmentId, it).stockItems, l, w).Some?
  {
    var onHand := CountIn(it.states, UnitState.OnHand);
    var back := CountIn(it.states, UnitState.Backordered);
    var db1 := if onHand > 0 then Restock(db, loc, it.variantId, onHand, Origin(shipmentId)).value else db;
    if onHand > 0 {
      AddToCountEffect(db.stockItems, loc.id, it.variantId, onHand, l, w);
    }
    if back > 0 {
      AddToCountEffect(db1.stockItems, loc.id, it.variantId, back, l, w);
    }
  }

  /** `after_cancel` adds, for each variant at the location, the units the manifest returns. */
  lemma {:induction false} RestockAllEffect(db: Db, loc: StockLocation, shipmentId: nat, items: seq<ManifestItem>, l: nat, w: nat)
    ensures CountOrZero(RestockAll(db, loc, shipmentId, items).stockItems, l, w)
            == CountOrZero(db.stockItems, l, w) + (if l == loc.id then RestockedFor(items, w) else 0)
    ensures StockItemOf(db.stockItems, l, w).Some? || (l == loc.id && RestockedFor(items, w) > 0)
            ==> StockItemOf(RestockAll(db, loc, shipmentId, items).stockItems, l, w).Some?
    decreases |items|
  {
    if items != [] {
      RestockItemEffect(db, loc, shipmentId, items[0], l, w);
      RestockAllEffect(RestockItem(db, loc, shipmentId, items[0]), loc, shipmentId, items[1..], l, w);
    }
  }

  /**
   * When the location has an item for every variant of the manifest, unstocking it raises
   * nothing and takes each variant's quantity from that variant's count.
   */
  lemma {:induction false} UnstockAllEffect(db: Db, loc: StockLocation, shipmentId: nat, items: seq<ManifestItem>, l: nat, w: nat)
    requires forall it :: it in items ==> StockItemOf(db.stockItems, loc.id, it.variantId).Some?
    ensures UnstockAll(db, loc, shipmentId, items).err.None?
    ensures CountOrZero(UnstockAll(db, loc, shipmentId, items).db.stockItems, l, w)
            == CountOrZero(db.stockItems, l, w) - (if l == loc.id then QuantityFor(items, w) else 0)
    decreases |items|
  {
    if items != [] {
      assert items[0] in items;
      var db1 := Unstock(db, loc, items[0].variantId, items[0].quantity, Origin(shipmentId)).value;
      AddToCountEffect(db.stockItems, loc.id, items[0].variantId, -(items[0].quantity as int), l, w);
      forall it | it in items[1..] ensures StockItemOf(db1.stockItems, loc.id, it.variantId).Some? {
        assert it in items;
        AddToCountEffect(db.stockItems, loc.id, items[0].variantId, -(items[0].quantity as int), loc.id, it.variantId);
      }
      UnstockAllEffect(db1, loc, shipmentId, items[1..], l, w);
    }
  }

  lemma {:induction false} RestockedForCovers(items: seq<ManifestItem>, it: ManifestItem)
    requires it in items
    ensures RestockedFor(items, it.variantId) >= Returned(it)
  {
    if items[0] != it {
      RestockedForCovers(items[1..], it);
    }
  }

  lemma {:induction false} RestockedIsQuantity(items: seq<ManifestItem>, w: nat)
    requires forall it :: it in items ==> Returned(it) == it.quantity
    ensures RestockedFor(items, w) == QuantityFor(items, w)
  {
    if items != [] {
      assert items[0] in items;
      RestockedIsQuantity(items[1..], w);
    }
  }

  /**
   * Canceling a pending or ready shipment whose units are all on hand or backordered and then
   * resuming it succeeds, and leaves every stock count as it was: cancel puts back each unit
   * and resume takes each one again.
   */
  lemma CancelThenResumeRestoresStock(db: Db, shipmentId: nat, f1: OrderFacts, f2: OrderFacts, t1: int, t2: int, l: nat, w: nat)
    requires FindShipment(db.shipments, shipmentId).Some?
    requires ReadyOrPending(FindShipment(db.shipments, shipmentId).value)
    requires FindStockLocation(db.stockLocations, FindShipment(db.shipments, shipmentId).value.stockLocationId).Some?
    requires forall u :: u in UnitsOf(db.units, shipmentId) ==> u.state == UnitState.OnHand || u.state == UnitState.Backordered
    ensures FireSpec(db, shipmentId, CancelEvent, f1, t1).err.None?
    ensures FireSpec(FireSpec(db, shipmentId, CancelEvent, f1, t1).db, shipmentId, ResumeEvent, f2, t2).err.None?
    ensures CountOrZero(FireSpec(FireSpec(db, shipmentId, CancelEvent, f1, t1).db, shipmentId, ResumeEvent, f2, t2).db.stockItems, l, w)
            == CountOrZero(db.stockItems, l, w)
  {
    var s := FindShipment(db.shipments, shipmentId).value;
    var loc := FindStockLocation(db.stockLocations, s.stockLocationId).value;
    var units := UnitsOf(db.units, shipmentId);
    var items := Manifest(units);
    var s1 := s.(state := ShipmentState.Canceled, updatedAt := t1);
    var saved := db.(shipments := PutShipment(db.shipments, s1));
    var restocked := RestockAll(saved, loc, shipmentId, items);
    var c := restocked.(stateChanges := restocked.stateChanges + [ShipmentTransition(shipmentId, s.state, ShipmentState.Canceled)]);
    CancelFromReadyOrPending(db, shipmentId, f1, t1);

    FindShipmentAfterPut(db.shipments, s1);
    assert FindShipment(c.shipments, shipmentId) == Some(s1);
    var to := ResumeTarget(DetermineState(f2, units, ShipmentState.Canceled));
    var saved2 := c.(shipments := PutShipment(c.shipments, s1.(state := to, updatedAt := t2)));
    forall it | it in items ensures StockItemOf(saved2.stockItems, loc.id, it.variantId).Some? {
      PreShipmentItem(units, it);
      RestockedForCovers(items, it);
      RestockAllEffect(saved, loc, shipmentId, items, loc.id, it.variantId);
    }
    UnstockAllEffect(saved2, loc, shipmentId, items, l, w);
    ResumeFromCanceled(c, shipmentId, f2, t2);

    RestockAllEffect(saved, loc, shipmentId, items, l, w);
    forall it | it in items ensures Returned(it) == it.quantity {
      PreShipmentItem(units, it);
    }
    RestockedIsQuantity(items, w);
  }

  /** Canceling a ready or pending shipment saves the canceled state, restocks its manifest and logs the change. */
  lemma CancelFromReadyOrPending(db: Db, shipmentId: nat, facts: OrderFacts, now: int)
    requires FindShipment(db.shipments, shipmentId).Some?
    requires ReadyOrPending(FindShipment(db.shipments, shipmentId).value)
    requires FindStockLocation(db.stockLocations, FindShipment(db.shipments, shipmentId).value.stockLocationId).Some?
    ensures var s := FindShipment(db.shipments, shipmentId).value;
      var loc := FindStockLocation(db.stockLocations, s.stockLocationId).value;
      var saved := db.(shipments := PutShipment(db.shipments, s.(state := ShipmentState.Canceled, updatedAt := now)));
      var restocked := RestockAll(saved, loc, shipmentId, Manifest(UnitsOf(db.units, shipmentId)));
      FireSpec(db, shipmentId, CancelEvent, facts, now)
      == Outcome(restocked.(stateChanges := restocked.stateChanges + [ShipmentTransition(shipmentId, s.state, ShipmentState.Canceled)]), None)
  {
  }

  /** Resuming a canceled shipment saves the resumed state and then takes its units from stock again. */
  lemma ResumeFromCanceled(db: Db, shipmentId: nat, facts: OrderFacts, now: int)
    requires FindShipment(db.shipments, shipmentId).Some?
    requires FindShipment(db.shipments, shipmentId).value.state == ShipmentState.Canceled
    requires FindStockLocation(db.stockLocations, FindShipment(db.shipments, shipmentId).value.stockLocationId).Some?
    ensures var s := FindShipment(db.shipments, shipmentId).value;
            var loc := FindStockLocation(db.stockLocations, s.stockLocationId).value;
            var units := UnitsOf(db.units, shipmentId);
            var to := ResumeTarget(DetermineState(facts, units, ShipmentState.Canceled));
            var o := UnstockAll(db.(shipments := PutShipment(db.shipments, s.(state := to, updatedAt := now))),
                                loc, shipmentId, Manifest(units));
            var r := FireSpec(db, shipmentId, ResumeEvent, facts, now);
            r.err == o.err && r.db.stockItems == o.db.stockItems
  {
  }

  // ---------------------------------------------------------------- update! and finalize!

  /**
   * `update!(order)`: writes the determined state and the time, bypassing the state machine,
   * and runs `after_ship` when the state newly becomes shipped.
   */
  function Update(db: Db, s: Shipment, facts: OrderFacts, now: int): (r: Db)
    ensures r.shipments == PutShipment(db.shipments, s.(state := DetermineState(facts, UnitsOf(db.units, s.id), s.state), updatedAt := now))
    ensures r == db.(shipments := r.shipments, shipNotices := r.shipNotices)
  {
    var next := DetermineState(facts, UnitsOf(db.units, s.id), s.state);
    var written := db.(shipments := PutShipment(db.shipments, s.(state := next, updatedAt := now)));
    if StateName(next) == Str("shipped") && StateName(s.state) != Str("shipped") then AfterShip(written, s.id)
    else written
  }

  /**
   * `determine_state` answers shipped only for a shipment that is already shipped, so the
   * `after_ship` of `update!` never runs: no shipment is handed to shipping by an update.
   */
  lemma UpdateNeverShips(db: Db, s: Shipment, facts: OrderFacts, now: int)
    ensures Update(db, s, facts, now).shipNotices == db.shipNotices
  {
  }

  /**
   * `finalize!`: every unit of the shipment finalized, then every item of the manifest
   * unstocked.  The stock location is looked up by the first unstock.
   */
  function FinalizeSpec(db: Db, shipmentId: nat, now: int): (r: Outcome)
    ensures r.err.None? ==> FindShipment(db.shipments, shipmentId).Some?
  {
    match FindShipment(db.shipments, shipmentId)
    case None => Outcome(db, Some(RecordNotFound))
    case Some(s) =>
      var units := UnitsOf(db.units, shipmentId);
      var finalized := db.(units := InventoryUnits.FinalizeTable(db.units, UnitIds(units), now));
      var items := Manifest(units);
      if items == [] then Outcome(finalized, None)
      else
        match FindStockLocation(db.stockLocations, s.stockLocationId)
        case None => Outcome(finalized, Some(RecordNotFound))
        case Some(loc) => UnstockAll(finalized, loc, shipmentId, items)
  }

  method Finalize(store: Store, shipmentId: nat, now: int) returns (err: Option<Error>)
    modifies store
    ensures Outcome(store.db, err) == FinalizeSpec(old(store.db), shipmentId, now)
  {
    var found := FindShipment(store.db.shipments, shipmentId);
    if found.None? {
      return Some(RecordNotFound);
    }
    var units := UnitsOf(store.db.units, shipmentId);
    var items := Manifest(units);
    InventoryUnits.FinalizeUnits(store, UnitIds(units), now);
    if items == [] {
      return None;
    }
    var place := FindStockLocation(store.db.stockLocations, found.value.stockLocationId);
    if place.None? {
      return Some(RecordNotFound);
    }
    err := UnstockManifest(store, place.value, shipmentId, items);
  }

  /**
   * When the location has an item for every variant of the manifest, `finalize!` raises
   * nothing, leaves every unit of the shipment finalized, and takes each variant's quantity
   * from its count at the shipment's location.
   */
  lemma FinalizeEffect(db: Db, shipmentId: nat, now: int, l: nat, w: nat)
    requires FindShipment(db.shipments, shipmentId).Some?
    requires Manifest(UnitsOf(db.units, shipmentId)) != [] ==>
      var locId := FindShipment(db.shipments, shipmentId).value.stockLocationId;
      && FindStockLocation(db.stockLocations, locId).Some?
      && forall it :: it in Manifest(UnitsOf(db.units, shipmentId)) ==> StockItemOf(db.stockItems, locId, it.variantId).Some?
    ensures FinalizeSpec(db, shipmentId, now).err.None?
    ensures forall u :: u in FinalizeSpec(db, shipmentId, now).db.units && u.shipmentId == Some(shipmentId) ==> !u.pending
    ensures CountOrZero(FinalizeSpec(db, shipmentId, now).db.stockItems, l, w)
            == CountOrZero(db.stockItems, l, w)
               - (if l == FindShipment(db.shipments, shipmentId).value.stockLocationId
                  then QuantityFor(Manifest(UnitsOf(db.units, shipmentId)), w) else 0)
  {
    var s := FindShipment(db.shipments, shipmentId).value;
    var units := UnitsOf(db.units, shipmentId);
    var ids := UnitIds(units);
    var finalized := db.(units := InventoryUnits.FinalizeTable(db.units, ids, now));
    var items := Manifest(units);
    if items != [] {
      var loc := FindStockLocation(db.stockLocations, s.stockLocationId).value;
      UnstockAllEffect(finalized, loc, shipmentId, items, l, w);
    }
    forall u | u in FinalizeSpec(db, shipmentId, now).db.units && u.shipmentId == Some(shipmentId) ensures !u.pending {
      var i :| 0 <= i < |finalized.units| && finalized.units[i] == u;
      if db.units[i].id !in ids {
        assert db.units[i] in units;
      }
    }
  }

  // ---------------------------------------------------------------- transfer guards

  /**
   * `enough_stock_at_destination_location`: the first stock item of the variant at the
   * location has the quantity on hand or takes backorders; without an item it raises.
   */
  function EnoughStockAt(items: seq<StockItem>, variantId: nat, quantity: int, locationId: nat): (r: Result<bool, Error>)
    ensures r.Err? <==> StockItemOf(items, locationId, variantId).None?
    ensures r.Ok? ==>
      (r.value <==> (StockItemOf(items, locationId, variantId).value.countOnHand >= quantity
                     || StockItemOf(items, locationId, variantId).value.backorderable))
  {
    match StockItemOf(items, locationId, variantId)
    case None => Err(RecordNotFound)
    case Some(it) => Ok(it.countOnHand >= quantity || it.backorderable)
  }

  /** The guard of `transfer_to_location`: None when the transfer may go ahead. */
  function TransferToLocationCheck(items: seq<StockItem>, variantId: nat, quantity: int, locationId: nat): (r: Option<Error>)
    ensures quantity <= 0 ==> r == Some(ShipmentTransferError)
    ensures r.None? <==> quantity > 0 && EnoughStockAt(items, variantId, quantity, locationId) == Ok(true)
    ensures quantity > 0 && EnoughStockAt(items, variantId, quantity, locationId) == Ok(false)
            ==> r == Some(ShipmentTransferError)
  {
    if quantity <= 0 then Some(ShipmentTransferError)
    else
      match EnoughStockAt(items, variantId, quantity, locationId)
      case Err(e) => Some(e)
      case Ok(enough) => if enough then None else Some(ShipmentTransferError)
  }

  /**
   * How much of the variant the target shipment already holds: the quantity of the first
   * manifest item whose line item has the variant, or zero.  A manifest item without its line
   * item raises when it is reached.
   */
  function QuantityAlreadyThere(manifest: seq<ManifestItem>, lineItems: seq<LineItem>, variantId: nat): (r: Result<nat, Error>)
    ensures r.Ok? && r.value != 0 ==> exists i :: 0 <= i < |manifest| && manifest[i].quantity == r.value
                                                   && FindLineItem(lineItems, manifest[i].lineItemId).Some?
                                                   && FindLineItem(lineItems, manifest[i].lineItemId).value.variantId == variantId
    ensures (forall i :: 0 <= i < |manifest| ==> FindLineItem(lineItems, manifest[i].lineItemId).Some?
                                                 && FindLineItem(lineItems, manifest[i].lineItemId).value.variantId != variantId)
            ==> r == Ok(0)
  {
    if manifest == [] then Ok(0)
    else
      match FindLineItem(lineItems, manifest[0].lineItemId)
      case None => Err(RecordNotFound)
      case Some(li) =>
        if li.variantId == variantId then Ok(manifest[0].quantity)
        else
          var rest := QuantityAlreadyThere(manifest[1..], lineItems, variantId);
          assert rest.Ok? && rest.value != 0 ==> exists i :: 1 <= i < |manifest| && manifest[i].quantity == rest.value
                                                   && FindLineItem(lineItems, manifest[i].lineItemId).Some?
                                                   && FindLineItem(lineItems, manifest[i].lineItemId).value.variantId == variantId by {
            if rest.Ok? && rest.value != 0 {
              var j :| 0 <= j < |manifest[1..]| && manifest[1..][j].quantity == rest.value
                       && FindLineItem(lineItems, manifest[1..][j].lineItemId).Some?
                       && FindLineItem(lineItems, manifest[1..][j].lineItemId).value.variantId == variantId;
              assert manifest[j + 1] == manifest[1..][j];
            }
          }
          rest
  }

  /**
   * The guard of `transfer_to_shipment`: the quantity must be positive, the target another
   * shipment, and the target's location must hold the quantity plus what the target already has.
   */
  function TransferToShipmentCheck(source: Shipment, target: Shipment, targetManifest: seq<ManifestItem>,
                                   lineItems: seq<LineItem>, items: seq<StockItem>, variantId: nat, quantity: int)
    : (r: Option<Error>)
    ensures QuantityAlreadyThere(targetManifest, lineItems, variantId).Ok? && (quantity <= 0 || source.id == target.id)
            ==> r == Some(ShipmentTransferError)
    ensures r.None? <==> quantity > 0 && source.id != target.id
                         && QuantityAlreadyThere(targetManifest, lineItems, variantId).Ok?
                         && EnoughStockAt(items, variantId,
                                          quantity + QuantityAlreadyThere(targetManifest, lineItems, variantId).value,
                                          target.stockLocationId) == Ok(true)
  {
    match QuantityAlreadyThere(targetManifest, lineItems, variantId)
    case Err(e) => Some(e)
    case Ok(already) =>
      if quantity <= 0 || source.id == target.id then Some(ShipmentTransferError)
      else
        match EnoughStockAt(items, variantId, quantity + already, target.stockLocationId)
        case Err(e) => Some(e)
        case Ok(enough) => if enough then None else Some(ShipmentTransferError)
  }
}
