/**
 * InventoryUnit: one physical unit of a line item.  Its state machine, the per-unit share of
 * the line item's taxes, and `finalize_units!`.
 */
module InventoryUnits {
  import opened Wrappers
  import opened Records
  import opened Stores
  import AmountCalculator

  // ---------------------------------------------------------------- states

  /** The state a new unit starts in. */
  const InitialState: UnitState := UnitState.OnHand

  /** PRE_SHIPMENT_STATES. */
  predicate PreShipment(st: UnitState)
  {
    st == UnitState.Backordered || st == UnitState.OnHand
  }

  /** POST_SHIPMENT_STATES. */
  predicate PostShipment(st: UnitState)
  {
    st == UnitState.Returned
  }

  // ---------------------------------------------------------------- events

  /**
   * The unit's events.  `Cancel` is not declared by the unit's own state machine, yet
   * order cancellation calls `cancel!` and expects the state `canceled`; this model assumes
   * it is allowed from the pre-shipment states only.
   */
  datatype UnitEvent = FillBackorder | Ship | Return | Cancel

  /** `allow_ship?`: backorder shipping is configured on, or the unit is on hand. */
  predicate AllowShip(st: UnitState, allowBackorderShipping: bool)
  {
    allowBackorderShipping || st == UnitState.OnHand
  }

  /**
   * Firing `e` with the bang form: the new state, or `InvalidTransition` when the state
   * machine has no transition for `e` out of `st`.
   */
  function Fire(e: UnitEvent, st: UnitState, allowBackorderShipping: bool): (r: Result<UnitState, Error>)
    ensures r.Err? ==> r.error == InvalidTransition
    ensures e == FillBackorder ==> (r.Ok? <==> st == UnitState.Backordered) && (r.Ok? ==> r.value == UnitState.OnHand)
    ensures e == Ship ==> (r.Ok? <==> allowBackorderShipping || st == UnitState.OnHand) && (r.Ok? ==> r.value == UnitState.Shipped)
    ensures e == Return ==> (r.Ok? <==> st == UnitState.Shipped) && (r.Ok? ==> r.value == UnitState.Returned)
    ensures e == Cancel ==> (r.Ok? <==> PreShipment(st)) && (r.Ok? ==> r.value == UnitState.Canceled)
  {
    match e
    case FillBackorder => if st == UnitState.Backordered then Ok(UnitState.OnHand) else Err(InvalidTransition)
    case Ship => if AllowShip(st, allowBackorderShipping) then Ok(UnitState.Shipped) else Err(InvalidTransition)
    case Return => if st == UnitState.Shipped then Ok(UnitState.Returned) else Err(InvalidTransition)
    case Cancel => if PreShipment(st) then Ok(UnitState.Canceled) else Err(InvalidTransition)
  }

  /** Only `fill_backorder` runs an after-transition callback: it updates the unit's order. */
  predicate UpdatesOrderAfter(e: UnitEvent)
  {
    e == FillBackorder
  }

  /** The state after firing each event in turn with the non-bang form, which leaves the state alone when refused. */
  function Run(events: seq<UnitEvent>, st: UnitState, allowBackorderShipping: bool): UnitState
  {
    if events == [] then st
    else
      var next := Fire(events[0], st, allowBackorderShipping);
      Run(events[1..], if next.Ok? then next.value else st, allowBackorderShipping)
  }

  /** A unit only reaches a post-shipment state by being shipped first. */
  lemma {:induction false} ReturnedOnlyAfterShip(events: seq<UnitEvent>, st: UnitState, allow: bool)
    requires st != UnitState.Shipped && st != UnitState.Returned
    requires PostShipment(Run(events, st, allow))
    ensures Ship in events
  {
    if events != [] {
      var next := Fire(events[0], st, allow);
      var st' := if next.Ok? then next.value else st;
      if events[0] != Ship {
        assert st' != UnitState.Shipped && st' != UnitState.Returned;
        ReturnedOnlyAfterShip(events[1..], st', allow);
        assert Ship in events[1..];
      }
    }
  }

  /** With backorder shipping off, nothing moves a canceled unit. */
  lemma {:induction false} CanceledStaysCanceled(events: seq<UnitEvent>)
    ensures Run(events, UnitState.Canceled, false) == UnitState.Canceled
  {
    if events != [] {
      assert Fire(events[0], UnitState.Canceled, false).Err?;
      CanceledStaysCanceled(events[1..]);
    }
  }

  /**
   * With backorder shipping off, a backordered unit ships only after its backorder is filled.
   */
  lemma {:induction false} BackorderShipsOnlyAfterFill(events: seq<UnitEvent>)
    requires Run(events, UnitState.Backordered, false) == UnitState.Shipped
    ensures FillBackorder in events
  {
    if events == [] {
    } else if events[0] == Cancel {
      CanceledStaysCanceled(events[1..]);
    } else if events[0] != FillBackorder {
      assert Fire(events[0], UnitState.Backordered, false).Err?;
      BackorderShipsOnlyAfterFill(events[1..]);
      assert FillBackorder in events[1..];
    }
  }

  /** `ship` has no source-state restriction: with backorder shipping on it ships even a canceled or returned unit. */
  lemma ShipIgnoresSourceState(st: UnitState)
    ensures Fire(Ship, st, true) == Ok(UnitState.Shipped)
  {
  }

  // ---------------------------------------------------------------- tax shares

  /**
   * `percentage_of_line_item`: 1 / quantity, as an exact fraction; a line item with no
   * units divides by zero.
   */
  function PercentageOfLineItem(quantity: nat): (r: Result<real, Error>)
    ensures r.Err? <==> quantity == 0
    ensures r.Err? ==> r.error == ZeroDivision
    ensures r.Ok? ==> 0.0 < r.value <= 1.0 && r.value * quantity as real == 1.0
  {
    if quantity == 0 then Err(ZeroDivision) else Ok(1.0 / quantity as real)
  }

  /** The line item's tax scaled by the unit's share of it. */
  function TaxShare(lineItemTax: int, quantity: nat): (r: Result<real, Error>)
    ensures r.Err? <==> quantity == 0
    ensures r.Ok? ==> r.value * quantity as real == lineItemTax as real
  {
    match PercentageOfLineItem(quantity)
    case Err(e) => Err(e)
    case Ok(p) =>
      assert (lineItemTax as real * p) * quantity as real == lineItemTax as real * (p * quantity as real);
      Ok(lineItemTax as real * p)
  }

  /** `additional_tax_total`: the unit's share of the line item's additional tax. */
  function AdditionalTaxTotal(li: LineItem): (r: Result<real, Error>)
    ensures r.Err? <==> li.quantity == 0
    ensures r.Ok? ==> r.value * li.quantity as real == li.additionalTaxTotal as real
  {
    TaxShare(li.additionalTaxTotal, li.quantity)
  }

  /** `included_tax_total`: the unit's share of the line item's included tax. */
  function IncludedTaxTotal(li: LineItem): (r: Result<real, Error>)
    ensures r.Err? <==> li.quantity == 0
    ensures r.Ok? ==> r.value * li.quantity as real == li.includedTaxTotal as real
  {
    TaxShare(li.includedTaxTotal, li.quantity)
  }

  /** A product of two positive reals is positive. */
  lemma MulPositive(a: real, b: real)
    requires a > 0.0 && b > 0.0
    ensures a * b > 0.0
  {
  }

  /** A real whose multiple p by a positive q is at most q/2 is at most one half. */
  lemma AtMostHalf(d: real, q: real, p: real)
    requires q > 0.0 && p == d * q && 2.0 * p <= q
    ensures d <= 0.5
  {
    assert (d - 0.5) * q == p - 0.5 * q;
    if d > 0.5 {
      MulPositive(d - 0.5, q);
      assert false;
    }
  }

  lemma RealOfProduct(a: int, b: int)
    ensures (a * b) as real == a as real * b as real
  {
  }

  /** A real d with d·q an integer e, |e| at most q/2, is at most one half in size. */
  lemma WithinHalf(d: real, e: int, q: nat)
    requires q > 0 && d * q as real == e as real
    requires -(q as int) <= 2 * e <= q
    ensures -0.5 <= d <= 0.5
  {
    var qr := q as real;
    var er := e as real;
    assert (-d) * qr == -er;
    AtMostHalf(d, qr, er);
    AtMostHalf(-d, qr, -er);
  }

  /**
   * The unit's tax share and the ledger's: before any unit of the line item is processed, the
   * cents the ledger splits off for one unit (AmountCalculator) lie within half a cent of the
   * unit's own share of the same tax, so the ledger's amount is that share rounded to cents.
   */
  lemma LedgerShareRoundsTaxShare(tax: int, quantity: nat)
    requires quantity > 0
    ensures AmountCalculator.AmountToProcess(tax, 0, quantity).Ok?
    ensures TaxShare(tax, quantity).Ok?
    ensures -0.5 <= AmountCalculator.AmountToProcess(tax, 0, quantity).value as real - TaxShare(tax, quantity).value <= 0.5
  {
    var r := AmountCalculator.AmountToProcess(tax, 0, quantity).value;
    var s := TaxShare(tax, quantity).value;
    var qr := quantity as real;
    RealOfProduct(r, quantity);
    assert (r as real - s) * qr == (r * quantity) as real - s * qr;
    WithinHalf(r as real - s, r * quantity - tax, quantity);
  }

  // ---------------------------------------------------------------- finalize_units!

  /** A unit row once `finalize_units!` has written it. */
  function Finalized(u: InventoryUnit, now: int): InventoryUnit
  {
    u.(pending := false, updatedAt := now)
  }

  /** The units table with the rows whose id is `id` finalized. */
  function FinalizeRows(units: seq<InventoryUnit>, id: nat, now: int): (r: seq<InventoryUnit>)
    ensures |r| == |units|
    ensures forall i :: 0 <= i < |r| ==> r[i] == (if units[i].id == id then Finalized(units[i], now) else units[i])
  {
    if units == [] then []
    else [if units[0].id == id then Finalized(units[0], now) else units[0]] + FinalizeRows(units[1..], id, now)
  }

  /** The units table once every unit whose id is in `ids` is finalized. */
  function FinalizeTable(units: seq<InventoryUnit>, ids: seq<nat>, now: int): (r: seq<InventoryUnit>)
    ensures |r| == |units|
    ensures forall i :: 0 <= i < |r| ==> r[i] == (if units[i].id in ids then Finalized(units[i], now) else units[i])
  {
    if units == [] then []
    else [if units[0].id in ids then Finalized(units[0], now) else units[0]] + FinalizeTable(units[1..], ids, now)
  }

  /**
   * `finalize_units!`: writes `pending = false` and the time of the write to each of the given
   * units, one `update_columns` at a time, and changes nothing else.
   */
  method FinalizeUnits(store: Store, ids: seq<nat>, now: int)
    modifies store
    ensures store.db == old(store.db).(units := FinalizeTable(old(store.db.units), ids, now))
  {
    var k := 0;
    while k < |ids|
      invariant 0 <= k <= |ids|
      invariant |store.db.units| == |old(store.db.units)|
      invariant forall i :: 0 <= i < |store.db.units| ==>
        store.db.units[i] == (if old(store.db.units[i].id) in ids[..k] then Finalized(old(store.db.units[i]), now) else old(store.db.units[i]))
      invariant store.db == old(store.db).(units := store.db.units)
    {
      store.db := store.db.(units := FinalizeRows(store.db.units, ids[k], now));
      assert forall i :: 0 <= i < |store.db.units| ==> (old(store.db.units[i].id) in ids[..k+1] <==> old(store.db.units[i].id) in ids[..k] || old(store.db.units[i].id) == ids[k]) by {
        assert ids[..k+1] == ids[..k] + [ids[k]];
      }
      k := k + 1;
    }
    assert ids[..k] == ids;
    assert store.db.units == FinalizeTable(old(store.db.units), ids, now);
  }

  /** Finalizing twice writes the same rows as finalizing once. */
  lemma FinalizedIdempotent(u: InventoryUnit, now: int)
    ensures Finalized(Finalized(u, now), now) == Finalized(u, now)
  {
  }
}
