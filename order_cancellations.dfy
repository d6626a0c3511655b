/**
 * OrderCancellations: short-shipping inventory units of a completed order.  Each unit gets a
 * UnitCancel carrying the unit's share of the line item's amounts, a closed adjustment that
 * credits that share, and the state `canceled`; the order is then recomputed once.
 */
module OrderCancellations {
  import opened Wrappers
  import opened Records
  import opened Stores
  import opened ShippingManifest
  import opened UnitCancels
  import opened OrderBehaviors
  import AmountCalculator
  import InventoryUnits
  import OrderUpdaters

  // ---------------------------------------------------------------- the batch check

  /** `inventory_units.map(&:order_id)`. */
  function OrderIds(units: seq<InventoryUnit>): (r: seq<nat>)
    ensures |r| == |units| && forall i :: 0 <= i < |r| ==> r[i] == units[i].orderId
  {
    if units == [] then [] else [units[0].orderId] + OrderIds(units[1..])
  }

  /** `inventory_units.map(&:order_id).uniq == [order.id]`. */
  predicate AllOfOrder(units: seq<InventoryUnit>, orderId: nat)
  {
    Distinct(OrderIds(units)) == [orderId]
  }

  /** The check passes exactly for a non-empty batch whose every unit belongs to the order. */
  lemma AllOfOrderMeaning(units: seq<InventoryUnit>, orderId: nat)
    ensures AllOfOrder(units, orderId) <==> units != [] && forall u :: u in units ==> u.orderId == orderId
  {
    var ids := OrderIds(units);
    var d := Distinct(ids);
    if units != [] && forall u :: u in units ==> u.orderId == orderId {
      assert ids[0] in ids;
      assert forall k :: k in d ==> k == orderId by {
        forall k | k in d ensures k == orderId {
          var i :| 0 <= i < |ids| && ids[i] == k;
          assert units[i] in units;
        }
      }
      assert ids[0] in d;
      assert d[0] in d;
      assert d[|d| - 1] in d;
      assert d == [orderId];
    }
    if d == [orderId] {
      assert orderId in d;
      forall u | u in units ensures u.orderId == orderId {
        var i :| 0 <= i < |units| && units[i] == u;
        assert ids[i] in d;
      }
    }
  }

  // ---------------------------------------------------------------- one unit

  /** The UnitCancel of a short-shipped unit: reason SHORT_SHIP, made by `whodunnit`. */
  function ShortShipCancel(whodunnit: Option<string>, amounts: Breakdown): UnitCancel
  {
    UnitCancel(ShortShip, whodunnit, amounts)
  }

  /** The five amounts the calculator gives the unit before its cancel exists. */
  function CancelAmounts(db: Db, u: InventoryUnit): Result<Breakdown, Error>
  {
    match AmountCalculator.New(db, u)
    case Err(e) => Err(e)
    case Ok(c) => AmountCalculator.Amounts(c)
  }

  /**
   * `short_ship_unit` on the unit with id `id`, read from its current row: the calculator runs
   * first; then, in one transaction, the UnitCancel is created, `adjust!` adds the credit and
   * `cancel!` moves the unit to canceled.  Any raise leaves the tables as they were.
   */
  function CancelUnit(db: Db, id: nat, whodunnit: Option<string>): Result<Db, Error>
  {
    match FindUnit(db.units, id)
    case None => Err(RecordNotFound)
    case Some(u) =>
      match CancelAmounts(db, u)
      case Err(e) => Err(e)
      case Ok(amounts) =>
        var c := ShortShipCancel(whodunnit, amounts);
        var created := db.(units := PutUnit(db.units, u.(cancel := Some(c))));
        match AdjustOnce(created, u, c)
        case Err(e) => Err(e)
        case Ok(adjusted) =>
          match InventoryUnits.Fire(InventoryUnits.Cancel, u.state, false)
          case Err(e) => Err(e)
          case Ok(st) => Ok(adjusted.(units := PutUnit(adjusted.units, u.(cancel := Some(c), state := st))))
  }

  /**
   * A unit short-shipped without a raise was found, unprocessed and before shipment; its row
   * now carries the SHORT_SHIP cancel with the calculator's amounts and the state canceled,
   * and exactly one adjustment was added: the credit of those amounts on its line item.
   */
  lemma CancelUnitEffect(db: Db, id: nat, whodunnit: Option<string>)
    requires CancelUnit(db, id, whodunnit).Ok?
    ensures FindUnit(db.units, id).Some? && CancelAmounts(db, FindUnit(db.units, id).value).Ok?
    ensures InventoryUnits.PreShipment(FindUnit(db.units, id).value.state)
    ensures var u := FindUnit(db.units, id).value;
      var c := ShortShipCancel(whodunnit, CancelAmounts(db, u).value);
      CancelUnit(db, id, whodunnit).value
        == db.(units := PutUnit(db.units, u.(cancel := Some(c), state := UnitState.Canceled)),
               adjustments := db.adjustments + [CancelAdjustment(u, ShortShip, CancelCredit(c.amounts))])
  {
    var u := FindUnit(db.units, id).value;
    var c := ShortShipCancel(whodunnit, CancelAmounts(db, u).value);
    var created := db.(units := PutUnit(db.units, u.(cancel := Some(c))));
    var adjusted := AdjustOnce(created, u, c).value;
    assert adjusted == created.(adjustments := db.adjustments + [CancelAdjustment(u, ShortShip, CancelCredit(c.amounts))]);
    PutUnitTwice(db.units, u.(cancel := Some(c)), u.(cancel := Some(c), state := UnitState.Canceled));
  }

  /**
   * A unit with no row, a unit already captured or canceled, and a unit past shipment all
   * raise: the last because `cancel!` has no transition out of a post-shipment state.
   */
  lemma CancelUnitRaises(db: Db, id: nat, whodunnit: Option<string>)
    ensures FindUnit(db.units, id).None? ==> CancelUnit(db, id, whodunnit) == Err(RecordNotFound)
    ensures FindUnit(db.units, id).Some? && AmountCalculator.PreviouslyProcessed(FindUnit(db.units, id).value)
            ==> CancelUnit(db, id, whodunnit) == Err(InventoryPreviouslyProcessed)
    ensures FindUnit(db.units, id).Some? && CancelAmounts(db, FindUnit(db.units, id).value).Ok?
            && !HasCancelAdjustment(db.adjustments, id) && !InventoryUnits.PreShipment(FindUnit(db.units, id).value.state)
            ==> CancelUnit(db, id, whodunnit) == Err(InvalidTransition)
  {
  }

  // ---------------------------------------------------------------- the batch

  /**
   * `inventory_units.each { short_ship_unit }`: the units in the caller's order; the first
   * raise ends the batch, and the units before it stay canceled.
   */
  function CancelAll(db: Db, ids: seq<nat>, whodunnit: Option<string>): (r: Outcome)
    decreases |ids|
  {
    if ids == [] then Outcome(db, None)
    else
      match CancelUnit(db, ids[0], whodunnit)
      case Err(e) => Outcome(db, Some(e))
      case Ok(db1) => CancelAll(db1, ids[1..], whodunnit)
  }

  /** The units canceled one after another, stopping at the first that raises. */
  method CancelAllLoop(db: Db, ids: seq<nat>, whodunnit: Option<string>) returns (out: Outcome)
    ensures out == CancelAll(db, ids, whodunnit)
  {
    var current := db;
    var k := 0;
    var err: Option<Error> := None;
    while k < |ids| && err.None?
      invariant 0 <= k <= |ids|
      invariant err.None? ==> CancelAll(current, ids[k..], whodunnit) == CancelAll(db, ids, whodunnit)
      invariant err.Some? ==> Outcome(current, err) == CancelAll(db, ids, whodunnit)
    {
      var r := CancelUnit(current, ids[k], whodunnit);
      CancelAllFirst(current, ids[k..], whodunnit);
      assert ids[k..][0] == ids[k] && ids[k..][1..] == ids[k + 1..];
      if r.Err? {
        err := Some(r.error);
      } else {
        current := r.value;
      }
      k := k + 1;
    }
    out := Outcome(current, err);
  }

  lemma CancelAllFirst(db: Db, ids: seq<nat>, whodunnit: Option<string>)
    requires ids != []
    ensures var r := CancelUnit(db, ids[0], whodunnit);
      CancelAll(db, ids, whodunnit) == if r.Err? then Outcome(db, Some(r.error)) else CancelAll(r.value, ids[1..], whodunnit)
  {
  }

  function UnitIds(units: seq<InventoryUnit>): (r: seq<nat>)
    ensures |r| == |units| && forall i :: 0 <= i < |r| ==> r[i] == units[i].id
  {
    if units == [] then [] else [units[0].id] + UnitIds(units[1..])
  }

  /**
   * `short_ship`: a batch that is empty or reaches beyond the order raises ArgumentError before
   * anything changes; otherwise every unit is short-shipped and the order is updated once.
   */
  function ShortShipSpec(o: Order, db: Db, units: seq<InventoryUnit>, whodunnit: Option<string>, now: int): (r: Run)
    ensures !(units != [] && forall u :: u in units ==> u.orderId == o.id) <==> r == Run(o, db, Some(ArgumentError))
  {
    AllOfOrderMeaning(units, o.id);
    if !AllOfOrder(units, o.id) then Run(o, db, Some(ArgumentError))
    else
      var out := CancelAll(db, UnitIds(units), whodunnit);
      if out.err.Some? then
        assert out.err.value != ArgumentError by { CancelAllNeverArgumentError(db, UnitIds(units), whodunnit); }
        Run(o, out.db, out.err)
      else
        OrderUpdaterRunNeverArgumentError(o, out.db, now);
        OrderUpdaterRun(o, out.db, now)
  }

  lemma {:induction false} CancelAllNeverArgumentError(db: Db, ids: seq<nat>, whodunnit: Option<string>)
    ensures CancelAll(db, ids, whodunnit).err != Some(ArgumentError)
    decreases |ids|
  {
    if ids != [] {
      var r := CancelUnit(db, ids[0], whodunnit);
      if r.Ok? {
        CancelAllNeverArgumentError(r.value, ids[1..], whodunnit);
      } else {
        CancelUnitNeverArgumentError(db, ids[0], whodunnit);
      }
    }
  }

  lemma CancelUnitNeverArgumentError(db: Db, id: nat, whodunnit: Option<string>)
    ensures CancelUnit(db, id, whodunnit) != Err(ArgumentError)
  {
    match FindUnit(db.units, id)
    case None =>
    case Some(u) =>
      match AmountCalculator.New(db, u)
      case Err(e) =>
      case Ok(c) =>
        if AmountCalculator.Amounts(c).Ok? {
          var created := db.(units := PutUnit(db.units, u.(cancel := Some(ShortShipCancel(whodunnit, AmountCalculator.Amounts(c).value)))));
          assert AdjustOnce(created, u, ShortShipCancel(whodunnit, AmountCalculator.Amounts(c).value)).Err?
                 ==> CancelUnit(db, id, whodunnit) == Err(AdjustmentAlreadyCreated);
        }
  }

  lemma OrderUpdaterRunNeverArgumentError(o: Order, db: Db, now: int)
    ensures OrderUpdaterRun(o, db, now).err != Some(ArgumentError)
  {
    CallIsOrderUpdaterRun(o, db, now);
    OrderUpdaterPipeline(o, db, now);
  }

  // ---------------------------------------------------------------- what a batch leaves

  /** The unit `id` is canceled and carries a SHORT_SHIP cancel made by `whodunnit`. */
  predicate ShortShipped(units: seq<InventoryUnit>, id: nat, whodunnit: Option<string>)
  {
    match FindUnit(units, id)
    case None => false
    case Some(u) => u.state == UnitState.Canceled && u.cancel.Some?
                    && u.cancel.value.reason == ShortShip && u.cancel.value.createdBy == whodunnit
  }

  /** A unit already carrying a cancel is never canceled again: a batch that names it raises. */
  lemma {:induction false} CancelAllRejectsProcessed(db: Db, ids: seq<nat>, whodunnit: Option<string>, id: nat)
    requires FindUnit(db.units, id).Some? && FindUnit(db.units, id).value.cancel.Some?
    requires id in ids
    ensures CancelAll(db, ids, whodunnit).err.Some?
    decreases |ids|
  {
    if ids[0] != id {
      var r := CancelUnit(db, ids[0], whodunnit);
      if r.Ok? {
        KeptRow(db, ids[0], whodunnit, id);
        CancelAllRejectsProcessed(r.value, ids[1..], whodunnit, id);
      }
    }
  }

  /** Short-shipping one unit leaves the row of every other id as it was. */
  lemma KeptRow(db: Db, x: nat, whodunnit: Option<string>, id: nat)
    requires id != x && CancelUnit(db, x, whodunnit).Ok?
    ensures FindUnit(CancelUnit(db, x, whodunnit).value.units, id) == FindUnit(db.units, id)
  {
    CancelUnitEffect(db, x, whodunnit);
    var u := FindUnit(db.units, x).value;
    var c := ShortShipCancel(whodunnit, CancelAmounts(db, u).value);
    FindUnitOtherPut(db.units, u.(cancel := Some(c), state := UnitState.Canceled), id);
  }

  /** Short-shipping one unit leaves it short-shipped. */
  lemma CanceledRow(db: Db, x: nat, whodunnit: Option<string>)
    requires CancelUnit(db, x, whodunnit).Ok?
    ensures ShortShipped(CancelUnit(db, x, whodunnit).value.units, x, whodunnit)
  {
    CancelUnitEffect(db, x, whodunnit);
    var u := FindUnit(db.units, x).value;
    var c := ShortShipCancel(whodunnit, CancelAmounts(db, u).value);
    FindUnitAfterPut(db.units, u.(cancel := Some(c), state := UnitState.Canceled), x);
  }

  /** A short-shipped unit stays short-shipped through the rest of the batch. */
  lemma {:induction false} CancelAllKeepsShortShipped(db: Db, ids: seq<nat>, whodunnit: Option<string>, id: nat,
                                                      w: Option<string>)
    requires ShortShipped(db.units, id, w)
    ensures ShortShipped(CancelAll(db, ids, whodunnit).db.units, id, w)
    decreases |ids|
  {
    if ids != [] {
      var r := CancelUnit(db, ids[0], whodunnit);
      if r.Ok? {
        assert ids[0] != id;
        KeptRow(db, ids[0], whodunnit, id);
        CancelAllKeepsShortShipped(r.value, ids[1..], whodunnit, id, w);
      }
    }
  }

  /**
   * A batch that succeeds names no unit twice and leaves every unit it names canceled with a
   * SHORT_SHIP cancel by `whodunnit`.
   */
  lemma {:induction false} CancelAllEffect(db: Db, ids: seq<nat>, whodunnit: Option<string>)
    ensures var out := CancelAll(db, ids, whodunnit);
      out.err.None? ==>
        && (forall i, j :: 0 <= i < j < |ids| ==> ids[i] != ids[j])
        && (forall id :: id in ids ==> ShortShipped(out.db.units, id, whodunnit))
    decreases |ids|
  {
    if ids != [] {
      var r := CancelUnit(db, ids[0], whodunnit);
      if r.Ok? {
        var db1 := r.value;
        var out := CancelAll(db1, ids[1..], whodunnit);
        CancelAllEffect(db1, ids[1..], whodunnit);
        CanceledRow(db, ids[0], whodunnit);
        CancelAllKeepsShortShipped(db1, ids[1..], whodunnit, ids[0], whodunnit);
        if ids[0] in ids[1..] {
          CancelAllRejectsProcessed(db1, ids[1..], whodunnit, ids[0]);
        }
        if out.err.None? {
          DistinctCons(ids);
          forall id | id in ids ensures ShortShipped(out.db.units, id, whodunnit) {
            if id != ids[0] {
              assert id in ids[1..];
            }
          }
        }
      }
    }
  }

  lemma DistinctCons(ids: seq<nat>)
    requires ids != [] && ids[0] !in ids[1..]
    requires forall i, j :: 0 <= i < j < |ids[1..]| ==> ids[1..][i] != ids[1..][j]
    ensures forall i, j :: 0 <= i < j < |ids| ==> ids[i] != ids[j]
  {
    forall i, j | 0 <= i < j < |ids| ensures ids[i] != ids[j] {
      assert ids[j] == ids[1..][j - 1];
      if i > 0 {
        assert ids[i] == ids[1..][i - 1];
      }
    }
  }

  /** `after` is `before` followed by one adjustment per id, in order, each sourced from that id's cancel. */
  predicate CancelsAppended(before: seq<Adjustment>, after: seq<Adjustment>, ids: seq<nat>)
  {
    && |after| == |before| + |ids|
    && after[..|before|] == before
    && forall k :: 0 <= k < |ids| ==> after[|before| + k].source == UnitCancelOf(ids[k])
  }

  /**
   * A batch that succeeds adds exactly one adjustment per unit, in batch order, each sourced
   * from that unit's cancel, and keeps the earlier adjustments.
   */
  lemma {:induction false} CancelAllAdjustments(db: Db, ids: seq<nat>, whodunnit: Option<string>)
    ensures var out := CancelAll(db, ids, whodunnit);
      out.err.None? ==> CancelsAppended(db.adjustments, out.db.adjustments, ids)
    decreases |ids|
  {
    if ids != [] {
      var r := CancelUnit(db, ids[0], whodunnit);
      if r.Ok? {
        CancelAllAdjustments(r.value, ids[1..], whodunnit);
        CancelUnitAppends(db, ids[0], whodunnit);
        var out := CancelAll(r.value, ids[1..], whodunnit);
        if out.err.None? {
          AppendedCons(db.adjustments, r.value.adjustments, out.db.adjustments, ids);
        }
      }
    }
  }

  lemma AppendedCons(a: seq<Adjustment>, b: seq<Adjustment>, c: seq<Adjustment>, ids: seq<nat>)
    requires ids != []
    requires |b| == |a| + 1 && b[..|a|] == a && b[|a|].source == UnitCancelOf(ids[0])
    requires CancelsAppended(b, c, ids[1..])
    ensures CancelsAppended(a, c, ids)
  {
    assert c[..|a|] == c[..|b|][..|a|];
    assert c[|a|] == c[..|b|][|a|];
    forall k | 0 < k < |ids| ensures c[|a| + k].source == UnitCancelOf(ids[k]) {
      assert c[|a| + k] == c[|b| + (k - 1)];
      assert ids[k] == ids[1..][k - 1];
    }
  }

  /** One cancel appends one adjustment, sourced from the unit's cancel. */
  lemma CancelUnitAppends(db: Db, id: nat, whodunnit: Option<string>)
    requires CancelUnit(db, id, whodunnit).Ok?
    ensures var a := CancelUnit(db, id, whodunnit).value.adjustments;
      && |a| == |db.adjustments| + 1
      && a[..|db.adjustments|] == db.adjustments
      && a[|db.adjustments|].source == UnitCancelOf(id)
  {
    CancelUnitEffect(db, id, whodunnit);
  }

  // ---------------------------------------------------------------- what it does to the order

  /**
   * Short-shipping a single unit lowers the recomputed order total by exactly the unit's cancel
   * credit: its price and its shares of the promotions, the additional tax and the order
   * adjustments.  The unit's line item must be the order's, its id unique and its stored
   * adjustment total current, as the previous recomputation leaves it.
   */
  lemma ShortShipLowersTotal(o: Order, db: Db, u: InventoryUnit, whodunnit: Option<string>, now: int, k: nat)
    requires u.orderId == o.id && FindUnit(db.units, u.id).Some?
    requires k < |db.lineItems| && db.lineItems[k].orderId == o.id
    requires FindUnit(db.units, u.id).value.lineItemId == db.lineItems[k].id
    requires FindUnit(db.units, u.id).value.orderId == o.id
    requires forall i :: 0 <= i < |db.lineItems| && i != k ==> db.lineItems[i].id != db.lineItems[k].id
    requires db.lineItems[k].adjustmentTotal == SumsFor(db.adjustments, LineItemRef(db.lineItems[k].id)).nonIncluded
    requires UniqueShipmentIds(db.shipments)
    ensures var r := ShortShipSpec(o, db, [u], whodunnit, now);
      r.err.None? ==>
        && CancelAmounts(db, FindUnit(db.units, u.id).value).Ok?
        && r.order.total == Recalculated(o, db).total + CancelCredit(CancelAmounts(db, FindUnit(db.units, u.id).value).value)
  {
    var r := ShortShipSpec(o, db, [u], whodunnit, now);
    AllOfOrderMeaning([u], o.id);
    assert UnitIds([u]) == [u.id];
    var c1 := CancelUnit(db, u.id, whodunnit);
    if c1.Ok? {
      CancelUnitEffect(db, u.id, whodunnit);
      var row := FindUnit(db.units, u.id).value;
      var amounts := CancelAmounts(db, row).value;
      var a := CancelAdjustment(row, ShortShip, CancelCredit(amounts));
      var db1 := db.(adjustments := db.adjustments + [a]);
      var db2 := c1.value;
      assert CancelAll(db2, [], whodunnit) == Outcome(db2, None);
      assert db2 == db1.(units := db2.units);
      SecondPassAgrees(o, db2, now);
      RecalculatedIgnoresUnits(o, db1, db2.units);
      assert db1.(units := db.units) == db1;
      AdjustmentMovesTotal(o, db, a, k);
    }
  }

  // ---------------------------------------------------------------- the object

  class OrderCancellation {
    var order: Order
    const store: Store

    /** `initialize(order)`. */
    constructor (order: Order, store: Store)
      ensures this.order == order && this.store == store
    {
      this.order := order;
      this.store := store;
    }

    /** `short_ship(inventory_units, whodunnit:)`. */
    method ShortShip(units: seq<InventoryUnit>, whodunnit: Option<string>, now: int) returns (err: Option<Error>)
      modifies this, store
      ensures Run(order, store.db, err) == ShortShipSpec(old(order), old(store.db), units, whodunnit, now)
    {
      AllOfOrderMeaning(units, order.id);
      var ids := UnitIds(units);
      if Distinct(OrderIds(units)) != [order.id] {
        return Some(ArgumentError);
      }
      var out := CancelAllLoop(store.db, ids, whodunnit);
      store.db := out.db;
      err := out.err;
      if err.Some? {
        return;
      }
      var updater := new OrderUpdaters.OrderUpdater(order, store);
      err := updater.Update(now);
      order := updater.order;
    }
  }
}
