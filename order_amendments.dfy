/**
 * OrderAmendments: the other way to short-ship units of a completed order.  Each unit gets a
 * UnitCancel with no amounts, an adjustment of `compute_amount` (minus the line item's total
 * split among its units not yet canceled, this one included) and the state `canceled`; the
 * order is then recomputed once.
 */
module OrderAmendments {
  import opened Wrappers
  import opened Money
  import opened Records
  import opened Stores
  import opened ShippingManifest
  import opened UnitCancels
  import opened OrderBehaviors
  import opened OrderCancellations
  import InventoryUnits
  import OrderUpdaters

  // ---------------------------------------------------------------- one unit

  /**
   * The UnitCancel `short_ship_unit` creates: reason SHORT_SHIP, made by the user, and none of
   * the five amount columns set, so each of them reads as zero.
   */
  function AmendmentCancel(user: Option<string>): (c: UnitCancel)
    ensures c.reason == ShortShip && c.createdBy == user
    ensures CancelCredit(c.amounts) == 0
  {
    UnitCancel(ShortShip, user, Breakdown(0, 0, 0, 0, 0))
  }

  /**
   * `short_ship_unit` on the unit with id `id`, read from its current row, in one transaction:
   * the UnitCancel is created, `adjust` adds the adjustment of `compute_amount` while the unit
   * is still uncanceled, and `cancel!` moves the unit to canceled.  A raise leaves the tables
   * as they were.
   */
  function AmendUnit(db: Db, id: nat, user: Option<string>): Result<Db, Error>
  {
    match FindUnit(db.units, id)
    case None => Err(RecordNotFound)
    case Some(u) =>
      var c := AmendmentCancel(user);
      var created := db.(units := PutUnit(db.units, u.(cancel := Some(c))));
      match Adjust(created, u, c)
      case Err(e) => Err(e)
      case Ok(adjusted) =>
        match InventoryUnits.Fire(InventoryUnits.Cancel, u.state, false)
        case Err(e) => Err(e)
        case Ok(st) => Ok(adjusted.(units := PutUnit(adjusted.units, u.(cancel := Some(c), state := st))))
  }

  /**
   * The amendment of one unit goes through exactly when the unit and its line item have rows
   * and the unit has not shipped: the unit itself is among the uncanceled units `compute_amount`
   * divides by, so that division never fails.
   */
  lemma AmendUnitSucceeds(db: Db, id: nat, user: Option<string>)
    ensures AmendUnit(db, id, user).Ok? <==>
      && FindUnit(db.units, id).Some?
      && FindLineItem(db.lineItems, FindUnit(db.units, id).value.lineItemId).Some?
      && InventoryUnits.PreShipment(FindUnit(db.units, id).value.state)
  {
    if FindUnit(db.units, id).Some? {
      var u := FindUnit(db.units, id).value;
      var v := u.(cancel := Some(AmendmentCancel(user)));
      var units := PutUnit(db.units, v);
      if InventoryUnits.PreShipment(u.state) {
        var i :| 0 <= i < |db.units| && db.units[i] == u;
        assert units[i] == v;
        assert v in units && v.lineItemId == u.lineItemId && v.state != UnitState.Canceled;
        assert NotCanceledCount(units, u.lineItemId) > 0;
      }
    }
  }

  /**
   * What `compute_amount` gives the unit inside `short_ship_unit`: after its UnitCancel `c`
   * exists and before the unit is canceled.
   */
  function CreatedAmount(db: Db, u: InventoryUnit, c: UnitCancel): Result<int, Error>
  {
    ComputeAmount(db.(units := PutUnit(db.units, u.(cancel := Some(c)))), u, u.lineItemId)
  }

  /** The tables an amendment that goes through leaves. */
  lemma AmendUnitShape(db: Db, id: nat, user: Option<string>)
    requires AmendUnit(db, id, user).Ok?
    ensures FindUnit(db.units, id).Some?
    ensures var u := FindUnit(db.units, id).value;
      && InventoryUnits.PreShipment(u.state)
      && CreatedAmount(db, u, AmendmentCancel(user)).Ok?
      && AmendUnit(db, id, user).value
         == db.(units := PutUnit(db.units, u.(cancel := Some(AmendmentCancel(user)), state := UnitState.Canceled)),
                adjustments := db.adjustments + [CancelAdjustment(u, ShortShip, CreatedAmount(db, u, AmendmentCancel(user)).value)])
  {
    var u := FindUnit(db.units, id).value;
    var v := u.(cancel := Some(AmendmentCancel(user)));
    PutUnitTwice(db.units, v, u.(cancel := Some(AmendmentCancel(user)), state := UnitState.Canceled));
  }

  /**
   * With unit ids unique, recording the cancel changes no count of uncanceled units, so the
   * amount is the one `compute_amount` gives on the tables before the amendment, this unit
   * counted among the uncanceled.
   */
  lemma CreatedAmountBeforeCancel(db: Db, u: InventoryUnit, c: UnitCancel)
    requires UniqueUnitIds(db.units) && FindUnit(db.units, u.id) == Some(u)
    ensures CreatedAmount(db, u, c) == ComputeAmount(db, u, u.lineItemId)
  {
    CancelKeepsCount(db.units, u, c);
    ComputeAmountReadsCount(db.(units := PutUnit(db.units, u.(cancel := Some(c)))), db, u);
  }

  /** Rewriting the unit's only row with its state and line item kept changes no count. */
  lemma CancelKeepsCount(units: seq<InventoryUnit>, u: InventoryUnit, c: UnitCancel)
    requires UniqueUnitIds(units) && FindUnit(units, u.id) == Some(u)
    ensures NotCanceledCount(PutUnit(units, u.(cancel := Some(c))), u.lineItemId) == NotCanceledCount(units, u.lineItemId)
  {
    FindUnitUnique(units, u);
    NotCanceledCountPut(units, u.(cancel := Some(c)), u.lineItemId);
  }

  /** `compute_amount` reads only the line items and the count of uncanceled units. */
  lemma ComputeAmountReadsCount(db: Db, db': Db, u: InventoryUnit)
    requires db.lineItems == db'.lineItems
    requires NotCanceledCount(db.units, u.lineItemId) == NotCanceledCount(db'.units, u.lineItemId)
    ensures ComputeAmount(db, u, u.lineItemId) == ComputeAmount(db', u, u.lineItemId)
  {
  }

  /**
   * What an amendment that goes through leaves, with unit ids unique: the row canceled and
   * carrying the amendment's cancel, and one adjustment whose amount is minus the line item's
   * total split (rounded to cents) among its uncanceled units, this unit counted.
   */
  lemma AmendUnitEffect(db: Db, id: nat, user: Option<string>)
    requires UniqueUnitIds(db.units)
    requires AmendUnit(db, id, user).Ok?
    ensures FindUnit(db.units, id).Some?
    ensures var u := FindUnit(db.units, id).value;
      && InventoryUnits.PreShipment(u.state)
      && ComputeAmount(db, u, u.lineItemId).Ok?
      && AmendUnit(db, id, user).value
         == db.(units := PutUnit(db.units, u.(cancel := Some(AmendmentCancel(user)), state := UnitState.Canceled)),
                adjustments := db.adjustments + [CancelAdjustment(u, ShortShip, ComputeAmount(db, u, u.lineItemId).value)])
  {
    AmendUnitShape(db, id, user);
    CreatedAmountBeforeCancel(db, FindUnit(db.units, id).value, AmendmentCancel(user));
  }

  /** With unique ids, the row `FindUnit` answers is the only one carrying its id. */
  lemma FindUnitUnique(units: seq<InventoryUnit>, u: InventoryUnit)
    requires UniqueUnitIds(units) && FindUnit(units, u.id) == Some(u)
    ensures forall w :: w in units && w.id == u.id ==> w == u
  {
    var i :| 0 <= i < |units| && units[i] == u;
    forall w | w in units && w.id == u.id ensures w == u {
      var j :| 0 <= j < |units| && units[j] == w;
      assert i == j;
    }
  }

  /** Recording a cancel on the unit's rows changes no row's state or line item, so no count. */
  lemma {:induction false} NotCanceledCountPut(units: seq<InventoryUnit>, v: InventoryUnit, lineItemId: nat)
    requires forall w :: w in units && w.id == v.id ==> w.state == v.state && w.lineItemId == v.lineItemId
    ensures NotCanceledCount(PutUnit(units, v), lineItemId) == NotCanceledCount(units, lineItemId)
    decreases |units|
  {
    if units != [] {
      assert units[0] in units;
      assert forall w :: w in units[1..] ==> w in units;
      NotCanceledCountPut(units[1..], v, lineItemId);
      var r := PutUnit(units, v);
      assert r[1..] == PutUnit(units[1..], v);
    }
  }

  /** An amendment writes no other unit's row. */
  lemma OtherRowsKept(db: Db, x: nat, user: Option<string>, id: nat)
    requires UniqueUnitIds(db.units)
    requires id != x && AmendUnit(db, x, user).Ok?
    ensures FindUnit(AmendUnit(db, x, user).value.units, id) == FindUnit(db.units, id)
  {
    AmendUnitEffect(db, x, user);
    var u := FindUnit(db.units, x).value;
    FindUnitOtherPut(db.units, u.(cancel := Some(AmendmentCancel(user)), state := UnitState.Canceled), id);
  }

  /** An amendment leaves its unit short-shipped by the user. */
  lemma AmendedRow(db: Db, x: nat, user: Option<string>)
    requires UniqueUnitIds(db.units)
    requires AmendUnit(db, x, user).Ok?
    ensures ShortShipped(AmendUnit(db, x, user).value.units, x, user)
  {
    AmendUnitEffect(db, x, user);
    var u := FindUnit(db.units, x).value;
    FindUnitAfterPut(db.units, u.(cancel := Some(AmendmentCancel(user)), state := UnitState.Canceled), x);
  }

  /** An amendment keeps the unit ids of the table (it rewrites one row under its own id). */
  lemma AmendKeepsIds(db: Db, x: nat, user: Option<string>)
    requires UniqueUnitIds(db.units)
    requires AmendUnit(db, x, user).Ok?
    ensures UniqueUnitIds(AmendUnit(db, x, user).value.units)
  {
    AmendUnitShape(db, x, user);
    var u := FindUnit(db.units, x).value;
    PutUnitKeepsIds(db.units, u.(cancel := Some(AmendmentCancel(user)), state := UnitState.Canceled));
  }

  lemma PutUnitKeepsIds(units: seq<InventoryUnit>, v: InventoryUnit)
    requires UniqueUnitIds(units)
    ensures UniqueUnitIds(PutUnit(units, v))
  {
    var r := PutUnit(units, v);
    assert forall i :: 0 <= i < |r| ==> r[i].id == units[i].id;
  }

  /** An amendment appends one adjustment, sourced from the unit's cancel. */
  lemma AmendUnitAppends(db: Db, id: nat, user: Option<string>)
    requires UniqueUnitIds(db.units)
    requires AmendUnit(db, id, user).Ok?
    ensures var a := AmendUnit(db, id, user).value.adjustments;
      && |a| == |db.adjustments| + 1
      && a[..|db.adjustments|] == db.adjustments
      && a[|db.adjustments|].source == UnitCancelOf(id)
  {
    AmendUnitEffect(db, id, user);
  }

  // ---------------------------------------------------------------- the batch

  /** `inventory_units.each { short_ship_unit }`: the first raise ends the batch. */
  function AmendAll(db: Db, ids: seq<nat>, user: Option<string>): Outcome
    decreases |ids|
  {
    if ids == [] then Outcome(db, None)
    else
      match AmendUnit(db, ids[0], user)
      case Err(e) => Outcome(db, Some(e))
      case Ok(db1) => AmendAll(db1, ids[1..], user)
  }

  /**
   * `short_ship_units`: a batch that is empty or reaches beyond the order raises ArgumentError
   * before anything changes; otherwise every unit is amended and the order is updated once.
   */
  function ShortShipUnitsSpec(o: Order, db: Db, units: seq<InventoryUnit>, user: Option<string>, now: int): (r: Run)
    ensures !(units != [] && forall u :: u in units ==> u.orderId == o.id) <==> r == Run(o, db, Some(ArgumentError))
  {
    AllOfOrderMeaning(units, o.id);
    if !AllOfOrder(units, o.id) then Run(o, db, Some(ArgumentError))
    else
      var out := AmendAll(db, UnitIds(units), user);
      if out.err.Some? then
        assert out.err.value != ArgumentError by { AmendAllNeverArgumentError(db, UnitIds(units), user); }
        Run(o, out.db, out.err)
      else
        OrderUpdaterRunNeverArgumentError(o, out.db, now);
        OrderUpdaterRun(o, out.db, now)
  }

  lemma {:induction false} AmendAllNeverArgumentError(db: Db, ids: seq<nat>, user: Option<string>)
    ensures AmendAll(db, ids, user).err != Some(ArgumentError)
    decreases |ids|
  {
    if ids != [] {
      var r := AmendUnit(db, ids[0], user);
      if r.Ok? {
        AmendAllNeverArgumentError(r.value, ids[1..], user);
      }
    }
  }

  /** A canceled unit is never amended again: a batch that names it raises. */
  lemma {:induction false} AmendAllRejectsCanceled(db: Db, ids: seq<nat>, user: Option<string>, id: nat)
    requires UniqueUnitIds(db.units)
    requires FindUnit(db.units, id).Some? && FindUnit(db.units, id).value.state == UnitState.Canceled
    requires id in ids
    ensures AmendAll(db, ids, user).err.Some?
    decreases |ids|
  {
    var r := AmendUnit(db, ids[0], user);
    if ids[0] == id {
      AmendUnitSucceeds(db, id, user);
    } else if r.Ok? {
      OtherRowsKept(db, ids[0], user, id);
      AmendKeepsIds(db, ids[0], user);
      AmendAllRejectsCanceled(r.value, ids[1..], user, id);
    }
  }

  /** A short-shipped unit stays short-shipped through the rest of the batch. */
  lemma {:induction false} AmendAllKeepsShortShipped(db: Db, ids: seq<nat>, user: Option<string>, id: nat,
                                                     w: Option<string>)
    requires UniqueUnitIds(db.units)
    requires ShortShipped(db.units, id, w)
    ensures ShortShipped(AmendAll(db, ids, user).db.units, id, w)
    decreases |ids|
  {
    if ids != [] {
      var r := AmendUnit(db, ids[0], user);
      if r.Ok? {
        AmendUnitSucceeds(db, ids[0], user);
        assert ids[0] != id;
        OtherRowsKept(db, ids[0], user, id);
        AmendKeepsIds(db, ids[0], user);
        AmendAllKeepsShortShipped(r.value, ids[1..], user, id, w);
      }
    }
  }

  /**
   * A batch that succeeds names no unit twice and leaves every unit it names canceled with a
   * SHORT_SHIP cancel by the user.
   */
  lemma {:induction false} AmendAllEffect(db: Db, ids: seq<nat>, user: Option<string>)
    requires UniqueUnitIds(db.units)
    ensures var out := AmendAll(db, ids, user);
      out.err.None? ==>
        && (forall i, j :: 0 <= i < j < |ids| ==> ids[i] != ids[j])
        && (forall id :: id in ids ==> ShortShipped(out.db.units, id, user))
    decreases |ids|
  {
    if ids != [] {
      var r := AmendUnit(db, ids[0], user);
      if r.Ok? {
        var db1 := r.value;
        var out := AmendAll(db1, ids[1..], user);
        AmendKeepsIds(db, ids[0], user);
        AmendAllEffect(db1, ids[1..], user);
        AmendedRow(db, ids[0], user);
        AmendAllKeepsShortShipped(db1, ids[1..], user, ids[0], user);
        if ids[0] in ids[1..] {
          AmendUnitEffect(db, ids[0], user);
          FindUnitAfterPut(db.units, FindUnit(db.units, ids[0]).value.(cancel := Some(AmendmentCancel(user)), state := UnitState.Canceled), ids[0]);
          AmendAllRejectsCanceled(db1, ids[1..], user, ids[0]);
        }
        if out.err.None? {
          DistinctCons(ids);
          forall id | id in ids ensures ShortShipped(out.db.units, id, user) {
            if id != ids[0] {
              assert id in ids[1..];
            }
          }
        }
      }
    }
  }

  /**
   * A batch that succeeds adds exactly one adjustment per unit, in batch order, each sourced
   * from that unit's cancel, and keeps the earlier adjustments.
   */
  lemma {:induction false} AmendAllAdjustments(db: Db, ids: seq<nat>, user: Option<string>)
    requires UniqueUnitIds(db.units)
    ensures var out := AmendAll(db, ids, user);
      out.err.None? ==> CancelsAppended(db.adjustments, out.db.adjustments, ids)
    decreases |ids|
  {
    if ids != [] {
      var r := AmendUnit(db, ids[0], user);
      if r.Ok? {
        AmendKeepsIds(db, ids[0], user);
        AmendAllAdjustments(r.value, ids[1..], user);
        AmendUnitAppends(db, ids[0], user);
        var out := AmendAll(r.value, ids[1..], user);
        if out.err.None? {
          AppendedCons(db.adjustments, r.value.adjustments, out.db.adjustments, ids);
        }
      }
    }
  }

  // ---------------------------------------------------------------- what it does to the order

  /**
   * Amending a single unit lowers the recomputed order total by exactly the amount
   * `compute_amount` gave it.  The unit's line item must be the order's, its id unique and its
   * stored adjustment total current, as the previous recomputation leaves it.
   */
  lemma AmendmentLowersTotal(o: Order, db: Db, u: InventoryUnit, user: Option<string>, now: int, k: nat)
    requires UniqueUnitIds(db.units) && UniqueShipmentIds(db.shipments)
    requires u.orderId == o.id && FindUnit(db.units, u.id).Some?
    requires k < |db.lineItems| && db.lineItems[k].orderId == o.id
    requires FindUnit(db.units, u.id).value.lineItemId == db.lineItems[k].id
    requires FindUnit(db.units, u.id).value.orderId == o.id
    requires forall i :: 0 <= i < |db.lineItems| && i != k ==> db.lineItems[i].id != db.lineItems[k].id
    requires db.lineItems[k].adjustmentTotal == SumsFor(db.adjustments, LineItemRef(db.lineItems[k].id)).nonIncluded
    ensures var r := ShortShipUnitsSpec(o, db, [u], user, now);
      var row := FindUnit(db.units, u.id).value;
      r.err.None? ==>
        && ComputeAmount(db, row, row.lineItemId).Ok?
        && r.order.total == Recalculated(o, db).total + ComputeAmount(db, row, row.lineItemId).value
  {
    AllOfOrderMeaning([u], o.id);
    assert UnitIds([u]) == [u.id];
    var c1 := AmendUnit(db, u.id, user);
    if c1.Ok? {
      AmendUnitEffect(db, u.id, user);
      var row := FindUnit(db.units, u.id).value;
      var a := CancelAdjustment(row, ShortShip, ComputeAmount(db, row, row.lineItemId).value);
      var db1 := db.(adjustments := db.adjustments + [a]);
      var db2 := c1.value;
      assert AmendAll(db2, [], user) == Outcome(db2, None);
      assert db2 == db1.(units := db2.units);
      SecondPassAgrees(o, db2, now);
      RecalculatedIgnoresUnits(o, db1, db2.units);
      assert db1.(units := db.units) == db1;
      AdjustmentMovesTotal(o, db, a, k);
    }
  }

  /**
   * When the unit is the last uncanceled one of its line item, its adjustment is exactly minus
   * the line item's total, and the recalculation that follows leaves that line item at zero.
   */
  lemma LastUnitZeroesLineItem(o: Order, db: Db, id: nat, user: Option<string>, k: nat)
    requires UniqueUnitIds(db.units)
    requires AmendUnit(db, id, user).Ok?
    requires k < |db.lineItems| && FindUnit(db.units, id).value.lineItemId == db.lineItems[k].id
    requires FindUnit(db.units, id).value.orderId == o.id
    requires forall i :: 0 <= i < |db.lineItems| && i != k ==> db.lineItems[i].id != db.lineItems[k].id
    requires db.lineItems[k].adjustmentTotal == SumsFor(db.adjustments, LineItemRef(db.lineItems[k].id)).nonIncluded
    requires NotCanceledCount(db.units, db.lineItems[k].id) == 1
    ensures var r := CalculateAdjustments(o, AmendUnit(db, id, user).value).db;
      k < |r.lineItems| && LineItemTotal(r.lineItems[k]) == 0
  {
    AmendUnitEffect(db, id, user);
    var row := FindUnit(db.units, id).value;
    var amount := ComputeAmount(db, row, row.lineItemId).value;
    var a := CancelAdjustment(row, ShortShip, amount);
    var db1 := db.(adjustments := db.adjustments + [a]);
    var db2 := AmendUnit(db, id, user).value;
    LastUnitAmount(db, row, k);
    AdjustmentMovesLineItemTotal(o, db, a, k);
    CalculateAdjustmentsIgnoresUnits(o, db1, db2.units);
    assert db2 == db1.(units := db2.units);
  }

  /** The last uncanceled unit of a line item takes minus the line item's whole total. */
  lemma LastUnitAmount(db: Db, u: InventoryUnit, k: nat)
    requires ComputeAmount(db, u, u.lineItemId).Ok?
    requires k < |db.lineItems| && u.lineItemId == db.lineItems[k].id
    requires forall i :: 0 <= i < |db.lineItems| && i != k ==> db.lineItems[i].id != db.lineItems[k].id
    requires NotCanceledCount(db.units, db.lineItems[k].id) == 1
    ensures ComputeAmount(db, u, u.lineItemId).value == -LineItemTotal(db.lineItems[k])
  {
    var amount := ComputeAmount(db, u, u.lineItemId).value;
    var li :| li in db.lineItems && li.id == db.lineItems[k].id
      && NotCanceledCount(db.units, db.lineItems[k].id) > 0
      && RoundsHalfAway(-LineItemTotal(li), NotCanceledCount(db.units, db.lineItems[k].id), amount)
      && (NotCanceledCount(db.units, db.lineItems[k].id) == 1 ==> amount == -LineItemTotal(li));
    var i :| 0 <= i < |db.lineItems| && db.lineItems[i] == li;
    assert i == k;
  }

  lemma CalculateAdjustmentsIgnoresUnits(o: Order, db: Db, units: seq<InventoryUnit>)
    ensures CalculateAdjustments(o, db.(units := units)).db.lineItems == CalculateAdjustments(o, db).db.lineItems
  {
    RecalculateAllIgnoresUnits(db, Distinct(AdjustablesOf(db.adjustments, o.id)), units);
  }

  /**
   * Both units of a $1.67 line item amended in turn: the first takes -$0.84 (half a cent
   * rounded away from zero), leaving $0.83, which the second, now the last uncanceled unit,
   * takes whole.  The two adjustments net -$1.67 and the line item ends at zero.
   */
  lemma TwoUnitsOfOneSixtySeven()
    ensures -RoundHalfAway(167, 2) == -84
    ensures var left := 167 - RoundHalfAway(167, 2);
      left == 83 && -RoundHalfAway(167, 2) + -RoundHalfAway(left, 1) == -167
  {
    RoundHalfAwayByOne(83);
  }

  // ---------------------------------------------------------------- the object

  class OrderAmendment {
    var order: Order
    const store: Store
    const user: Option<string>

    /** `initialize(order, user:)`. */
    constructor (order: Order, store: Store, user: Option<string>)
      ensures this.order == order && this.store == store && this.user == user
    {
      this.order := order;
      this.store := store;
      this.user := user;
    }

    /** `short_ship_units(inventory_units)`. */
    method ShortShipUnits(units: seq<InventoryUnit>, now: int) returns (err: Option<Error>)
      modifies this, store
      ensures Run(order, store.db, err) == ShortShipUnitsSpec(old(order), old(store.db), units, user, now)
    {
      AllOfOrderMeaning(units, order.id);
      var ids := UnitIds(units);
      if Distinct(OrderIds(units)) != [order.id] {
        return Some(ArgumentError);
      }
      ghost var start := store.db;
      var k := 0;
      err := None;
      while k < |ids| && err.None?
        invariant 0 <= k <= |ids| && order == old(order)
        invariant err.None? ==> AmendAll(store.db, ids[k..], user) == AmendAll(start, ids, user)
        invariant err.Some? ==> Outcome(store.db, err) == AmendAll(start, ids, user)
      {
        assert ids[k..][1..] == ids[k + 1..];
        var r := AmendUnit(store.db, ids[k], user);
        if r.Err? {
          err := Some(r.error);
        } else {
          store.db := r.value;
        }
        k := k + 1;
      }
      if err.Some? {
        return;
      }
      assert ids[k..] == [];
      var updater := new OrderUpdaters.OrderUpdater(order, store);
      err := updater.Update(now);
      order := updater.order;
    }
  }
}
