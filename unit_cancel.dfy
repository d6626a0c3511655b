/**
 * UnitCancel: the record of one inventory unit canceled after checkout, and the closed,
 * eligible adjustment on the unit's line item that credits the customer for it.
 */
module UnitCancels {
  import opened Wrappers
  import opened Money
  import opened Records

  /** UnitCancel::SHORT_SHIP. */
  const ShortShip: string := "Short Ship"

  /** The label of a cancellation adjustment: "Cancellation - <reason>". */
  function CancellationLabel(reason: string): (r: string)
    ensures r == "Cancellation - " + reason
    ensures r[|"Cancellation - "|..] == reason
  {
    "Cancellation - " + reason
  }

  /** The adjustment a unit cancel puts on its unit's line item. */
  function CancelAdjustment(u: InventoryUnit, reason: string, amount: int): Adjustment
  {
    Adjustment(LineItemRef(u.lineItemId), u.orderId, amount, CancellationLabel(reason), true, true,
               UnitCancelOf(u.id), None)
  }

  predicate HasCancelAdjustment(adjustments: seq<Adjustment>, unitId: nat)
  {
    exists a :: a in adjustments && a.source == UnitCancelOf(unitId)
  }

  /**
   * What the adjustment of `adjust!` credits: the unit's price and its shares of the promotions,
   * the additional tax and the order adjustments.  The included tax is part of the price already.
   */
  function CancelCredit(b: Breakdown): (r: int)
    ensures r + b.price + b.promoTotal + b.additionalTaxTotal + b.orderAdjustmentTotal == 0
  {
    -(b.price + b.promoTotal + b.additionalTaxTotal + b.orderAdjustmentTotal)
  }

  /**
   * `adjust!`, the call OrderCancellations makes: creates the cancellation adjustment from the
   * amounts the cancel recorded, and refuses to create a second one for the same unit.
   */
  function AdjustOnce(db: Db, u: InventoryUnit, c: UnitCancel): (r: Result<Db, Error>)
    ensures r.Err? <==> HasCancelAdjustment(db.adjustments, u.id)
    ensures r.Err? ==> r.error == AdjustmentAlreadyCreated
    ensures r.Ok? ==> |r.value.adjustments| == |db.adjustments| + 1
    ensures r.Ok? ==> r.value == db.(adjustments := db.adjustments + [r.value.adjustments[|db.adjustments|]])
    ensures r.Ok? ==> var a := r.value.adjustments[|db.adjustments|];
      && a.adjustable == LineItemRef(u.lineItemId) && a.orderId == u.orderId
      && a.amount == CancelCredit(c.amounts) && a.eligible && a.closed
      && a.labelText == CancellationLabel(c.reason) && a.source == UnitCancelOf(u.id)
  {
    if HasCancelAdjustment(db.adjustments, u.id) then Err(AdjustmentAlreadyCreated)
    else Ok(db.(adjustments := db.adjustments + [CancelAdjustment(u, c.reason, CancelCredit(c.amounts))]))
  }

  /** `adjust!` creates one adjustment per unit: calling it again raises. */
  lemma AdjustOnceIsOnce(db: Db, u: InventoryUnit, c: UnitCancel, c': UnitCancel)
    requires AdjustOnce(db, u, c).Ok?
    ensures AdjustOnce(AdjustOnce(db, u, c).value, u, c') == Err(AdjustmentAlreadyCreated)
  {
    var db' := AdjustOnce(db, u, c).value;
    assert db'.adjustments[|db.adjustments|] in db'.adjustments;
  }

  /** A cancel of a $10.00 unit with no shares credits -$10.00. */
  lemma CreditOfPlainUnit()
    ensures CancelCredit(Breakdown(1000, 0, 0, 0, 0)) == -1000
  {
  }

  /** The units of a line item that are not canceled: `inventory_units.not_canceled`. */
  function NotCanceledCount(units: seq<InventoryUnit>, lineItemId: nat): (n: nat)
    ensures n <= |units|
    ensures n == 0 <==> forall v :: v in units && v.lineItemId == lineItemId ==> v.state == UnitState.Canceled
  {
    if units == [] then 0
    else (if units[0].lineItemId == lineItemId && units[0].state != UnitState.Canceled then 1 else 0)
         + NotCanceledCount(units[1..], lineItemId)
  }

  /**
   * `compute_amount`: minus the line item's current total split among its units that are not
   * canceled, rounded to cents as the amount column of the adjustment stores it.
   */
  function ComputeAmount(db: Db, u: InventoryUnit, lineItemId: nat): (r: Result<int, Error>)
    ensures lineItemId != u.lineItemId <==> r == Err(AdjustableMismatch)
    ensures r.Ok? ==> exists li :: (li in db.lineItems && li.id == lineItemId
      && NotCanceledCount(db.units, lineItemId) > 0
      && RoundsHalfAway(-LineItemTotal(li), NotCanceledCount(db.units, lineItemId), r.value)
      && (NotCanceledCount(db.units, lineItemId) == 1 ==> r.value == -LineItemTotal(li)))
  {
    if lineItemId != u.lineItemId then Err(AdjustableMismatch)
    else match FindLineItem(db.lineItems, lineItemId)
      case None => Err(RecordNotFound)
      case Some(li) =>
        var n := NotCanceledCount(db.units, lineItemId);
        if n == 0 then Err(ZeroDivision)
        else
          RoundHalfAwayNegate(LineItemTotal(li), n);
          RoundHalfAwayByOne(LineItemTotal(li));
          Ok(-RoundHalfAway(LineItemTotal(li), n))
  }

  /** `adjust`, the call OrderAmendments makes: the adjustment carries `compute_amount`. */
  function Adjust(db: Db, u: InventoryUnit, c: UnitCancel): (r: Result<Db, Error>)
    ensures r.Ok? <==> ComputeAmount(db, u, u.lineItemId).Ok?
    ensures r.Ok? ==> r.value == db.(adjustments := db.adjustments
                        + [CancelAdjustment(u, c.reason, ComputeAmount(db, u, u.lineItemId).value)])
  {
    match ComputeAmount(db, u, u.lineItemId)
    case Err(e) => Err(e)
    case Ok(amount) => Ok(db.(adjustments := db.adjustments + [CancelAdjustment(u, c.reason, amount)]))
  }
}
