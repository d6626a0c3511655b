/**
 * OrderCapturing: charges an unpaid order's total from its pending payments, greedily, in
 * priority order (the index of the payment method's kind among the eligible kinds, then the
 * payment id), each payment for `min(left to charge, the payment's amount)`, until nothing is
 * left or no payment is pending.  An order already paid is left alone.
 */
module OrderCapturing {
  import opened Wrappers
  import opened Records
  import opened Stores
  import opened Payments

  /** Order#paid?, read from the payment state: paid or credit owed. */
  predicate OrderPaid(o: Order)
  {
    o.paymentState == Some(OrderPaymentState.Paid) || o.paymentState == Some(CreditOwed)
  }

  // ---------------------------------------------------------------- the loop, as a function

  /**
   * The `while uncaptured_amount > 0` loop: the first pending payment by priority is captured
   * for what is left or for its whole amount, whichever is less; the loop breaks when no payment
   * is pending, and a sort over keys Ruby cannot compare raises.  Captures already made stay.
   */
  function CaptureOrder(eligible: seq<nat>, payments: seq<Payment>, orderId: nat, uncaptured: int): Charged
    decreases |PendingPayments(payments, orderId)|
  {
    if uncaptured <= 0 then Charged(payments, [], None)
    else match NextPayment(eligible, payments, orderId)
      case Err(e) => Charged(payments, [], Some(e))
      case Ok(None) => Charged(payments, [], None)
      case Ok(Some(p)) =>
        var amount := Least(uncaptured, p.amount);
        NextIsPending(eligible, payments, orderId);
        CaptureLeavesFewerPending(payments, p, amount, orderId);
        var rest := CaptureOrder(eligible, CapturePayment(payments, p, amount), orderId, uncaptured - amount);
        rest.(events := [CaptureEvent(p.id, amount)] + rest.events)
  }

  /** `capture_payments`: nothing when the order is paid, else its total charged from its payments. */
  function CapturePaymentsSpec(eligible: seq<nat>, o: Order, db: Db): Outcome
  {
    if OrderPaid(o) then Outcome(db, None)
    else ApplyCharges(db, CaptureOrder(eligible, db.payments, o.id, o.total))
  }

  // ---------------------------------------------------------------- what the loop does

  /** One turn of the loop: the first payment by priority is captured, then the rest of the order. */
  lemma CaptureOrderStep(eligible: seq<nat>, payments: seq<Payment>, orderId: nat, uncaptured: int, p: Payment)
    requires uncaptured > 0 && NextPayment(eligible, payments, orderId) == Ok(Some(p))
    ensures var amount := Least(uncaptured, p.amount);
      var rest := CaptureOrder(eligible, CapturePayment(payments, p, amount), orderId, uncaptured - amount);
      CaptureOrder(eligible, payments, orderId, uncaptured) == rest.(events := [CaptureEvent(p.id, amount)] + rest.events)
  {
  }

  /** Where the loop stops: nothing left to charge, no payment pending, or a sort that raises. */
  lemma CaptureOrderStops(eligible: seq<nat>, payments: seq<Payment>, orderId: nat, left: int)
    requires !(left > 0 && NextPayment(eligible, payments, orderId).Ok? && NextPayment(eligible, payments, orderId).value.Some?)
    ensures CaptureOrder(eligible, payments, orderId, left)
            == Charged(payments, [], if left > 0 && NextPayment(eligible, payments, orderId).Err?
                                     then Some(NextPayment(eligible, payments, orderId).error) else None)
  {
  }

  /** The amounts of some payments, none negative, add up to nothing negative. */
  lemma {:induction false} AmountTotalNonNegative(ps: seq<Payment>)
    requires NonNegativeAmounts(ps)
    ensures AmountTotal(ps) >= 0
  {
    if ps != [] {
      assert ps[0] in ps;
      assert forall q :: q in ps[1..] ==> q in ps;
      AmountTotalNonNegative(ps[1..]);
    }
  }

  /** One capture in `CaptureOrderCharges`: the pending amounts fall by the payment's, and the rest stays as required. */
  lemma ChargesStep(eligible: seq<nat>, payments: seq<Payment>, orderId: nat, p: Payment, amount: int)
    requires UniquePaymentIds(payments)
    requires NonNegativeAmounts(PendingPayments(payments, orderId))
    requires !MixedRanks(eligible, PendingPayments(payments, orderId))
    requires p in PendingPayments(payments, orderId)
    ensures var after := PendingPayments(CapturePayment(payments, p, amount), orderId);
      && AmountTotal(after) == AmountTotal(PendingPayments(payments, orderId)) - p.amount
      && p.amount >= 0 && AmountTotal(after) >= 0
      && UniquePaymentIds(CapturePayment(payments, p, amount))
      && NonNegativeAmounts(after) && !MixedRanks(eligible, after)
  {
    var after := PendingPayments(CapturePayment(payments, p, amount), orderId);
    CaptureRemovesPending(payments, p, amount, orderId);
    PendingShrinks(payments, p, amount, orderId);
    FewerNotMixed(eligible, PendingPayments(payments, orderId), after);
    CaptureKeepsUniqueIds(payments, p, amount);
    AmountTotalNonNegative(after);
  }

  /**
   * With payments of distinct ids whose pending ones have amounts that are not negative and
   * priorities that compare, the loop does not raise and captures exactly the smaller of what
   * the order owes and what its pending payments amount to.
   */
  lemma {:induction false} CaptureOrderCharges(eligible: seq<nat>, payments: seq<Payment>, orderId: nat, uncaptured: int)
    requires UniquePaymentIds(payments)
    requires NonNegativeAmounts(PendingPayments(payments, orderId))
    requires !MixedRanks(eligible, PendingPayments(payments, orderId))
    ensures CaptureOrder(eligible, payments, orderId, uncaptured).err.None?
    ensures EventsTotal(CaptureOrder(eligible, payments, orderId, uncaptured).events)
            == Least(PositivePart(uncaptured), AmountTotal(PendingPayments(payments, orderId)))
    decreases |PendingPayments(payments, orderId)|
  {
    var next := NextPayment(eligible, payments, orderId);
    if uncaptured > 0 && next.Ok? && next.value.Some? {
      var p := next.value.value;
      NextIsPending(eligible, payments, orderId);
      var amount := Least(uncaptured, p.amount);
      CaptureLeavesFewerPending(payments, p, amount, orderId);
      ChargesStep(eligible, payments, orderId, p, amount);
      CaptureOrderCharges(eligible, CapturePayment(payments, p, amount), orderId, uncaptured - amount);
      ChargesTurn(eligible, payments, orderId, uncaptured, p, amount);
    } else {
      ChargesIdle(eligible, payments, orderId, uncaptured);
    }
  }

  /** The inductive step of `CaptureOrderCharges`: one capture, then the rest as the induction hypothesis says. */
  lemma ChargesTurn(eligible: seq<nat>, payments: seq<Payment>, orderId: nat, uncaptured: int, p: Payment, amount: int)
    requires UniquePaymentIds(payments)
    requires NonNegativeAmounts(PendingPayments(payments, orderId))
    requires !MixedRanks(eligible, PendingPayments(payments, orderId))
    requires uncaptured > 0 && NextPayment(eligible, payments, orderId) == Ok(Some(p))
    requires amount == Least(uncaptured, p.amount)
    requires CaptureOrder(eligible, CapturePayment(payments, p, amount), orderId, uncaptured - amount).err.None?
    requires EventsTotal(CaptureOrder(eligible, CapturePayment(payments, p, amount), orderId, uncaptured - amount).events)
             == Least(PositivePart(uncaptured - amount), AmountTotal(PendingPayments(CapturePayment(payments, p, amount), orderId)))
    ensures CaptureOrder(eligible, payments, orderId, uncaptured).err.None?
    ensures EventsTotal(CaptureOrder(eligible, payments, orderId, uncaptured).events)
            == Least(PositivePart(uncaptured), AmountTotal(PendingPayments(payments, orderId)))
  {
    var after := CapturePayment(payments, p, amount);
    NextIsPending(eligible, payments, orderId);
    ChargesStep(eligible, payments, orderId, p, amount);
    CaptureOrderStep(eligible, payments, orderId, uncaptured, p);
    EventsTotalAppend([CaptureEvent(p.id, amount)], CaptureOrder(eligible, after, orderId, uncaptured - amount).events);
  }

  /** Where `CaptureOrderCharges` stops: nothing to charge, or no payment pending, whose amounts then add up to nothing. */
  lemma ChargesIdle(eligible: seq<nat>, payments: seq<Payment>, orderId: nat, uncaptured: int)
    requires NonNegativeAmounts(PendingPayments(payments, orderId))
    requires !MixedRanks(eligible, PendingPayments(payments, orderId))
    requires !(uncaptured > 0 && NextPayment(eligible, payments, orderId).Ok? && NextPayment(eligible, payments, orderId).value.Some?)
    ensures CaptureOrder(eligible, payments, orderId, uncaptured).err.None?
    ensures EventsTotal(CaptureOrder(eligible, payments, orderId, uncaptured).events)
            == Least(PositivePart(uncaptured), AmountTotal(PendingPayments(payments, orderId)))
  {
    NextPaymentMeans(eligible, payments, orderId);
    AmountTotalNonNegative(PendingPayments(payments, orderId));
    CaptureOrderStops(eligible, payments, orderId, uncaptured);
  }

  /**
   * The loop raises only for priorities Ruby cannot compare, and only when ranked and unranked
   * pending payments meet; when they meet and there is something to charge, it raises at once,
   * before any capture.
   */
  lemma {:induction false} CaptureOrderRaises(eligible: seq<nat>, payments: seq<Payment>, orderId: nat, uncaptured: int)
    ensures var c := CaptureOrder(eligible, payments, orderId, uncaptured);
      c.err.Some? ==> c.err == Some(IncomparablePriorities) && MixedRanks(eligible, PendingPayments(payments, orderId))
    ensures uncaptured > 0 && MixedRanks(eligible, PendingPayments(payments, orderId))
            ==> CaptureOrder(eligible, payments, orderId, uncaptured) == Charged(payments, [], Some(IncomparablePriorities))
    decreases |PendingPayments(payments, orderId)|
  {
    var next := NextPayment(eligible, payments, orderId);
    NextPaymentMeans(eligible, payments, orderId);
    if uncaptured > 0 && next.Ok? && next.value.Some? {
      var p := next.value.value;
      NextIsPending(eligible, payments, orderId);
      var amount := Least(uncaptured, p.amount);
      var after := CapturePayment(payments, p, amount);
      CaptureLeavesFewerPending(payments, p, amount, orderId);
      CaptureOrderStep(eligible, payments, orderId, uncaptured, p);
      CaptureOrderRaises(eligible, after, orderId, uncaptured - amount);
      PendingShrinks(payments, p, amount, orderId);
      if !MixedRanks(eligible, PendingPayments(payments, orderId)) {
        FewerNotMixed(eligible, PendingPayments(payments, orderId), PendingPayments(after, orderId));
      }
    } else {
      CaptureOrderStops(eligible, payments, orderId, uncaptured);
    }
  }

  /** The loop touches only the order's pending payments, and changes no payment's id, order or amount. */
  lemma {:induction false} CaptureOrderWrites(eligible: seq<nat>, payments: seq<Payment>, orderId: nat, uncaptured: int)
    requires UniquePaymentIds(payments)
    ensures OnlyPending(payments, CaptureOrder(eligible, payments, orderId, uncaptured).payments, {orderId})
    decreases |PendingPayments(payments, orderId)|
  {
    var next := NextPayment(eligible, payments, orderId);
    if uncaptured > 0 && next.Ok? && next.value.Some? {
      var p := next.value.value;
      NextIsPending(eligible, payments, orderId);
      var amount := Least(uncaptured, p.amount);
      var after := CapturePayment(payments, p, amount);
      CaptureLeavesFewerPending(payments, p, amount, orderId);
      CaptureKeepsUniqueIds(payments, p, amount);
      CaptureOrderStep(eligible, payments, orderId, uncaptured, p);
      CaptureOrderWrites(eligible, after, orderId, uncaptured - amount);
      WritesStep(payments, p, amount, orderId, CaptureOrder(eligible, after, orderId, uncaptured - amount).payments);
    } else {
      CaptureOrderStops(eligible, payments, orderId, uncaptured);
      OnlyPendingRefl(payments, {orderId});
    }
  }

  /** Every capture event the loop records charges one of the order's pending payments. */
  lemma {:induction false} CaptureOrderChargesPending(eligible: seq<nat>, payments: seq<Payment>, orderId: nat, uncaptured: int)
    ensures EventIds(CaptureOrder(eligible, payments, orderId, uncaptured).events) <= IdsOf(PendingPayments(payments, orderId))
    decreases |PendingPayments(payments, orderId)|
  {
    var next := NextPayment(eligible, payments, orderId);
    if uncaptured > 0 && next.Ok? && next.value.Some? {
      var p := next.value.value;
      NextIsPending(eligible, payments, orderId);
      var amount := Least(uncaptured, p.amount);
      CaptureLeavesFewerPending(payments, p, amount, orderId);
      CaptureOrderChargesPending(eligible, CapturePayment(payments, p, amount), orderId, uncaptured - amount);
      ChargesPendingTurn(eligible, payments, orderId, uncaptured, p, amount);
    } else {
      CaptureOrderStops(eligible, payments, orderId, uncaptured);
    }
  }

  /** The inductive step of `CaptureOrderChargesPending`. */
  lemma ChargesPendingTurn(eligible: seq<nat>, payments: seq<Payment>, orderId: nat, uncaptured: int, p: Payment, amount: int)
    requires uncaptured > 0 && NextPayment(eligible, payments, orderId) == Ok(Some(p))
    requires amount == Least(uncaptured, p.amount)
    requires EventIds(CaptureOrder(eligible, CapturePayment(payments, p, amount), orderId, uncaptured - amount).events)
             <= IdsOf(PendingPayments(CapturePayment(payments, p, amount), orderId))
    ensures EventIds(CaptureOrder(eligible, payments, orderId, uncaptured).events) <= IdsOf(PendingPayments(payments, orderId))
  {
    var after := CapturePayment(payments, p, amount);
    NextIsPending(eligible, payments, orderId);
    CaptureOrderStep(eligible, payments, orderId, uncaptured, p);
    PendingIdsShrink(payments, p, amount, orderId);
    EventIdsCons(CaptureEvent(p.id, amount), CaptureOrder(eligible, after, orderId, uncaptured - amount).events);
  }

  // ---------------------------------------------------------------- capture_payments

  /** An order already paid is not charged: no payment is captured and nothing is written. */
  lemma PaidOrderUntouched(eligible: seq<nat>, o: Order, db: Db)
    requires OrderPaid(o)
    ensures CapturePaymentsSpec(eligible, o, db) == Outcome(db, None)
  {
  }

  /**
   * An unpaid order whose pending payments amount to at least its total, have distinct ids,
   * no negative amount and priorities that compare, is charged exactly its total (nothing when
   * the total is not positive) in capture events appended to the table, without a raise; only
   * the order's pending payments change.
   */
  lemma UnpaidOrderCharged(eligible: seq<nat>, o: Order, db: Db)
    requires !OrderPaid(o) && UniquePaymentIds(db.payments)
    requires NonNegativeAmounts(PendingPayments(db.payments, o.id))
    requires !MixedRanks(eligible, PendingPayments(db.payments, o.id))
    requires o.total <= AmountTotal(PendingPayments(db.payments, o.id))
    ensures var r := CapturePaymentsSpec(eligible, o, db);
      && r.err.None?
      && r.db == db.(payments := r.db.payments, captureEvents := r.db.captureEvents)
      && OnlyPending(db.payments, r.db.payments, {o.id})
      && |db.captureEvents| <= |r.db.captureEvents| && r.db.captureEvents[..|db.captureEvents|] == db.captureEvents
      && EventsTotal(r.db.captureEvents[|db.captureEvents|..]) == PositivePart(o.total)
  {
    var c := CaptureOrder(eligible, db.payments, o.id, o.total);
    var r := CapturePaymentsSpec(eligible, o, db);
    assert r.db.captureEvents[..|db.captureEvents|] == db.captureEvents;
    assert r.db.captureEvents[|db.captureEvents|..] == c.events;
    CaptureOrderCharges(eligible, db.payments, o.id, o.total);
    CaptureOrderWrites(eligible, db.payments, o.id, o.total);
    AmountTotalNonNegative(PendingPayments(db.payments, o.id));
  }

  /**
   * The `while` loop of `capture_payments`, over the order's payments: the first pending
   * payment by priority is captured for what is left or its whole amount, whichever is less,
   * until nothing is left or no payment is pending (the `break`), or the sort raises.
   */
  method CaptureOrderLoop(eligible: seq<nat>, payments: seq<Payment>, orderId: nat, uncaptured: int) returns (r: Charged)
    ensures r == CaptureOrder(eligible, payments, orderId, uncaptured)
  {
    var current := payments;
    var done: seq<CaptureEvent> := [];
    var left := uncaptured;
    ghost var target := CaptureOrder(eligible, payments, orderId, uncaptured);
    while left > 0
      invariant target == AfterEvents(done, CaptureOrder(eligible, current, orderId, left))
      decreases |PendingPayments(current, orderId)|
    {
      var next := NextPayment(eligible, current, orderId);
      if next.Err? {
        CaptureOrderEnds(eligible, current, orderId, left, done, target);
        return Charged(current, done, Some(next.error));
      }
      if next.value.None? {
        break;
      }
      var payment := next.value.value;
      var amount := Least(left, payment.amount);
      CaptureOrderTurn(eligible, current, orderId, left, payment, amount, done, target);
      current := CapturePayment(current, payment, amount);
      done := done + [CaptureEvent(payment.id, amount)];
      left := left - amount;
    }
    CaptureOrderEnds(eligible, current, orderId, left, done, target);
    r := Charged(current, done, None);
  }

  /** One turn of the loop: once the first payment by priority is captured, what is left is the rest of the run. */
  lemma CaptureOrderTurn(eligible: seq<nat>, payments: seq<Payment>, orderId: nat, left: int, p: Payment, amount: int,
                         done: seq<CaptureEvent>, target: Charged)
    requires left > 0 && NextPayment(eligible, payments, orderId) == Ok(Some(p))
    requires amount == Least(left, p.amount)
    requires target == AfterEvents(done, CaptureOrder(eligible, payments, orderId, left))
    ensures target == AfterEvents(done + [CaptureEvent(p.id, amount)],
                                  CaptureOrder(eligible, CapturePayment(payments, p, amount), orderId, left - amount))
    ensures |PendingPayments(CapturePayment(payments, p, amount), orderId)| < |PendingPayments(payments, orderId)|
  {
    NextIsPending(eligible, payments, orderId);
    CaptureLeavesFewerPending(payments, p, amount, orderId);
    CaptureOrderStep(eligible, payments, orderId, left, p);
    AfterEventsStep(done, CaptureEvent(p.id, amount), CaptureOrder(eligible, CapturePayment(payments, p, amount), orderId, left - amount));
  }

  /** Where the loop ends, the run is the captures made so far and the raise, if the sort raised. */
  lemma CaptureOrderEnds(eligible: seq<nat>, payments: seq<Payment>, orderId: nat, left: int,
                         done: seq<CaptureEvent>, target: Charged)
    requires !(left > 0 && NextPayment(eligible, payments, orderId).Ok? && NextPayment(eligible, payments, orderId).value.Some?)
    requires target == AfterEvents(done, CaptureOrder(eligible, payments, orderId, left))
    ensures target == Charged(payments, done, if left > 0 && NextPayment(eligible, payments, orderId).Err?
                                              then Some(NextPayment(eligible, payments, orderId).error) else None)
  {
    CaptureOrderStops(eligible, payments, orderId, left);
    assert done + [] == done;
  }

  // ---------------------------------------------------------------- the object

  class OrderCapturing {
    /** `@order`. */
    const order: Order
    /** The class attribute `eligible_payments`: payment method kinds in the order they are charged. */
    const eligiblePayments: seq<nat>
    const store: Store

    /** `initialize(order)`. */
    constructor (order: Order, eligiblePayments: seq<nat>, store: Store)
      ensures this.order == order && this.eligiblePayments == eligiblePayments && this.store == store
    {
      this.order := order;
      this.eligiblePayments := eligiblePayments;
      this.store := store;
    }

    /** `capture_payments`: every capture is saved as it is made, so a raise keeps those before it. */
    method CapturePayments() returns (err: Option<Error>)
      modifies store
      ensures Outcome(store.db, err) == CapturePaymentsSpec(eligiblePayments, order, old(store.db))
    {
      if OrderPaid(order) {
        return None;
      }
      var charged := CaptureOrderLoop(eligiblePayments, store.db.payments, order.id, order.total);
      store.db := store.db.(payments := charged.payments, captureEvents := store.db.captureEvents + charged.events);
      err := charged.err;
    }
  }
}
