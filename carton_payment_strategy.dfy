/**
 * CartonPaymentStrategy: charges the payments of each order a carton capture covers.  The
 * carton's unit captures are grouped by their unit's order; each order is charged the total
 * of its own unit captures, greedily, from its pending payments in priority order,
 * `min(left to charge, what the payment still holds)` at a time, until nothing is left.
 */
module CartonPayments {
  import opened Wrappers
  import opened Records
  import opened Stores
  import opened Payments
  import ShippingManifest

  /** An InventoryUnitCapture built on a carton capture, with the unit it is for. */
  datatype BuiltCapture = BuiltCapture(unit: InventoryUnit, capture: UnitCapture)

  // ---------------------------------------------------------------- CartonCapture#total

  /** What one unit capture charges: price, promotions, additional tax and order adjustments; included tax is in the price. */
  function ChargedAmount(b: Breakdown): int
  {
    b.price + b.promoTotal + b.additionalTaxTotal + b.orderAdjustmentTotal
  }

  /** `carton_capture.total(unit_captures)`. */
  function CaptureTotal(rows: seq<BuiltCapture>): int
  {
    if rows == [] then 0 else ChargedAmount(rows[0].capture.amounts) + CaptureTotal(rows[1..])
  }

  lemma {:induction false} CaptureTotalConcat(a: seq<BuiltCapture>, b: seq<BuiltCapture>)
    ensures CaptureTotal(a + b) == CaptureTotal(a) + CaptureTotal(b)
  {
    if a == [] {
      assert a + b == b;
    } else {
      assert (a + b)[1..] == a[1..] + b;
      CaptureTotalConcat(a[1..], b);
    }
  }

  /** Two unit captures of 1.10 price, 2.20 promotion, 3.30 included and 4.40 additional tax, 5.50 order adjustment: 26.40. */
  lemma TwoCapturesTotal(u: InventoryUnit)
    ensures var c := BuiltCapture(u, UnitCapture(0, "USD", Breakdown(110, 220, 440, 330, 550)));
      CaptureTotal([c, c]) == 2640
  {
    var c := BuiltCapture(u, UnitCapture(0, "USD", Breakdown(110, 220, 440, 330, 550)));
    assert [c, c][1..] == [c];
    assert CaptureTotal([c]) == 1320 by {
      assert [c][1..] == [];
    }
  }

  // ---------------------------------------------------------------- order_unit_capture_groups

  function OrderIdsOf(rows: seq<BuiltCapture>): (r: seq<nat>)
    ensures |r| == |rows| && forall i :: 0 <= i < |r| ==> r[i] == rows[i].unit.orderId
  {
    if rows == [] then [] else [rows[0].unit.orderId] + OrderIdsOf(rows[1..])
  }

  /** The orders of the carton's units, each once, in order of first appearance. */
  function Groups(rows: seq<BuiltCapture>): (r: seq<nat>)
    ensures forall i, j :: 0 <= i < j < |r| ==> r[i] != r[j]
    ensures forall o :: o in r <==> exists i :: 0 <= i < |rows| && rows[i].unit.orderId == o
  {
    var ids := OrderIdsOf(rows);
    var r := ShippingManifest.Distinct(ids);
    assert forall o :: o in ids <==> exists i :: 0 <= i < |rows| && rows[i].unit.orderId == o by {
      forall o ensures o in ids <==> exists i :: 0 <= i < |rows| && rows[i].unit.orderId == o {
        if o in ids {
          var i :| 0 <= i < |ids| && ids[i] == o;
          assert rows[i].unit.orderId == o;
        }
      }
    }
    r
  }

  /** The unit captures of one group: those whose unit belongs to `orderId`. */
  function CapturesOf(rows: seq<BuiltCapture>, orderId: nat): (r: seq<BuiltCapture>)
    ensures forall c :: c in r <==> c in rows && c.unit.orderId == orderId
  {
    if rows == [] then []
    else (if rows[0].unit.orderId == orderId then [rows[0]] else []) + CapturesOf(rows[1..], orderId)
  }

  /** What the groups of `orders` charge between them. */
  function GroupTotals(rows: seq<BuiltCapture>, orders: seq<nat>): int
  {
    if orders == [] then 0 else CaptureTotal(CapturesOf(rows, orders[0])) + GroupTotals(rows, orders[1..])
  }

  /** How much of `amount` the groups of `orders` see: all of it once if `orderId` is among them. */
  lemma {:induction false} OneGroupTakesIt(rows: seq<BuiltCapture>, orders: seq<nat>, c: BuiltCapture)
    requires forall i, j :: 0 <= i < j < |orders| ==> orders[i] != orders[j]
    ensures GroupTotals([c] + rows, orders)
            == GroupTotals(rows, orders) + (if c.unit.orderId in orders then ChargedAmount(c.capture.amounts) else 0)
  {
    if orders != [] {
      assert ([c] + rows)[1..] == rows;
      assert orders[0] != c.unit.orderId ==> CapturesOf([c] + rows, orders[0]) == CapturesOf(rows, orders[0]);
      assert orders[0] == c.unit.orderId ==> CapturesOf([c] + rows, orders[0]) == [c] + CapturesOf(rows, orders[0]);
      assert ([c] + CapturesOf(rows, orders[0]))[1..] == CapturesOf(rows, orders[0]);
      if orders[0] == c.unit.orderId {
        forall j | 0 <= j < |orders[1..]| ensures orders[1..][j] != c.unit.orderId {
          assert orders[1..][j] == orders[j + 1];
        }
      }
      assert c.unit.orderId in orders <==> c.unit.orderId == orders[0] || c.unit.orderId in orders[1..] by {
        assert orders == [orders[0]] + orders[1..];
      }
      OneGroupTakesIt(rows, orders[1..], c);
    }
  }

  /** Grouped by order, the unit captures charge exactly what the whole carton does. */
  lemma {:induction false} GroupsCoverCarton(rows: seq<BuiltCapture>, orders: seq<nat>)
    requires forall i, j :: 0 <= i < j < |orders| ==> orders[i] != orders[j]
    requires forall c :: c in rows ==> c.unit.orderId in orders
    ensures GroupTotals(rows, orders) == CaptureTotal(rows)
  {
    if rows == [] {
      EmptyGroups(orders);
    } else {
      assert rows == [rows[0]] + rows[1..];
      OneGroupTakesIt(rows[1..], orders, rows[0]);
      GroupsCoverCarton(rows[1..], orders);
    }
  }

  lemma {:induction false} EmptyGroups(orders: seq<nat>)
    ensures GroupTotals([], orders) == 0
  {
    if orders != [] {
      EmptyGroups(orders[1..]);
    }
  }


  // ---------------------------------------------------------------- charging one order


  /**
   * The `while uncaptured_amount > 0` loop for one order: the first pending payment by
   * priority is charged what is left or what it still holds, whichever is less.  Running out of
   * pending payments raises, as `nil.uncaptured_amount` does; so does a sort over keys Ruby
   * cannot compare.  Charges already made stay made.
   */
  function ChargeOrder(eligible: seq<nat>, payments: seq<Payment>, orderId: nat, uncaptured: int): Charged
    decreases |PendingPayments(payments, orderId)|
  {
    if uncaptured <= 0 then Charged(payments, [], None)
    else match NextPayment(eligible, payments, orderId)
      case Err(e) => Charged(payments, [], Some(e))
      case Ok(None) => Charged(payments, [], Some(NoPendingPayment))
      case Ok(Some(p)) =>
        var amount := Least(uncaptured, Uncaptured(p));
        NextIsPending(eligible, payments, orderId);
        CaptureLeavesFewerPending(payments, p, amount, orderId);
        var rest := ChargeOrder(eligible, CapturePayment(payments, p, amount), orderId, uncaptured - amount);
        rest.(events := [CaptureEvent(p.id, amount)] + rest.events)
  }

  /** Charging an order touches only its pending payments, and changes no payment's id, order or amount. */
  lemma {:induction false} ChargeOrderWrites(eligible: seq<nat>, payments: seq<Payment>, orderId: nat, uncaptured: int)
    requires UniquePaymentIds(payments)
    ensures OnlyPending(payments, ChargeOrder(eligible, payments, orderId, uncaptured).payments, {orderId})
    decreases |PendingPayments(payments, orderId)|
  {
    var next := NextPayment(eligible, payments, orderId);
    if uncaptured > 0 && next.Ok? && next.value.Some? {
      var p := next.value.value;
      NextIsPending(eligible, payments, orderId);
      var amount := Least(uncaptured, Uncaptured(p));
      var after := CapturePayment(payments, p, amount);
      CaptureLeavesFewerPending(payments, p, amount, orderId);
      CaptureKeepsUniqueIds(payments, p, amount);
      ChargeOrderWrites(eligible, after, orderId, uncaptured - amount);
      WritesStep(payments, p, amount, orderId, ChargeOrder(eligible, after, orderId, uncaptured - amount).payments);
    } else {
      OnlyPendingRefl(payments, {orderId});
    }
  }

  /** Every capture event charging an order records a charge of one of the order's pending payments. */
  lemma {:induction false} ChargeOrderChargesPending(eligible: seq<nat>, payments: seq<Payment>, orderId: nat, uncaptured: int)
    ensures EventIds(ChargeOrder(eligible, payments, orderId, uncaptured).events) <= IdsOf(PendingPayments(payments, orderId))
    decreases |PendingPayments(payments, orderId)|
  {
    var next := NextPayment(eligible, payments, orderId);
    if uncaptured > 0 && next.Ok? && next.value.Some? {
      var p := next.value.value;
      NextIsPending(eligible, payments, orderId);
      var amount := Least(uncaptured, Uncaptured(p));
      var after := CapturePayment(payments, p, amount);
      CaptureLeavesFewerPending(payments, p, amount, orderId);
      var rest := ChargeOrder(eligible, after, orderId, uncaptured - amount).events;
      ChargeOrderStep(eligible, payments, orderId, uncaptured, p);
      ChargeOrderChargesPending(eligible, after, orderId, uncaptured - amount);
      PendingIdsShrink(payments, p, amount, orderId);
      EventIdsCons(CaptureEvent(p.id, amount), rest);
    } else {
      ChargeOrderIdle(eligible, payments, orderId, uncaptured);
    }
  }

  /** When the loop does not turn, nothing is charged. */
  lemma ChargeOrderIdle(eligible: seq<nat>, payments: seq<Payment>, orderId: nat, uncaptured: int)
    requires !(uncaptured > 0 && NextPayment(eligible, payments, orderId).Ok? && NextPayment(eligible, payments, orderId).value.Some?)
    ensures ChargeOrder(eligible, payments, orderId, uncaptured).events == []
    ensures ChargeOrder(eligible, payments, orderId, uncaptured).payments == payments
  {
  }

  /** No payment ends up charged beyond its amount. */
  lemma {:induction false} ChargeOrderKeepsSolvent(eligible: seq<nat>, payments: seq<Payment>, orderId: nat, uncaptured: int)
    requires Solvent(payments)
    ensures Solvent(ChargeOrder(eligible, payments, orderId, uncaptured).payments)
    decreases |PendingPayments(payments, orderId)|
  {
    var next := NextPayment(eligible, payments, orderId);
    if uncaptured > 0 && next.Ok? && next.value.Some? {
      var p := next.value.value;
      NextIsPending(eligible, payments, orderId);
      var amount := Least(uncaptured, Uncaptured(p));
      CaptureLeavesFewerPending(payments, p, amount, orderId);
      CaptureKeepsSolvent(payments, p, amount);
      ChargeOrderKeepsSolvent(eligible, CapturePayment(payments, p, amount), orderId, uncaptured - amount);
    }
  }

  /** A successful charge of an order whose payments are solvent charges exactly what was asked. */
  lemma {:induction false} ChargeOrderCharges(eligible: seq<nat>, payments: seq<Payment>, orderId: nat, uncaptured: int)
    requires Solvent(payments)
    ensures ChargeOrder(eligible, payments, orderId, uncaptured).err.None?
            ==> EventsTotal(ChargeOrder(eligible, payments, orderId, uncaptured).events) == PositivePart(uncaptured)
    decreases |PendingPayments(payments, orderId)|
  {
    var next := NextPayment(eligible, payments, orderId);
    if uncaptured > 0 && next.Ok? && next.value.Some? {
      var p := next.value.value;
      NextIsPending(eligible, payments, orderId);
      var amount := Least(uncaptured, Uncaptured(p));
      PendingMember(payments, orderId, p);
      assert Uncaptured(p) >= 0;
      var after := CapturePayment(payments, p, amount);
      CaptureLeavesFewerPending(payments, p, amount, orderId);
      CaptureKeepsSolvent(payments, p, amount);
      ChargeOrderCharges(eligible, after, orderId, uncaptured - amount);
      EventsTotalAppend([CaptureEvent(p.id, amount)], ChargeOrder(eligible, after, orderId, uncaptured - amount).events);
    }
  }

  /**
   * With solvent payments of distinct ids whose priorities compare, charging an order fails
   * exactly when its pending payments hold less than it owes, and then for want of a payment.
   */
  lemma {:induction false} ChargeOrderRunsOut(eligible: seq<nat>, payments: seq<Payment>, orderId: nat, uncaptured: int)
    requires UniquePaymentIds(payments) && Solvent(payments)
    requires !MixedRanks(eligible, PendingPayments(payments, orderId))
    requires uncaptured > 0
    ensures ChargeOrder(eligible, payments, orderId, uncaptured).err
            == if uncaptured <= UncapturedTotal(PendingPayments(payments, orderId)) then None else Some(NoPendingPayment)
    decreases |PendingPayments(payments, orderId)|
  {
    var next := NextPayment(eligible, payments, orderId);
    NextPaymentMeans(eligible, payments, orderId);
    if next.value.Some? {
      var p := next.value.value;
      NextIsPending(eligible, payments, orderId);
      var amount := Least(uncaptured, Uncaptured(p));
      var after := CapturePayment(payments, p, amount);
      CaptureLeavesFewerPending(payments, p, amount, orderId);
      RunsOutStep(eligible, payments, orderId, p, amount);
      ChargeOrderStep(eligible, payments, orderId, uncaptured, p);
      if uncaptured - amount > 0 {
        ChargeOrderRunsOut(eligible, after, orderId, uncaptured - amount);
      }
    }
  }

  /** One capture in `ChargeOrderRunsOut`: what is pending falls by what the payment held, and the rest stays as required. */
  lemma RunsOutStep(eligible: seq<nat>, payments: seq<Payment>, orderId: nat, p: Payment, amount: int)
    requires UniquePaymentIds(payments) && Solvent(payments)
    requires !MixedRanks(eligible, PendingPayments(payments, orderId))
    requires p in PendingPayments(payments, orderId) && amount <= Uncaptured(p)
    ensures UncapturedTotal(PendingPayments(CapturePayment(payments, p, amount), orderId))
            == UncapturedTotal(PendingPayments(payments, orderId)) - Uncaptured(p)
    ensures UncapturedTotal(PendingPayments(CapturePayment(payments, p, amount), orderId)) >= 0
    ensures !MixedRanks(eligible, PendingPayments(CapturePayment(payments, p, amount), orderId))
    ensures UniquePaymentIds(CapturePayment(payments, p, amount)) && Solvent(CapturePayment(payments, p, amount))
  {
    var after := CapturePayment(payments, p, amount);
    CaptureRemovesPending(payments, p, amount, orderId);
    PendingShrinks(payments, p, amount, orderId);
    FewerNotMixed(eligible, PendingPayments(payments, orderId), PendingPayments(after, orderId));
    CaptureKeepsSolvent(payments, p, amount);
    CaptureKeepsUniqueIds(payments, p, amount);
    PendingHoldsNothingNegative(after, orderId, payments, p, amount);
  }

  // ---------------------------------------------------------------- capture_payments

  /** The groups of `orders` charged in turn; the first raise ends the run. */
  function ChargeGroups(eligible: seq<nat>, payments: seq<Payment>, rows: seq<BuiltCapture>, orders: seq<nat>): Charged
    decreases |orders|
  {
    if orders == [] then Charged(payments, [], None)
    else
      var o := ChargeOrder(eligible, payments, orders[0], CaptureTotal(CapturesOf(rows, orders[0])));
      if o.err.Some? then o
      else
        var rest := ChargeGroups(eligible, o.payments, rows, orders[1..]);
        rest.(events := o.events + rest.events)
  }

  /** `capture_payments`: each order of the carton charged its own unit captures' total. */
  function CapturePaymentsSpec(eligible: seq<nat>, db: Db, rows: seq<BuiltCapture>): Outcome
  {
    ApplyCharges(db, ChargeGroups(eligible, db.payments, rows, Groups(rows)))
  }

  /** What the groups of `orders` are charged: the positive ones' totals. */
  function ChargedTotals(rows: seq<BuiltCapture>, orders: seq<nat>): int
  {
    if orders == [] then 0 else PositivePart(CaptureTotal(CapturesOf(rows, orders[0]))) + ChargedTotals(rows, orders[1..])
  }

  /** A successful run over solvent payments charges each group exactly its total, or nothing when that is not positive. */
  lemma {:induction false} ChargeGroupsCharges(eligible: seq<nat>, payments: seq<Payment>, rows: seq<BuiltCapture>, orders: seq<nat>)
    requires Solvent(payments)
    ensures ChargeGroups(eligible, payments, rows, orders).err.None?
            ==> EventsTotal(ChargeGroups(eligible, payments, rows, orders).events) == ChargedTotals(rows, orders)
    decreases |orders|
  {
    if orders != [] {
      var total := CaptureTotal(CapturesOf(rows, orders[0]));
      var o := ChargeOrder(eligible, payments, orders[0], total);
      ChargeOrderCharges(eligible, payments, orders[0], total);
      if o.err.None? {
        ChargeOrderKeepsSolvent(eligible, payments, orders[0], total);
        ChargeGroupsCharges(eligible, o.payments, rows, orders[1..]);
        EventsTotalAppend(o.events, ChargeGroups(eligible, o.payments, rows, orders[1..]).events);
      }
    }
  }

  /** The run touches only pending payments of the carton's orders. */
  lemma {:induction false} ChargeGroupsWrites(eligible: seq<nat>, payments: seq<Payment>, rows: seq<BuiltCapture>, orders: seq<nat>)
    requires UniquePaymentIds(payments)
    ensures OnlyPending(payments, ChargeGroups(eligible, payments, rows, orders).payments, set o | o in orders)
    decreases |orders|
  {
    var all := set o | o in orders;
    if orders == [] {
      OnlyPendingRefl(payments, all);
    } else {
      var o := ChargeOrder(eligible, payments, orders[0], CaptureTotal(CapturesOf(rows, orders[0])));
      ChargeOrderWrites(eligible, payments, orders[0], CaptureTotal(CapturesOf(rows, orders[0])));
      OnlyPendingWiden(payments, o.payments, {orders[0]}, all);
      if o.err.None? {
        OnlyPendingKeepsUniqueIds(payments, o.payments, {orders[0]});
        ChargeGroupsWrites(eligible, o.payments, rows, orders[1..]);
        var later := set o | o in orders[1..];
        OnlyPendingTrans(payments, o.payments, ChargeGroups(eligible, o.payments, rows, orders[1..]).payments,
                         {orders[0]}, later);
        OnlyPendingWiden(payments, ChargeGroups(eligible, o.payments, rows, orders[1..]).payments,
                         {orders[0]} + later, all);
      }
    }
  }

  /**
   * A carton whose every order owes a non-negative amount, charged successfully from solvent
   * payments, is charged exactly its capture total, in new capture events appended to the table;
   * only pending payments of the carton's orders change.
   */
  lemma CartonFullyCharged(eligible: seq<nat>, db: Db, rows: seq<BuiltCapture>)
    requires Solvent(db.payments) && UniquePaymentIds(db.payments)
    requires forall c :: c in rows ==> CaptureTotal(CapturesOf(rows, c.unit.orderId)) >= 0
    ensures var r := CapturePaymentsSpec(eligible, db, rows);
      && r.db == db.(payments := r.db.payments, captureEvents := r.db.captureEvents)
      && OnlyPending(db.payments, r.db.payments, set c | c in rows :: c.unit.orderId)
      && |db.captureEvents| <= |r.db.captureEvents|
      && r.db.captureEvents[..|db.captureEvents|] == db.captureEvents
      && (r.err.None? ==> EventsTotal(r.db.captureEvents[|db.captureEvents|..]) == CaptureTotal(rows))
  {
    var orders := Groups(rows);
    var c := ChargeGroups(eligible, db.payments, rows, orders);
    var r := CapturePaymentsSpec(eligible, db, rows);
    assert r.db.captureEvents[..|db.captureEvents|] == db.captureEvents;
    assert r.db.captureEvents[|db.captureEvents|..] == c.events;
    ChargeGroupsWrites(eligible, db.payments, rows, orders);
    GroupOrders(rows);
    CartonEventsTotal(eligible, db.payments, rows);
  }

  /** The groups are the carton's orders. */
  lemma GroupOrders(rows: seq<BuiltCapture>)
    ensures (set o | o in Groups(rows)) == set c | c in rows :: c.unit.orderId
    ensures forall c :: c in rows ==> c.unit.orderId in Groups(rows)
  {
    var orders := Groups(rows);
    forall o | o in orders ensures o in set c | c in rows :: c.unit.orderId {
      var i :| 0 <= i < |rows| && rows[i].unit.orderId == o;
      assert rows[i] in rows;
    }
    forall c | c in rows ensures c.unit.orderId in orders {
      var i :| 0 <= i < |rows| && rows[i] == c;
    }
  }

  /** Charged group by group, a carton whose groups owe nothing negative is charged its capture total. */
  lemma CartonEventsTotal(eligible: seq<nat>, payments: seq<Payment>, rows: seq<BuiltCapture>)
    requires Solvent(payments)
    requires forall c :: c in rows ==> CaptureTotal(CapturesOf(rows, c.unit.orderId)) >= 0
    ensures ChargeGroups(eligible, payments, rows, Groups(rows)).err.None?
            ==> EventsTotal(ChargeGroups(eligible, payments, rows, Groups(rows)).events) == CaptureTotal(rows)
  {
    var orders := Groups(rows);
    ChargeGroupsCharges(eligible, payments, rows, orders);
    GroupOrders(rows);
    GroupsCoverCarton(rows, orders);
    NonNegativeGroups(rows, orders);
  }

  lemma {:induction false} NonNegativeGroups(rows: seq<BuiltCapture>, orders: seq<nat>)
    requires forall o :: o in orders ==> CaptureTotal(CapturesOf(rows, o)) >= 0
    ensures ChargedTotals(rows, orders) == GroupTotals(rows, orders)
  {
    if orders != [] {
      assert orders[0] in orders;
      assert forall o :: o in orders[1..] ==> o in orders;
      NonNegativeGroups(rows, orders[1..]);
    }
  }

  // ---------------------------------------------------------------- the object

  class CartonPaymentStrategy {
    /** `eligible_payments`: payment method kinds in the order they are charged. */
    const eligiblePayments: seq<nat>
    /** `@carton_capture`, as its unit captures. */
    const cartonCapture: seq<BuiltCapture>
    const store: Store

    /** `initialize(carton_capture)`. */
    constructor (eligiblePayments: seq<nat>, cartonCapture: seq<BuiltCapture>, store: Store)
      ensures this.eligiblePayments == eligiblePayments && this.cartonCapture == cartonCapture
      ensures this.store == store
    {
      this.eligiblePayments := eligiblePayments;
      this.cartonCapture := cartonCapture;
      this.store := store;
    }

    /** `capture_payments`: every capture is saved as it is made, so a raise keeps those before it. */
    method CapturePayments() returns (err: Option<Error>)
      modifies store
      ensures Outcome(store.db, err) == CapturePaymentsSpec(eligiblePayments, old(store.db), cartonCapture)
    {
      var orders := Groups(cartonCapture);
      var k := 0;
      err := None;
      while k < |orders| && err.None?
        invariant 0 <= k <= |orders|
        invariant err.None? ==> ApplyCharges(store.db, ChargeGroups(eligiblePayments, store.db.payments, cartonCapture, orders[k..]))
                                == CapturePaymentsSpec(eligiblePayments, old(store.db), cartonCapture)
        invariant err.Some? ==> Outcome(store.db, err) == CapturePaymentsSpec(eligiblePayments, old(store.db), cartonCapture)
      {
        assert orders[k..][1..] == orders[k + 1..];
        var db := store.db;
        var orderId := orders[k];
        ghost var o := ChargeOrder(eligiblePayments, db.payments, orderId, CaptureTotal(CapturesOf(cartonCapture, orderId)));
        err := ChargeOneOrder(orderId, CaptureTotal(CapturesOf(cartonCapture, orderId)));
        if err.None? {
          ApplyTwice(db, o, ChargeGroups(eligiblePayments, o.payments, cartonCapture, orders[k + 1..]));
        }
        k := k + 1;
      }
    }

    /** The `while uncaptured_amount > 0` loop for one order, inside its lock. */
    method ChargeOneOrder(orderId: nat, uncaptured: int) returns (err: Option<Error>)
      modifies store
      ensures Outcome(store.db, err) == ApplyCharges(old(store.db), ChargeOrder(eligiblePayments, old(store.db.payments), orderId, uncaptured))
    {
      var charged := ChargeOrderLoop(eligiblePayments, store.db.payments, orderId, uncaptured);
      store.db := store.db.(payments := charged.payments, captureEvents := store.db.captureEvents + charged.events);
      err := charged.err;
    }
  }

  /**
   * The `while uncaptured_amount > 0` loop for one order, over the order's payments: the first
   * pending payment by priority is captured for what is left or what it still holds, whichever
   * is less, until nothing is left, no payment is pending, or the sort raises.
   */
  method ChargeOrderLoop(eligible: seq<nat>, payments: seq<Payment>, orderId: nat, uncaptured: int) returns (r: Charged)
    ensures r == ChargeOrder(eligible, payments, orderId, uncaptured)
  {
    var current := payments;
    var done: seq<CaptureEvent> := [];
    var left := uncaptured;
    ghost var target := ChargeOrder(eligible, payments, orderId, uncaptured);
    while left > 0
      invariant target == AfterEvents(done, ChargeOrder(eligible, current, orderId, left))
      decreases |PendingPayments(current, orderId)|
    {
      var next := NextPayment(eligible, current, orderId);
      if next.Err? || next.value.None? {
        ChargeOrderEnds(eligible, current, orderId, left, done, target);
        return Charged(current, done, Some(if next.Err? then next.error else NoPendingPayment));
      }
      var payment := next.value.value;
      var amount := Least(left, Uncaptured(payment));
      ChargeOrderTurn(eligible, current, orderId, left, payment, amount, done, target);
      current := CapturePayment(current, payment, amount);
      done := done + [CaptureEvent(payment.id, amount)];
      left := left - amount;
    }
    ChargeOrderEnds(eligible, current, orderId, left, done, target);
    r := Charged(current, done, None);
  }

  /** Where the loop ends, the run is the captures made so far and the raise, if it raised. */
  lemma ChargeOrderEnds(eligible: seq<nat>, payments: seq<Payment>, orderId: nat, left: int,
                        done: seq<CaptureEvent>, target: Charged)
    requires !(left > 0 && NextPayment(eligible, payments, orderId).Ok? && NextPayment(eligible, payments, orderId).value.Some?)
    requires target == AfterEvents(done, ChargeOrder(eligible, payments, orderId, left))
    ensures target == Charged(payments, done, if left <= 0 then None
                                              else if NextPayment(eligible, payments, orderId).Err? then Some(NextPayment(eligible, payments, orderId).error)
                                              else Some(NoPendingPayment))
  {
    ChargeOrderStops(eligible, payments, orderId, left);
    AfterEventsNone(done, ChargeOrder(eligible, payments, orderId, left));
  }

  /** Where the loop stops: nothing left to charge, no payment to charge it to, or a sort that raises. */
  lemma ChargeOrderStops(eligible: seq<nat>, payments: seq<Payment>, orderId: nat, left: int)
    requires !(left > 0 && NextPayment(eligible, payments, orderId).Ok? && NextPayment(eligible, payments, orderId).value.Some?)
    ensures ChargeOrder(eligible, payments, orderId, left)
            == Charged(payments, [], if left <= 0 then None
                                     else if NextPayment(eligible, payments, orderId).Err? then Some(NextPayment(eligible, payments, orderId).error)
                                     else Some(NoPendingPayment))
  {
  }

  /** One turn of the loop: once the first payment by priority is charged, what is left to charge is the rest of the run. */
  lemma ChargeOrderTurn(eligible: seq<nat>, payments: seq<Payment>, orderId: nat, left: int, p: Payment, amount: int,
                        done: seq<CaptureEvent>, target: Charged)
    requires left > 0 && NextPayment(eligible, payments, orderId) == Ok(Some(p))
    requires amount == Least(left, Uncaptured(p))
    requires target == AfterEvents(done, ChargeOrder(eligible, payments, orderId, left))
    ensures target == AfterEvents(done + [CaptureEvent(p.id, amount)],
                                  ChargeOrder(eligible, CapturePayment(payments, p, amount), orderId, left - amount))
    ensures |PendingPayments(CapturePayment(payments, p, amount), orderId)| < |PendingPayments(payments, orderId)|
  {
    ChargeLeavesFewerPending(eligible, payments, orderId, p, amount);
    ChargeOrderStep(eligible, payments, orderId, left, p);
    AfterEventsStep(done, CaptureEvent(p.id, amount), ChargeOrder(eligible, CapturePayment(payments, p, amount), orderId, left - amount));
  }

  /** Charging the first pending payment by priority takes it out of the pending ones: the loop's measure. */
  lemma ChargeLeavesFewerPending(eligible: seq<nat>, payments: seq<Payment>, orderId: nat, p: Payment, amount: int)
    requires NextPayment(eligible, payments, orderId) == Ok(Some(p))
    ensures |PendingPayments(CapturePayment(payments, p, amount), orderId)| < |PendingPayments(payments, orderId)|
  {
    NextIsPending(eligible, payments, orderId);
    CaptureLeavesFewerPending(payments, p, amount, orderId);
  }

  /** One turn of the loop: the first payment by priority is charged, then the rest of the order. */
  lemma ChargeOrderStep(eligible: seq<nat>, payments: seq<Payment>, orderId: nat, uncaptured: int, p: Payment)
    requires uncaptured > 0 && NextPayment(eligible, payments, orderId) == Ok(Some(p))
    ensures var amount := Least(uncaptured, Uncaptured(p));
      var rest := ChargeOrder(eligible, CapturePayment(payments, p, amount), orderId, uncaptured - amount);
      ChargeOrder(eligible, payments, orderId, uncaptured) == rest.(events := [CaptureEvent(p.id, amount)] + rest.events)
  {
  }


}
