/**
 * CartonCapturing: captures the money for a shipped carton.  The carton's units are grouped by
 * order; for each unit an InventoryUnitCapture is built holding the amount calculator's share of
 * its line item and order; after each order the captures built so far must not add up to more
 * than that order's total; then the payment strategy charges the orders, and only then are the
 * carton capture and its unit captures saved.
 */
module CartonCapturing {
  import opened Wrappers
  import opened Money
  import opened Records
  import opened Stores
  import opened AmountCalculator
  import CartonPayments
  import ShippingManifest

  type BuiltCapture = CartonPayments.BuiltCapture

  // ---------------------------------------------------------------- group_by(&:order)

  function UnitOrderIds(units: seq<InventoryUnit>): (r: seq<nat>)
    ensures |r| == |units| && forall i :: 0 <= i < |r| ==> r[i] == units[i].orderId
  {
    if units == [] then [] else [units[0].orderId] + UnitOrderIds(units[1..])
  }

  /** The orders of the carton's units, each once, in order of first appearance. */
  function UnitOrders(units: seq<InventoryUnit>): (r: seq<nat>)
    ensures forall i, j :: 0 <= i < j < |r| ==> r[i] != r[j]
    ensures forall u :: u in units ==> u.orderId in r
    ensures forall k :: k in r ==> exists u :: u in units && u.orderId == k
  {
    var ids := UnitOrderIds(units);
    assert forall u :: u in units ==> u.orderId in ids by {
      forall u | u in units ensures u.orderId in ids {
        var i :| 0 <= i < |units| && units[i] == u;
        assert ids[i] == u.orderId;
      }
    }
    assert forall k :: k in ids ==> exists u :: u in units && u.orderId == k by {
      forall k | k in ids ensures exists u :: u in units && u.orderId == k {
        var i :| 0 <= i < |ids| && ids[i] == k;
        assert units[i] in units;
      }
    }
    ShippingManifest.Distinct(ids)
  }

  /** The units of one group, in carton order. */
  function UnitsOf(units: seq<InventoryUnit>, orderId: nat): (r: seq<InventoryUnit>)
  {
    if units == [] then []
    else (if units[0].orderId == orderId then [units[0]] else []) + UnitsOf(units[1..], orderId)
  }

  /** The units in the order the groups visit them. */
  function Grouped(units: seq<InventoryUnit>, orders: seq<nat>): seq<InventoryUnit>
  {
    if orders == [] then [] else UnitsOf(units, orders[0]) + Grouped(units, orders[1..])
  }

  lemma {:induction false} GroupedNothing(orders: seq<nat>)
    ensures Grouped([], orders) == []
  {
    if orders != [] {
      GroupedNothing(orders[1..]);
    }
  }

  /** Adding one unit in front adds it once to the visit, if its order is among the groups. */
  lemma {:induction false} GroupedCons(u: InventoryUnit, rest: seq<InventoryUnit>, orders: seq<nat>)
    requires forall i, j :: 0 <= i < j < |orders| ==> orders[i] != orders[j]
    ensures multiset(Grouped([u] + rest, orders))
            == multiset(Grouped(rest, orders)) + (if u.orderId in orders then multiset{u} else multiset{})
  {
    if orders != [] {
      assert ([u] + rest)[1..] == rest;
      assert UnitsOf([u] + rest, orders[0]) == (if u.orderId == orders[0] then [u] else []) + UnitsOf(rest, orders[0]);
      assert u.orderId in orders <==> u.orderId == orders[0] || u.orderId in orders[1..] by {
        assert orders == [orders[0]] + orders[1..];
      }
      if u.orderId == orders[0] {
        forall j | 0 <= j < |orders[1..]| ensures orders[1..][j] != u.orderId {
          assert orders[1..][j] == orders[j + 1];
        }
      }
      GroupedCons(u, rest, orders[1..]);
    }
  }

  /** Grouping by order visits every unit of the carton exactly once. */
  lemma {:induction false} GroupedPermutes(units: seq<InventoryUnit>, orders: seq<nat>)
    requires forall i, j :: 0 <= i < j < |orders| ==> orders[i] != orders[j]
    requires forall u :: u in units ==> u.orderId in orders
    ensures multiset(Grouped(units, orders)) == multiset(units)
  {
    if units == [] {
      GroupedNothing(orders);
    } else {
      assert units == [units[0]] + units[1..];
      assert units[0] in units;
      assert forall u :: u in units[1..] ==> u in units;
      GroupedCons(units[0], units[1..], orders);
      GroupedPermutes(units[1..], orders);
    }
  }

  // ---------------------------------------------------------------- building the unit captures

  /** The units table once the built captures are recorded on their units, in the order built. */
  function SaveRows(units: seq<InventoryUnit>, rows: seq<BuiltCapture>): seq<InventoryUnit>
    decreases |rows|
  {
    if rows == [] then units
    else
      var n := |rows| - 1;
      Record(SaveRows(units, rows[..n]), rows[n].unit, CaptureMark(rows[n].capture))
  }

  lemma SaveRowsAppend(units: seq<InventoryUnit>, rows: seq<BuiltCapture>, b: BuiltCapture)
    ensures SaveRows(units, rows + [b]) == Record(SaveRows(units, rows), b.unit, CaptureMark(b.capture))
  {
    assert (rows + [b])[..|rows|] == rows;
  }

  /**
   * What the calculator of the next unit reads.  With `seesBuilt`, the captures built earlier in
   * this carton count as processed; without it, the calculator reads the database as it was
   * loaded before the first capture was built.
   */
  function ViewOf(db: Db, rows: seq<BuiltCapture>, seesBuilt: bool): Db
  {
    if seesBuilt then db.(units := SaveRows(db.units, rows)) else db
  }

  /** `inventory_unit_captures.build(...)` for one unit, from its calculator over `view`. */
  function UnitCaptureFor(view: Db, u: InventoryUnit, cartonId: nat): (r: Result<BuiltCapture, Error>)
    ensures r.Ok? ==> r.value.unit == u && r.value.capture.cartonCaptureId == cartonId
  {
    match New(view, u)
    case Err(e) => Err(e)
    case Ok(c) =>
      match Amounts(c)
      case Err(e) => Err(e)
      case Ok(b) => Ok(CartonPayments.BuiltCapture(u, UnitCapture(cartonId, Currency(c), b)))
  }

  /** The `inventory_units.each` loop: one capture per unit, appended to `rows`; a raise ends it. */
  function BuildUnits(db: Db, rows: seq<BuiltCapture>, units: seq<InventoryUnit>, cartonId: nat, seesBuilt: bool)
    : Result<seq<BuiltCapture>, Error>
    decreases |units|
  {
    if units == [] then Ok(rows)
    else match UnitCaptureFor(ViewOf(db, rows, seesBuilt), units[0], cartonId)
      case Err(e) => Err(e)
      case Ok(b) => BuildUnits(db, rows + [b], units[1..], cartonId, seesBuilt)
  }

  /**
   * `build_order_unit_captures`: the order's units, then the check that everything built so far
   * in the carton, over all orders, is not more than this order's total.
   */
  function BuildOrder(db: Db, rows: seq<BuiltCapture>, carton: seq<InventoryUnit>, orderId: nat, cartonId: nat,
                      seesBuilt: bool): Result<seq<BuiltCapture>, Error>
  {
    match BuildUnits(db, rows, UnitsOf(carton, orderId), cartonId, seesBuilt)
    case Err(e) => Err(e)
    case Ok(built) =>
      match FindOrder(db.orders, orderId)
      case None => Err(RecordNotFound)
      case Some(o) => if CartonPayments.CaptureTotal(built) > o.total then Err(CaptureTooLarge) else Ok(built)
  }

  /** The `each` over the groups of `orders`. */
  function BuildGroups(db: Db, rows: seq<BuiltCapture>, carton: seq<InventoryUnit>, orders: seq<nat>, cartonId: nat,
                       seesBuilt: bool): Result<seq<BuiltCapture>, Error>
    decreases |orders|
  {
    if orders == [] then Ok(rows)
    else match BuildOrder(db, rows, carton, orders[0], cartonId, seesBuilt)
      case Err(e) => Err(e)
      case Ok(built) => BuildGroups(db, built, carton, orders[1..], cartonId, seesBuilt)
  }

  /** `carton_capture.save!`: the carton capture and every unit capture built on it. */
  function Saved(db: Db, rows: seq<BuiltCapture>, cartonId: nat, now: int): Db
  {
    db.(cartonCaptures := db.cartonCaptures + [CartonCapture(cartonId, now)], units := SaveRows(db.units, rows))
  }

  /**
   * `capture`: build the unit captures, have the payment strategy charge them, then save.  A
   * raise while building saves nothing; a raise while charging keeps the payment captures made
   * before it, but no carton capture and no unit capture.
   */
  function CaptureSpec(eligible: seq<nat>, db: Db, carton: seq<InventoryUnit>, cartonId: nat, now: int): Outcome
  {
    match BuildGroups(db, [], carton, UnitOrders(carton), cartonId, true)
    case Err(e) => Outcome(db, Some(e))
    case Ok(rows) =>
      var charged := CartonPayments.CapturePaymentsSpec(eligible, db, rows);
      if charged.err.Some? then charged else Outcome(Saved(charged.db, rows, cartonId, now), None)
  }

  // ---------------------------------------------------------------- what is built

  function RowUnits(rows: seq<BuiltCapture>): (r: seq<InventoryUnit>)
    ensures |r| == |rows| && forall i :: 0 <= i < |rows| ==> r[i] == rows[i].unit
  {
    if rows == [] then [] else [rows[0].unit] + RowUnits(rows[1..])
  }

  lemma {:induction false} RowUnitsAppend(rows: seq<BuiltCapture>, b: BuiltCapture)
    ensures RowUnits(rows + [b]) == RowUnits(rows) + [b.unit]
  {
    assert |RowUnits(rows + [b])| == |RowUnits(rows) + [b.unit]|;
  }

  /** Every unit capture is built on the new carton capture. */
  ghost predicate OnCarton(rows: seq<BuiltCapture>, cartonId: nat)
  {
    forall i :: 0 <= i < |rows| ==> rows[i].capture.cartonCaptureId == cartonId
  }

  /** One turn of the loop over units that does not raise. */
  lemma BuildUnitsTurn(db: Db, rows: seq<BuiltCapture>, units: seq<InventoryUnit>, cartonId: nat, seesBuilt: bool)
    requires units != [] && BuildUnits(db, rows, units, cartonId, seesBuilt).Ok?
    ensures UnitCaptureFor(ViewOf(db, rows, seesBuilt), units[0], cartonId).Ok?
    ensures BuildUnits(db, rows, units, cartonId, seesBuilt)
            == BuildUnits(db, rows + [UnitCaptureFor(ViewOf(db, rows, seesBuilt), units[0], cartonId).value], units[1..],
                          cartonId, seesBuilt)
  {
  }

  /** The loop over one order's units builds one capture per unit, in turn, after those built before. */
  lemma {:induction false} BuildUnitsBuildsOnePerUnit(db: Db, rows: seq<BuiltCapture>, units: seq<InventoryUnit>,
                                                       cartonId: nat, seesBuilt: bool)
    requires OnCarton(rows, cartonId)
    requires BuildUnits(db, rows, units, cartonId, seesBuilt).Ok?
    ensures var out := BuildUnits(db, rows, units, cartonId, seesBuilt).value;
      RowUnits(out) == RowUnits(rows) + units && OnCarton(out, cartonId)
    decreases |units|
  {
    if units == [] {
      assert RowUnits(rows) + units == RowUnits(rows);
    } else {
      var b := UnitCaptureFor(ViewOf(db, rows, seesBuilt), units[0], cartonId).value;
      BuildUnitsTurn(db, rows, units, cartonId, seesBuilt);
      OneMoreOnCarton(db, rows, units[0], cartonId, seesBuilt);
      BuildUnitsBuildsOnePerUnit(db, rows + [b], units[1..], cartonId, seesBuilt);
      ConsTail(RowUnits(rows), units);
    }
  }

  lemma AppendAssoc<T>(a: seq<T>, b: seq<T>, c: seq<T>)
    ensures a + b + c == a + (b + c)
  {
  }

  lemma ConsTail<T>(a: seq<T>, s: seq<T>)
    requires s != []
    ensures a + [s[0]] + s[1..] == a + s
  {
    assert s == [s[0]] + s[1..];
  }

  /**
   * `out` holds, from index `start` on, one capture per unit of `units`, each built by the
   * calculator over the view of the captures before it.
   */
  ghost predicate BuiltFrom(db: Db, out: seq<BuiltCapture>, start: nat, units: seq<InventoryUnit>, cartonId: nat,
                            seesBuilt: bool)
  {
    && start + |units| == |out|
    && (forall i :: 0 <= i < |units| ==> out[start + i].unit == units[i])
    && forall j: nat {:trigger BuiltAt(db, out, j, cartonId, seesBuilt)} :: start <= j < |out| ==>
         BuiltAt(db, out, j, cartonId, seesBuilt)
  }

  /** The capture at `j` is the one the calculator builds for its unit over the view of the captures before it. */
  ghost predicate BuiltAt(db: Db, out: seq<BuiltCapture>, j: nat, cartonId: nat, seesBuilt: bool)
  {
    j < |out| && UnitCaptureFor(ViewOf(db, out[..j], seesBuilt), out[j].unit, cartonId) == Ok(out[j])
  }

  /** What the loop over units builds: the captures before it, then one capture per unit, in turn. */
  lemma {:induction false} BuildUnitsMeans(db: Db, rows: seq<BuiltCapture>, units: seq<InventoryUnit>, cartonId: nat,
                                           seesBuilt: bool)
    requires BuildUnits(db, rows, units, cartonId, seesBuilt).Ok?
    ensures var out := BuildUnits(db, rows, units, cartonId, seesBuilt).value;
      |rows| <= |out| && out[..|rows|] == rows && BuiltFrom(db, out, |rows|, units, cartonId, seesBuilt)
    decreases |units|
  {
    if units != [] {
      var b := UnitCaptureFor(ViewOf(db, rows, seesBuilt), units[0], cartonId).value;
      BuildUnitsTurn(db, rows, units, cartonId, seesBuilt);
      BuildUnitsMeans(db, rows + [b], units[1..], cartonId, seesBuilt);
      BuiltFromCons(db, BuildUnits(db, rows, units, cartonId, seesBuilt).value, rows, b, units, cartonId, seesBuilt);
    }
  }

  lemma BuiltFromCons(db: Db, out: seq<BuiltCapture>, rows: seq<BuiltCapture>, b: BuiltCapture, units: seq<InventoryUnit>,
                      cartonId: nat, seesBuilt: bool)
    requires units != [] && |rows| + 1 <= |out| && out[..|rows| + 1] == rows + [b]
    requires UnitCaptureFor(ViewOf(db, rows, seesBuilt), units[0], cartonId) == Ok(b)
    requires BuiltFrom(db, out, |rows| + 1, units[1..], cartonId, seesBuilt)
    ensures out[..|rows|] == rows && BuiltFrom(db, out, |rows|, units, cartonId, seesBuilt)
  {
    assert out[..|rows|] == (rows + [b])[..|rows|] == rows;
    assert out[|rows|] == (rows + [b])[|rows|];
    assert BuiltAt(db, out, |rows|, cartonId, seesBuilt);
    forall i | 0 <= i < |units| ensures out[|rows| + i].unit == units[i] {
      if i > 0 {
        assert units[1..][i - 1] == units[i];
        assert out[|rows| + 1 + (i - 1)].unit == units[1..][i - 1];
      }
    }
  }

  /** The first of the units still to build in `BuiltFrom`: the rest are built after it. */
  lemma BuiltFromTail(db: Db, out: seq<BuiltCapture>, start: nat, units: seq<InventoryUnit>, cartonId: nat, seesBuilt: bool)
    requires units != [] && BuiltFrom(db, out, start, units, cartonId, seesBuilt)
    ensures start < |out| && out[..start] + [out[start]] == out[..start + 1]
    ensures BuiltFrom(db, out, start + 1, units[1..], cartonId, seesBuilt)
  {
    forall i | 0 <= i < |units[1..]| ensures out[start + 1 + i].unit == units[1..][i] {
      assert out[start + (i + 1)].unit == units[i + 1];
    }
    assert out[..start] + [out[start]] == out[..start + 1];
  }

  /** A capture built for `u` is for `u`, on the new carton capture. */
  lemma OneMoreOnCarton(db: Db, rows: seq<BuiltCapture>, u: InventoryUnit, cartonId: nat, seesBuilt: bool)
    requires OnCarton(rows, cartonId)
    requires UnitCaptureFor(ViewOf(db, rows, seesBuilt), u, cartonId).Ok?
    ensures var b := UnitCaptureFor(ViewOf(db, rows, seesBuilt), u, cartonId).value;
      RowUnits(rows + [b]) == RowUnits(rows) + [u] && OnCarton(rows + [b], cartonId)
  {
    var b := UnitCaptureFor(ViewOf(db, rows, seesBuilt), u, cartonId).value;
    RowUnitsAppend(rows, b);
  }

  /** One turn of the loop over the groups that does not raise: the first group's units, then the other groups. */
  lemma BuildGroupsTurn(db: Db, rows: seq<BuiltCapture>, carton: seq<InventoryUnit>, orders: seq<nat>, cartonId: nat,
                        seesBuilt: bool)
    requires orders != [] && BuildGroups(db, rows, carton, orders, cartonId, seesBuilt).Ok?
    ensures BuildUnits(db, rows, UnitsOf(carton, orders[0]), cartonId, seesBuilt).Ok?
    ensures BuildGroups(db, rows, carton, orders, cartonId, seesBuilt)
            == BuildGroups(db, BuildUnits(db, rows, UnitsOf(carton, orders[0]), cartonId, seesBuilt).value, carton, orders[1..],
                           cartonId, seesBuilt)
  {
  }

  /** The loop over the groups builds the units in the order the groups visit them. */
  lemma {:induction false} BuildGroupsBuildsOnePerUnit(db: Db, rows: seq<BuiltCapture>, carton: seq<InventoryUnit>,
                                                        orders: seq<nat>, cartonId: nat, seesBuilt: bool)
    requires OnCarton(rows, cartonId)
    requires BuildGroups(db, rows, carton, orders, cartonId, seesBuilt).Ok?
    ensures var out := BuildGroups(db, rows, carton, orders, cartonId, seesBuilt).value;
      RowUnits(out) == RowUnits(rows) + Grouped(carton, orders) && OnCarton(out, cartonId)
    decreases |orders|
  {
    if orders == [] {
      assert RowUnits(rows) + [] == RowUnits(rows);
    } else {
      BuildGroupsTurn(db, rows, carton, orders, cartonId, seesBuilt);
      var built := BuildUnits(db, rows, UnitsOf(carton, orders[0]), cartonId, seesBuilt).value;
      BuildUnitsBuildsOnePerUnit(db, rows, UnitsOf(carton, orders[0]), cartonId, seesBuilt);
      BuildGroupsBuildsOnePerUnit(db, built, carton, orders[1..], cartonId, seesBuilt);
      AppendAssoc(RowUnits(rows), UnitsOf(carton, orders[0]), Grouped(carton, orders[1..]));
    }
  }

  /** A carton whose captures are all built has exactly one unit capture per unit, all on the new carton capture. */
  lemma OneCapturePerUnit(db: Db, carton: seq<InventoryUnit>, cartonId: nat, seesBuilt: bool)
    requires BuildGroups(db, [], carton, UnitOrders(carton), cartonId, seesBuilt).Ok?
    ensures var rows := BuildGroups(db, [], carton, UnitOrders(carton), cartonId, seesBuilt).value;
      multiset(RowUnits(rows)) == multiset(carton) && OnCarton(rows, cartonId)
  {
    BuildGroupsBuildsOnePerUnit(db, [], carton, UnitOrders(carton), cartonId, seesBuilt);
    GroupedPermutes(carton, UnitOrders(carton));
    assert RowUnits([]) + Grouped(carton, UnitOrders(carton)) == Grouped(carton, UnitOrders(carton));
  }

  // ---------------------------------------------------------------- CaptureTooLargeError

  /**
   * The check runs after each order on everything built so far in the carton, so once all groups
   * are built the whole carton's capture total is within the total of the last order checked.
   */
  lemma {:induction false} RunningTotalWithinLastOrder(db: Db, rows: seq<BuiltCapture>, carton: seq<InventoryUnit>,
                                                       orders: seq<nat>, cartonId: nat, seesBuilt: bool, o: Order)
    requires orders != [] && FindOrder(db.orders, orders[|orders| - 1]) == Some(o)
    requires BuildGroups(db, rows, carton, orders, cartonId, seesBuilt).Ok?
    ensures CartonPayments.CaptureTotal(BuildGroups(db, rows, carton, orders, cartonId, seesBuilt).value) <= o.total
    decreases |orders|
  {
    var built := BuildOrder(db, rows, carton, orders[0], cartonId, seesBuilt).value;
    if |orders| == 1 {
      assert orders[1..] == [];
    } else {
      assert orders[1..][|orders[1..]| - 1] == orders[|orders| - 1];
      RunningTotalWithinLastOrder(db, built, carton, orders[1..], cartonId, seesBuilt, o);
    }
  }

  /** A carton of one order raises exactly when its unit captures add up to more than the order's total. */
  lemma OneOrderTooLarge(db: Db, carton: seq<InventoryUnit>, cartonId: nat, seesBuilt: bool, o: Order)
    requires carton != [] && forall u :: u in carton ==> u.orderId == o.id
    requires FindOrder(db.orders, o.id) == Some(o)
    requires BuildUnits(db, [], carton, cartonId, seesBuilt).Ok?
    ensures var rows := BuildUnits(db, [], carton, cartonId, seesBuilt).value;
      BuildGroups(db, [], carton, UnitOrders(carton), cartonId, seesBuilt)
      == if CartonPayments.CaptureTotal(rows) > o.total then Err(CaptureTooLarge) else Ok(rows)
  {
    OneOrderGroup(carton, o.id);
    assert [o.id][1..] == [];
  }

  /** The units of a carton of one order form one group holding them all. */
  lemma OneOrderGroup(carton: seq<InventoryUnit>, orderId: nat)
    requires carton != [] && forall u :: u in carton ==> u.orderId == orderId
    ensures UnitOrders(carton) == [orderId] && UnitsOf(carton, orderId) == carton
  {
    AllOfOneOrder(carton, orderId);
    var r := UnitOrders(carton);
    assert carton[0] in carton;
    assert orderId in r;
    forall k | k in r ensures k == orderId {
      var u :| u in carton && u.orderId == k;
    }
    OnlyValue(r, orderId);
  }

  /** A sequence of distinct values that holds `x` and nothing else is `[x]`. */
  lemma OnlyValue(r: seq<nat>, x: nat)
    requires forall i, j :: 0 <= i < j < |r| ==> r[i] != r[j]
    requires x in r && forall k :: k in r ==> k == x
    ensures r == [x]
  {
    FirstTwo(r, x);
  }

  lemma FirstTwo(r: seq<nat>, x: nat)
    requires forall k :: k in r ==> k == x
    ensures |r| >= 2 ==> r[0] == x && r[1] == x
  {
    if |r| >= 2 {
      assert r[0] in r && r[1] in r;
    }
  }

  lemma {:induction false} AllOfOneOrder(units: seq<InventoryUnit>, orderId: nat)
    requires forall u :: u in units ==> u.orderId == orderId
    ensures UnitsOf(units, orderId) == units
  {
    if units != [] {
      assert units[0] in units;
      assert forall u :: u in units[1..] ==> u in units;
      AllOfOneOrder(units[1..], orderId);
    }
  }

  // ---------------------------------------------------------------- what is saved

  /**
   * A raise saves no carton capture and no unit capture; the only rows it may leave changed are
   * the payments and the capture events the strategy saved before it.  Without a raise, exactly
   * one carton capture, captured at `now`, is added, and the units receive their captures.
   */
  lemma CaptureWrites(eligible: seq<nat>, db: Db, carton: seq<InventoryUnit>, cartonId: nat, now: int)
    ensures var r := CaptureSpec(eligible, db, carton, cartonId, now);
      && r.db.(payments := db.payments, captureEvents := db.captureEvents, units := db.units,
               cartonCaptures := db.cartonCaptures) == db
      && (r.err.Some? ==> r.db.cartonCaptures == db.cartonCaptures && r.db.units == db.units)
      && (r.err.None? ==> r.db.cartonCaptures == db.cartonCaptures + [CartonCapture(cartonId, now)])
      && (r.err.None? ==> r.db.units == SaveRows(db.units, BuildGroups(db, [], carton, UnitOrders(carton), cartonId, true).value))
  {
  }

  // ---------------------------------------------------------------- the shares of a pool

  /** The share of pool `p` each unit capture holds, in the order built. */
  function Shares(rows: seq<BuiltCapture>, p: Pool): (r: seq<int>)
    ensures |r| == |rows|
    decreases |rows|
  {
    if rows == [] then []
    else Shares(rows[..|rows| - 1], p) + [PoolAmount(rows[|rows| - 1].capture.amounts, p)]
  }

  lemma SharesAppend(rows: seq<BuiltCapture>, b: BuiltCapture, p: Pool)
    ensures Shares(rows + [b], p) == Shares(rows, p) + [PoolAmount(b.capture.amounts, p)]
  {
    assert (rows + [b])[..|rows|] == rows;
  }

  /** The whole of pool `p` for unit `u`: its line item's amount, or the order's eligible adjustments. */
  function PoolOf(lineItems: seq<LineItem>, adjustments: seq<Adjustment>, u: InventoryUnit, p: Pool): int
  {
    match FindLineItem(lineItems, u.lineItemId)
    case None => 0
    case Some(li) =>
      match p
      case Promotion => li.promoTotal
      case AdditionalTax => li.additionalTaxTotal
      case IncludedTax => li.includedTaxTotal
      case OrderAdjustment => OrderAdjustmentPool(adjustments, u.orderId)
  }

  /**
   * A unit's capture holds its rounded share of what is left of the pool among the units of
   * its scope still unprocessed in the table the calculator reads.
   */
  lemma UnitShare(view: Db, u: InventoryUnit, cartonId: nat, p: Pool, s: Scope, pool: int, taken: int, count: nat)
    requires UnitCaptureFor(view, u, cartonId).Ok?
    requires ScopeOf(u, p) == s && PoolOf(view.lineItems, view.adjustments, u, p) == pool
    requires ProcessedSum(view.units, s, p) == taken && UnprocessedCount(view.units, s) == count
    ensures !PreviouslyProcessed(u) && count > 0
    ensures PoolAmount(UnitCaptureFor(view, u, cartonId).value.capture.amounts, p) == RoundHalfAway(pool - taken, count)
  {
    CalculatorShare(view, u, p, s, pool, taken, count);
  }

  /** A calculator whose share of pool `p` does not raise computes the rounded share of what is left of the pool. */
  lemma CalculatorShare(view: Db, u: InventoryUnit, p: Pool, s: Scope, pool: int, taken: int, count: nat)
    requires New(view, u).Ok? && Share(New(view, u).value, p).Ok?
    requires ScopeOf(u, p) == s && PoolOf(view.lineItems, view.adjustments, u, p) == pool
    requires ProcessedSum(view.units, s, p) == taken && UnprocessedCount(view.units, s) == count
    ensures !PreviouslyProcessed(u) && count > 0
    ensures Share(New(view, u).value, p) == Ok(RoundHalfAway(pool - taken, count))
  {
    var c := New(view, u).value;
    assert FindLineItem(view.lineItems, u.lineItemId) == Some(c.lineItem);
    assert PoolTotal(c, p) == pool;
    assert Share(c, p) == AmountToProcess(pool, taken, count);
  }

  /** The units of `units` are rows of the table, of scope `s`, unprocessed, of distinct ids, and share pool `pool`. */
  ghost predicate Drainable(table: seq<InventoryUnit>, db: Db, units: seq<InventoryUnit>, s: Scope, p: Pool, pool: int)
  {
    && UniqueUnitIds(table)
    && (forall i :: 0 <= i < |units| ==> units[i] in table && InScope(units[i], s) && !PreviouslyProcessed(units[i]))
    && (forall i :: 0 <= i < |units| ==> ScopeOf(units[i], p) == s && PoolOf(db.lineItems, db.adjustments, units[i], p) == pool)
    && (forall i, j :: 0 <= i < j < |units| ==> units[i].id != units[j].id)
    && UnprocessedCount(table, s) == |units|
  }

  /** After one unit is recorded, the others still are drainable from the new table. */
  lemma DrainableTail(table: seq<InventoryUnit>, db: Db, units: seq<InventoryUnit>, s: Scope, p: Pool, pool: int, m: Mark)
    requires units != [] && Drainable(table, db, units, s, p, pool)
    ensures Drainable(Record(table, units[0], m), db, units[1..], s, p, pool)
    ensures ProcessedSum(Record(table, units[0], m), s, p) == ProcessedSum(table, s, p) + PoolAmount(MarkAmounts(m), p)
  {
    var t := Record(table, units[0], m);
    RecordOneStep(table, units[0], m, s, p);
    forall i | 0 <= i < |units[1..]| ensures units[1..][i] in t {
      assert units[1..][i] == units[i + 1] && units[i + 1].id != units[0].id;
      StillUnprocessed(table, units[0], m, units[i + 1]);
    }
    forall i, j | 0 <= i < j < |units[1..]| ensures units[1..][i].id != units[1..][j].id {
      assert units[1..][i] == units[i + 1] && units[1..][j] == units[j + 1];
    }
  }

  /** Recording built capture `b` of the first unit: the rest stay drainable and the ledger and the shares grow by its share. */
  lemma RecordTurn(db: Db, rows: seq<BuiltCapture>, b: BuiltCapture, units: seq<InventoryUnit>, s: Scope, p: Pool, pool: int,
                   table: seq<InventoryUnit>, taken: int)
    requires units != [] && b.unit == units[0]
    requires table == SaveRows(db.units, rows) && taken == ProcessedSum(table, s, p)
    requires Drainable(table, db, units, s, p, pool)
    ensures Drainable(SaveRows(db.units, rows + [b]), db, units[1..], s, p, pool)
    ensures ProcessedSum(SaveRows(db.units, rows + [b]), s, p) == taken + PoolAmount(b.capture.amounts, p)
    ensures Shares(rows + [b], p) == Shares(rows, p) + [PoolAmount(b.capture.amounts, p)]
  {
    SaveRowsAppend(db.units, rows, b);
    SharesAppend(rows, b, p);
    DrainableTail(table, db, units, s, p, pool, CaptureMark(b.capture));
  }

  /** When the calculator sees the captures built before it, the first unit takes the next share of `Drain`. */
  lemma DrainShare(db: Db, rows: seq<BuiltCapture>, units: seq<InventoryUnit>, cartonId: nat, s: Scope, p: Pool, pool: int,
                   table: seq<InventoryUnit>, taken: int)
    requires units != [] && table == SaveRows(db.units, rows) && taken == ProcessedSum(table, s, p)
    requires Drainable(table, db, units, s, p, pool)
    requires UnitCaptureFor(ViewOf(db, rows, true), units[0], cartonId).Ok?
    ensures PoolAmount(UnitCaptureFor(ViewOf(db, rows, true), units[0], cartonId).value.capture.amounts, p)
            == RoundHalfAway(pool - taken, |units|)
  {
    var view := ViewOf(db, rows, true);
    assert view.units == table && view.lineItems == db.lineItems && view.adjustments == db.adjustments;
    assert ScopeOf(units[0], p) == s && PoolOf(db.lineItems, db.adjustments, units[0], p) == pool;
    UnitShare(view, units[0], cartonId, p, s, pool, taken, |units|);
  }

  /** When the calculator sees the captures built before it, the next capture of `out` takes the next share of `Drain`. */
  lemma FirstShareDrains(db: Db, out: seq<BuiltCapture>, start: nat, units: seq<InventoryUnit>, cartonId: nat,
                         s: Scope, p: Pool, pool: int, taken: int)
    requires units != [] && BuiltFrom(db, out, start, units, cartonId, true)
    requires taken == ProcessedSum(SaveRows(db.units, out[..start]), s, p)
    requires Drainable(SaveRows(db.units, out[..start]), db, units, s, p, pool)
    ensures start < |out| && out[start].unit == units[0]
    ensures PoolAmount(out[start].capture.amounts, p) == RoundHalfAway(pool - taken, |units|)
  {
    assert BuiltAt(db, out, start, cartonId, true) && out[start + 0].unit == units[0];
    DrainShare(db, out[..start], units, cartonId, s, p, pool, SaveRows(db.units, out[..start]), taken);
  }

  /** When the calculator reads the units as loaded, the next capture of `out` takes the first calculator's share. */
  lemma FirstShareAsLoaded(db: Db, out: seq<BuiltCapture>, start: nat, units: seq<InventoryUnit>, cartonId: nat,
                           s: Scope, p: Pool, pool: int, share: int)
    requires units != [] && BuiltFrom(db, out, start, units, cartonId, false)
    requires ScopeOf(units[0], p) == s && PoolOf(db.lineItems, db.adjustments, units[0], p) == pool
    requires LoadedShare(db, s, p, pool, share)
    ensures start < |out| && out[start].unit == units[0]
    ensures PoolAmount(out[start].capture.amounts, p) == share
  {
    assert BuiltAt(db, out, start, cartonId, false) && out[start + 0].unit == units[0];
    UnitShare(db, units[0], cartonId, p, s, pool, ProcessedSum(db.units, s, p), UnprocessedCount(db.units, s));
  }

  /**
   * The state in which the captures of `out` from `start` on are still to be recorded: they were
   * built for `units`, one each, the ledger of the table they were built over stands at `taken`,
   * and `units` are all the unprocessed units of scope `s`.
   */
  ghost predicate DrainState(db: Db, out: seq<BuiltCapture>, start: nat, units: seq<InventoryUnit>, cartonId: nat,
                             seesBuilt: bool, s: Scope, p: Pool, pool: int, taken: int)
  {
    && BuiltFrom(db, out, start, units, cartonId, seesBuilt)
    && taken == ProcessedSum(SaveRows(db.units, out[..start]), s, p)
    && Drainable(SaveRows(db.units, out[..start]), db, units, s, p, pool)
  }

  /**
   * The shares of the captures after `before` are the `k` shares `Drain` hands out from `taken`, and
   * the ledger grows by their sum.
   */
  predicate Drained(shares: seq<int>, before: seq<int>, ledger: int, pool: int, taken: int, k: nat)
  {
    shares == before + Drain(pool, taken, k) && ledger == taken + PoolTotalOf(Drain(pool, taken, k))
  }

  /**
   * Conservation, when each calculator sees the captures built before it: the captures of `out`
   * from `start` on, for units of one scope that are all of its unprocessed ones, take the shares
   * `Drain` hands out, and the scope's ledger, `taken` before them, grows by their sum.
   */
  lemma {:induction false} BuildDrainsPool(db: Db, out: seq<BuiltCapture>, start: nat, units: seq<InventoryUnit>,
                                           cartonId: nat, s: Scope, p: Pool, pool: int, taken: int)
    requires DrainState(db, out, start, units, cartonId, true, s, p, pool, taken)
    ensures Drained(Shares(out, p), Shares(out[..start], p), ProcessedSum(SaveRows(db.units, out), s, p), pool, taken, |units|)
    decreases |units|
  {
    if units == [] {
      assert out[..start] == out;
      DrainedNone(Shares(out, p), Shares(out[..start], p), ProcessedSum(SaveRows(db.units, out), s, p), pool, taken);
    } else {
      var share := PoolAmount(out[start].capture.amounts, p);
      DrainStep(db, out, start, units, cartonId, s, p, pool, taken);
      BuildDrainsPool(db, out, start + 1, units[1..], cartonId, s, p, pool, taken + share);
      DrainedTurn(Shares(out, p), Shares(out[..start], p), Shares(out[..start + 1], p), ProcessedSum(SaveRows(db.units, out), s, p),
                  pool, taken, share, |units|, |units[1..]|);
    }
  }

  /** One turn of `BuildDrainsPool`: the next capture takes the next share, and the rest are still drainable. */
  lemma DrainStep(db: Db, out: seq<BuiltCapture>, start: nat, units: seq<InventoryUnit>,
                  cartonId: nat, s: Scope, p: Pool, pool: int, taken: int)
    requires units != [] && DrainState(db, out, start, units, cartonId, true, s, p, pool, taken)
    ensures start < |out|
    ensures PoolAmount(out[start].capture.amounts, p) == RoundHalfAway(pool - taken, |units|)
    ensures Shares(out[..start + 1], p) == Shares(out[..start], p) + [PoolAmount(out[start].capture.amounts, p)]
    ensures DrainState(db, out, start + 1, units[1..], cartonId, true, s, p, pool,
                       taken + PoolAmount(out[start].capture.amounts, p))
  {
    BuiltFromTail(db, out, start, units, cartonId, true);
    FirstShareDrains(db, out, start, units, cartonId, s, p, pool, taken);
    RecordTurn(db, out[..start], out[start], units, s, p, pool, SaveRows(db.units, out[..start]), taken);
  }

  lemma DrainedNone(shares: seq<int>, before: seq<int>, ledger: int, pool: int, taken: int)
    requires shares == before && ledger == taken
    ensures Drained(shares, before, ledger, pool, taken, 0)
  {
    assert before + [] == before;
  }

  /** The arithmetic of one turn of `BuildDrainsPool`: the next share of `Drain` followed by the rest. */
  lemma DrainedTurn(shares: seq<int>, before: seq<int>, mid: seq<int>, ledger: int, pool: int, taken: int, share: int,
                    k: nat, rest: nat)
    requires k > 0 && rest == k - 1 && share == RoundHalfAway(pool - taken, k) && mid == before + [share]
    requires Drained(shares, mid, ledger, pool, taken + share, rest)
    ensures Drained(shares, before, ledger, pool, taken, k)
  {
    var tail := Drain(pool, taken + share, rest);
    assert Drain(pool, taken, k) == [share] + tail;
    assert ([share] + tail)[1..] == tail;
    assert before + [share] + tail == before + ([share] + tail);
  }

  /**
   * When a carton holds exactly the unprocessed units of a scope (a line item, or for the order
   * adjustments an order) and each calculator sees the captures built before it, the scope's
   * captures and cancels together hold the whole pool once the carton is saved.
   */
  lemma CartonClosesPool(db: Db, carton: seq<InventoryUnit>, cartonId: nat, s: Scope, p: Pool, pool: int)
    requires carton != [] && Drainable(db.units, db, carton, s, p, pool)
    requires BuildUnits(db, [], carton, cartonId, true).Ok?
    ensures ProcessedSum(SaveRows(db.units, BuildUnits(db, [], carton, cartonId, true).value), s, p) == pool
  {
    var out := BuildUnits(db, [], carton, cartonId, true).value;
    var taken := ProcessedSum(db.units, s, p);
    BuildUnitsMeans(db, [], carton, cartonId, true);
    assert SaveRows(db.units, out[..0]) == db.units;
    BuildDrainsPool(db, out, 0, carton, cartonId, s, p, pool, taken);
    DrainSumsToPool(pool, taken, |carton|);
  }

  /** The same split of -1.66 over one carton of three units: -0.55, -0.56, -0.55, adding up to the pool. */
  lemma CartonOfThreeSplitsPromotion(db: Db, carton: seq<InventoryUnit>, cartonId: nat, s: Scope)
    requires |carton| == 3 && Drainable(db.units, db, carton, s, Promotion, -166)
    requires ProcessedSum(db.units, s, Promotion) == 0
    requires BuildUnits(db, [], carton, cartonId, true).Ok?
    ensures Shares(BuildUnits(db, [], carton, cartonId, true).value, Promotion) == [-55, -56, -55]
  {
    var out := BuildUnits(db, [], carton, cartonId, true).value;
    BuildUnitsMeans(db, [], carton, cartonId, true);
    assert SaveRows(db.units, out[..0]) == db.units;
    BuildDrainsPool(db, out, 0, carton, cartonId, s, Promotion, -166, 0);
    PromotionOfThreeUnits();
    assert Shares([], Promotion) == [];
  }

  // ---------------------------------------------------------------- as written

  /** The share the first calculator of scope `s` computes from the units as they were loaded. */
  ghost predicate LoadedShare(db: Db, s: Scope, p: Pool, pool: int, share: int)
  {
    UnprocessedCount(db.units, s) > 0 && share == RoundHalfAway(pool - ProcessedSum(db.units, s, p), UnprocessedCount(db.units, s))
  }

  /** The shares after `before` are `k` times `share`, and the ledger grows by `k` shares. */
  predicate Repeated(shares: seq<int>, before: seq<int>, ledger: int, share: int, taken: int, k: nat)
  {
    shares == before + seq(k, _ => share) && ledger == taken + k * share
  }

  /**
   * As written, every calculator reads the units as they were loaded, so every unit of a scope
   * in the carton takes the share the first one takes, `share`, and the saved ledger, `taken`
   * before them, grows by that share once per unit.
   */
  lemma {:induction false} AsWrittenRepeatsShare(db: Db, out: seq<BuiltCapture>, start: nat, units: seq<InventoryUnit>,
                                                 cartonId: nat, s: Scope, p: Pool, pool: int, share: int, taken: int)
    requires LoadedShare(db, s, p, pool, share)
    requires DrainState(db, out, start, units, cartonId, false, s, p, pool, taken)
    ensures Repeated(Shares(out, p), Shares(out[..start], p), ProcessedSum(SaveRows(db.units, out), s, p), share, taken, |units|)
    decreases |units|
  {
    if units == [] {
      assert out[..start] == out;
      RepeatedNone(Shares(out, p), Shares(out[..start], p), ProcessedSum(SaveRows(db.units, out), s, p), share, taken);
    } else {
      AsWrittenStep(db, out, start, units, cartonId, s, p, pool, share, taken);
      AsWrittenRepeatsShare(db, out, start + 1, units[1..], cartonId, s, p, pool, share, taken + share);
      RepeatedTurn(Shares(out, p), Shares(out[..start], p), Shares(out[..start + 1], p), ProcessedSum(SaveRows(db.units, out), s, p),
                   share, taken, |units|, |units[1..]|);
    }
  }

  /** One turn of `AsWrittenRepeatsShare`: the next capture takes the share read from the loaded units. */
  lemma AsWrittenStep(db: Db, out: seq<BuiltCapture>, start: nat, units: seq<InventoryUnit>,
                      cartonId: nat, s: Scope, p: Pool, pool: int, share: int, taken: int)
    requires LoadedShare(db, s, p, pool, share)
    requires units != [] && DrainState(db, out, start, units, cartonId, false, s, p, pool, taken)
    ensures start < |out| && PoolAmount(out[start].capture.amounts, p) == share
    ensures Shares(out[..start + 1], p) == Shares(out[..start], p) + [share]
    ensures DrainState(db, out, start + 1, units[1..], cartonId, false, s, p, pool, taken + share)
  {
    BuiltFromTail(db, out, start, units, cartonId, false);
    FirstShareAsLoaded(db, out, start, units, cartonId, s, p, pool, share);
    RecordTurn(db, out[..start], out[start], units, s, p, pool, SaveRows(db.units, out[..start]), taken);
  }

  lemma RepeatedNone(shares: seq<int>, before: seq<int>, ledger: int, share: int, taken: int)
    requires shares == before && ledger == taken
    ensures Repeated(shares, before, ledger, share, taken, 0)
  {
    assert before + seq(0, _ => share) == before;
  }

  lemma RepeatedTurn(shares: seq<int>, before: seq<int>, mid: seq<int>, ledger: int, share: int, taken: int, k: nat, rest: nat)
    requires k > 0 && rest == k - 1 && mid == before + [share]
    requires Repeated(shares, mid, ledger, share, taken + share, rest)
    ensures Repeated(shares, before, ledger, share, taken, k)
  {
    assert before + [share] + seq(rest, _ => share) == before + seq(k, _ => share);
  }

  /**
   * The discrepancy: a carton of the three unprocessed units of a line item with a promotion of
   * -1.66 captures -0.55 three times, so the saved ledger holds -1.65, a cent short of the pool.
   */
  lemma AsWrittenMissesPenny(db: Db, carton: seq<InventoryUnit>, cartonId: nat, s: Scope)
    requires |carton| == 3 && Drainable(db.units, db, carton, s, Promotion, -166)
    requires ProcessedSum(db.units, s, Promotion) == 0
    requires BuildUnits(db, [], carton, cartonId, false).Ok?
    ensures Shares(BuildUnits(db, [], carton, cartonId, false).value, Promotion) == [-55, -55, -55]
    ensures ProcessedSum(SaveRows(db.units, BuildUnits(db, [], carton, cartonId, false).value), s, Promotion) == -165
  {
    var out := BuildUnits(db, [], carton, cartonId, false).value;
    LoadedShareOfThree(db, s);
    BuildUnitsMeans(db, [], carton, cartonId, false);
    assert SaveRows(db.units, out[..0]) == db.units;
    AsWrittenRepeatsShare(db, out, 0, carton, cartonId, s, Promotion, -166, -55, 0);
    RepeatedThree(Shares(out, Promotion), Shares(out[..0], Promotion), ProcessedSum(SaveRows(db.units, out), s, Promotion));
  }

  lemma LoadedShareOfThree(db: Db, s: Scope)
    requires UnprocessedCount(db.units, s) == 3 && ProcessedSum(db.units, s, Promotion) == 0
    ensures LoadedShare(db, s, Promotion, -166, -55)
  {
    assert RoundHalfAway(-166, 3) == -55;
  }

  lemma RepeatedThree(shares: seq<int>, before: seq<int>, ledger: int)
    requires |before| == 0 && Repeated(shares, before, ledger, -55, 0, 3)
    ensures shares == [-55, -55, -55] && ledger == -165
  {
    assert seq(3, _ => -55) == [-55, -55, -55];
  }

  // ---------------------------------------------------------------- the loops

  /** The `inventory_units.each` loop of `build_order_unit_captures`. */
  method BuildUnitsLoop(db: Db, rows: seq<BuiltCapture>, units: seq<InventoryUnit>, cartonId: nat, seesBuilt: bool)
    returns (r: Result<seq<BuiltCapture>, Error>)
    ensures r == BuildUnits(db, rows, units, cartonId, seesBuilt)
  {
    var built := rows;
    for k := 0 to |units|
      invariant BuildUnits(db, rows, units, cartonId, seesBuilt) == BuildUnits(db, built, units[k..], cartonId, seesBuilt)
    {
      assert units[k..][1..] == units[k + 1..];
      var b := UnitCaptureFor(ViewOf(db, built, seesBuilt), units[k], cartonId);
      if b.Err? {
        return Err(b.error);
      }
      built := built + [b.value];
    }
    assert units[|units|..] == [];
    r := Ok(built);
  }

  // ---------------------------------------------------------------- the object

  class CartonCapturing {
    /** `@carton`, as its inventory units. */
    const carton: seq<InventoryUnit>
    /** The payment strategy class's `eligible_payments`. */
    const eligiblePayments: seq<nat>
    const store: Store

    /** `initialize(carton)`. */
    constructor (carton: seq<InventoryUnit>, eligiblePayments: seq<nat>, store: Store)
      ensures this.carton == carton && this.eligiblePayments == eligiblePayments && this.store == store
    {
      this.carton := carton;
      this.eligiblePayments := eligiblePayments;
      this.store := store;
    }

    /** `capture`: the new carton capture is `cartonId`, captured at `now`. */
    method Capture(cartonId: nat, now: int) returns (err: Option<Error>)
      modifies store
      ensures Outcome(store.db, err) == CaptureSpec(eligiblePayments, old(store.db), carton, cartonId, now)
    {
      var db := store.db;
      var orders := UnitOrders(carton);
      var rows: seq<BuiltCapture> := [];
      for k := 0 to |orders|
        invariant store.db == db
        invariant BuildGroups(db, [], carton, orders, cartonId, true) == BuildGroups(db, rows, carton, orders[k..], cartonId, true)
      {
        assert orders[k..][1..] == orders[k + 1..];
        var built := BuildOrderUnitCaptures(db, rows, orders[k], cartonId);
        if built.Err? {
          return Some(built.error);
        }
        rows := built.value;
      }
      assert orders[|orders|..] == [];
      var strategy := new CartonPayments.CartonPaymentStrategy(eligiblePayments, rows, store);
      err := strategy.CapturePayments();
      if err.None? {
        store.db := Saved(store.db, rows, cartonId, now);
      }
    }

    /** `build_order_unit_captures` for one order. */
    method BuildOrderUnitCaptures(db: Db, rows: seq<BuiltCapture>, orderId: nat, cartonId: nat)
      returns (r: Result<seq<BuiltCapture>, Error>)
      ensures r == BuildOrder(db, rows, carton, orderId, cartonId, true)
    {
      var built := BuildUnitsLoop(db, rows, UnitsOf(carton, orderId), cartonId, true);
      if built.Err? {
        return built;
      }
      var o := FindOrder(db.orders, orderId);
      if o.None? {
        return Err(RecordNotFound);
      }
      if CartonPayments.CaptureTotal(built.value) > o.value.total {
        return Err(CaptureTooLarge);
      }
      r := built;
    }
  }
}
