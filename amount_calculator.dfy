/**
 * UnprocessedInventoryUnitAmountCalculator: the share of a line item's amounts that one
 * inventory unit carries when it is captured or canceled.  Each pool (promotions, additional
 * tax, included tax, order adjustments) minus what the already processed units took is split
 * evenly among the units not yet processed, rounded to cents; the last unit takes whatever
 * is left, so the shares of all units add up to the pool.
 */
module AmountCalculator {
  import opened Wrappers
  import opened Money
  import opened Records

  // ---------------------------------------------------------------- the partition

  /** A unit already carries a capture or a cancel. */
  predicate PreviouslyProcessed(u: InventoryUnit)
  {
    u.capture.Some? || u.cancel.Some?
  }

  /** `@line_item.inventory_units.reject(&:original_return_item)`. */
  function LineItemUnits(units: seq<InventoryUnit>, lineItemId: nat): (r: seq<InventoryUnit>)
    ensures forall u :: u in r <==> u in units && u.lineItemId == lineItemId && !u.exchange
  {
    if units == [] then []
    else (if units[0].lineItemId == lineItemId && !units[0].exchange then [units[0]] else [])
         + LineItemUnits(units[1..], lineItemId)
  }

  /** The captured units' captures, in table order. */
  function Captures(us: seq<InventoryUnit>): (r: seq<Breakdown>)
    ensures |r| <= |us|
  {
    if us == [] then []
    else (if us[0].capture.Some? then [us[0].capture.value.amounts] else []) + Captures(us[1..])
  }

  /** The cancels of the uncaptured units that carry one. */
  function Cancels(us: seq<InventoryUnit>): (r: seq<Breakdown>)
    ensures |r| <= |us|
  {
    if us == [] then []
    else (if us[0].capture.None? && us[0].cancel.Some? then [us[0].cancel.value.amounts] else [])
         + Cancels(us[1..])
  }

  /** The units carrying neither a capture nor a cancel. */
  function Unprocessed(us: seq<InventoryUnit>): (r: seq<InventoryUnit>)
    ensures forall u :: u in r <==> u in us && !PreviouslyProcessed(u)
  {
    if us == [] then []
    else (if !PreviouslyProcessed(us[0]) then [us[0]] else []) + Unprocessed(us[1..])
  }

  /** Lines 13-14 split the units three ways: captured, canceled, unprocessed. */
  lemma {:induction false} PartitionCovers(us: seq<InventoryUnit>)
    ensures |Captures(us)| + |Cancels(us)| + |Unprocessed(us)| == |us|
  {
    if us != [] {
      PartitionCovers(us[1..]);
    }
  }

  function PoolSum(bs: seq<Breakdown>, p: Pool): int
  {
    if bs == [] then 0 else PoolAmount(bs[0], p) + PoolSum(bs[1..], p)
  }

  /** `@order.adjustments.eligible.sum(:amount)`: the eligible adjustments on the order itself. */
  function OrderAdjustmentPool(adjustments: seq<Adjustment>, orderId: nat): int
  {
    if adjustments == [] then 0
    else (if adjustments[0].adjustable == OrderRef(orderId) && adjustments[0].eligible
          then adjustments[0].amount else 0)
         + OrderAdjustmentPool(adjustments[1..], orderId)
  }

  // ---------------------------------------------------------------- the calculator

  datatype Calculator = Calculator(
    unit: InventoryUnit, lineItem: LineItem, orderPool: int,
    captures: seq<Breakdown>, cancels: seq<Breakdown>, unprocessed: seq<InventoryUnit>,
    orderProcessed: int, orderUnprocessed: nat)

  /**
   * The constructor: refuses a unit that was already captured or canceled, then partitions
   * the non-exchange units of the unit's line item.  The last two fields hold the same
   * partition taken over the whole order, used by `OrderAdjustmentShare`.
   */
  function New(db: Db, u: InventoryUnit): (r: Result<Calculator, Error>)
    ensures r == Err(InventoryPreviouslyProcessed) <==> PreviouslyProcessed(u)
    ensures r.Ok? ==> r.value.unit == u && r.value.lineItem.id == u.lineItemId
                      && FindLineItem(db.lineItems, u.lineItemId) == Some(r.value.lineItem)
                      && r.value.lineItem in db.lineItems
    ensures r.Ok? ==> |r.value.unprocessed| == UnprocessedCount(db.units, LineItemScope(u.lineItemId))
    ensures r.Ok? ==> forall p :: ProcessedAmount(r.value, p) == ProcessedSum(db.units, LineItemScope(u.lineItemId), p)
    ensures !PreviouslyProcessed(u) && FindLineItem(db.lineItems, u.lineItemId).None? ==> r == Err(RecordNotFound)
    ensures r.Ok? ==> forall p :: (Share(r.value, p)
      == AmountToProcess(PoolTotal(r.value, p), ProcessedSum(db.units, ScopeOf(u, p), p),
                         UnprocessedCount(db.units, ScopeOf(u, p))))
    ensures r.Ok? ==> r.value.orderPool == OrderAdjustmentPool(db.adjustments, u.orderId)
  {
    if PreviouslyProcessed(u) then Err(InventoryPreviouslyProcessed)
    else match FindLineItem(db.lineItems, u.lineItemId)
      case None => Err(RecordNotFound)
      case Some(li) =>
        var us := LineItemUnits(db.units, li.id);
        var c := Calculator(u, li, OrderAdjustmentPool(db.adjustments, u.orderId),
                            Captures(us), Cancels(us), Unprocessed(us),
                            ProcessedSum(db.units, OrderScope(u.orderId), OrderAdjustment),
                            UnprocessedCount(db.units, OrderScope(u.orderId)));
        LineItemPartitionMatchesScope(db.units, li.id);
        Ok(c)
  }

  function PriceTotal(c: Calculator): int
  {
    c.lineItem.price
  }

  function Currency(c: Calculator): string
  {
    c.lineItem.currency
  }

  /** What the line item's processed units already took from pool `p`. */
  function ProcessedAmount(c: Calculator, p: Pool): int
  {
    PoolSum(c.captures, p) + PoolSum(c.cancels, p)
  }

  /** The whole pool as the source reads it: the line item's totals, or the order's eligible adjustments. */
  function PoolTotal(c: Calculator, p: Pool): int
  {
    match p
    case Promotion => c.lineItem.promoTotal
    case AdditionalTax => c.lineItem.additionalTaxTotal
    case IncludedTax => c.lineItem.includedTaxTotal
    case OrderAdjustment => c.orderPool
  }

  /** `amount_to_process`: what is left of the pool, split among `count` units and rounded. */
  function AmountToProcess(total: int, processed: int, count: nat): (r: Result<int, Error>)
    ensures count == 0 <==> r == Err(ZeroDivision)
    ensures r.Ok? ==> RoundsHalfAway(total - processed, count, r.value)
    ensures count == 1 ==> r == Ok(total - processed)
  {
    if count == 0 then Err(ZeroDivision) else Ok(RoundHalfAway(total - processed, count))
  }

  /**
   * The share of pool `p` as written: the promotion and tax methods and, for the order
   * adjustment pool, `order_adjustment_total`, which splits the order-wide pool among the
   * line item's unprocessed units only.
   */
  function ShareAsWritten(c: Calculator, p: Pool): Result<int, Error>
  {
    AmountToProcess(PoolTotal(c, p), ProcessedAmount(c, p), |c.unprocessed|)
  }

  /** The order adjustment share with the pool, what was taken and the divisor all order-wide. */
  function OrderAdjustmentShare(c: Calculator): Result<int, Error>
  {
    AmountToProcess(c.orderPool, c.orderProcessed, c.orderUnprocessed)
  }

  /** The share of pool `p` that the rest of the model records. */
  function Share(c: Calculator, p: Pool): Result<int, Error>
  {
    if p == OrderAdjustment then OrderAdjustmentShare(c) else ShareAsWritten(c, p)
  }

  /** The five amounts a capture or a cancel of `c.unit` records. */
  function Amounts(c: Calculator): (r: Result<Breakdown, Error>)
    ensures r.Ok? ==> r.value.price == c.lineItem.price
    ensures r.Ok? ==> forall p :: Share(c, p) == Ok(PoolAmount(r.value, p))
    ensures r.Err? ==> exists p :: Share(c, p).Err?
  {
    var promo := Share(c, Promotion);
    var additional := Share(c, AdditionalTax);
    var included := Share(c, IncludedTax);
    var orderAdj := Share(c, OrderAdjustment);
    if promo.Err? then Err(promo.error)
    else if additional.Err? then Err(additional.error)
    else if included.Err? then Err(included.error)
    else if orderAdj.Err? then Err(orderAdj.error)
    else
      var b := Breakdown(c.lineItem.price, promo.value, additional.value, included.value, orderAdj.value);
      EveryPool(c, b);
      Ok(b)
  }

  lemma EveryPool(c: Calculator, b: Breakdown)
    requires Share(c, Promotion) == Ok(b.promoTotal)
    requires Share(c, AdditionalTax) == Ok(b.additionalTaxTotal)
    requires Share(c, IncludedTax) == Ok(b.includedTaxTotal)
    requires Share(c, OrderAdjustment) == Ok(b.orderAdjustmentTotal)
    ensures forall p :: Share(c, p) == Ok(PoolAmount(b, p))
  {
    forall p ensures Share(c, p) == Ok(PoolAmount(b, p)) {
      match p
      case Promotion =>
      case AdditionalTax =>
      case IncludedTax =>
      case OrderAdjustment =>
    }
  }

  /** The units a pool is split among: the order's for the order adjustments, else the line item's. */
  function ScopeOf(u: InventoryUnit, p: Pool): Scope
  {
    if p == OrderAdjustment then OrderScope(u.orderId) else LineItemScope(u.lineItemId)
  }

  // ---------------------------------------------------------------- the ledger, table-wide

  /** Which units share a pool: those of a line item, or those of an order; never exchange units. */
  datatype Scope = LineItemScope(lineItemId: nat) | OrderScope(orderId: nat)

  predicate InScope(u: InventoryUnit, s: Scope)
  {
    !u.exchange &&
    match s
    case LineItemScope(id) => u.lineItemId == id
    case OrderScope(id) => u.orderId == id
  }

  /** What unit `u` took from pool `p`: its capture's amount, else its cancel's, else nothing. */
  function Taken(u: InventoryUnit, p: Pool): int
  {
    if u.capture.Some? then PoolAmount(u.capture.value.amounts, p)
    else if u.cancel.Some? then PoolAmount(u.cancel.value.amounts, p)
    else 0
  }

  function ProcessedSum(units: seq<InventoryUnit>, s: Scope, p: Pool): int
  {
    if units == [] then 0
    else (if InScope(units[0], s) then Taken(units[0], p) else 0) + ProcessedSum(units[1..], s, p)
  }

  function UnprocessedCount(units: seq<InventoryUnit>, s: Scope): nat
  {
    if units == [] then 0
    else (if InScope(units[0], s) && !PreviouslyProcessed(units[0]) then 1 else 0)
         + UnprocessedCount(units[1..], s)
  }

  lemma {:induction false} LineItemPartitionMatchesScope(units: seq<InventoryUnit>, lineItemId: nat)
    ensures |Unprocessed(LineItemUnits(units, lineItemId))| == UnprocessedCount(units, LineItemScope(lineItemId))
    ensures forall p :: PoolSum(Captures(LineItemUnits(units, lineItemId)), p)
                        + PoolSum(Cancels(LineItemUnits(units, lineItemId)), p)
                        == ProcessedSum(units, LineItemScope(lineItemId), p)
  {
    if units != [] {
      LineItemPartitionMatchesScope(units[1..], lineItemId);
      var us := LineItemUnits(units, lineItemId);
      var rest := LineItemUnits(units[1..], lineItemId);
      if InScope(units[0], LineItemScope(lineItemId)) {
        assert us == [units[0]] + rest;
        assert us[1..] == rest;
        forall p ensures PoolSum(Captures(us), p) + PoolSum(Cancels(us), p)
                         == ProcessedSum(units, LineItemScope(lineItemId), p) {
          PoolSumConcat(if units[0].capture.Some? then [units[0].capture.value.amounts] else [], Captures(rest), p);
          PoolSumConcat(if units[0].capture.None? && units[0].cancel.Some? then [units[0].cancel.value.amounts] else [], Cancels(rest), p);
        }
      } else {
        assert us == rest;
      }
    }
  }

  lemma {:induction false} PoolSumConcat(a: seq<Breakdown>, b: seq<Breakdown>, p: Pool)
    ensures PoolSum(a + b, p) == PoolSum(a, p) + PoolSum(b, p)
  {
    if a != [] {
      assert (a + b)[1..] == a[1..] + b;
      PoolSumConcat(a[1..], b, p);
    } else {
      assert a + b == b;
    }
  }

  /** The share pool `p` hands the next unit of scope `s`, computed from the table. */
  function NextShare(units: seq<InventoryUnit>, s: Scope, p: Pool, pool: int): int
    requires UnprocessedCount(units, s) > 0
  {
    RoundHalfAway(pool - ProcessedSum(units, s, p), UnprocessedCount(units, s))
  }

  /** What processes a unit: a UnitCancel (which also cancels it) or an InventoryUnitCapture. */
  datatype Mark = CancelMark(cancel: UnitCancel) | CaptureMark(capture: UnitCapture)

  function MarkAmounts(m: Mark): Breakdown
  {
    match m
    case CancelMark(c) => c.amounts
    case CaptureMark(c) => c.amounts
  }

  /** The unit `u` with the mark recorded on it. */
  function Marked(u: InventoryUnit, m: Mark): (r: InventoryUnit)
    ensures r.id == u.id
    ensures forall s :: InScope(r, s) == InScope(u, s)
    ensures PreviouslyProcessed(r)
    ensures !PreviouslyProcessed(u) ==> forall p :: Taken(r, p) == PoolAmount(MarkAmounts(m), p)
  {
    match m
    case CancelMark(c) => u.(cancel := Some(c), state := UnitState.Canceled)
    case CaptureMark(c) => u.(capture := Some(c))
  }

  /** The units table after mark `m` is recorded against unit `u`. */
  function Record(units: seq<InventoryUnit>, u: InventoryUnit, m: Mark): seq<InventoryUnit>
  {
    PutUnit(units, Marked(u, m))
  }

  /** The unit with id `id` is an unprocessed unit of scope `s`. */
  predicate UnprocessedIn(units: seq<InventoryUnit>, id: nat, s: Scope)
  {
    exists u :: u in units && u.id == id && InScope(u, s) && !PreviouslyProcessed(u)
  }

  lemma {:induction false} PutUnitAbsent(units: seq<InventoryUnit>, u: InventoryUnit)
    requires forall v :: v in units ==> v.id != u.id
    ensures PutUnit(units, u) == units
  {
    if units != [] {
      PutUnitAbsent(units[1..], u);
    }
  }

  /**
   * Recording a share against one unprocessed unit of the scope adds that share to what the
   * scope has taken and leaves one unit fewer to process.
   */
  lemma RecordOneStep(units: seq<InventoryUnit>, u: InventoryUnit, m: Mark, s: Scope, p: Pool)
    requires UniqueUnitIds(units)
    requires u in units && !PreviouslyProcessed(u)
    ensures ProcessedSum(Record(units, u, m), s, p)
            == ProcessedSum(units, s, p) + (if InScope(u, s) then PoolAmount(MarkAmounts(m), p) else 0)
    ensures UnprocessedCount(Record(units, u, m), s)
            == UnprocessedCount(units, s) - (if InScope(u, s) then 1 else 0)
    ensures UniqueUnitIds(Record(units, u, m))
  {
    var u' := Marked(u, m);
    PutUnitSum(units, u, u', s, p);
    PutUnitCount(units, u, u', s);
    UniqueAfterPut(units, u');
  }

  /** Replacing the row of `u` by `v` (same id) swaps `u`'s part of a processed sum for `v`'s. */
  lemma {:induction false} PutUnitSum(units: seq<InventoryUnit>, u: InventoryUnit, v: InventoryUnit, s: Scope, p: Pool)
    requires UniqueUnitIds(units)
    requires u in units && v.id == u.id
    ensures ProcessedSum(PutUnit(units, v), s, p)
            == ProcessedSum(units, s, p) - (if InScope(u, s) then Taken(u, p) else 0)
               + (if InScope(v, s) then Taken(v, p) else 0)
  {
    var r := PutUnit(units, v);
    assert r[1..] == PutUnit(units[1..], v);
    if units[0] == u {
      HeadAbsentFromTail(units);
      PutUnitAbsent(units[1..], v);
    } else {
      UnitElsewhere(units, u);
      PutUnitSum(units[1..], u, v, s, p);
    }
  }

  /** Replacing the row of `u` by `v` (same id) swaps `u`'s part of an unprocessed count for `v`'s. */
  lemma {:induction false} PutUnitCount(units: seq<InventoryUnit>, u: InventoryUnit, v: InventoryUnit, s: Scope)
    requires UniqueUnitIds(units)
    requires u in units && v.id == u.id
    ensures UnprocessedCount(PutUnit(units, v), s)
            == UnprocessedCount(units, s) - (if InScope(u, s) && !PreviouslyProcessed(u) then 1 else 0)
               + (if InScope(v, s) && !PreviouslyProcessed(v) then 1 else 0)
  {
    var r := PutUnit(units, v);
    assert r[1..] == PutUnit(units[1..], v);
    if units[0] == u {
      HeadAbsentFromTail(units);
      PutUnitAbsent(units[1..], v);
    } else {
      UnitElsewhere(units, u);
      PutUnitCount(units[1..], u, v, s);
    }
  }

  /** A unit other than the head of a table with unique ids sits in its tail, under another id. */
  lemma UnitElsewhere(units: seq<InventoryUnit>, u: InventoryUnit)
    requires UniqueUnitIds(units)
    requires u in units && units[0] != u
    ensures units[0].id != u.id && u in units[1..] && UniqueUnitIds(units[1..])
  {
    var k :| 0 <= k < |units| && units[k] == u;
    assert k != 0;
    assert units[1..][k - 1] == u;
    UniqueUnitTail(units);
  }

  lemma HeadAbsentFromTail(units: seq<InventoryUnit>)
    requires UniqueUnitIds(units) && units != []
    ensures forall v :: v in units[1..] ==> v.id != units[0].id
  {
    forall v | v in units[1..] ensures v.id != units[0].id {
      var j :| 0 <= j < |units[1..]| && units[1..][j] == v;
      assert units[j + 1] == v;
    }
  }

  lemma UniqueUnitTail(units: seq<InventoryUnit>)
    requires UniqueUnitIds(units) && units != []
    ensures UniqueUnitIds(units[1..])
  {
    forall i, j | 0 <= i < j < |units[1..]| ensures units[1..][i].id != units[1..][j].id {
      assert units[1..][i] == units[i + 1] && units[1..][j] == units[j + 1];
    }
  }

  lemma UniqueAfterPut(units: seq<InventoryUnit>, u: InventoryUnit)
    requires UniqueUnitIds(units)
    ensures UniqueUnitIds(PutUnit(units, u))
  {
    var r := PutUnit(units, u);
    forall i, j | 0 <= i < j < |r| ensures r[i].id != r[j].id {
      assert r[i].id == units[i].id && r[j].id == units[j].id;
    }
  }

  /** The last unprocessed unit takes exactly what is left of the pool. */
  lemma LastUnitClosesPool(units: seq<InventoryUnit>, u: InventoryUnit, m: Mark, s: Scope, p: Pool, pool: int)
    requires UniqueUnitIds(units)
    requires u in units && InScope(u, s) && !PreviouslyProcessed(u)
    requires UnprocessedCount(units, s) == 1
    requires PoolAmount(MarkAmounts(m), p) == NextShare(units, s, p, pool)
    ensures ProcessedSum(Record(units, u, m), s, p) == pool
    ensures UnprocessedCount(Record(units, u, m), s) == 0
  {
    RecordOneStep(units, u, m, s, p);
    RoundHalfAwayByOne(pool - ProcessedSum(units, s, p));
  }

  /** Records a mark against each unit of `ids` in turn, each carrying its breakdown in `cs`. */
  function Replay(units: seq<InventoryUnit>, ids: seq<nat>, cs: seq<Mark>): seq<InventoryUnit>
    requires |ids| == |cs|
    decreases |ids|
  {
    if ids == [] then units
    else match FindUnit(units, ids[0])
      case None => units
      case Some(u) => Replay(Record(units, u, cs[0]), ids[1..], cs[1..])
  }

  /** Each mark of `cs` carries the share of pool `p` its unit gets when its turn comes. */
  ghost predicate SharesFollow(units: seq<InventoryUnit>, ids: seq<nat>, cs: seq<Mark>, s: Scope, p: Pool, pool: int)
    requires |ids| == |cs|
    decreases |ids|
  {
    ids == [] ||
    match FindUnit(units, ids[0])
    case None => false
    case Some(u) =>
      && UnprocessedCount(units, s) > 0
      && PoolAmount(MarkAmounts(cs[0]), p) == NextShare(units, s, p, pool)
      && SharesFollow(Record(units, u, cs[0]), ids[1..], cs[1..], s, p, pool)
  }

  /**
   * Conservation: when the units of `ids` are exactly the scope's unprocessed units, in any
   * order, and each takes its share when its turn comes, the scope has taken the whole pool.
   */
  lemma {:induction false} DrainClosesPool(units: seq<InventoryUnit>, ids: seq<nat>, cs: seq<Mark>, s: Scope, p: Pool, pool: int)
    requires UniqueUnitIds(units)
    requires |ids| == |cs| > 0
    requires forall i, j :: 0 <= i < j < |ids| ==> ids[i] != ids[j]
    requires forall i :: 0 <= i < |ids| ==> UnprocessedIn(units, ids[i], s)
    requires |ids| == UnprocessedCount(units, s)
    requires SharesFollow(units, ids, cs, s, p, pool)
    ensures ProcessedSum(Replay(units, ids, cs), s, p) == pool
    decreases |ids|
  {
    var u :| u in units && u.id == ids[0] && InScope(u, s) && !PreviouslyProcessed(u);
    FindUniqueUnit(units, u);
    var units' := Record(units, u, cs[0]);
    if |ids| == 1 {
      LastUnitClosesPool(units, u, cs[0], s, p, pool);
      assert Replay(units', ids[1..], cs[1..]) == units';
    } else {
      RecordOneStep(units, u, cs[0], s, p);
      forall i | 0 <= i < |ids[1..]| ensures UnprocessedIn(units', ids[1..][i], s) {
        assert ids[1..][i] == ids[i + 1] && ids[i + 1] != ids[0];
        var v :| v in units && v.id == ids[i + 1] && InScope(v, s) && !PreviouslyProcessed(v);
        StillUnprocessed(units, u, cs[0], v);
      }
      DrainClosesPool(units', ids[1..], cs[1..], s, p, pool);
    }
  }

  lemma FindUniqueUnit(units: seq<InventoryUnit>, u: InventoryUnit)
    requires UniqueUnitIds(units) && u in units
    ensures FindUnit(units, u.id) == Some(u)
  {
    var f := FindUnit(units, u.id);
    assert f.Some?;
    var i :| 0 <= i < |units| && units[i] == u;
    var j :| 0 <= j < |units| && units[j] == f.value;
    assert i == j;
  }

  lemma StillUnprocessed(units: seq<InventoryUnit>, u: InventoryUnit, m: Mark, v: InventoryUnit)
    requires v in units && v.id != u.id
    ensures v in Record(units, u, m)
  {
    var i :| 0 <= i < |units| && units[i] == v;
    assert Record(units, u, m)[i] == v;
  }

  /** Rounding shares one at a time with the divisor counting down hands out the whole pool. */
  function Drain(pool: int, taken: int, k: nat): seq<int>
    decreases k
  {
    if k == 0 then [] else
    var share := RoundHalfAway(pool - taken, k);
    [share] + Drain(pool, taken + share, k - 1)
  }

  lemma {:induction false} DrainSumsToPool(pool: int, taken: int, k: nat)
    requires k > 0
    ensures taken + PoolTotalOf(Drain(pool, taken, k)) == pool
    decreases k
  {
    var share := RoundHalfAway(pool - taken, k);
    if k == 1 {
      RoundHalfAwayByOne(pool - taken);
    } else {
      DrainSumsToPool(pool, taken + share, k - 1);
    }
  }

  function PoolTotalOf(s: seq<int>): int
  {
    if s == [] then 0 else s[0] + PoolTotalOf(s[1..])
  }

  // ---------------------------------------------------------------- the amounts of the tests

  /** A promotion of 9.11 over two units: the first processed unit takes 4.56, the other 4.55. */
  lemma PromotionOfTwoUnits()
    ensures Drain(911, 0, 2) == [456, 455]
  {
  }

  /** A promotion of -1.66 over three units: -0.55, -0.56, -0.55. */
  lemma PromotionOfThreeUnits()
    ensures Drain(-166, 0, 3) == [-55, -56, -55]
  {
  }

  /** Additional tax of 2.83 over three units: 0.94, 0.95, 0.94. */
  lemma TaxOfThreeUnits()
    ensures Drain(283, 0, 3) == [94, 95, 94]
  {
  }

  // ---------------------------------------------------------------- the order adjustment pool

  /** Two scopes that hold the same units have taken the same and have as many left. */
  lemma {:induction false} SameScopeSameLedger(units: seq<InventoryUnit>, s: Scope, t: Scope, p: Pool)
    requires forall v :: v in units ==> (InScope(v, s) <==> InScope(v, t))
    ensures ProcessedSum(units, s, p) == ProcessedSum(units, t, p)
    ensures UnprocessedCount(units, s) == UnprocessedCount(units, t)
  {
    if units != [] {
      SameScopeSameLedger(units[1..], s, t, p);
    }
  }

  /**
   * While every non-exchange unit of the order belongs to the unit's line item, the share of
   * the order adjustments as written equals the order-wide share.
   */
  lemma AsWrittenAgreesOnOneLineItem(db: Db, u: InventoryUnit)
    requires New(db, u).Ok?
    requires forall v :: v in db.units ==> (InScope(v, LineItemScope(u.lineItemId)) <==> InScope(v, OrderScope(u.orderId)))
    ensures ShareAsWritten(New(db, u).value, OrderAdjustment) == OrderAdjustmentShare(New(db, u).value)
  {
    SameScopeSameLedger(db.units, LineItemScope(u.lineItemId), OrderScope(u.orderId), OrderAdjustment);
  }

  /** The order adjustment share as written: computed for a unit of line item `lineItemId`. */
  function OrderAdjustmentAsWritten(db: Db, u: InventoryUnit): Result<int, Error>
  {
    match New(db, u)
    case Err(e) => Err(e)
    case Ok(c) => ShareAsWritten(c, OrderAdjustment)
  }

  const SampleLineItem1 := LineItem(1, 7, 1, 1000, 1, "USD", 0, 0, 0, 0, true)
  const SampleLineItem2 := LineItem(2, 7, 2, 1000, 1, "USD", 0, 0, 0, 0, true)
  const SampleUnit1 := InventoryUnit(11, 7, 1, 1, None, OnHand, false, false, None, None, 0)
  const SampleUnit2 := InventoryUnit(12, 7, 2, 2, None, OnHand, false, false, None, None, 0)
  const SampleDb := Db([], [SampleLineItem1, SampleLineItem2], [SampleUnit1, SampleUnit2], [], [],
                       [Adjustment(OrderRef(7), 7, -100, "Promotion", true, true, OtherSource, None)],
                       [], [], [], [], [], [], [])

  /**
   * An order with two line items of one unit each and an order adjustment of -1.00: as
   * written, each unit takes the whole -1.00, even after the other unit has taken it.
   */
  lemma OrderAdjustmentTakenTwice()
    ensures OrderAdjustmentAsWritten(SampleDb, SampleUnit1) == Ok(-100)
    ensures OrderAdjustmentAsWritten(SampleDb.(units := Record(SampleDb.units, SampleUnit1,
              CancelMark(UnitCancel("Short Ship", None, Breakdown(1000, 0, 0, 0, -100))))), SampleUnit2) == Ok(-100)
  {
    FirstSampleUnitTakesPool();
    SecondSampleUnitTakesPool();
  }

  lemma FirstSampleUnitTakesPool()
    ensures OrderAdjustmentAsWritten(SampleDb, SampleUnit1) == Ok(-100)
  {
    var units := SampleDb.units;
    assert units[1..] == [SampleUnit2] && units[1..][1..] == [];
    SampleAdjustments();
    assert LineItemUnits(units[1..], 1) == [];
    assert LineItemUnits(units, 1) == [SampleUnit1];
    assert UnprocessedCount(units[1..], LineItemScope(1)) == 0;
    assert UnprocessedCount(units, LineItemScope(1)) == 1;
    assert ProcessedSum(units[1..], LineItemScope(1), OrderAdjustment) == 0;
    assert ProcessedSum(units, LineItemScope(1), OrderAdjustment) == 0;
    assert FindLineItem(SampleDb.lineItems, 1) == Some(SampleLineItem1);
  }

  lemma SecondSampleUnitTakesPool()
    ensures OrderAdjustmentAsWritten(SampleDb.(units := Record(SampleDb.units, SampleUnit1,
              CancelMark(UnitCancel("Short Ship", None, Breakdown(1000, 0, 0, 0, -100))))), SampleUnit2) == Ok(-100)
  {
    var c1 := UnitCancel("Short Ship", None, Breakdown(1000, 0, 0, 0, -100));
    var first := SampleUnit1.(cancel := Some(c1), state := UnitState.Canceled);
    assert SampleDb.units[1..] == [SampleUnit2] && SampleDb.units[1..][1..] == [];
    assert Record(SampleDb.units, SampleUnit1, CancelMark(c1)) == [first, SampleUnit2];
    SecondUnitAfterFirst(first);
  }

  lemma SecondUnitAfterFirst(first: InventoryUnit)
    requires first == SampleUnit1.(cancel := Some(UnitCancel("Short Ship", None, Breakdown(1000, 0, 0, 0, -100))),
                                   state := UnitState.Canceled)
    ensures OrderAdjustmentAsWritten(SampleDb.(units := [first, SampleUnit2]), SampleUnit2) == Ok(-100)
  {
    var units' := [first, SampleUnit2];
    SampleAdjustments();
    assert units'[1..] == [SampleUnit2] && units'[1..][1..] == [];
    assert LineItemUnits(units'[1..], 2) == [SampleUnit2];
    assert LineItemUnits(units', 2) == [SampleUnit2];
    assert !InScope(first, LineItemScope(2)) && InScope(SampleUnit2, LineItemScope(2));
    assert UnprocessedCount(units'[1..], LineItemScope(2)) == 1;
    assert UnprocessedCount(units', LineItemScope(2)) == 1;
    assert ProcessedSum(units'[1..], LineItemScope(2), OrderAdjustment) == 0;
    assert ProcessedSum(units', LineItemScope(2), OrderAdjustment) == 0;
    assert SampleDb.lineItems[1..] == [SampleLineItem2];
    assert FindLineItem(SampleDb.lineItems, 2) == Some(SampleLineItem2);
  }

  lemma SampleAdjustments()
    ensures OrderAdjustmentPool(SampleDb.adjustments, 7) == -100
  {
    assert SampleDb.adjustments[1..] == [];
  }

  /** With the order-wide share the first unit takes half of the pool and leaves the rest. */
  lemma OrderAdjustmentTakenOnce()
    ensures New(SampleDb, SampleUnit1).Ok?
    ensures OrderAdjustmentShare(New(SampleDb, SampleUnit1).value) == Ok(-50)
  {
    var units := SampleDb.units;
    assert units[1..] == [SampleUnit2] && units[1..][1..] == [];
    SampleAdjustments();
    assert UnprocessedCount(units[1..], OrderScope(7)) == 1;
    assert UnprocessedCount(units, OrderScope(7)) == 2;
    assert ProcessedSum(units[1..], OrderScope(7), OrderAdjustment) == 0;
    assert ProcessedSum(units, OrderScope(7), OrderAdjustment) == 0;
  }
}

