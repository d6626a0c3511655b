/**
 * Promotion::Actions::CreateQuantityAdjustments#compute_amount: a discount of a fixed amount
 * per unit, given only to whole groups of `group_size` units across the order's actionable
 * line items.  What the action's adjustments on the order's other line items already hold
 * counts as used.
 *
 * In cents the source's floating-point quantities are exact: with `used = -Σother / perUnit`,
 * `perUnit × min(applicable − used, quantity) = min(perUnit × applicable + Σother, perUnit × quantity)`,
 * and that integer form is the one modelled.
 */
module QuantityAdjustments {
  import opened Wrappers
  import opened Records

  function Abs(x: int): nat
  {
    if x < 0 then -x else x
  }

  /** Ruby's `%`: the remainder takes the sign of the divisor. */
  function RubyMod(a: int, b: int): int
    requires b != 0
  {
    if b > 0 then a % b else -((-a) % (-b))
  }

  function Min(a: int, b: int): (r: int)
    ensures r <= a && r <= b && (r == a || r == b)
  {
    if a < b then a else b
  }

  /** `line_items.sum(&:quantity)`. */
  function TotalQuantity(items: seq<LineItem>): nat
  {
    if items == [] then 0 else TotalQuantity(items[..|items| - 1]) + items[|items| - 1].quantity
  }

  /**
   * `total_applicable_quantity`: the total quantity less what does not fill a whole group, that
   * is the largest multiple of a positive group size not above the total.  A group size of zero
   * raises ZeroDivisionError.
   */
  function TotalApplicableQuantity(items: seq<LineItem>, groupSize: int): (r: Result<int, Error>)
    ensures r.Err? <==> groupSize == 0
    ensures r.Err? ==> r.error == ZeroDivision
    ensures groupSize > 0 ==> r.Ok? && r.value == (TotalQuantity(items) / groupSize) * groupSize
                              && r.value <= TotalQuantity(items) < r.value + groupSize
  {
    if groupSize == 0 then Err(ZeroDivision)
    else
      var t := TotalQuantity(items);
      if groupSize > 0 then
        Money.DivFacts(t, groupSize);
        Ok(t - RubyMod(t, groupSize))
      else Ok(t - RubyMod(t, groupSize))
  }

  /** `all_matching_adjustments - line_item.adjustments`: this action's adjustments on the order's other line items. */
  function OtherMatching(lineItemAdjustments: seq<Adjustment>, actionId: nat, lineItemId: nat): seq<Adjustment>
  {
    if lineItemAdjustments == [] then []
    else
      var last := lineItemAdjustments[|lineItemAdjustments| - 1];
      var front := lineItemAdjustments[..|lineItemAdjustments| - 1];
      OtherMatching(front, actionId, lineItemId)
      + (if last.source == PromotionAction(actionId) && last.adjustable != LineItemRef(lineItemId) then [last] else [])
  }

  function AmountSum(adjustments: seq<Adjustment>): int
  {
    if adjustments == [] then 0
    else AmountSum(adjustments[..|adjustments| - 1]) + adjustments[|adjustments| - 1].amount
  }

  /**
   * `compute_amount(line_item)`.  `computed` is what the action's calculator computes for the
   * line item and `actionable` the order's line items the promotion can act on.  A group size
   * of zero raises ZeroDivisionError; a zero amount per unit, where the source divides by a
   * floating-point zero, is reported as an error too.
   */
  function ComputeAmount(li: LineItem, actionable: seq<LineItem>, lineItemAdjustments: seq<Adjustment>,
                         actionId: nat, groupSize: int, computed: int): (r: Result<int, Error>)
    ensures r.Err? <==> groupSize == 0 || computed == 0
    ensures r.Ok? ==> r.value >= -LineItemAmount(li)
    ensures r.Ok? ==> -r.value <= Abs(computed) * li.quantity
    ensures r.Ok? ==> -r.value <= Abs(computed) * TotalApplicableQuantity(actionable, groupSize).value
                                  + AmountSum(OtherMatching(lineItemAdjustments, actionId, li.id))
  {
    var perUnit := Abs(computed);
    var applicable := TotalApplicableQuantity(actionable, groupSize);
    if applicable.Err? then Err(applicable.error)
    else if perUnit == 0 then Err(ZeroDivision)
    else
      var other := AmountSum(OtherMatching(lineItemAdjustments, actionId, li.id));
      var amount := Min(perUnit * applicable.value + other, perUnit * li.quantity);
      Ok(-Min(LineItemAmount(li), amount))
  }

  /**
   * While the other line items' adjustments hold no more than the applicable quantity's worth,
   * the amount is a discount, never a surcharge.
   */
  lemma DiscountNeverPositive(li: LineItem, actionable: seq<LineItem>, lineItemAdjustments: seq<Adjustment>,
                              actionId: nat, groupSize: int, computed: int)
    requires groupSize > 0 && computed != 0 && li.price >= 0
    requires -AmountSum(OtherMatching(lineItemAdjustments, actionId, li.id))
             <= Abs(computed) * TotalApplicableQuantity(actionable, groupSize).value
    ensures ComputeAmount(li, actionable, lineItemAdjustments, actionId, groupSize, computed).value <= 0
  {
    assert LineItemAmount(li) >= 0 by {
      LineItemAmountNonNegative(li);
    }
  }

  lemma LineItemAmountNonNegative(li: LineItem)
    requires li.price >= 0
    ensures LineItemAmount(li) >= 0
  {
  }

  /**
   * When the action's adjustments on other line items hold more than the applicable quantity's
   * worth (an adjustment left on a line item the promotion no longer acts on), the amount is
   * positive: one $10 unit, a group of 2 at $5, and $10 already held elsewhere give +$10.
   */
  lemma StaleAdjustmentGivesSurcharge(li: LineItem, stale: Adjustment)
    requires li.id == 1 && li.price == 1000 && li.quantity == 1
    requires stale.adjustable == LineItemRef(2) && stale.amount == -1000 && stale.source == PromotionAction(5)
    ensures ComputeAmount(li, [li], [stale], 5, 2, 500) == Ok(1000)
  {
    assert AmountSum(OtherMatching([stale], 5, 1)) == -1000 by {
      assert [stale][..0] == [];
      assert OtherMatching([stale], 5, 1) == [stale];
    }
    assert TotalApplicableQuantity([li], 2) == Ok(0) by {
      assert [li][..0] == [];
      assert TotalQuantity([li]) == 1;
    }
    assert LineItemAmount(li) == 1000;
    ComputeAmountFrom(li, [li], [stale], 5, 2, 500, 0, -1000);
  }

  /** Adjustments of other actions, or on the line item itself, do not count as used. */
  lemma OnlyOthersCount(lineItemAdjustments: seq<Adjustment>, a: Adjustment, actionId: nat, lineItemId: nat)
    requires a.source != PromotionAction(actionId) || a.adjustable == LineItemRef(lineItemId)
    ensures AmountSum(OtherMatching(lineItemAdjustments + [a], actionId, lineItemId))
            == AmountSum(OtherMatching(lineItemAdjustments, actionId, lineItemId))
  {
    assert (lineItemAdjustments + [a])[..|lineItemAdjustments + [a]| - 1] == lineItemAdjustments;
    AmountSumAppend(OtherMatching(lineItemAdjustments, actionId, lineItemId), a);
  }

  // ---------------------------------------------------------------- computed item by item

  /** The adjustment the action creates on a line item. */
  function Discount(li: LineItem, amount: int, actionId: nat): Adjustment
  {
    Adjustment(LineItemRef(li.id), li.orderId, amount, "Promotion", true, false, PromotionAction(actionId), None)
  }

  /**
   * The action applied to `items` one after the other; each amount is computed with the
   * adjustments created before it.  Returns all of the order's line item adjustments afterwards.
   */
  function Run(items: seq<LineItem>, actionable: seq<LineItem>, adjustments: seq<Adjustment>,
               actionId: nat, groupSize: int, computed: int): seq<Adjustment>
    requires groupSize != 0 && computed != 0
    decreases |items|
  {
    if items == [] then adjustments
    else
      var amount := ComputeAmount(items[0], actionable, adjustments, actionId, groupSize, computed).value;
      Run(items[1..], actionable, adjustments + [Discount(items[0], amount, actionId)], actionId, groupSize, computed)
  }

  /** This action's adjustments. */
  function Matching(adjustments: seq<Adjustment>, actionId: nat): seq<Adjustment>
  {
    if adjustments == [] then []
    else
      var last := adjustments[|adjustments| - 1];
      Matching(adjustments[..|adjustments| - 1], actionId) + (if last.source == PromotionAction(actionId) then [last] else [])
  }

  /** No adjustment of the action is on one of `items` yet. */
  predicate NoneOn(adjustments: seq<Adjustment>, items: seq<LineItem>, actionId: nat)
  {
    forall a, li :: a in adjustments && li in items && a.source == PromotionAction(actionId) ==> a.adjustable != LineItemRef(li.id)
  }

  predicate DistinctIds(items: seq<LineItem>)
  {
    forall i, j :: 0 <= i < j < |items| ==> items[i].id != items[j].id
  }

  /** With no adjustment on the line item, every adjustment of the action counts as used. */
  lemma {:induction false} OtherIsAll(adjustments: seq<Adjustment>, actionId: nat, lineItemId: nat)
    requires forall i :: 0 <= i < |adjustments| && adjustments[i].source == PromotionAction(actionId)
                         ==> adjustments[i].adjustable != LineItemRef(lineItemId)
    ensures OtherMatching(adjustments, actionId, lineItemId) == Matching(adjustments, actionId)
    decreases |adjustments|
  {
    if adjustments != [] {
      var front := adjustments[..|adjustments| - 1];
      assert forall i :: 0 <= i < |front| ==> front[i] == adjustments[i];
      OtherIsAll(front, actionId, lineItemId);
    }
  }

  lemma AmountSumAppend(s: seq<Adjustment>, a: Adjustment)
    ensures AmountSum(s + [a]) == AmountSum(s) + a.amount
    ensures AmountSum(s + []) == AmountSum(s)
  {
    assert (s + [a])[..|s + [a]| - 1] == s;
    assert s + [] == s;
  }

  lemma MatchingAppend(adjustments: seq<Adjustment>, a: Adjustment, actionId: nat)
    requires a.source == PromotionAction(actionId)
    ensures AmountSum(Matching(adjustments + [a], actionId)) == AmountSum(Matching(adjustments, actionId)) + a.amount
  {
    assert (adjustments + [a])[..|adjustments + [a]| - 1] == adjustments;
    AmountSumAppend(Matching(adjustments, actionId), a);
  }

  /**
   * Computed item by item, the action never discounts more than the applicable quantity's
   * worth in all: once one item is done, what the action holds is at most
   * perUnit × applicable quantity.
   */
  lemma {:induction false} RunStaysWithinGroups(items: seq<LineItem>, actionable: seq<LineItem>, adjustments: seq<Adjustment>,
                                                actionId: nat, groupSize: int, computed: int)
    requires groupSize != 0 && computed != 0
    requires DistinctIds(items) && NoneOn(adjustments, items, actionId)
    requires items == [] ==> -AmountSum(Matching(adjustments, actionId))
                             <= Abs(computed) * TotalApplicableQuantity(actionable, groupSize).value
    ensures -AmountSum(Matching(Run(items, actionable, adjustments, actionId, groupSize, computed), actionId))
            <= Abs(computed) * TotalApplicableQuantity(actionable, groupSize).value
    decreases |items|
  {
    if items != [] {
      var li := items[0];
      var amount := ComputeAmount(li, actionable, adjustments, actionId, groupSize, computed).value;
      var next := adjustments + [Discount(li, amount, actionId)];
      assert li in items;
      forall i | 0 <= i < |adjustments| && adjustments[i].source == PromotionAction(actionId)
        ensures adjustments[i].adjustable != LineItemRef(li.id)
      {
        assert adjustments[i] in adjustments;
      }
      OtherIsAll(adjustments, actionId, li.id);
      MatchingAppend(adjustments, Discount(li, amount, actionId), actionId);
      assert NoneOn(next, items[1..], actionId) by {
        forall a, l | a in next && l in items[1..] && a.source == PromotionAction(actionId)
          ensures a.adjustable != LineItemRef(l.id)
        {
          var j :| 0 <= j < |items[1..]| && items[1..][j] == l;
          assert items[j + 1] == l;
          if a == Discount(li, amount, actionId) {
            assert items[0].id != items[j + 1].id;
          } else {
            assert a in adjustments && l in items;
          }
        }
      }
      assert DistinctIds(items[1..]) by {
        forall i, j | 0 <= i < j < |items[1..]| ensures items[1..][i].id != items[1..][j].id {
          assert items[1..][i] == items[i + 1] && items[1..][j] == items[j + 1];
        }
      }
      RunStaysWithinGroups(items[1..], actionable, next, actionId, groupSize, computed);
    }
  }

  // ---------------------------------------------------------------- the documented cases

  /** The amount from the applicable quantity and what the other line items hold. */
  lemma ComputeAmountFrom(li: LineItem, actionable: seq<LineItem>, lineItemAdjustments: seq<Adjustment>,
                          actionId: nat, groupSize: int, computed: int, applicable: int, other: int)
    requires groupSize != 0 && computed != 0
    requires TotalApplicableQuantity(actionable, groupSize) == Ok(applicable)
    requires AmountSum(OtherMatching(lineItemAdjustments, actionId, li.id)) == other
    ensures ComputeAmount(li, actionable, lineItemAdjustments, actionId, groupSize, computed)
            == Ok(-Min(LineItemAmount(li), Min(Abs(computed) * applicable + other, Abs(computed) * li.quantity)))
  {
  }

  /** A $10 line item of the given quantity. */
  predicate Shirt(li: LineItem, id: nat, quantity: nat)
  {
    li.id == id && li.price == 1000 && li.quantity == quantity
  }

  /** One line item alone, with no adjustment yet: the discount is its whole groups' worth, capped by its amount. */
  lemma SingleItem(li: LineItem, actionId: nat, groupSize: int, computed: int)
    requires groupSize > 0 && computed != 0
    ensures ComputeAmount(li, [li], [], actionId, groupSize, computed)
            == Ok(-Min(LineItemAmount(li), Abs(computed) * ((li.quantity / groupSize) * groupSize)))
  {
    assert [li][..0] == [];
    assert TotalQuantity([li]) == li.quantity;
  }

  /** Groups of 2 at $5 a unit, one line item: quantities 0 and 1 get nothing, 2 and 3 get −$10, 4 gets −$20. */
  lemma GroupsOfTwo(li: LineItem, q: nat)
    requires Shirt(li, 1, q) && q <= 4
    ensures ComputeAmount(li, [li], [], 5, 2, 500) == Ok(if q < 2 then 0 else if q < 4 then -1000 else -2000)
  {
    SingleItem(li, 5, 2, 500);
    assert LineItemAmount(li) == 1000 * q;
    if q < 2 {
      assert q / 2 == 0;
    } else if q < 4 {
      assert q / 2 == 1;
    } else {
      assert q / 2 == 2;
    }
  }

  /** Groups of 3 at $5 over 2 + 1 + 1 units, item by item: −$10, −$5, then nothing, −$15 in all. */
  lemma GroupOfThree(items: seq<LineItem>, a: Adjustment, b: Adjustment)
    requires |items| == 3 && Shirt(items[0], 1, 2) && Shirt(items[1], 2, 1) && Shirt(items[2], 3, 1)
    requires a == Discount(items[0], -1000, 5) && b == Discount(items[1], -500, 5)
    ensures ComputeAmount(items[0], items, [], 5, 3, 500) == Ok(-1000)
    ensures ComputeAmount(items[1], items, [a], 5, 3, 500) == Ok(-500)
    ensures ComputeAmount(items[2], items, [a, b], 5, 3, 500) == Ok(0)
  {
    FourShirts(items);
    HeldBefore(a, b);
    assert LineItemAmount(items[0]) == 2000 && LineItemAmount(items[1]) == 1000 && LineItemAmount(items[2]) == 1000;
    ComputeAmountFrom(items[0], items, [], 5, 3, 500, 3, 0);
    ComputeAmountFrom(items[1], items, [a], 5, 3, 500, 3, -1000);
    ComputeAmountFrom(items[2], items, [a, b], 5, 3, 500, 3, -1500);
  }

  lemma FourShirts(items: seq<LineItem>)
    requires |items| == 3 && Shirt(items[0], 1, 2) && Shirt(items[1], 2, 1) && Shirt(items[2], 3, 1)
    ensures TotalApplicableQuantity(items, 3) == Ok(3)
  {
    assert items[..2][..1][..0] == [];
    assert items[..2][..1][0] == items[0] && items[..2][1] == items[1];
    assert TotalQuantity(items[..2][..1]) == 2;
    assert TotalQuantity(items[..2]) == 3;
    assert TotalQuantity(items) == 4;
  }

  /** What the first two items' discounts hold, seen from the second and from the third. */
  lemma HeldBefore(a: Adjustment, b: Adjustment)
    requires a.adjustable == LineItemRef(1) && a.amount == -1000 && a.source == PromotionAction(5)
    requires b.adjustable == LineItemRef(2) && b.amount == -500 && b.source == PromotionAction(5)
    ensures AmountSum(OtherMatching([], 5, 1)) == 0
    ensures AmountSum(OtherMatching([a], 5, 2)) == -1000
    ensures AmountSum(OtherMatching([a, b], 5, 3)) == -1500
  {
    assert [a][..0] == [] && [a, b][..1] == [a];
    assert OtherMatching([a], 5, 2) == [a];
    assert OtherMatching([a], 5, 3) == [a];
    assert OtherMatching([a, b], 5, 3) == [a, b];
    assert AmountSum([a]) == -1000;
    assert AmountSum([a, b]) == -1500;
  }
}
