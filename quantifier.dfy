/**
 * Stock::Quantifier: how much of a variant the stock items at a set of locations hold, and
 * whether they can supply a required quantity.  A variant that does not track inventory
 * counts as infinitely available.
 */
module Quantifier {
  import opened Money
  import opened Records

  /** A quantity on hand: a whole number, or `Float::INFINITY`. */
  datatype Amount = Finite(n: int) | Infinite

  predicate AtLeast(a: Amount, required: int)
  {
    a.Infinite? || a.n >= required
  }

  /** `stock_location_ids`: the order's stock locations when it has any, otherwise every active location. */
  function StockLocationIds(orderLocationIds: seq<nat>, locations: seq<StockLocation>): (r: seq<nat>)
    ensures orderLocationIds != [] ==> r == orderLocationIds
    ensures orderLocationIds == [] ==> forall id :: id in r <==> exists l :: l in locations && l.active && l.id == id
  {
    if orderLocationIds != [] then orderLocationIds else ActiveIds(locations)
  }

  function ActiveIds(locations: seq<StockLocation>): (r: seq<nat>)
    ensures forall id :: id in r <==> exists l :: l in locations && l.active && l.id == id
  {
    if locations == [] then []
    else
      assert forall l :: l in locations <==> l == locations[0] || l in locations[1..] by {
        assert locations == [locations[0]] + locations[1..];
      }
      (if locations[0].active then [locations[0].id] else []) + ActiveIds(locations[1..])
  }

  /** `@stock_items`: the items of the variant held at one of the locations `locationIds`. */
  function ConsideredItems(items: seq<StockItem>, variantId: nat, locationIds: seq<nat>): (r: seq<StockItem>)
    ensures forall it :: it in r <==> it in items && it.variantId == variantId && it.locationId in locationIds
  {
    if items == [] then []
    else
      assert forall it :: it in items <==> it == items[0] || it in items[1..] by {
        assert items == [items[0]] + items[1..];
      }
      (if items[0].variantId == variantId && items[0].locationId in locationIds then [items[0]] else [])
      + ConsideredItems(items[1..], variantId, locationIds)
  }

  function CountOf(it: StockItem): int
  {
    it.countOnHand
  }

  /** `total_on_hand`: the counts added up, or infinity for a variant that is not tracked. */
  function TotalOnHand(items: seq<StockItem>, tracksInventory: bool): (r: Amount)
    ensures r.Infinite? <==> !tracksInventory
    ensures tracksInventory ==> r == Finite(SumOf(items, CountOf))
  {
    if tracksInventory then Finite(SumOf(items, CountOf)) else Infinite
  }

  /** `backorderable?`: some considered item takes backorders. */
  function Backorderable(items: seq<StockItem>): (r: bool)
    ensures r <==> exists it :: it in items && it.backorderable
  {
    if items == [] then false
    else
      assert forall it :: it in items <==> it == items[0] || it in items[1..] by {
        assert items == [items[0]] + items[1..];
      }
      items[0].backorderable || Backorderable(items[1..])
  }

  /** `can_supply?(required)`. */
  function CanSupply(items: seq<StockItem>, tracksInventory: bool, required: int): (r: bool)
    ensures r <==> !tracksInventory || SumOf(items, CountOf) >= required
                   || exists it :: it in items && it.backorderable
  {
    AtLeast(TotalOnHand(items, tracksInventory), required) || Backorderable(items)
  }

  /** A variant that is not tracked can supply any quantity, at any location set. */
  lemma UntrackedSuppliesAnything(items: seq<StockItem>, required: int)
    ensures CanSupply(items, false, required)
  {
  }
}
