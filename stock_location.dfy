/**
 * StockLocation: the stock items a location holds, the movements that change their counts,
 * how much of a requested quantity a location can fill, and the rule that at most one
 * location is the default.
 *
 * StockItem and StockMovement are not part of this model; a stock movement is taken to add
 * its quantity to its item's count on hand when it is created, and a stock item created
 * without further attributes to start at zero and not backorderable.
 */
module StockLocations {
  import opened Wrappers
  import opened Records

  /** `stock_item(variant)`: the location's first item for the variant, in table order. */
  function StockItemOf(items: seq<StockItem>, locationId: nat, variantId: nat): (r: Option<StockItem>)
    ensures r.Some? ==> r.value.locationId == locationId && r.value.variantId == variantId
  {
    if items == [] then None
    else if items[0].locationId == locationId && items[0].variantId == variantId then Some(items[0])
    else StockItemOf(items[1..], locationId, variantId)
  }

  /** The item found is a row of the table, and nothing is found exactly when no row has the key. */
  lemma {:induction false} StockItemOfSpec(items: seq<StockItem>, locationId: nat, variantId: nat)
    ensures StockItemOf(items, locationId, variantId).Some? ==> StockItemOf(items, locationId, variantId).value in items
    ensures StockItemOf(items, locationId, variantId).None?
            <==> forall it :: it in items ==> !(it.locationId == locationId && it.variantId == variantId)
  {
    if items != [] {
      StockItemOfSpec(items[1..], locationId, variantId);
      assert forall it :: it in items <==> it == items[0] || it in items[1..] by {
        assert items == [items[0]] + items[1..];
      }
    }
  }

  /** `count_on_hand(variant)`: nil when the location has no item for the variant. */
  function CountOnHand(items: seq<StockItem>, locationId: nat, variantId: nat): (r: Option<int>)
    ensures r.None? <==> StockItemOf(items, locationId, variantId).None?
  {
    match StockItemOf(items, locationId, variantId)
    case None => None
    case Some(it) => Some(it.countOnHand)
  }

  /** The count on hand, reading a missing item as zero. */
  function CountOrZero(items: seq<StockItem>, locationId: nat, variantId: nat): int
  {
    match StockItemOf(items, locationId, variantId)
    case None => 0
    case Some(it) => it.countOnHand
  }

  /** An id no stock item has yet. */
  function FreshItemId(items: seq<StockItem>): (r: nat)
    ensures forall it :: it in items ==> it.id < r
  {
    if items == [] then 1
    else var rest := FreshItemId(items[1..]); if items[0].id < rest then rest else items[0].id + 1
  }

  /** `propagate_variant`: creates the variant's item with the location's backorderable default. */
  function PropagateVariant(db: Db, loc: StockLocation, variantId: nat): (r: (Db, StockItem))
    ensures r.0 == db.(stockItems := db.stockItems + [r.1])
    ensures r.1.locationId == loc.id && r.1.variantId == variantId && r.1.countOnHand == 0
    ensures r.1.backorderable == loc.backorderableDefault
    ensures forall it :: it in db.stockItems ==> it.id != r.1.id
  {
    var it := StockItem(FreshItemId(db.stockItems), loc.id, variantId, 0, loc.backorderableDefault);
    (db.(stockItems := db.stockItems + [it]), it)
  }

  /** `set_up_stock_item`: the existing item when there is one; otherwise a new one is propagated. */
  function SetUpStockItem(db: Db, loc: StockLocation, variantId: nat): (r: (Db, StockItem))
    ensures StockItemOf(db.stockItems, loc.id, variantId).Some? ==>
      r == (db, StockItemOf(db.stockItems, loc.id, variantId).value)
    ensures StockItemOf(db.stockItems, loc.id, variantId).None? ==>
      r.0 == db.(stockItems := db.stockItems + [r.1]) && r.1.backorderable == loc.backorderableDefault
    ensures r.1.locationId == loc.id && r.1.variantId == variantId && r.1 in r.0.stockItems
  {
    StockItemOfSpec(db.stockItems, loc.id, variantId);
    match StockItemOf(db.stockItems, loc.id, variantId)
    case Some(it) => (db, it)
    case None => PropagateVariant(db, loc, variantId)
  }

  /** The item `stock_item_or_create` creates when the location has none: the column defaults. */
  function NewStockItem(items: seq<StockItem>, locationId: nat, variantId: nat): (r: StockItem)
    ensures r.locationId == locationId && r.variantId == variantId && r.countOnHand == 0 && !r.backorderable
    ensures forall it :: it in items ==> it.id != r.id
  {
    StockItem(FreshItemId(items), locationId, variantId, 0, false)
  }

  /** `stock_item_or_create`: the existing item, or the one it creates. */
  function StockItemOrCreate(items: seq<StockItem>, locationId: nat, variantId: nat): (r: StockItem)
    ensures StockItemOf(items, locationId, variantId).Some? ==> StockItemOf(items, locationId, variantId) == Some(r)
    ensures StockItemOf(items, locationId, variantId).None? ==> r == NewStockItem(items, locationId, variantId)
  {
    match StockItemOf(items, locationId, variantId)
    case Some(it) => it
    case None => NewStockItem(items, locationId, variantId)
  }

  /**
   * The items table after `quantity` is added to the variant's item: the location's first
   * item for the variant has its count raised or, when there is none, the item that
   * `stock_item_or_create` creates is appended holding `quantity`.  The row is written by
   * primary key, which with unique ids is the first matching row.
   */
  function AddToCount(items: seq<StockItem>, locationId: nat, variantId: nat, quantity: int): (r: seq<StockItem>)
    ensures StockItemOf(r, locationId, variantId)
            == Some(StockItemOrCreate(items, locationId, variantId).(countOnHand := CountOrZero(items, locationId, variantId) + quantity))
    ensures CountOnHand(r, locationId, variantId) == Some(CountOrZero(items, locationId, variantId) + quantity)
    ensures UniqueItemIds(items) ==> UniqueItemIds(r)
  {
    var r := AddToItem(items, locationId, variantId, quantity, FreshItemId(items));
    AddToItemSameKey(items, locationId, variantId, quantity, FreshItemId(items));
    if UniqueItemIds(items) then
      AddToItemIds(items, locationId, variantId, quantity, FreshItemId(items));
      assert UniqueItemIds(r) by {
        forall i, j | 0 <= i < j < |r| ensures r[i].id != r[j].id {
          if j == |items| {
            assert items[i] in items;
          }
        }
      }
      r
    else r
  }

  /** AddToCount's walk down the table, with `newId` the id of an item it has to create. */
  function AddToItem(items: seq<StockItem>, locationId: nat, variantId: nat, quantity: int, newId: nat): seq<StockItem>
  {
    if items == [] then [StockItem(newId, locationId, variantId, quantity, false)]
    else if items[0].locationId == locationId && items[0].variantId == variantId then
      [items[0].(countOnHand := items[0].countOnHand + quantity)] + items[1..]
    else [items[0]] + AddToItem(items[1..], locationId, variantId, quantity, newId)
  }

  /** The item AddToItem leaves for the key it adds to. */
  function Added(items: seq<StockItem>, locationId: nat, variantId: nat, quantity: int, newId: nat): StockItem
  {
    match StockItemOf(items, locationId, variantId)
    case Some(it) => it.(countOnHand := it.countOnHand + quantity)
    case None => StockItem(newId, locationId, variantId, quantity, false)
  }

  lemma {:induction false} AddToItemSameKey(items: seq<StockItem>, locationId: nat, variantId: nat, quantity: int, newId: nat)
    ensures StockItemOf(AddToItem(items, locationId, variantId, quantity, newId), locationId, variantId)
         == Some(Added(items, locationId, variantId, quantity, newId))
  {
    if items == [] {
      StockItemOfCons(StockItem(newId, locationId, variantId, quantity, false), [], locationId, variantId);
    } else {
      if items[0].locationId == locationId && items[0].variantId == variantId {
        StockItemOfCons(items[0].(countOnHand := items[0].countOnHand + quantity), items[1..], locationId, variantId);
        assert StockItemOf(items, locationId, variantId) == Some(items[0]);
      } else {
        StockItemOfCons(items[0], AddToItem(items[1..], locationId, variantId, quantity, newId), locationId, variantId);
        AddToItemSameKey(items[1..], locationId, variantId, quantity, newId);
        assert StockItemOf(items, locationId, variantId) == StockItemOf(items[1..], locationId, variantId);
        assert Added(items, locationId, variantId, quantity, newId) == Added(items[1..], locationId, variantId, quantity, newId);
      }
    }
  }

  lemma {:induction false} AddToItemOtherKey(items: seq<StockItem>, locationId: nat, variantId: nat, quantity: int, newId: nat, l: nat, w: nat)
    requires !(l == locationId && w == variantId)
    ensures StockItemOf(AddToItem(items, locationId, variantId, quantity, newId), l, w) == StockItemOf(items, l, w)
  {
    if items == [] {
      StockItemOfCons(StockItem(newId, locationId, variantId, quantity, false), [], l, w);
    } else {
      if items[0].locationId == locationId && items[0].variantId == variantId {
        StockItemOfCons(items[0].(countOnHand := items[0].countOnHand + quantity), items[1..], l, w);
      } else {
        StockItemOfCons(items[0], AddToItem(items[1..], locationId, variantId, quantity, newId), l, w);
        AddToItemOtherKey(items[1..], locationId, variantId, quantity, newId, l, w);
      }
    }
  }

  /** The lookup on a table with `x` in front. */
  lemma StockItemOfCons(x: StockItem, rest: seq<StockItem>, l: nat, w: nat)
    ensures StockItemOf([x] + rest, l, w)
         == if x.locationId == l && x.variantId == w then Some(x) else StockItemOf(rest, l, w)
  {
    assert ([x] + rest)[1..] == rest;
  }

  /** AddToItem keeps every row's id in place and can only append a row with id `newId`. */
  lemma {:induction false} AddToItemIds(items: seq<StockItem>, locationId: nat, variantId: nat, quantity: int, newId: nat)
    ensures var r := AddToItem(items, locationId, variantId, quantity, newId);
      && (|r| == |items| || |r| == |items| + 1)
      && (forall i :: 0 <= i < |items| ==> r[i].id == items[i].id)
      && (|r| == |items| + 1 ==> r[|items|].id == newId)
  {
    if items != [] && !(items[0].locationId == locationId && items[0].variantId == variantId) {
      AddToItemIds(items[1..], locationId, variantId, quantity, newId);
      var r := AddToItem(items, locationId, variantId, quantity, newId);
      assert forall i :: 1 <= i < |r| ==> r[i] == AddToItem(items[1..], locationId, variantId, quantity, newId)[i - 1];
    }
  }

  /**
   * `move`: a movement of `quantity` of the variant at the location.  A movement that takes
   * stock away (quantity below one) needs an existing item; otherwise the item is found or
   * created, one movement is recorded against it and its count changes by `quantity`.
   */
  function Move(db: Db, loc: StockLocation, variantId: nat, quantity: int, originator: Originator): (r: Result<Db, Error>)
    ensures r.Err? <==> quantity < 1 && StockItemOf(db.stockItems, loc.id, variantId).None?
    ensures r.Err? ==> r.error == InvalidMovement
    ensures r.Ok? ==>
      r.value == db.(stockItems := AddToCount(db.stockItems, loc.id, variantId, quantity),
                     stockMovements := db.stockMovements
                       + [StockMovement(StockItemOrCreate(db.stockItems, loc.id, variantId).id, quantity, originator)])
  {
    if quantity < 1 && StockItemOf(db.stockItems, loc.id, variantId).None? then Err(InvalidMovement)
    else
      var it := StockItemOrCreate(db.stockItems, loc.id, variantId);
      Ok(db.(stockItems := AddToCount(db.stockItems, loc.id, variantId, quantity),
             stockMovements := db.stockMovements + [StockMovement(it.id, quantity, originator)]))
  }

  /** `restock`: a movement of `+quantity`. */
  function Restock(db: Db, loc: StockLocation, variantId: nat, quantity: int, originator: Originator): Result<Db, Error>
  {
    Move(db, loc, variantId, quantity, originator)
  }

  /** `unstock`: a movement of `-quantity`. */
  function Unstock(db: Db, loc: StockLocation, variantId: nat, quantity: int, originator: Originator): Result<Db, Error>
  {
    Move(db, loc, variantId, -quantity, originator)
  }

  /** `restock_backordered`: adds to the count on hand of the found or created item; no movement. */
  function RestockBackordered(db: Db, loc: StockLocation, variantId: nat, quantity: int): (r: Db)
    ensures r == db.(stockItems := AddToCount(db.stockItems, loc.id, variantId, quantity))
  {
    db.(stockItems := AddToCount(db.stockItems, loc.id, variantId, quantity))
  }

  /** Unique item ids: the primary key of the stock items table. */
  predicate UniqueItemIds(items: seq<StockItem>)
  {
    forall i, j :: 0 <= i < j < |items| ==> items[i].id != items[j].id
  }

  /**
   * What AddToCount does to every key: the pair (locationId, variantId) gains `quantity` and
   * has an item afterwards, and every other pair keeps its item and its count.
   */
  lemma AddToCountEffect(items: seq<StockItem>, locationId: nat, variantId: nat, quantity: int, l: nat, w: nat)
    ensures CountOrZero(AddToCount(items, locationId, variantId, quantity), l, w)
            == CountOrZero(items, l, w) + (if l == locationId && w == variantId then quantity else 0)
    ensures StockItemOf(AddToCount(items, locationId, variantId, quantity), l, w).Some?
            <==> StockItemOf(items, l, w).Some? || (l == locationId && w == variantId)
  {
    if l == locationId && w == variantId {
      AddToItemSameKey(items, locationId, variantId, quantity, FreshItemId(items));
    } else {
      AddToItemOtherKey(items, locationId, variantId, quantity, FreshItemId(items), l, w);
    }
  }

  /** Restocking and then unstocking the same quantity leaves the count as it was, with two movements. */
  lemma RestockUnstockCancel(db: Db, loc: StockLocation, variantId: nat, quantity: int, o: Originator)
    requires UniqueItemIds(db.stockItems)
    requires CountOnHand(db.stockItems, loc.id, variantId).Some?
    ensures Restock(db, loc, variantId, quantity, o).Ok?
    ensures Unstock(Restock(db, loc, variantId, quantity, o).value, loc, variantId, quantity, o).Ok?
    ensures var db' := Unstock(Restock(db, loc, variantId, quantity, o).value, loc, variantId, quantity, o).value;
      && CountOnHand(db'.stockItems, loc.id, variantId) == CountOnHand(db.stockItems, loc.id, variantId)
      && |db'.stockMovements| == |db.stockMovements| + 2
  {
    var db1 := Restock(db, loc, variantId, quantity, o).value;
    assert CountOnHand(db1.stockItems, loc.id, variantId).Some?;
  }

  /**
   * `fill_status(variant, quantity)`: how many of `quantity` units the location fills from
   * stock on hand and how many it takes as backorders.
   */
  function FillStatus(items: seq<StockItem>, locationId: nat, variantId: nat, quantity: int): (r: (int, int))
    ensures StockItemOf(items, locationId, variantId).None? ==> r == (0, 0)
    ensures StockItemOf(items, locationId, variantId).Some? ==>
      var it := StockItemOf(items, locationId, variantId).value;
      && (it.countOnHand >= quantity ==> r == (quantity, 0))
      && (it.countOnHand < quantity ==> 0 <= r.0 && (r.0 == it.countOnHand || r.0 == 0 > it.countOnHand))
      && (it.countOnHand < quantity && it.backorderable ==> r.0 + r.1 == quantity)
      && (!it.backorderable ==> r.1 == 0)
    ensures quantity >= 0 ==> 0 <= r.0 && 0 <= r.1 && r.0 + r.1 <= quantity
  {
    match StockItemOf(items, locationId, variantId)
    case None => (0, 0)
    case Some(it) =>
      if it.countOnHand >= quantity then (quantity, 0)
      else
        var onHand := if it.countOnHand < 0 then 0 else it.countOnHand;
        (onHand, if it.backorderable then quantity - onHand else 0)
  }

  /**
   * `ensure_one_default`, run after `saved` is saved: when it is the default, every other
   * location that is a default is made not to be one.
   */
  method EnsureOneDefault(locs: seq<StockLocation>, saved: StockLocation) returns (r: seq<StockLocation>)
    ensures |r| == |locs|
    ensures forall i :: 0 <= i < |r| ==> r[i] == locs[i].(isDefault := r[i].isDefault)
    ensures saved.isDefault ==> forall i :: 0 <= i < |r| ==> (r[i].isDefault <==> locs[i].isDefault && locs[i].id == saved.id)
    ensures !saved.isDefault ==> r == locs
  {
    if !saved.isDefault {
      return locs;
    }
    r := [];
    var i := 0;
    while i < |locs|
      invariant 0 <= i <= |locs| && |r| == i
      invariant forall k :: 0 <= k < i ==> r[k] == locs[k].(isDefault := locs[k].isDefault && locs[k].id == saved.id)
    {
      var loc := locs[i];
      if loc.isDefault && loc.id != saved.id {
        loc := loc.(isDefault := false);
      }
      r := r + [loc];
      i := i + 1;
    }
  }

  /** With unique ids, at most one location remains the default after a default is saved. */
  lemma AtMostOneDefault(locs: seq<StockLocation>, r: seq<StockLocation>, saved: StockLocation)
    requires forall i, j :: 0 <= i < j < |locs| ==> locs[i].id != locs[j].id
    requires saved.isDefault && |r| == |locs|
    requires forall i :: 0 <= i < |r| ==> r[i] == locs[i].(isDefault := r[i].isDefault)
    requires forall i :: 0 <= i < |r| ==> (r[i].isDefault <==> locs[i].isDefault && locs[i].id == saved.id)
    ensures forall i, j :: 0 <= i < |r| && 0 <= j < |r| && r[i].isDefault && r[j].isDefault ==> i == j
  {
    forall i, j | 0 <= i < |r| && 0 <= j < |r| && r[i].isDefault && r[j].isDefault ensures i == j {
      assert locs[i].id == saved.id == locs[j].id;
    }
  }
}
