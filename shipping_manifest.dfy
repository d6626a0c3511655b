/**
 * ShippingManifest#manifest: the inventory units of a shipment grouped by variant, then by
 * line item, one ManifestItem per group, with the number of units of the group in each state.
 * Groups come in the order their first unit appears, as Ruby's `group_by` keeps them.
 */
module ShippingManifest {
  import opened Records

  // ---------------------------------------------------------------- tallies

  /** The distinct values of `s`, in order of first occurrence. */
  function Distinct<K(==,!new)>(s: seq<K>): (r: seq<K>)
    ensures forall k :: k in r <==> k in s
    ensures forall i, j :: 0 <= i < j < |r| ==> r[i] != r[j]
    decreases |s|
  {
    if s == [] then []
    else
      var d := Distinct(s[..|s| - 1]);
      assert forall k :: k in s <==> k in s[..|s| - 1] || k == s[|s| - 1] by {
        assert s == s[..|s| - 1] + [s[|s| - 1]];
      }
      if s[|s| - 1] in d then d else d + [s[|s| - 1]]
  }

  /** How many times `k` occurs in `s`. */
  function Occurrences<K(==,!new)>(s: seq<K>, k: K): nat
    decreases |s|
  {
    if s == [] then 0
    else Occurrences(s[..|s| - 1], k) + (if s[|s| - 1] == k then 1 else 0)
  }

  /** The occurrences in `s` of each key of `keys`, added up. */
  function TallyOf<K(==,!new)>(keys: seq<K>, s: seq<K>): nat
  {
    if keys == [] then 0 else Occurrences(s, keys[0]) + TallyOf(keys[1..], s)
  }

  lemma {:induction false} OccurrencesAbsent<K(!new)>(s: seq<K>, k: K)
    requires k !in s
    ensures Occurrences(s, k) == 0
    decreases |s|
  {
    if s != [] {
      assert s[..|s| - 1] + [s[|s| - 1]] == s;
      OccurrencesAbsent(s[..|s| - 1], k);
    }
  }

  lemma {:induction false} TallyOfConcat<K(!new)>(a: seq<K>, b: seq<K>, s: seq<K>)
    ensures TallyOf(a + b, s) == TallyOf(a, s) + TallyOf(b, s)
  {
    if a == [] {
      assert a + b == b;
    } else {
      assert (a + b)[1..] == a[1..] + b;
      TallyOfConcat(a[1..], b, s);
    }
  }

  /** Adding one value to `s` adds one to the tally of distinct keys that contain it. */
  lemma {:induction false} TallyOfSnoc<K(!new)>(keys: seq<K>, s: seq<K>, x: K)
    requires forall i, j :: 0 <= i < j < |keys| ==> keys[i] != keys[j]
    ensures TallyOf(keys, s + [x]) == TallyOf(keys, s) + (if x in keys then 1 else 0)
  {
    if keys != [] {
      assert (s + [x])[..|s + [x]| - 1] == s;
      assert forall i, j :: 0 <= i < j < |keys[1..]| ==> keys[1..][i] != keys[1..][j] by {
        forall i, j | 0 <= i < j < |keys[1..]| ensures keys[1..][i] != keys[1..][j] {
          assert keys[1..][i] == keys[i + 1] && keys[1..][j] == keys[j + 1];
        }
      }
      TallyOfSnoc(keys[1..], s, x);
      assert x in keys <==> x == keys[0] || x in keys[1..] by {
        assert keys == [keys[0]] + keys[1..];
      }
      if x == keys[0] {
        forall j | 0 <= j < |keys[1..]| ensures keys[1..][j] != x {
          assert keys[1..][j] == keys[j + 1];
        }
      }
    }
  }

  /** Counting each distinct value of `s` once accounts for every element of `s`. */
  lemma {:induction false} TallyOfDistinct<K(!new)>(s: seq<K>)
    ensures TallyOf(Distinct(s), s) == |s|
    decreases |s|
  {
    if s != [] {
      var p, x := s[..|s| - 1], s[|s| - 1];
      assert s == p + [x];
      var d := Distinct(p);
      TallyOfDistinct(p);
      TallyOfSnoc(d, p, x);
      if x !in d {
        TallyOfConcat(d, [x], s);
        OccurrencesAbsent(p, x);
        assert TallyOf([x], s) == Occurrences(s, x);
      }
    }
  }

  // ---------------------------------------------------------------- projections of the units

  function VariantIds(us: seq<InventoryUnit>): (r: seq<nat>)
    ensures |r| == |us|
    ensures forall i :: 0 <= i < |us| ==> r[i] == us[i].variantId
  {
    if us == [] then [] else VariantIds(us[..|us| - 1]) + [us[|us| - 1].variantId]
  }

  function LineItemIds(us: seq<InventoryUnit>): (r: seq<nat>)
    ensures |r| == |us|
    ensures forall i :: 0 <= i < |us| ==> r[i] == us[i].lineItemId
  {
    if us == [] then [] else LineItemIds(us[..|us| - 1]) + [us[|us| - 1].lineItemId]
  }

  function StatesOf(us: seq<InventoryUnit>): (r: seq<UnitState>)
    ensures |r| == |us|
    ensures forall i :: 0 <= i < |us| ==> r[i] == us[i].state
  {
    if us == [] then [] else StatesOf(us[..|us| - 1]) + [us[|us| - 1].state]
  }

  /** The units of variant `v`, in their order. */
  function OfVariant(us: seq<InventoryUnit>, v: nat): (r: seq<InventoryUnit>)
    ensures |r| == Occurrences(VariantIds(us), v)
    ensures forall u :: u in r <==> u in us && u.variantId == v
  {
    if us == [] then []
    else
      var p := us[..|us| - 1];
      assert us == p + [us[|us| - 1]];
      assert VariantIds(us)[..|us| - 1] == VariantIds(p);
      OfVariant(p, v) + (if us[|us| - 1].variantId == v then [us[|us| - 1]] else [])
  }

  /** The units of line item `l`, in their order. */
  function OfLineItem(us: seq<InventoryUnit>, l: nat): (r: seq<InventoryUnit>)
    ensures |r| == Occurrences(LineItemIds(us), l)
    ensures forall u :: u in r <==> u in us && u.lineItemId == l
  {
    if us == [] then []
    else
      var p := us[..|us| - 1];
      assert us == p + [us[|us| - 1]];
      assert LineItemIds(us)[..|us| - 1] == LineItemIds(p);
      OfLineItem(p, l) + (if us[|us| - 1].lineItemId == l then [us[|us| - 1]] else [])
  }

  // ---------------------------------------------------------------- the manifest

  /** A ManifestItem: `states` holds each state present in the group with its number of units. */
  datatype ManifestItem = ManifestItem(
    lineItemId: nat, variantId: nat, quantity: nat, states: seq<(UnitState, nat)>)

  /** The units of variant `v` and line item `l`. */
  function Group(us: seq<InventoryUnit>, v: nat, l: nat): seq<InventoryUnit>
  {
    OfLineItem(OfVariant(us, v), l)
  }

  /** `states`: one entry per distinct state of the group, with its count. */
  function StateTally(g: seq<InventoryUnit>, sts: seq<UnitState>): seq<(UnitState, nat)>
  {
    if sts == [] then [] else [(sts[0], Occurrences(StatesOf(g), sts[0]))] + StateTally(g, sts[1..])
  }

  /** `item.states[state].to_i`: the count recorded for `st`, zero when the state is absent. */
  function CountIn(states: seq<(UnitState, nat)>, st: UnitState): nat
  {
    if states == [] then 0
    else if states[0].0 == st then states[0].1
    else CountIn(states[1..], st)
  }

  function ItemFor(us: seq<InventoryUnit>, v: nat, l: nat): ManifestItem
  {
    var g := Group(us, v, l);
    ManifestItem(l, v, |g|, StateTally(g, Distinct(StatesOf(g))))
  }

  /** The items of variant `v`, one per line item of `ls`. */
  function ItemsOfVariant(us: seq<InventoryUnit>, v: nat, ls: seq<nat>): (r: seq<ManifestItem>)
    ensures |r| == |ls|
    ensures forall i :: 0 <= i < |r| ==> r[i] == ItemFor(us, v, ls[i])
  {
    if ls == [] then [] else [ItemFor(us, v, ls[0])] + ItemsOfVariant(us, v, ls[1..])
  }

  function ItemsOf(us: seq<InventoryUnit>, vs: seq<nat>): seq<ManifestItem>
  {
    if vs == [] then []
    else ItemsOfVariant(us, vs[0], Distinct(LineItemIds(OfVariant(us, vs[0])))) + ItemsOf(us, vs[1..])
  }

  /** `manifest`: the flat list of the items of every variant. */
  function Manifest(us: seq<InventoryUnit>): seq<ManifestItem>
  {
    ItemsOf(us, Distinct(VariantIds(us)))
  }

  function QuantitySum(items: seq<ManifestItem>): nat
  {
    if items == [] then 0 else items[0].quantity + QuantitySum(items[1..])
  }

  function StateCountSum(states: seq<(UnitState, nat)>): nat
  {
    if states == [] then 0 else states[0].1 + StateCountSum(states[1..])
  }

  lemma {:induction false} QuantitySumConcat(a: seq<ManifestItem>, b: seq<ManifestItem>)
    ensures QuantitySum(a + b) == QuantitySum(a) + QuantitySum(b)
  {
    if a == [] {
      assert a + b == b;
    } else {
      assert (a + b)[1..] == a[1..] + b;
      QuantitySumConcat(a[1..], b);
    }
  }

  lemma {:induction false} StateTallySum(g: seq<InventoryUnit>, sts: seq<UnitState>)
    ensures StateCountSum(StateTally(g, sts)) == TallyOf(sts, StatesOf(g))
  {
    if sts != [] {
      StateTallySum(g, sts[1..]);
    }
  }

  /** The state counts of an item add up to its quantity. */
  lemma StatesSumToQuantity(us: seq<InventoryUnit>, v: nat, l: nat)
    ensures StateCountSum(ItemFor(us, v, l).states) == ItemFor(us, v, l).quantity
  {
    var g := Group(us, v, l);
    StateTallySum(g, Distinct(StatesOf(g)));
    TallyOfDistinct(StatesOf(g));
  }

  lemma {:induction false} CountInTally(g: seq<InventoryUnit>, sts: seq<UnitState>, st: UnitState)
    requires forall i, j :: 0 <= i < j < |sts| ==> sts[i] != sts[j]
    ensures CountIn(StateTally(g, sts), st) == if st in sts then Occurrences(StatesOf(g), st) else 0
  {
    if sts != [] {
      assert st in sts <==> st == sts[0] || st in sts[1..] by {
        assert sts == [sts[0]] + sts[1..];
      }
      assert forall i, j :: 0 <= i < j < |sts[1..]| ==> sts[1..][i] != sts[1..][j] by {
        forall i, j | 0 <= i < j < |sts[1..]| ensures sts[1..][i] != sts[1..][j] {
          assert sts[1..][i] == sts[i + 1] && sts[1..][j] == sts[j + 1];
        }
      }
      CountInTally(g, sts[1..], st);
    }
  }

  /** `states[st]` is the number of the group's units in state `st`, zero when there are none. */
  lemma StateCountOfItem(us: seq<InventoryUnit>, v: nat, l: nat, st: UnitState)
    ensures CountIn(ItemFor(us, v, l).states, st) == Occurrences(StatesOf(Group(us, v, l)), st)
  {
    var g := Group(us, v, l);
    CountInTally(g, Distinct(StatesOf(g)), st);
    if st !in StatesOf(g) {
      OccurrencesAbsent(StatesOf(g), st);
    }
  }

  lemma {:induction false} ItemsOfVariantQuantities(us: seq<InventoryUnit>, v: nat, ls: seq<nat>)
    ensures QuantitySum(ItemsOfVariant(us, v, ls)) == TallyOf(ls, LineItemIds(OfVariant(us, v)))
  {
    if ls != [] {
      assert ItemsOfVariant(us, v, ls)[1..] == ItemsOfVariant(us, v, ls[1..]);
      ItemsOfVariantQuantities(us, v, ls[1..]);
    }
  }

  lemma {:induction false} ItemsOfQuantities(us: seq<InventoryUnit>, vs: seq<nat>)
    ensures QuantitySum(ItemsOf(us, vs)) == TallyOf(vs, VariantIds(us))
  {
    if vs != [] {
      var ls := Distinct(LineItemIds(OfVariant(us, vs[0])));
      QuantitySumConcat(ItemsOfVariant(us, vs[0], ls), ItemsOf(us, vs[1..]));
      ItemsOfVariantQuantities(us, vs[0], ls);
      TallyOfDistinct(LineItemIds(OfVariant(us, vs[0])));
      ItemsOfQuantities(us, vs[1..]);
    }
  }

  /** Every unit is counted in exactly one item: the quantities add up to the number of units. */
  lemma ManifestCoversUnits(us: seq<InventoryUnit>)
    ensures QuantitySum(Manifest(us)) == |us|
  {
    ItemsOfQuantities(us, Distinct(VariantIds(us)));
    TallyOfDistinct(VariantIds(us));
  }

  lemma ItemsOfVariantMembers(us: seq<InventoryUnit>, v: nat, ls: seq<nat>, it: ManifestItem)
    ensures it in ItemsOfVariant(us, v, ls) <==>
      it.variantId == v && it.lineItemId in ls && it == ItemFor(us, v, it.lineItemId)
  {
    var r := ItemsOfVariant(us, v, ls);
    if it in r {
      var i :| 0 <= i < |r| && r[i] == it;
      assert it == ItemFor(us, v, ls[i]);
    }
    if it.variantId == v && it.lineItemId in ls && it == ItemFor(us, v, it.lineItemId) {
      var i :| 0 <= i < |ls| && ls[i] == it.lineItemId;
      assert r[i] == it;
    }
  }

  lemma {:induction false} ItemsOfMembers(us: seq<InventoryUnit>, vs: seq<nat>, it: ManifestItem)
    ensures it in ItemsOf(us, vs) <==>
      it.variantId in vs && it.lineItemId in LineItemIds(OfVariant(us, it.variantId))
      && it == ItemFor(us, it.variantId, it.lineItemId)
  {
    if vs != [] {
      var ls := Distinct(LineItemIds(OfVariant(us, vs[0])));
      ItemsOfMembers(us, vs[1..], it);
      ItemsOfVariantMembers(us, vs[0], ls, it);
      assert it in ItemsOf(us, vs) <==> it in ItemsOfVariant(us, vs[0], ls) || it in ItemsOf(us, vs[1..]);
      assert it.variantId in vs <==> it.variantId == vs[0] || it.variantId in vs[1..] by {
        assert vs == [vs[0]] + vs[1..];
      }
    }
  }

  /**
   * There is an item for a (variant, line item) pair exactly when some unit has that pair, and
   * it is the item of that pair's group.
   */
  lemma ManifestItems(us: seq<InventoryUnit>, it: ManifestItem)
    ensures it in Manifest(us) <==>
      (exists u :: u in us && u.variantId == it.variantId && u.lineItemId == it.lineItemId)
      && it == ItemFor(us, it.variantId, it.lineItemId)
  {
    ItemsOfMembers(us, Distinct(VariantIds(us)), it);
    var byVariant := OfVariant(us, it.variantId);
    if it.lineItemId in LineItemIds(byVariant) {
      var i :| 0 <= i < |byVariant| && LineItemIds(byVariant)[i] == it.lineItemId;
      assert byVariant[i] in byVariant;
    }
    if exists u :: u in us && u.variantId == it.variantId && u.lineItemId == it.lineItemId {
      var u :| u in us && u.variantId == it.variantId && u.lineItemId == it.lineItemId;
      var i :| 0 <= i < |us| && us[i] == u;
      assert VariantIds(us)[i] == it.variantId;
      assert u in byVariant;
      var k :| 0 <= k < |byVariant| && byVariant[k] == u;
      assert LineItemIds(byVariant)[k] == it.lineItemId;
    }
  }

  /** Each item stands for a group of at least one unit. */
  lemma ManifestItemsNonEmpty(us: seq<InventoryUnit>, it: ManifestItem)
    requires it in Manifest(us)
    ensures it.quantity > 0
  {
    ManifestItems(us, it);
    var u :| u in us && u.variantId == it.variantId && u.lineItemId == it.lineItemId;
    assert u in OfVariant(us, it.variantId);
    assert u in Group(us, it.variantId, it.lineItemId);
  }

  /** In a sequence holding only `a` and `b`, their occurrences account for every position. */
  lemma {:induction false} TwoValueOccurrences(sts: seq<UnitState>, a: UnitState, b: UnitState)
    requires a != b
    requires forall i :: 0 <= i < |sts| ==> sts[i] == a || sts[i] == b
    ensures Occurrences(sts, a) + Occurrences(sts, b) == |sts|
    decreases |sts|
  {
    if sts != [] {
      TwoValueOccurrences(sts[..|sts| - 1], a, b);
    }
  }

  /**
   * When every unit is on hand or backordered, each item's on-hand and backordered counts
   * together make up its whole quantity, which is at least one.
   */
  lemma PreShipmentItem(us: seq<InventoryUnit>, it: ManifestItem)
    requires it in Manifest(us)
    requires forall u :: u in us ==> u.state == UnitState.OnHand || u.state == UnitState.Backordered
    ensures CountIn(it.states, UnitState.OnHand) + CountIn(it.states, UnitState.Backordered) == it.quantity
    ensures it.quantity > 0
  {
    ManifestItems(us, it);
    ManifestItemsNonEmpty(us, it);
    var g := Group(us, it.variantId, it.lineItemId);
    StateCountOfItem(us, it.variantId, it.lineItemId, UnitState.OnHand);
    StateCountOfItem(us, it.variantId, it.lineItemId, UnitState.Backordered);
    forall i | 0 <= i < |StatesOf(g)|
      ensures StatesOf(g)[i] == UnitState.OnHand || StatesOf(g)[i] == UnitState.Backordered
    {
      assert g[i] in g;
      assert g[i] in OfVariant(us, it.variantId);
    }
    TwoValueOccurrences(StatesOf(g), UnitState.OnHand, UnitState.Backordered);
  }
}
