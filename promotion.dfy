/**
 * Promotion: when a promotion is active, whether an order may still be activated against it,
 * which of its rules a promotable satisfies under the `all` or `any` match policy, how many
 * times it has been used, and the codes it builds.  What a rule or an action does with a
 * promotable is not part of this model: each rule comes with its verdicts for the promotable
 * at hand, and an activation with what each action's `perform` returned.
 */
module Promotions {
  import opened Wrappers
  import opened Records

  /** A rule's answers for one promotable: whether it applies to it (`rules.for`) and whether it passes (`eligible?`). */
  datatype RuleVerdict = RuleVerdict(ruleId: nat, applies: bool, passes: bool)

  datatype Promotion = Promotion(
    id: nat, startsAt: Option<int>, expiresAt: Option<int>, usageLimit: Option<int>,
    matchPolicy: string, rules: seq<RuleVerdict>, actionIds: seq<nat>)

  /** What a promotion is checked against: a line item, an order with its line items, or a shipment. */
  datatype Promotable =
    | ItemPromotable(item: LineItem)
    | OrderPromotable(order: Order, lineItems: seq<LineItem>)
    | ShipmentPromotable(shipment: Shipment)

  /** An OrderPromotion row: the order a promotion was applied to, and the code it came with. */
  datatype OrderPromotion = OrderPromotion(orderId: nat, promotionCodeId: Option<nat>)

  /** `UNACTIVATABLE_ORDER_STATES`. */
  const UnactivatableOrderStates: seq<OrderState> := [OrderState.Complete, OrderState.AwaitingReturn, OrderState.Returned]

  /** The owner of `promotable.adjustments`. */
  function OwnerOf(p: Promotable): Adjustable
  {
    match p
    case ItemPromotable(item) => LineItemRef(item.id)
    case OrderPromotable(order, _) => OrderRef(order.id)
    case ShipmentPromotable(shipment) => ShipmentRef(shipment.id)
  }

  // ---------------------------------------------------------------- the activation window

  /** `active?`: started strictly before `now` (or no start) and expiring strictly after it (or never). */
  predicate Active(p: Promotion, now: int)
  {
    (p.startsAt.None? || p.startsAt.value < now) && (p.expiresAt.None? || p.expiresAt.value > now)
  }

  /** `expired?`. */
  predicate Expired(p: Promotion, now: int)
  {
    !Active(p, now)
  }

  /** A promotion with both ends set is active exactly inside the open interval between them. */
  lemma ActiveInsideWindow(p: Promotion, now: int)
    requires p.startsAt.Some? && p.expiresAt.Some?
    ensures Active(p, now) <==> p.startsAt.value < now < p.expiresAt.value
  {
  }

  /** Both comparisons are strict: at the very instant it starts or expires, a promotion is expired. */
  lemma ExpiredAtItsEnds(p: Promotion, now: int)
    requires p.startsAt == Some(now) || p.expiresAt == Some(now)
    ensures Expired(p, now)
  {
  }

  /** `order_activatable?`: there is an order, and it is not complete, awaiting return or returned. */
  predicate OrderActivatable(order: Option<Order>)
  {
    order.Some? && order.value.state !in UnactivatableOrderStates
  }

  lemma ActivatableStates(order: Order)
    ensures OrderActivatable(Some(order)) <==>
            order.state != OrderState.Complete && order.state != OrderState.AwaitingReturn
            && order.state != OrderState.Returned
  {
  }

  // ---------------------------------------------------------------- rules

  predicate MatchAll(p: Promotion)
  {
    p.matchPolicy == "all"
  }

  /** `rules.for(promotable)`. */
  function Applying(rules: seq<RuleVerdict>): (r: seq<RuleVerdict>)
    ensures forall x :: x in r <==> x in rules && x.applies
  {
    if rules == [] then []
    else
      assert forall x :: x in rules <==> x == rules[0] || x in rules[1..] by {
        assert rules == [rules[0]] + rules[1..];
      }
      (if rules[0].applies then [rules[0]] else []) + Applying(rules[1..])
  }

  /** `select(&eligible)`. */
  function Passing(rules: seq<RuleVerdict>): (r: seq<RuleVerdict>)
    ensures forall x :: x in r <==> x in rules && x.passes
  {
    if rules == [] then []
    else
      assert forall x :: x in rules <==> x == rules[0] || x in rules[1..] by {
        assert rules == [rules[0]] + rules[1..];
      }
      (if rules[0].passes then [rules[0]] else []) + Passing(rules[1..])
  }

  /**
   * `eligible_rules`: `nil` when the rules make the promotable ineligible; otherwise the
   * applying rules under `all`, the applying rules that pass under `any`.  With no rules, or
   * none that applies, the promotable is eligible with no rules to report.
   */
  function EligibleRules(p: Promotion): (r: Option<seq<RuleVerdict>>)
    ensures r.None? <==> (exists x :: x in p.rules && x.applies)
                         && if MatchAll(p) then exists x :: x in p.rules && x.applies && !x.passes
                            else forall x :: x in p.rules && x.applies ==> !x.passes
    ensures r.Some? && MatchAll(p) ==> forall x :: x in r.value <==> x in p.rules && x.applies
    ensures r.Some? ==> forall x :: x in r.value ==> x in p.rules && x.applies && x.passes
    ensures r.Some? && !MatchAll(p) ==> forall x :: x in r.value <==> x in p.rules && x.applies && x.passes
  {
    if p.rules == [] then Some([])
    else
      var specific := Applying(p.rules);
      if specific == [] then
        assert forall x :: x in p.rules && x.applies ==> x in specific;
        Some([])
      else if MatchAll(p) then
        if forall x :: x in specific ==> x.passes then Some(specific) else None
      else if exists x :: x in specific && x.passes then Some(Passing(specific))
      else
        assert specific[0] in specific;
        None
  }

  /** Under `any`, the promotable's eligible rules are the ones that pass, in the promotion's order. */
  lemma AnyPolicyKeepsPassing(p: Promotion)
    requires !MatchAll(p) && exists x :: x in p.rules && x.applies && x.passes
    ensures EligibleRules(p) == Some(Passing(Applying(p.rules)))
  {
    var x :| x in p.rules && x.applies && x.passes;
    assert x in Applying(p.rules);
  }

  // ---------------------------------------------------------------- blacklisting and usage

  /** `blacklisted?`: a line item of a product that is not promotionable, or an order holding one. */
  predicate Blacklisted(promotable: Promotable)
  {
    match promotable
    case ItemPromotable(item) => !item.promotionable
    case OrderPromotable(_, lineItems) => |lineItems| > 0 && exists li :: li in lineItems && !li.promotionable
    case ShipmentPromotable(_) => false
  }

  predicate IsActionAdjustment(a: Adjustment, actionIds: seq<nat>)
  {
    a.source.PromotionAction? && a.source.actionId in actionIds
  }

  /** `credits`: the eligible adjustments any of the actions created, on any order. */
  function Credits(adjustments: seq<Adjustment>, actionIds: seq<nat>): (r: seq<Adjustment>)
    ensures forall a :: a in r <==> a in adjustments && a.eligible && IsActionAdjustment(a, actionIds)
    ensures |r| <= |adjustments|
  {
    if adjustments == [] then []
    else
      var last := adjustments[|adjustments| - 1];
      assert forall a :: a in adjustments <==> a in adjustments[..|adjustments| - 1] || a == last by {
        assert adjustments == adjustments[..|adjustments| - 1] + [last];
      }
      Credits(adjustments[..|adjustments| - 1], actionIds)
      + (if last.eligible && IsActionAdjustment(last, actionIds) then [last] else [])
  }

  /** `promotable.adjustments.promotion.where(source_id: actions)`: eligible or not. */
  function OwnActionAdjustments(adjustments: seq<Adjustment>, owner: Adjustable, actionIds: seq<nat>): (r: seq<Adjustment>)
    ensures forall a :: a in r <==> a in adjustments && a.adjustable == owner && IsActionAdjustment(a, actionIds)
    ensures |r| <= |adjustments|
  {
    if adjustments == [] then []
    else
      var last := adjustments[|adjustments| - 1];
      assert forall a :: a in adjustments <==> a in adjustments[..|adjustments| - 1] || a == last by {
        assert adjustments == adjustments[..|adjustments| - 1] + [last];
      }
      OwnActionAdjustments(adjustments[..|adjustments| - 1], owner, actionIds)
      + (if last.adjustable == owner && IsActionAdjustment(last, actionIds) then [last] else [])
  }

  /** `adjusted_credits_count`: the promotion's uses, not counting the promotable's own. */
  function AdjustedCreditsCount(p: Promotion, adjustments: seq<Adjustment>, promotable: Promotable): int
  {
    |Credits(adjustments, p.actionIds)| - |OwnActionAdjustments(adjustments, OwnerOf(promotable), p.actionIds)|
  }

  /** `usage_limit_exceeded?`. */
  predicate UsageLimitExceeded(p: Promotion, adjustments: seq<Adjustment>, promotable: Promotable)
  {
    p.usageLimit.Some? && p.usageLimit.value > 0 && AdjustedCreditsCount(p, adjustments, promotable) >= p.usageLimit.value
  }

  lemma CountsAppend(adjustments: seq<Adjustment>, a: Adjustment, owner: Adjustable, actionIds: seq<nat>)
    ensures |Credits(adjustments + [a], actionIds)|
            == |Credits(adjustments, actionIds)| + (if a.eligible && IsActionAdjustment(a, actionIds) then 1 else 0)
    ensures |OwnActionAdjustments(adjustments + [a], owner, actionIds)|
            == |OwnActionAdjustments(adjustments, owner, actionIds)|
               + (if a.adjustable == owner && IsActionAdjustment(a, actionIds) then 1 else 0)
  {
    assert (adjustments + [a])[..|adjustments + [a]| - 1] == adjustments;
  }

  /** A use of the promotion by the promotable itself does not count against its usage limit. */
  lemma OwnUseNotCounted(p: Promotion, adjustments: seq<Adjustment>, promotable: Promotable, a: Adjustment)
    requires a.eligible && IsActionAdjustment(a, p.actionIds) && a.adjustable == OwnerOf(promotable)
    ensures AdjustedCreditsCount(p, adjustments + [a], promotable) == AdjustedCreditsCount(p, adjustments, promotable)
    ensures UsageLimitExceeded(p, adjustments + [a], promotable) <==> UsageLimitExceeded(p, adjustments, promotable)
  {
    CountsAppend(adjustments, a, OwnerOf(promotable), p.actionIds);
  }

  /** A use by anything else counts once more. */
  lemma OtherUseCounted(p: Promotion, adjustments: seq<Adjustment>, promotable: Promotable, a: Adjustment)
    requires a.eligible && IsActionAdjustment(a, p.actionIds) && a.adjustable != OwnerOf(promotable)
    ensures AdjustedCreditsCount(p, adjustments + [a], promotable) == AdjustedCreditsCount(p, adjustments, promotable) + 1
  {
    CountsAppend(adjustments, a, OwnerOf(promotable), p.actionIds);
  }

  /** A promotion with no usage limit, or a limit of zero, is never used up. */
  lemma NoLimitNeverExceeded(p: Promotion, adjustments: seq<Adjustment>, promotable: Promotable)
    requires p.usageLimit.None? || p.usageLimit == Some(0)
    ensures !UsageLimitExceeded(p, adjustments, promotable)
  {
  }

  /**
   * `eligible?`: not expired, not used up, not blacklisted, and the rules do not rule the
   * promotable out: under `all` every applying rule passes, under `any` one does if any applies.
   */
  function Eligible(p: Promotion, now: int, adjustments: seq<Adjustment>, promotable: Promotable): (r: bool)
    ensures r <==> && Active(p, now) && !UsageLimitExceeded(p, adjustments, promotable) && !Blacklisted(promotable)
                   && (MatchAll(p) ==> forall x :: x in p.rules && x.applies ==> x.passes)
                   && (!MatchAll(p) && (exists x :: x in p.rules && x.applies) ==>
                         exists x :: x in p.rules && x.applies && x.passes)
  {
    if Expired(p, now) || UsageLimitExceeded(p, adjustments, promotable) || Blacklisted(promotable) then false
    else EligibleRules(p).Some?
  }

  // ---------------------------------------------------------------- activation

  /** `results.include?(true)`. */
  function IncludesTrue(results: seq<Option<bool>>): (r: bool)
    ensures r <==> exists i :: 0 <= i < |results| && results[i] == Some(true)
  {
    if results == [] then false
    else if results[0] == Some(true) then true
    else
      var r := IncludesTrue(results[1..]);
      assert r <==> exists i :: 1 <= i < |results| && results[i] == Some(true) by {
        assert forall i :: 1 <= i < |results| ==> results[1..][i - 1] == results[i];
      }
      r
  }

  /** What `activate` returns: `nil` for an order it does not activate, otherwise whether an action was taken. */
  function ActivateResult(order: Option<Order>, results: seq<Option<bool>>): (r: Option<bool>)
    ensures r.None? <==> !OrderActivatable(order)
    ensures r == Some(true) <==> OrderActivatable(order) && exists i :: 0 <= i < |results| && results[i] == Some(true)
  {
    if !OrderActivatable(order) then None else Some(IncludesTrue(results))
  }

  /** No row occurs twice. */
  predicate NoDuplicates(rows: seq<OrderPromotion>)
  {
    forall i, j :: 0 <= i < j < |rows| ==> rows[i] != rows[j]
  }

  /** `find_or_create_by!`: the row is added unless it is already there. */
  function FindOrCreate(rows: seq<OrderPromotion>, row: OrderPromotion): (r: seq<OrderPromotion>)
    ensures row in r
    ensures forall x :: x in r <==> x in rows || x == row
    ensures NoDuplicates(rows) ==> NoDuplicates(r)
    ensures |r| <= |rows| + 1
  {
    if row in rows then rows else rows + [row]
  }

  /** A second activation with the same order and code adds no second row. */
  lemma FindOrCreateIdempotent(rows: seq<OrderPromotion>, row: OrderPromotion)
    ensures FindOrCreate(FindOrCreate(rows, row), row) == FindOrCreate(rows, row)
  {
  }

  // ---------------------------------------------------------------- promotion codes

  /** What `('A'..'Z').to_a.sample(6).join` yields: six distinct capital letters. */
  predicate RandomSuffix(s: string)
  {
    && |s| == 6
    && (forall i :: 0 <= i < |s| ==> 'A' <= s[i] <= 'Z')
    && forall i, j :: 0 <= i < j < |s| ==> s[i] != s[j]
  }

  /** `"#{base_code}_#{suffix}"`. */
  function CodeWithEntropy(base: string, suffix: string): string
  {
    base + "_" + suffix
  }

  /** The code reads back as the base, an underscore and the suffix. */
  lemma CodeWithEntropyParts(base: string, suffix: string)
    ensures var c := CodeWithEntropy(base, suffix);
            |c| == |base| + 1 + |suffix| && c[..|base|] == base && c[|base|] == '_' && c[|base| + 1..] == suffix
  {
  }

  /** How a run of `build_code_with_base` calls ended; `OutOfDraws` is the end of the random draws the model is given. */
  datatype BatchEnd = AllBuilt | Raised(error: Error) | OutOfDraws

  /** The code values built, and how the run ended. */
  datatype CodeBatch = CodeBatch(codes: seq<string>, end: BatchEnd)

  /**
   * As intended, `build_code_with_base` draws again until the code is not taken by a saved
   * promotion code: the first of the draws from `k` on whose code is free.
   */
  function NextFreeDraw(base: string, draws: seq<string>, k: nat, saved: seq<string>): (r: Option<nat>)
    requires k <= |draws|
    ensures r.Some? ==> k <= r.value < |draws|
    decreases |draws| - k
  {
    if k == |draws| then None
    else if CodeWithEntropy(base, draws[k]) !in saved then Some(k)
    else NextFreeDraw(base, draws, k + 1, saved)
  }

  /** The draw found is the first whose code is free; when none is found, every code is taken. */
  lemma {:induction false} NextFreeDrawIsFirstFree(base: string, draws: seq<string>, k: nat, saved: seq<string>)
    requires k <= |draws|
    ensures var r := NextFreeDraw(base, draws, k, saved);
            && (r.Some? ==> CodeWithEntropy(base, draws[r.value]) !in saved
                            && forall i :: k <= i < r.value ==> CodeWithEntropy(base, draws[i]) in saved)
            && (r.None? ==> forall i :: k <= i < |draws| ==> CodeWithEntropy(base, draws[i]) in saved)
    decreases |draws| - k
  {
    if k < |draws| && CodeWithEntropy(base, draws[k]) in saved {
      NextFreeDrawIsFirstFree(base, draws, k + 1, saved);
    }
  }

  /** `number_of_codes.times { build_code_with_base }` for `m` codes, drawing from `draws[k..]`. */
  function BuildCodes(base: string, m: nat, draws: seq<string>, k: nat, saved: seq<string>): (r: CodeBatch)
    requires k <= |draws|
    ensures |r.codes| <= m && (r.end == AllBuilt ==> |r.codes| == m) && !r.end.Raised?
    decreases m
  {
    if m == 0 then CodeBatch([], AllBuilt)
    else
      var next := NextFreeDraw(base, draws, k, saved);
      if next.None? then CodeBatch([], OutOfDraws)
      else
        var rest := BuildCodes(base, m - 1, draws, next.value + 1, saved);
        CodeBatch([CodeWithEntropy(base, draws[next.value])] + rest.codes, rest.end)
  }

  /** Every code built is free among the saved codes and comes from one of the draws. */
  lemma {:induction false} BuildCodesFresh(base: string, m: nat, draws: seq<string>, k: nat, saved: seq<string>)
    requires k <= |draws|
    ensures forall c :: c in BuildCodes(base, m, draws, k, saved).codes ==>
              c !in saved && exists j :: k <= j < |draws| && c == CodeWithEntropy(base, draws[j])
    decreases m
  {
    if m > 0 {
      var next := NextFreeDraw(base, draws, k, saved);
      if next.Some? {
        NextFreeDrawIsFirstFree(base, draws, k, saved);
        BuildCodesFresh(base, m - 1, draws, next.value + 1, saved);
      }
    }
  }

  /** `build_promotion_codes`: the base code itself for one code, suffixed codes for several, none otherwise. */
  function PromotionCodesBuilt(base: string, numberOfCodes: int, draws: seq<string>, saved: seq<string>): (r: CodeBatch)
    ensures numberOfCodes == 1 ==> r == CodeBatch([base], AllBuilt)
    ensures numberOfCodes < 1 ==> r == CodeBatch([], AllBuilt)
    ensures numberOfCodes > 1 && r.end == AllBuilt ==> |r.codes| == numberOfCodes
    ensures numberOfCodes > 1 ==> !r.end.Raised?
  {
    if numberOfCodes == 1 then CodeBatch([base], AllBuilt)
    else if numberOfCodes > 1 then BuildCodes(base, numberOfCodes, draws, 0, saved)
    else CodeBatch([], AllBuilt)
  }

  /** Every code of a batch of several is the base, an underscore and six distinct capital letters. */
  lemma SeveralCodesAreSuffixed(base: string, numberOfCodes: int, draws: seq<string>, saved: seq<string>, c: string)
    requires numberOfCodes > 1 && c in PromotionCodesBuilt(base, numberOfCodes, draws, saved).codes
    requires forall j :: 0 <= j < |draws| ==> RandomSuffix(draws[j])
    ensures c !in saved
    ensures |c| == |base| + 7 && c[..|base|] == base && c[|base|] == '_' && RandomSuffix(c[|base| + 1..])
  {
    BuildCodesFresh(base, numberOfCodes, draws, 0, saved);
    var j :| 0 <= j < |draws| && c == CodeWithEntropy(base, draws[j]);
    CodeWithEntropyParts(base, draws[j]);
  }

  /**
   * `build_code_with_base` as written: on a collision it calls itself with a positional
   * argument, which a method taking only keywords rejects with ArgumentError.
   */
  function BuildCodesAsWritten(base: string, m: nat, draws: seq<string>, k: nat, saved: seq<string>): (r: CodeBatch)
    requires k <= |draws|
    ensures |r.codes| <= m
    decreases m
  {
    if m == 0 then CodeBatch([], AllBuilt)
    else if k == |draws| then CodeBatch([], OutOfDraws)
    else if CodeWithEntropy(base, draws[k]) in saved then CodeBatch([], Raised(ArgumentError))
    else
      var rest := BuildCodesAsWritten(base, m - 1, draws, k + 1, saved);
      CodeBatch([CodeWithEntropy(base, draws[k])] + rest.codes, rest.end)
  }

  /** As written, the first collision with a saved code raises instead of drawing again. */
  lemma {:induction false} AsWrittenCollisionRaises(base: string, m: nat, draws: seq<string>, saved: seq<string>, before: nat)
    requires before < m && before < |draws| && CodeWithEntropy(base, draws[before]) in saved
    requires forall i :: 0 <= i < before ==> CodeWithEntropy(base, draws[i]) !in saved
    ensures BuildCodesAsWritten(base, m, draws, 0, saved).end == Raised(ArgumentError)
  {
    AsWrittenRaisesFrom(base, m, draws, 0, saved, before);
  }

  lemma {:induction false} AsWrittenRaisesFrom(base: string, m: nat, draws: seq<string>, k: nat, saved: seq<string>, at: nat)
    requires k <= at < |draws| && at - k < m && CodeWithEntropy(base, draws[at]) in saved
    requires forall i :: k <= i < at ==> CodeWithEntropy(base, draws[i]) !in saved
    ensures BuildCodesAsWritten(base, m, draws, k, saved).end == Raised(ArgumentError)
    decreases at - k
  {
    if k < at {
      AsWrittenRaisesFrom(base, m - 1, draws, k + 1, saved, at);
    }
  }

  /** Two codes over a base whose first draw is taken: as written this raises, as intended it draws again. */
  lemma CollisionExample()
    ensures BuildCodesAsWritten("SPRING", 2, ["ABCDEF", "GHIJKL", "MNOPQR"], 0, ["SPRING_ABCDEF"])
            == CodeBatch([], Raised(ArgumentError))
    ensures PromotionCodesBuilt("SPRING", 2, ["ABCDEF", "GHIJKL", "MNOPQR"], ["SPRING_ABCDEF"])
            == CodeBatch(["SPRING_GHIJKL", "SPRING_MNOPQR"], AllBuilt)
  {
    var draws := ["ABCDEF", "GHIJKL", "MNOPQR"];
    var saved := ["SPRING_ABCDEF"];
    assert CodeWithEntropy("SPRING", draws[0]) == "SPRING_ABCDEF";
    assert CodeWithEntropy("SPRING", draws[1]) == "SPRING_GHIJKL";
    assert CodeWithEntropy("SPRING", draws[2]) == "SPRING_MNOPQR";
    assert NextFreeDraw("SPRING", draws, 0, saved) == Some(1);
    assert NextFreeDraw("SPRING", draws, 2, saved) == Some(2);
  }

  /** The codes of `all` are `added` followed by those of `rest`, and the run ends as `rest` does. */
  predicate Continues(all: CodeBatch, added: seq<string>, rest: CodeBatch)
  {
    all == CodeBatch(added + rest.codes, rest.end)
  }

  /** One more code built: the first free draw from `k` on. */
  lemma ContinuesTurn(all: CodeBatch, added: seq<string>, base: string, m: nat, draws: seq<string>, k: nat,
                      saved: seq<string>, j: nat)
    requires m > 0 && k <= |draws| && NextFreeDraw(base, draws, k, saved) == Some(j)
    requires Continues(all, added, BuildCodes(base, m, draws, k, saved))
    ensures Continues(all, added + [CodeWithEntropy(base, draws[j])], BuildCodes(base, m - 1, draws, j + 1, saved))
  {
    var rest := BuildCodes(base, m - 1, draws, j + 1, saved);
    assert added + ([CodeWithEntropy(base, draws[j])] + rest.codes) == (added + [CodeWithEntropy(base, draws[j])]) + rest.codes;
  }

  /** No draw left to try: the run stops with what was built so far. */
  lemma ContinuesOutOfDraws(all: CodeBatch, added: seq<string>, base: string, m: nat, draws: seq<string>, k: nat,
                            saved: seq<string>)
    requires m > 0 && k <= |draws| && NextFreeDraw(base, draws, k, saved).None?
    requires Continues(all, added, BuildCodes(base, m, draws, k, saved))
    ensures all == CodeBatch(added, OutOfDraws)
  {
    assert added + [] == added;
  }

  lemma ContinuesDone(all: CodeBatch, added: seq<string>, rest: CodeBatch)
    requires rest == CodeBatch([], AllBuilt) && Continues(all, added, rest)
    ensures all == CodeBatch(added, AllBuilt)
  {
    assert added + [] == added;
  }

  // ---------------------------------------------------------------- the object

  class PromotionRecord {
    /** The promotion's own columns and its rules and actions. */
    const promotion: Promotion
    /** The values of `codes` (built or loaded). */
    var codes: seq<string>
    /** `order_promotions`. */
    var orderPromotions: seq<OrderPromotion>

    constructor (promotion: Promotion, codes: seq<string>, orderPromotions: seq<OrderPromotion>)
      ensures this.promotion == promotion && this.codes == codes && this.orderPromotions == orderPromotions
    {
      this.promotion := promotion;
      this.codes := codes;
      this.orderPromotions := orderPromotions;
    }

    /**
     * `activate`: `results` are what the actions' `perform` return, in order.  When one of them
     * is `true`, the order (and the code) is connected to the promotion once.
     */
    method Activate(order: Option<Order>, promotionCodeId: Option<nat>, results: seq<Option<bool>>) returns (r: Option<bool>)
      modifies this
      ensures r == ActivateResult(order, results)
      ensures orderPromotions == if r == Some(true) then FindOrCreate(old(orderPromotions), OrderPromotion(order.value.id, promotionCodeId))
                                 else old(orderPromotions)
      ensures codes == old(codes)
    {
      if !OrderActivatable(order) {
        return None;
      }
      var actionTaken := IncludesTrue(results);
      if actionTaken {
        orderPromotions := FindOrCreate(orderPromotions, OrderPromotion(order.value.id, promotionCodeId));
      }
      r := Some(actionTaken);
    }

    /**
     * `build_promotion_codes`: `draws` are the successive random suffixes and `saved` the
     * values of the promotion codes already saved; codes built in this call are not saved yet.
     */
    method BuildPromotionCodes(baseCode: string, numberOfCodes: int, draws: seq<string>, saved: seq<string>) returns (end: BatchEnd)
      modifies this
      ensures codes == old(codes) + PromotionCodesBuilt(baseCode, numberOfCodes, draws, saved).codes
      ensures end == PromotionCodesBuilt(baseCode, numberOfCodes, draws, saved).end
      ensures orderPromotions == old(orderPromotions)
    {
      if numberOfCodes == 1 {
        codes := codes + [baseCode];
        return AllBuilt;
      }
      end := AllBuilt;
      if numberOfCodes > 1 {
        ghost var all := BuildCodes(baseCode, numberOfCodes, draws, 0, saved);
        var i := 0;
        var k: nat := 0;
        ghost var added: seq<string> := [];
        assert [] + all.codes == all.codes;
        while i < numberOfCodes
          invariant 0 <= i <= numberOfCodes && k <= |draws|
          invariant codes == old(codes) + added && orderPromotions == old(orderPromotions)
          invariant Continues(all, added, BuildCodes(baseCode, numberOfCodes - i, draws, k, saved))
        {
          var next := NextFreeDraw(baseCode, draws, k, saved);
          if next.None? {
            ContinuesOutOfDraws(all, added, baseCode, numberOfCodes - i, draws, k, saved);
            return OutOfDraws;
          }
          var code := CodeWithEntropy(baseCode, draws[next.value]);
          ContinuesTurn(all, added, baseCode, numberOfCodes - i, draws, k, saved, next.value);
          codes := codes + [code];
          added := added + [code];
          k := next.value + 1;
          i := i + 1;
        }
        ContinuesDone(all, added, BuildCodes(baseCode, 0, draws, k, saved));
      }
    }
  }
}
