/**
 * PromotionCode: one code of a promotion and its own usage limit.  A use of the code is an
 * adjustment created by one of the promotion's actions and tagged with the code; the
 * promotable's own such adjustments are not counted against it.
 */
module PromotionCodes {
  import opened Wrappers
  import opened Records
  import opened Promotions

  datatype PromotionCode = PromotionCode(id: nat, promotionId: nat, value: string, usageLimit: Option<int>)

  /** The `usage_limit` validation: absent, or greater than zero. */
  predicate ValidUsageLimit(code: PromotionCode)
  {
    code.usageLimit.None? || code.usageLimit.value > 0
  }

  /** `usage_limit.to_i`: `nil` reads as zero. */
  function LimitOf(code: PromotionCode): int
  {
    if code.usageLimit.None? then 0 else code.usageLimit.value
  }

  /** `adjustment_promotion_scope`: adjustments from one of the promotion's actions, tagged with this code. */
  predicate OfCode(a: Adjustment, code: PromotionCode, actionIds: seq<nat>)
  {
    IsActionAdjustment(a, actionIds) && a.promotionCodeId == Some(code.id)
  }

  /** `adjustment_promotion_scope(Spree::Adjustment.eligible)`: the code's eligible uses, on any order. */
  function EligibleUses(adjustments: seq<Adjustment>, code: PromotionCode, actionIds: seq<nat>): (r: seq<Adjustment>)
    ensures forall a :: a in r <==> a in adjustments && a.eligible && OfCode(a, code, actionIds)
    ensures |r| <= |adjustments|
  {
    if adjustments == [] then []
    else
      var last := adjustments[|adjustments| - 1];
      assert forall a :: a in adjustments <==> a in adjustments[..|adjustments| - 1] || a == last by {
        assert adjustments == adjustments[..|adjustments| - 1] + [last];
      }
      EligibleUses(adjustments[..|adjustments| - 1], code, actionIds)
      + (if last.eligible && OfCode(last, code, actionIds) then [last] else [])
  }

  /** `adjustment_promotion_scope(promotable.adjustments)`: the promotable's own uses, eligible or not. */
  function OwnUses(adjustments: seq<Adjustment>, owner: Adjustable, code: PromotionCode, actionIds: seq<nat>): (r: seq<Adjustment>)
    ensures forall a :: a in r <==> a in adjustments && a.adjustable == owner && OfCode(a, code, actionIds)
    ensures |r| <= |adjustments|
  {
    if adjustments == [] then []
    else
      var last := adjustments[|adjustments| - 1];
      assert forall a :: a in adjustments <==> a in adjustments[..|adjustments| - 1] || a == last by {
        assert adjustments == adjustments[..|adjustments| - 1] + [last];
      }
      OwnUses(adjustments[..|adjustments| - 1], owner, code, actionIds)
      + (if last.adjustable == owner && OfCode(last, code, actionIds) then [last] else [])
  }

  /** `usage_for_promotion_code_count`. */
  function UsageCount(code: PromotionCode, p: Promotion, adjustments: seq<Adjustment>, promotable: Promotable): int
  {
    |EligibleUses(adjustments, code, p.actionIds)| - |OwnUses(adjustments, OwnerOf(promotable), code, p.actionIds)|
  }

  /** `usage_limit_exceeded?`. */
  predicate UsageLimitExceeded(code: PromotionCode, p: Promotion, adjustments: seq<Adjustment>, promotable: Promotable)
  {
    LimitOf(code) > 0 && UsageCount(code, p, adjustments, promotable) >= LimitOf(code)
  }

  /** A code without a limit, or with a limit of zero, is never used up. */
  lemma NoLimitNeverExceeded(code: PromotionCode, p: Promotion, adjustments: seq<Adjustment>, promotable: Promotable)
    requires code.usageLimit.None? || code.usageLimit == Some(0)
    ensures !UsageLimitExceeded(code, p, adjustments, promotable)
  {
  }

  lemma UsesAppend(adjustments: seq<Adjustment>, a: Adjustment, owner: Adjustable, code: PromotionCode, actionIds: seq<nat>)
    ensures |EligibleUses(adjustments + [a], code, actionIds)|
            == |EligibleUses(adjustments, code, actionIds)| + (if a.eligible && OfCode(a, code, actionIds) then 1 else 0)
    ensures |OwnUses(adjustments + [a], owner, code, actionIds)|
            == |OwnUses(adjustments, owner, code, actionIds)| + (if a.adjustable == owner && OfCode(a, code, actionIds) then 1 else 0)
  {
    assert (adjustments + [a])[..|adjustments + [a]| - 1] == adjustments;
  }

  /** The promotable's own use of the code does not count against it; anyone else's counts once. */
  lemma UseCountedUnlessOwn(code: PromotionCode, p: Promotion, adjustments: seq<Adjustment>, promotable: Promotable, a: Adjustment)
    requires a.eligible && OfCode(a, code, p.actionIds)
    ensures UsageCount(code, p, adjustments + [a], promotable)
            == UsageCount(code, p, adjustments, promotable) + (if a.adjustable == OwnerOf(promotable) then 0 else 1)
  {
    UsesAppend(adjustments, a, OwnerOf(promotable), code, p.actionIds);
  }

  /** An adjustment tagged with another code, or from another promotion's action, leaves the count as it was. */
  lemma OtherAdjustmentNotCounted(code: PromotionCode, p: Promotion, adjustments: seq<Adjustment>, promotable: Promotable, a: Adjustment)
    requires !OfCode(a, code, p.actionIds)
    ensures UsageCount(code, p, adjustments + [a], promotable) == UsageCount(code, p, adjustments, promotable)
  {
    UsesAppend(adjustments, a, OwnerOf(promotable), code, p.actionIds);
  }

  /** The limit of one use: a single eligible use elsewhere reaches it, for any other promotable. */
  lemma OneUseReachesLimitOfOne(code: PromotionCode, p: Promotion, promotable: Promotable, a: Adjustment)
    requires code.usageLimit == Some(1)
    requires a.eligible && OfCode(a, code, p.actionIds) && a.adjustable != OwnerOf(promotable)
    ensures !UsageLimitExceeded(code, p, [], promotable)
    ensures UsageLimitExceeded(code, p, [a], promotable)
  {
    UseCountedUnlessOwn(code, p, [], promotable, a);
    assert [] + [a] == [a];
  }

  /** How many eligible uses of the code other promotables made. */
  function OthersUses(adjustments: seq<Adjustment>, owner: Adjustable, code: PromotionCode, actionIds: seq<nat>): nat
  {
    if adjustments == [] then 0
    else
      var last := adjustments[|adjustments| - 1];
      OthersUses(adjustments[..|adjustments| - 1], owner, code, actionIds)
      + (if last.eligible && OfCode(last, code, actionIds) && last.adjustable != owner then 1 else 0)
  }

  /** How many of the promotable's own uses of the code are not eligible. */
  function OwnIneligibleUses(adjustments: seq<Adjustment>, owner: Adjustable, code: PromotionCode, actionIds: seq<nat>): nat
  {
    if adjustments == [] then 0
    else
      var last := adjustments[|adjustments| - 1];
      OwnIneligibleUses(adjustments[..|adjustments| - 1], owner, code, actionIds)
      + (if !last.eligible && OfCode(last, code, actionIds) && last.adjustable == owner then 1 else 0)
  }

  /**
   * What the usage count counts: the eligible uses by other promotables, less the promotable's
   * own uses that are not eligible (the subtraction takes all of its own uses, eligible or not).
   */
  lemma {:induction false} UsageCountMeans(code: PromotionCode, p: Promotion, adjustments: seq<Adjustment>, promotable: Promotable)
    ensures UsageCount(code, p, adjustments, promotable)
            == OthersUses(adjustments, OwnerOf(promotable), code, p.actionIds)
               - OwnIneligibleUses(adjustments, OwnerOf(promotable), code, p.actionIds)
    decreases |adjustments|
  {
    if adjustments != [] {
      var init := adjustments[..|adjustments| - 1];
      var last := adjustments[|adjustments| - 1];
      UsageCountMeans(code, p, init, promotable);
      assert init + [last] == adjustments;
      UsesAppend(init, last, OwnerOf(promotable), code, p.actionIds);
    }
  }

  /**
   * With a positive limit, the code is used up exactly when the other promotables' eligible
   * uses, less the promotable's own ineligible ones, reach the limit.
   */
  lemma ExceededByOthersUses(code: PromotionCode, p: Promotion, adjustments: seq<Adjustment>, promotable: Promotable)
    requires code.usageLimit.Some? && code.usageLimit.value > 0
    ensures UsageLimitExceeded(code, p, adjustments, promotable)
            <==> OthersUses(adjustments, OwnerOf(promotable), code, p.actionIds)
                 - OwnIneligibleUses(adjustments, OwnerOf(promotable), code, p.actionIds) >= code.usageLimit.value
  {
    UsageCountMeans(code, p, adjustments, promotable);
  }
}
