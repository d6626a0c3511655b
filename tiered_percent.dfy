/**
 * Calculator::TieredPercent: a percentage of an amount, where the percentage depends on the
 * largest tier threshold the amount reaches; below every threshold the base percent applies.
 *
 * Amounts and thresholds are in cents; percentages are in hundredths of a percent (basis
 * points), so `amount × percent / 100` rounded to two decimals is, in cents,
 * `amount × bp / 10000` rounded half away from zero.
 */
module TieredPercents {
  import opened Wrappers
  import Money

  /** One hundred percent, in basis points. */
  const Hundred: int := 10000

  /** A tier: from `threshold` cents on, `percent` basis points. */
  datatype Tier = Tier(threshold: int, percent: int)

  /** Ruby's `<=>` on `[threshold, percent]` pairs: by threshold, then by percent. */
  predicate TierLe(a: Tier, b: Tier)
  {
    a.threshold < b.threshold || (a.threshold == b.threshold && a.percent <= b.percent)
  }

  /**
   * `preferred_tiers.sort.reverse.detect { |b, _| amount >= b }`: among the tiers whose threshold
   * the amount reaches, the greatest in the order of `<=>`; `nil` when there is none.
   */
  function Chosen(tiers: seq<Tier>, amount: int): Option<Tier>
  {
    if tiers == [] then None
    else
      var rest := Chosen(tiers[1..], amount);
      if tiers[0].threshold > amount then rest
      else if rest.None? || TierLe(rest.value, tiers[0]) then Some(tiers[0])
      else rest
  }

  /**
   * The chosen tier is the greatest reached tier: none exactly when no threshold is reached,
   * otherwise a reached tier that every reached tier precedes or equals.
   */
  lemma {:induction false} ChosenIsGreatestReached(tiers: seq<Tier>, amount: int)
    ensures Chosen(tiers, amount).None? <==> forall t :: t in tiers ==> t.threshold > amount
    ensures Chosen(tiers, amount).Some? ==>
              var c := Chosen(tiers, amount).value;
              c in tiers && c.threshold <= amount
              && forall t :: t in tiers && t.threshold <= amount ==> TierLe(t, c)
  {
    if tiers != [] {
      ChosenIsGreatestReached(tiers[1..], amount);
      assert forall t :: t in tiers <==> t == tiers[0] || t in tiers[1..] by {
        assert tiers == [tiers[0]] + tiers[1..];
      }
    }
  }

  /** Two tiers that each precede or equal the other are the same tier. */
  lemma TierLeAntisymmetric(a: Tier, b: Tier)
    requires TierLe(a, b) && TierLe(b, a)
    ensures a == b
  {
  }

  /** The hash's order is irrelevant: tiers holding the same pairs choose the same tier. */
  lemma ChosenIgnoresOrder(tiers: seq<Tier>, others: seq<Tier>, amount: int)
    requires forall t :: t in tiers <==> t in others
    ensures Chosen(tiers, amount) == Chosen(others, amount)
  {
    ChosenIsGreatestReached(tiers, amount);
    ChosenIsGreatestReached(others, amount);
    if Chosen(tiers, amount).Some? {
      TierLeAntisymmetric(Chosen(tiers, amount).value, Chosen(others, amount).value);
    }
  }

  /** `compute(object)` for a calculator whose tiers are numbers. */
  function Compute(basePercent: int, tiers: seq<Tier>, amount: int): int
  {
    var chosen := Chosen(tiers, amount);
    var percent := if chosen.Some? then chosen.value.percent else basePercent;
    Money.RoundHalfAway(amount * percent, Hundred)
  }

  predicate DistinctThresholds(tiers: seq<Tier>)
  {
    forall i, j :: 0 <= i < j < |tiers| ==> tiers[i].threshold != tiers[j].threshold
  }

  /** With distinct thresholds, the percent is that of the largest threshold the amount reaches. */
  lemma ComputeUsesLargestReached(basePercent: int, tiers: seq<Tier>, amount: int, t: Tier)
    requires DistinctThresholds(tiers)
    requires t in tiers && t.threshold <= amount
    requires forall u :: u in tiers && u.threshold <= amount ==> u.threshold <= t.threshold
    ensures Compute(basePercent, tiers, amount) == Money.RoundHalfAway(amount * t.percent, Hundred)
  {
    ChosenIsGreatestReached(tiers, amount);
    var c := Chosen(tiers, amount).value;
    assert c.threshold == t.threshold;
  }

  /** An amount below every threshold gets the base percent. */
  lemma ComputeBelowEveryTier(basePercent: int, tiers: seq<Tier>, amount: int)
    requires forall t :: t in tiers ==> amount < t.threshold
    ensures Compute(basePercent, tiers, amount) == Money.RoundHalfAway(amount * basePercent, Hundred)
  {
    ChosenIsGreatestReached(tiers, amount);
  }

  lemma ScaleWithin(amount: int, percent: int)
    requires amount >= 0 && 0 <= percent <= Hundred
    ensures 0 <= amount * percent <= amount * Hundred
  {
    assert amount * Hundred - amount * percent == amount * (Hundred - percent);
  }

  /** With percentages between 0 and 100, the result is between nothing and the whole amount. */
  lemma ComputeWithinAmount(basePercent: int, tiers: seq<Tier>, amount: int)
    requires amount >= 0 && 0 <= basePercent <= Hundred
    requires forall t :: t in tiers ==> 0 <= t.percent <= Hundred
    ensures 0 <= Compute(basePercent, tiers, amount) <= amount
  {
    ChosenIsGreatestReached(tiers, amount);
    var chosen := Chosen(tiers, amount);
    var percent := if chosen.Some? then chosen.value.percent else basePercent;
    ScaleWithin(amount, percent);
    var r := Money.RoundHalfAway(amount * percent, Hundred);
    assert Money.RoundsHalfAway(amount * percent, Hundred, r);
  }

  /** A tier of 100 percent gives back the amount itself. */
  lemma ComputeWholeAmount(basePercent: int, tiers: seq<Tier>, amount: int)
    requires Chosen(tiers, amount).Some? && Chosen(tiers, amount).value.percent == Hundred
    ensures Compute(basePercent, tiers, amount) == amount
  {
    Money.RoundHalfAwayExact(amount, Hundred);
  }

  /** A preference value as stored: a number (cents for a key, basis points for a value) or anything else. */
  datatype TierValue = Number(units: int) | NonNumeric

  datatype Entry = Entry(key: TierValue, value: TierValue)

  /** The `tiers` preference: a hash of entries, or a value that is not a hash at all. */
  datatype TiersPreference = TierHash(entries: seq<Entry>) | NotAHash

  datatype Attribute = Base | PreferredTiers | PreferredBasePercent

  datatype Message =
    | KeysShouldBePositiveNumber
    | ValuesShouldBePercent
    | ShouldBeHash
    | GreaterThanOrEqualTo
    | LessThanOrEqualTo

  datatype ValidationError = ValidationError(attribute: Attribute, message: Message)

  predicate KeysPositive(entries: seq<Entry>)
  {
    forall i :: 0 <= i < |entries| ==> entries[i].key.Number? && entries[i].key.units > 0
  }

  predicate ValuesPercent(entries: seq<Entry>)
  {
    forall i :: 0 <= i < |entries| ==> entries[i].value.Number? && 0 <= entries[i].value.units <= Hundred
  }

  /** The `numericality` validation of `preferred_base_percent`: between 0 and 100 inclusive. */
  function BasePercentErrors(basePercent: int): (r: seq<ValidationError>)
    ensures r == [] <==> 0 <= basePercent <= Hundred
    ensures forall e :: e in r ==> e.attribute == PreferredBasePercent
  {
    if basePercent < 0 then [ValidationError(PreferredBasePercent, GreaterThanOrEqualTo)]
    else if basePercent > Hundred then [ValidationError(PreferredBasePercent, LessThanOrEqualTo)]
    else []
  }

  /** `preferred_tiers_content`: the errors it adds, in the order it adds them. */
  function TiersContentErrors(tiers: TiersPreference): (r: seq<ValidationError>)
    ensures r == [] <==> tiers.TierHash? && KeysPositive(tiers.entries) && ValuesPercent(tiers.entries)
    ensures tiers.NotAHash? ==> r == [ValidationError(PreferredTiers, ShouldBeHash)]
    ensures tiers.TierHash? ==>
              (ValidationError(Base, KeysShouldBePositiveNumber) in r <==> !KeysPositive(tiers.entries))
              && (ValidationError(Base, ValuesShouldBePercent) in r <==> !ValuesPercent(tiers.entries))
              && |r| <= 2
  {
    if tiers.NotAHash? then [ValidationError(PreferredTiers, ShouldBeHash)]
    else
      (if KeysPositive(tiers.entries) then [] else [ValidationError(Base, KeysShouldBePositiveNumber)])
      + (if ValuesPercent(tiers.entries) then [] else [ValidationError(Base, ValuesShouldBePercent)])
  }

  /** Both validations, in declaration order. */
  function Errors(basePercent: int, tiers: TiersPreference): seq<ValidationError>
  {
    BasePercentErrors(basePercent) + TiersContentErrors(tiers)
  }

  /** The numeric tiers of a hash whose keys and values are all numbers. */
  function NumericTiers(entries: seq<Entry>): (r: seq<Tier>)
    requires forall i :: 0 <= i < |entries| ==> entries[i].key.Number? && entries[i].value.Number?
    ensures |r| == |entries|
    ensures forall i :: 0 <= i < |entries| ==> r[i] == Tier(entries[i].key.units, entries[i].value.units)
  {
    if entries == [] then []
    else [Tier(entries[0].key.units, entries[0].value.units)] + NumericTiers(entries[1..])
  }

  /**
   * A calculator that passes validation computes, for any amount of at least nothing, a result
   * between nothing and the whole amount.
   */
  lemma ValidCalculatorStaysWithinAmount(basePercent: int, tiers: TiersPreference, amount: int)
    requires Errors(basePercent, tiers) == [] && amount >= 0
    ensures tiers.TierHash?
    ensures forall i :: 0 <= i < |tiers.entries| ==> tiers.entries[i].key.Number? && tiers.entries[i].value.Number?
    ensures 0 <= Compute(basePercent, NumericTiers(tiers.entries), amount) <= amount
  {
    var ts := NumericTiers(tiers.entries);
    forall t | t in ts
      ensures 0 <= t.percent <= Hundred
    {
      var i :| 0 <= i < |ts| && ts[i] == t;
      assert tiers.entries[i].value.Number?;
    }
    ComputeWithinAmount(basePercent, ts, amount);
  }

  /** The calculator record; validation adds to its `errors`. */
  class TieredPercent {
    var basePercent: int
    var tiers: TiersPreference
    var errors: seq<ValidationError>

    /** The preference defaults: a base percent of 0 and an empty hash of tiers. */
    constructor()
      ensures basePercent == 0 && tiers == TierHash([]) && errors == []
    {
      basePercent := 0;
      tiers := TierHash([]);
      errors := [];
    }

    /** Runs the record's validations, adding what they find to `errors`. */
    method Validate()
      modifies this
      ensures errors == old(errors) + Errors(basePercent, tiers)
      ensures basePercent == old(basePercent) && tiers == old(tiers)
    {
      errors := errors + BasePercentErrors(basePercent);
      errors := errors + TiersContentErrors(tiers);
    }
  }
}
