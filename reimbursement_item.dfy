/**
 * ReimbursementItem: the refund owed for one returned inventory unit.  Its total is the
 * pre-tax amount plus the additional (added-on) tax; tax included in the price is already
 * part of the pre-tax amount and is not added again.  The currency is the reimbursement's.
 */
module ReimbursementItems {
  import opened Wrappers
  import opened Records

  datatype Reimbursement = Reimbursement(id: nat, currency: string)

  datatype ReimbursementItem = ReimbursementItem(
    reimbursementId: nat, preTaxAmount: int, additionalTaxTotal: int, includedTaxTotal: int)

  /** `Spree::Money.new(total, currency: currency)`: an amount in cents and its currency. */
  datatype DisplayMoney = DisplayMoney(cents: int, currency: string)

  /** `total`. */
  function Total(item: ReimbursementItem): int
  {
    item.preTaxAmount + item.additionalTaxTotal
  }

  /** The included tax is not added into the total: any included tax gives the same total. */
  lemma TotalExcludesIncludedTax(item: ReimbursementItem, included: int)
    ensures Total(item.(includedTaxTotal := included)) == Total(item)
  {
  }

  /** `currency`: the currency of the item's reimbursement; a reimbursement that is not there is a nil receiver. */
  function Currency(item: ReimbursementItem, reimbursements: seq<Reimbursement>): (r: Result<string, Error>)
    ensures r.Ok? <==> exists rb :: rb in reimbursements && rb.id == item.reimbursementId
    ensures r.Ok? ==> exists rb :: rb in reimbursements && rb.id == item.reimbursementId && rb.currency == r.value
    ensures r.Err? ==> r.error == RecordNotFound
  {
    if reimbursements == [] then Err(RecordNotFound)
    else
      assert forall rb :: rb in reimbursements <==> rb == reimbursements[0] || rb in reimbursements[1..] by {
        assert reimbursements == [reimbursements[0]] + reimbursements[1..];
      }
      if reimbursements[0].id == item.reimbursementId then Ok(reimbursements[0].currency)
      else Currency(item, reimbursements[1..])
  }

  /** `display_total`: the total in the reimbursement's currency. */
  function DisplayTotal(item: ReimbursementItem, reimbursements: seq<Reimbursement>): (r: Result<DisplayMoney, Error>)
    ensures r.Ok? <==> Currency(item, reimbursements).Ok?
    ensures r.Ok? ==> r.value.cents == item.preTaxAmount + item.additionalTaxTotal
                      && r.value.currency == Currency(item, reimbursements).value
  {
    var c := Currency(item, reimbursements);
    if c.Err? then Err(c.error) else Ok(DisplayMoney(Total(item), c.value))
  }

  /** The first reimbursement with the item's id decides its currency, whatever follows it. */
  lemma {:induction false} CurrencyOfFirstMatch(item: ReimbursementItem, before: seq<Reimbursement>,
                                                 rb: Reimbursement, after: seq<Reimbursement>)
    requires rb.id == item.reimbursementId
    requires forall x :: x in before ==> x.id != item.reimbursementId
    ensures Currency(item, before + [rb] + after) == Ok(rb.currency)
    decreases |before|
  {
    if before == [] {
      assert before + [rb] + after == [rb] + after;
    } else {
      assert (before + [rb] + after)[1..] == before[1..] + [rb] + after;
      assert before[0] in before;
      CurrencyOfFirstMatch(item, before[1..], rb, after);
    }
  }

  /** Reimbursement ids are unique, as primary keys are. */
  predicate UniqueIds(reimbursements: seq<Reimbursement>)
  {
    forall i, j :: 0 <= i < j < |reimbursements| ==> reimbursements[i].id != reimbursements[j].id
  }

  /**
   * With unique ids, the item's currency and display total are exactly those of the one
   * reimbursement it belongs to, wherever that reimbursement stands in the table.
   */
  lemma DisplayTotalOfOwnReimbursement(item: ReimbursementItem, reimbursements: seq<Reimbursement>, k: nat)
    requires UniqueIds(reimbursements)
    requires k < |reimbursements| && reimbursements[k].id == item.reimbursementId
    ensures Currency(item, reimbursements) == Ok(reimbursements[k].currency)
    ensures DisplayTotal(item, reimbursements) == Ok(DisplayMoney(Total(item), reimbursements[k].currency))
  {
    var before := reimbursements[..k];
    assert before + [reimbursements[k]] + reimbursements[k + 1..] == reimbursements;
    forall x | x in before
      ensures x.id != item.reimbursementId
    {
      var i :| 0 <= i < k && before[i] == x;
    }
    CurrencyOfFirstMatch(item, before, reimbursements[k], reimbursements[k + 1..]);
  }
}
