/**
 * StockTransfer: a transfer of stock between two locations, whose progress is read off three
 * timestamps.  `finalize`, `close` and `ship` set timestamps through `update_attributes`,
 * which saves only when the record is valid: a source location is always required, and a
 * destination location once the transfer is finalized.
 */
module StockTransfers {
  import opened Wrappers
  import opened Records

  /** The three timestamps a transfer's state is read from. */
  datatype Stamps = Stamps(finalizedAt: Option<int>, shippedAt: Option<int>, closedAt: Option<int>)

  predicate Finalized(s: Stamps) { s.finalizedAt.Some? }
  predicate Shipped(s: Stamps) { s.shippedAt.Some? }
  predicate Closed(s: Stamps) { s.closedAt.Some? }

  /** `finalizable?`: none of the three steps has happened. */
  function Finalizable(s: Stamps): (r: bool)
    ensures r <==> s.finalizedAt.None? && s.shippedAt.None? && s.closedAt.None?
  {
    !Finalized(s) && !Shipped(s) && !Closed(s)
  }

  /** `receivable?`: finalized and shipped, and not closed. */
  function Receivable(s: Stamps): (r: bool)
    ensures r <==> s.finalizedAt.Some? && s.shippedAt.Some? && s.closedAt.None?
  {
    Finalized(s) && Shipped(s) && !Closed(s)
  }

  /** A transfer is never both finalizable and receivable. */
  lemma NotBothFinalizableAndReceivable(s: Stamps)
    ensures !(Finalizable(s) && Receivable(s))
  {
  }

  /** Once closed, a transfer is neither finalizable nor receivable. */
  lemma ClosedIsInert(s: Stamps, now: int)
    ensures !Finalizable(s.(closedAt := Some(now))) && !Receivable(s.(closedAt := Some(now)))
  {
  }

  /** The validations of the record: a source location, and a destination once finalized. */
  predicate ValidTransfer(source: Option<nat>, destination: Option<nat>, s: Stamps)
  {
    source.Some? && (Finalized(s) ==> destination.Some?)
  }

  class StockTransfer {
    var sourceLocationId: Option<nat>
    var destinationLocationId: Option<nat>
    var finalizedAt: Option<int>
    var finalizedBy: Option<nat>
    var shippedAt: Option<int>
    var trackingNumber: Option<string>
    var closedAt: Option<int>
    var closedBy: Option<nat>

    function Timestamps(): Stamps
      reads this
    {
      Stamps(finalizedAt, shippedAt, closedAt)
    }

    predicate Valid()
      reads this
    {
      ValidTransfer(sourceLocationId, destinationLocationId, Timestamps())
    }

    /** A new transfer from `source`, with nothing done yet. */
    constructor (source: Option<nat>, destination: Option<nat>)
      ensures sourceLocationId == source && destinationLocationId == destination
      ensures Timestamps() == Stamps(None, None, None)
      ensures finalizedBy.None? && closedBy.None? && trackingNumber.None?
    {
      sourceLocationId := source;
      destinationLocationId := destination;
      finalizedAt := None;
      finalizedBy := None;
      shippedAt := None;
      trackingNumber := None;
      closedAt := None;
      closedBy := None;
    }

    /**
     * `finalize(finalized_by)`: records who finalized it and when.  The save fails, and
     * nothing is stored, when the finalized transfer would have no destination location.
     */
    method Finalize(now: int, user: nat) returns (saved: bool)
      modifies this
      ensures saved <==> ValidTransfer(old(sourceLocationId), old(destinationLocationId),
                                       old(Timestamps()).(finalizedAt := Some(now)))
      ensures saved ==> finalizedAt == Some(now) && finalizedBy == Some(user)
      ensures !saved ==> finalizedAt == old(finalizedAt) && finalizedBy == old(finalizedBy)
      ensures sourceLocationId == old(sourceLocationId) && destinationLocationId == old(destinationLocationId)
      ensures shippedAt == old(shippedAt) && trackingNumber == old(trackingNumber)
      ensures closedAt == old(closedAt) && closedBy == old(closedBy)
    {
      saved := ValidTransfer(sourceLocationId, destinationLocationId, Timestamps().(finalizedAt := Some(now)));
      if saved {
        finalizedAt := Some(now);
        finalizedBy := Some(user);
      }
    }

    /** `close(closed_by)`: records who closed it and when, when the record is valid. */
    method Close(now: int, user: nat) returns (saved: bool)
      modifies this
      ensures saved <==> old(ValidTransfer(sourceLocationId, destinationLocationId, Timestamps()))
      ensures saved ==> closedAt == Some(now) && closedBy == Some(user)
      ensures saved ==> !Finalizable(Timestamps()) && !Receivable(Timestamps())
      ensures !saved ==> closedAt == old(closedAt) && closedBy == old(closedBy)
      ensures sourceLocationId == old(sourceLocationId) && destinationLocationId == old(destinationLocationId)
      ensures finalizedAt == old(finalizedAt) && finalizedBy == old(finalizedBy)
      ensures shippedAt == old(shippedAt) && trackingNumber == old(trackingNumber)
    {
      saved := Valid();
      if saved {
        closedAt := Some(now);
        closedBy := Some(user);
      }
    }

    /**
     * `ship(tracking_number:, shipped_at:)`: stores exactly these two attributes, raising
     * `RecordInvalid` when the record would not be valid.  The keyword defaults refer to the
     * parameters themselves, so an omitted argument is nil.
     */
    method Ship(tracking: Option<string>, at: Option<int>) returns (err: Option<Error>)
      modifies this
      ensures err.None? <==> old(ValidTransfer(sourceLocationId, destinationLocationId, Timestamps().(shippedAt := at)))
      ensures err.Some? ==> err == Some(RecordInvalid)
      ensures err.None? ==> trackingNumber == tracking && shippedAt == at
      ensures err.Some? ==> trackingNumber == old(trackingNumber) && shippedAt == old(shippedAt)
      ensures sourceLocationId == old(sourceLocationId) && destinationLocationId == old(destinationLocationId)
      ensures finalizedAt == old(finalizedAt) && finalizedBy == old(finalizedBy)
      ensures closedAt == old(closedAt) && closedBy == old(closedBy)
    {
      if ValidTransfer(sourceLocationId, destinationLocationId, Timestamps().(shippedAt := at)) {
        trackingNumber := tracking;
        shippedAt := at;
        err := None;
      } else {
        err := Some(RecordInvalid);
      }
    }
  }
}
