/**
 * What the two capture loops need of payments: an order's pending payments, the order in
 * which `sorted_eligible_payments` tries them, and `capture!`, which charges a number of
 * cents against one payment and records the capture event.
 */
module Payments {
  import opened Wrappers
  import opened Records

  /** `order.pending_payments`, in table order. */
  function PendingPayments(payments: seq<Payment>, orderId: nat): (r: seq<Payment>)
    ensures |r| <= |payments|
  {
    if payments == [] then []
    else (if payments[0].orderId == orderId && payments[0].state == PaymentState.Pending then [payments[0]] else [])
         + PendingPayments(payments[1..], orderId)
  }

  /** The pending payments are exactly the order's payments in state pending. */
  lemma {:induction false} PendingMembers(payments: seq<Payment>, orderId: nat)
    ensures forall p :: p in PendingPayments(payments, orderId)
                        <==> p in payments && p.orderId == orderId && p.state == PaymentState.Pending
  {
    if payments != [] {
      PendingMembers(payments[1..], orderId);
      assert forall p :: p in payments <==> p == payments[0] || p in payments[1..];
    }
  }

  /** `payment.uncaptured_amount`: what the payment holds that was not yet captured. */
  function Uncaptured(p: Payment): int
  {
    p.amount - p.captured
  }

  // ---------------------------------------------------------------- the sort key

  /** `eligible_payments.index(kind)`: the first position of `kind`, or nil. */
  function IndexOf(eligible: seq<nat>, kind: nat): (r: Option<nat>)
  {
    if eligible == [] then None
    else if eligible[0] == kind then Some(0)
    else match IndexOf(eligible[1..], kind)
      case None => None
      case Some(i) => Some(i + 1)
  }

  /** The index is found exactly when the kind is eligible, and it is the kind's first position. */
  lemma {:induction false} IndexOfFirst(eligible: seq<nat>, kind: nat)
    ensures IndexOf(eligible, kind).Some? <==> kind in eligible
    ensures IndexOf(eligible, kind).Some? ==>
      var i := IndexOf(eligible, kind).value;
      i < |eligible| && eligible[i] == kind && kind !in eligible[..i]
  {
    if eligible != [] && eligible[0] != kind {
      IndexOfFirst(eligible[1..], kind);
      assert kind in eligible <==> kind in eligible[1..];
      if IndexOf(eligible[1..], kind).Some? {
        var i := IndexOf(eligible[1..], kind).value;
        assert eligible[..i + 1] == [eligible[0]] + eligible[1..][..i];
      }
    }
  }

  predicate Ranked(eligible: seq<nat>, p: Payment)
  {
    p.methodKind in eligible
  }

  /**
   * `[eligible_payments.index(p.payment_method.class), p.id]` as a pair of numbers.  When no
   * payment is ranked every index is nil, and nil equals nil, so only the ids count.
   */
  function Rank(eligible: seq<nat>, p: Payment): nat
  {
    match IndexOf(eligible, p.methodKind)
    case None => 0
    case Some(i) => i
  }

  /** The keys compare lexicographically: by rank, then by id. */
  predicate KeyLe(eligible: seq<nat>, p: Payment, q: Payment)
  {
    Rank(eligible, p) < Rank(eligible, q) || (Rank(eligible, p) == Rank(eligible, q) && p.id <= q.id)
  }

  lemma KeyLeTotal(eligible: seq<nat>, p: Payment, q: Payment)
    ensures KeyLe(eligible, p, q) || KeyLe(eligible, q, p)
  {
  }

  predicate SortedByKey(eligible: seq<nat>, ps: seq<Payment>)
  {
    forall i, j :: 0 <= i < j < |ps| ==> KeyLe(eligible, ps[i], ps[j])
  }

  /**
   * Some payments ranked and some not: a key starting with nil meets a key starting with a
   * number, which Ruby cannot compare.
   */
  predicate MixedRanks(eligible: seq<nat>, ps: seq<Payment>)
  {
    !AllRanked(eligible, ps) && !NoneRanked(eligible, ps)
  }

  predicate AllRanked(eligible: seq<nat>, ps: seq<Payment>)
  {
    ps == [] || (Ranked(eligible, ps[0]) && AllRanked(eligible, ps[1..]))
  }

  predicate NoneRanked(eligible: seq<nat>, ps: seq<Payment>)
  {
    ps == [] || (!Ranked(eligible, ps[0]) && NoneRanked(eligible, ps[1..]))
  }

  lemma {:induction false} AllRankedMeans(eligible: seq<nat>, ps: seq<Payment>)
    ensures AllRanked(eligible, ps) <==> forall p :: p in ps ==> Ranked(eligible, p)
    ensures NoneRanked(eligible, ps) <==> forall p :: p in ps ==> !Ranked(eligible, p)
  {
    if ps != [] {
      AllRankedMeans(eligible, ps[1..]);
      assert forall p :: p in ps <==> p == ps[0] || p in ps[1..];
    }
  }

  /** Mixed: some payment is ranked and some is not. */
  lemma MixedRanksMeans(eligible: seq<nat>, ps: seq<Payment>)
    ensures MixedRanks(eligible, ps)
            <==> (exists p :: p in ps && Ranked(eligible, p)) && (exists q :: q in ps && !Ranked(eligible, q))
  {
    AllRankedMeans(eligible, ps);
  }

  /** A key no larger than every later key can go in front of a sorted run. */
  lemma SortedCons(eligible: seq<nat>, p: Payment, ps: seq<Payment>)
    requires SortedByKey(eligible, ps)
    requires forall q :: q in ps ==> KeyLe(eligible, p, q)
    ensures SortedByKey(eligible, [p] + ps)
  {
    var r := [p] + ps;
    forall i, j | 0 <= i < j < |r| ensures KeyLe(eligible, r[i], r[j]) {
      if i == 0 {
        assert r[j] == ps[j - 1];
      } else {
        assert r[i] == ps[i - 1] && r[j] == ps[j - 1];
      }
    }
  }

  /** The head of a sorted run is no larger than anything in it. */
  lemma HeadIsLeast(eligible: seq<nat>, ps: seq<Payment>)
    requires SortedByKey(eligible, ps) && ps != []
    ensures forall q :: q in ps ==> KeyLe(eligible, ps[0], q)
  {
    forall q | q in ps ensures KeyLe(eligible, ps[0], q) {
      var j :| 0 <= j < |ps| && ps[j] == q;
      if j > 0 { assert KeyLe(eligible, ps[0], ps[j]); }
    }
  }

  function Insert(eligible: seq<nat>, p: Payment, ps: seq<Payment>): (r: seq<Payment>)
    requires SortedByKey(eligible, ps)
    ensures SortedByKey(eligible, r)
    ensures multiset(r) == multiset(ps) + multiset{p}
    ensures |r| == |ps| + 1
    decreases |ps|, 1
  {
    if ps == [] then [p]
    else if KeyLe(eligible, p, ps[0]) then
      HeadIsLeast(eligible, ps);
      SortedCons(eligible, p, ps);
      [p] + ps
    else
      InsertBehind(eligible, p, ps);
      [ps[0]] + Insert(eligible, p, ps[1..])
  }

  /** When `p` goes behind the head, the head stays least among the rest with `p` inserted. */
  lemma InsertBehind(eligible: seq<nat>, p: Payment, ps: seq<Payment>)
    requires SortedByKey(eligible, ps) && ps != [] && !KeyLe(eligible, p, ps[0])
    ensures SortedByKey(eligible, ps[1..])
    ensures SortedByKey(eligible, [ps[0]] + Insert(eligible, p, ps[1..]))
    ensures multiset([ps[0]] + Insert(eligible, p, ps[1..])) == multiset(ps) + multiset{p}
    decreases |ps|, 0
  {
    assert ps == [ps[0]] + ps[1..];
    assert SortedByKey(eligible, ps[1..]) by {
      forall i, j | 0 <= i < j < |ps[1..]| ensures KeyLe(eligible, ps[1..][i], ps[1..][j]) {
        assert ps[1..][i] == ps[i + 1] && ps[1..][j] == ps[j + 1];
      }
    }
    var rest := Insert(eligible, p, ps[1..]);
    HeadIsLeast(eligible, ps);
    forall q | q in rest ensures KeyLe(eligible, ps[0], q) {
      assert q in multiset(rest);
      if q != p {
        assert q in multiset(ps[1..]);
        assert q in ps;
      }
    }
    SortedCons(eligible, ps[0], rest);
  }

  function InsertionSort(eligible: seq<nat>, ps: seq<Payment>): (r: seq<Payment>)
    ensures SortedByKey(eligible, r)
    ensures multiset(r) == multiset(ps)
    ensures |r| == |ps|
  {
    if ps == [] then []
    else
      assert ps == [ps[0]] + ps[1..];
      Insert(eligible, ps[0], InsertionSort(eligible, ps[1..]))
  }

  /**
   * `sorted_eligible_payments`: the pending payments of the order by rank, then id; a raise
   * when ranked and unranked payments meet.
   */
  function SortedEligible(eligible: seq<nat>, ps: seq<Payment>): (r: Result<seq<Payment>, Error>)
    ensures r.Err? <==> MixedRanks(eligible, ps)
    ensures r.Err? ==> r.error == IncomparablePriorities
    ensures r.Ok? ==> SortedByKey(eligible, r.value) && multiset(r.value) == multiset(ps)
  {
    if MixedRanks(eligible, ps) then Err(IncomparablePriorities) else Ok(InsertionSort(eligible, ps))
  }

  /** A pending payment is a payment of the order, in state pending. */
  lemma PendingMember(payments: seq<Payment>, orderId: nat, p: Payment)
    requires p in PendingPayments(payments, orderId)
    ensures p in payments && p.orderId == orderId && p.state == PaymentState.Pending
  {
    PendingMembers(payments, orderId);
  }

  /** The payment `shift` takes off the sorted list is one whose key no pending payment undercuts. */
  lemma FirstIsLeast(eligible: seq<nat>, ps: seq<Payment>)
    requires SortedEligible(eligible, ps).Ok? && ps != []
    ensures var s := SortedEligible(eligible, ps).value;
      |s| > 0 && s[0] in ps && forall q :: q in ps ==> KeyLe(eligible, s[0], q)
  {
    var s := SortedEligible(eligible, ps).value;
    assert |s| == |multiset(s)| == |multiset(ps)| == |ps|;
    assert s[0] in multiset(s);
    forall q | q in ps ensures KeyLe(eligible, s[0], q) {
      assert q in multiset(s);
      var j :| 0 <= j < |s| && s[j] == q;
      if j > 0 { assert KeyLe(eligible, s[0], s[j]); }
    }
  }

  /** The payment of least key: the first one on, and among equal keys the first one met. */
  function LeastByKey(eligible: seq<nat>, ps: seq<Payment>): (r: Payment)
    requires ps != []
    ensures r in ps
  {
    if |ps| == 1 then ps[0]
    else
      var m := LeastByKey(eligible, ps[1..]);
      if KeyLe(eligible, ps[0], m) then ps[0] else m
  }

  lemma {:induction false} LeastByKeyIsLeast(eligible: seq<nat>, ps: seq<Payment>)
    requires ps != []
    ensures forall q :: q in ps ==> KeyLe(eligible, LeastByKey(eligible, ps), q)
  {
    if |ps| > 1 {
      LeastByKeyIsLeast(eligible, ps[1..]);
      assert forall q :: q in ps ==> q == ps[0] || q in ps[1..];
    }
  }

  /**
   * `sorted_eligible_payments(order).shift`: the order's first pending payment by priority,
   * nil when none is pending, a raise when priorities cannot be compared.  It is computed in
   * one pass over the payments table, each pending payment against the least one after it;
   * `NextPaymentMeans` shows it is the least key among the pending payments, and
   * `NextIsSortedHead` that this is the head of the sorted list.
   */
  function NextPayment(eligible: seq<nat>, payments: seq<Payment>, orderId: nat): Result<Option<Payment>, Error>
  {
    if payments == [] then Ok(None)
    else
      var q := payments[0];
      var rest := NextPayment(eligible, payments[1..], orderId);
      if q.orderId != orderId || q.state != PaymentState.Pending then rest
      else match rest
        case Err(e) => Err(e)
        case Ok(None) => Ok(Some(q))
        case Ok(Some(m)) =>
          if Ranked(eligible, q) != Ranked(eligible, m) then Err(IncomparablePriorities)
          else if KeyLe(eligible, q, m) then Ok(Some(q))
          else Ok(Some(m))
  }

  /** The next payment is one of the order's pending payments. */
  lemma {:induction false} NextIsPending(eligible: seq<nat>, payments: seq<Payment>, orderId: nat)
    requires NextPayment(eligible, payments, orderId).Ok? && NextPayment(eligible, payments, orderId).value.Some?
    ensures NextPayment(eligible, payments, orderId).value.value in PendingPayments(payments, orderId)
  {
    NextPaymentMeans(eligible, payments, orderId);
  }

  /** The next payment is the least key among the pending ones, unless ranked and unranked ones meet. */
  lemma {:induction false} NextPaymentMeans(eligible: seq<nat>, payments: seq<Payment>, orderId: nat)
    ensures var pending := PendingPayments(payments, orderId);
      NextPayment(eligible, payments, orderId)
      == if MixedRanks(eligible, pending) then Err(IncomparablePriorities)
         else if pending == [] then Ok(None)
         else Ok(Some(LeastByKey(eligible, pending)))
  {
    if payments != [] {
      var q := payments[0];
      NextPaymentMeans(eligible, payments[1..], orderId);
      var tail := PendingPayments(payments[1..], orderId);
      if q.orderId == orderId && q.state == PaymentState.Pending {
        var pending := [q] + tail;
        assert PendingPayments(payments, orderId) == pending;
        assert pending[1..] == tail;
        if tail != [] && !MixedRanks(eligible, tail) {
          var m := LeastByKey(eligible, tail);
          AllRankedMeans(eligible, tail);
          assert AllRanked(eligible, pending) == (Ranked(eligible, q) && AllRanked(eligible, tail));
          assert NoneRanked(eligible, pending) == (!Ranked(eligible, q) && NoneRanked(eligible, tail));
          assert AllRanked(eligible, tail) ==> Ranked(eligible, m);
          assert NoneRanked(eligible, tail) ==> !Ranked(eligible, m);
          assert MixedRanks(eligible, pending) <==> Ranked(eligible, q) != Ranked(eligible, m);
          assert LeastByKey(eligible, pending) == if KeyLe(eligible, q, m) then q else m;
          assert NextPayment(eligible, payments[1..], orderId) == Ok(Some(m));
          assert NextPayment(eligible, payments, orderId)
                 == if Ranked(eligible, q) != Ranked(eligible, m) then Err(IncomparablePriorities)
                    else if KeyLe(eligible, q, m) then Ok(Some(q)) else Ok(Some(m));
        } else {
          assert AllRanked(eligible, pending) == (Ranked(eligible, q) && AllRanked(eligible, tail));
          assert NoneRanked(eligible, pending) == (!Ranked(eligible, q) && NoneRanked(eligible, tail));
          assert AllRanked(eligible, []) && NoneRanked(eligible, []);
        }
      } else {
        assert PendingPayments(payments, orderId) == tail;
      }
    }
  }

  /** The next payment raises exactly when the sort does, and is missing exactly when nothing is pending. */
  lemma NextPaymentCases(eligible: seq<nat>, payments: seq<Payment>, orderId: nat)
    ensures NextPayment(eligible, payments, orderId).Err?
            <==> SortedEligible(eligible, PendingPayments(payments, orderId)).Err?
    ensures NextPayment(eligible, payments, orderId).Err?
            ==> NextPayment(eligible, payments, orderId).error == IncomparablePriorities
    ensures NextPayment(eligible, payments, orderId).Ok?
            ==> (NextPayment(eligible, payments, orderId).value.None? <==> PendingPayments(payments, orderId) == [])
  {
    NextPaymentMeans(eligible, payments, orderId);
  }

  /** The next payment is one whose key no pending payment of the order undercuts. */
  lemma NextIsFirstByPriority(eligible: seq<nat>, payments: seq<Payment>, orderId: nat)
    requires NextPayment(eligible, payments, orderId).Ok?
    requires NextPayment(eligible, payments, orderId).value.Some?
    ensures forall q :: q in PendingPayments(payments, orderId)
                        ==> KeyLe(eligible, NextPayment(eligible, payments, orderId).value.value, q)
  {
    NextPaymentMeans(eligible, payments, orderId);
    LeastByKeyIsLeast(eligible, PendingPayments(payments, orderId));
  }

  /**
   * With payment ids distinct, the next payment is what `shift` takes off the sorted list: two
   * payments whose keys tie have the same id, so the least key belongs to one payment only.
   */
  lemma NextIsSortedHead(eligible: seq<nat>, payments: seq<Payment>, orderId: nat)
    requires UniquePaymentIds(payments)
    requires NextPayment(eligible, payments, orderId).Ok?
    requires NextPayment(eligible, payments, orderId).value.Some?
    ensures SortedEligible(eligible, PendingPayments(payments, orderId)).Ok?
    ensures var s := SortedEligible(eligible, PendingPayments(payments, orderId)).value;
      |s| > 0 && s[0] == NextPayment(eligible, payments, orderId).value.value
  {
    var pending := PendingPayments(payments, orderId);
    var m := NextPayment(eligible, payments, orderId).value.value;
    NextPaymentMeans(eligible, payments, orderId);
    NextIsFirstByPriority(eligible, payments, orderId);
    FirstIsLeast(eligible, pending);
    var s := SortedEligible(eligible, pending).value;
    assert KeyLe(eligible, s[0], m) && KeyLe(eligible, m, s[0]);
    assert s[0].id == m.id;
    PendingMembers(payments, orderId);
    SameIdSamePayment(payments, s[0], m);
  }

  /** In a table of distinct ids a payment is known by its id. */
  lemma SameIdSamePayment(payments: seq<Payment>, p: Payment, q: Payment)
    requires UniquePaymentIds(payments)
    requires p in payments && q in payments && p.id == q.id
    ensures p == q
  {
    var i :| 0 <= i < |payments| && payments[i] == p;
    var j :| 0 <= j < |payments| && payments[j] == q;
    assert !(i < j) && !(j < i);
  }

  /** With nothing ranked the payments come in id order. */
  lemma UnrankedById(eligible: seq<nat>, ps: seq<Payment>)
    requires forall p :: p in ps ==> !Ranked(eligible, p)
    ensures SortedEligible(eligible, ps).Ok?
    ensures var s := SortedEligible(eligible, ps).value;
      forall i, j :: 0 <= i < j < |s| ==> s[i].id <= s[j].id
  {
    AllRankedMeans(eligible, ps);
    var s := SortedEligible(eligible, ps).value;
    forall i, j | 0 <= i < j < |s| ensures s[i].id <= s[j].id {
      assert s[i] in multiset(ps) && s[j] in multiset(ps);
      assert s[i] in ps && s[j] in ps;
      IndexOfFirst(eligible, s[i].methodKind);
      IndexOfFirst(eligible, s[j].methodKind);
      assert Rank(eligible, s[i]) == 0 == Rank(eligible, s[j]);
      assert KeyLe(eligible, s[i], s[j]);
    }
  }

  // ---------------------------------------------------------------- capture!

  /**
   * What a run of `capture!` calls leaves: the payments table, the capture events recorded, in
   * order, and the raise that ended the run, if one did.
   */
  datatype Charged = Charged(payments: seq<Payment>, events: seq<CaptureEvent>, err: Option<Error>)

  /**
   * `payment.capture!(cents)` on the payments table: the payment has `cents` more captured and
   * is completed.  The capture event it records is `CaptureEvent(p.id, cents)`.
   */
  function CapturePayment(payments: seq<Payment>, p: Payment, cents: int): seq<Payment>
  {
    PutPayment(payments, Captured(p, cents))
  }

  /** The database after a run of captures: its payments replaced and the new capture events appended. */
  function ApplyCharges(db: Db, c: Charged): Outcome
  {
    Outcome(db.(payments := c.payments, captureEvents := db.captureEvents + c.events), c.err)
  }

  /** A captured payment is no longer pending, so each capture leaves one pending payment fewer. */
  lemma {:induction false} CaptureLeavesFewerPending(payments: seq<Payment>, p: Payment, cents: int, orderId: nat)
    requires p in PendingPayments(payments, orderId)
    ensures |PendingPayments(PutPayment(payments, Captured(p, cents)), orderId)| < |PendingPayments(payments, orderId)|
    decreases |payments|
  {
    var q := Captured(p, cents);
    var r := PutPayment(payments, q);
    assert r[1..] == PutPayment(payments[1..], q);
    PendingMembers(payments, orderId);
    PendingMembers(payments[1..], orderId);
    if payments[0] == p {
      PendingNoMore(payments[1..], q, orderId);
    } else {
      assert p in PendingPayments(payments[1..], orderId);
      CaptureLeavesFewerPending(payments[1..], p, cents, orderId);
      if payments[0].id == p.id {
        assert r[0] == q;
      }
    }
  }

  lemma {:induction false} PendingNoMore(payments: seq<Payment>, q: Payment, orderId: nat)
    requires q.state != PaymentState.Pending
    ensures |PendingPayments(PutPayment(payments, q), orderId)| <= |PendingPayments(payments, orderId)|
    decreases |payments|
  {
    if payments != [] {
      var r := PutPayment(payments, q);
      assert r[1..] == PutPayment(payments[1..], q);
      PendingNoMore(payments[1..], q, orderId);
    }
  }

  /** The cents of a run of capture events. */
  function EventsTotal(events: seq<CaptureEvent>): int
  {
    if events == [] then 0 else events[0].amount + EventsTotal(events[1..])
  }

  lemma {:induction false} EventsTotalAppend(a: seq<CaptureEvent>, b: seq<CaptureEvent>)
    ensures EventsTotal(a + b) == EventsTotal(a) + EventsTotal(b)
  {
    if a == [] {
      assert a + b == b;
    } else {
      assert (a + b)[1..] == a[1..] + b;
      EventsTotalAppend(a[1..], b);
    }
  }

  // ---------------------------------------------------------------- what the pending payments hold

  /** Every payment holds at least what was captured from it. */
  predicate Solvent(payments: seq<Payment>)
  {
    forall q :: q in payments ==> Uncaptured(q) >= 0
  }

  predicate NonNegativeAmounts(payments: seq<Payment>)
  {
    forall q :: q in payments ==> q.amount >= 0
  }

  /** What a run of payments still holds uncaptured. */
  function UncapturedTotal(ps: seq<Payment>): int
  {
    if ps == [] then 0 else Uncaptured(ps[0]) + UncapturedTotal(ps[1..])
  }

  /** The amounts of a run of payments. */
  function AmountTotal(ps: seq<Payment>): int
  {
    if ps == [] then 0 else ps[0].amount + AmountTotal(ps[1..])
  }

  /** The payment `p` after `capture!(cents)`. */
  function Captured(p: Payment, cents: int): (r: Payment)
    ensures r.id == p.id && r.orderId == p.orderId && r.amount == p.amount
    ensures Uncaptured(r) == Uncaptured(p) - cents && r.state != PaymentState.Pending
  {
    p.(captured := p.captured + cents, state := PaymentState.Completed)
  }

  lemma {:induction false} PutPaymentAbsent(payments: seq<Payment>, p: Payment)
    requires forall q :: q in payments ==> q.id != p.id
    ensures PutPayment(payments, p) == payments
  {
    if payments != [] {
      assert payments[0] in payments;
      assert forall q :: q in payments[1..] ==> q in payments;
      PutPaymentAbsent(payments[1..], p);
    }
  }

  lemma UniqueTail(payments: seq<Payment>)
    requires UniquePaymentIds(payments) && payments != []
    ensures UniquePaymentIds(payments[1..])
    ensures forall q :: q in payments[1..] ==> q.id != payments[0].id
  {
    forall i, j | 0 <= i < j < |payments[1..]| ensures payments[1..][i].id != payments[1..][j].id {
      assert payments[1..][i] == payments[i + 1] && payments[1..][j] == payments[j + 1];
    }
    forall q | q in payments[1..] ensures q.id != payments[0].id {
      var j :| 0 <= j < |payments[1..]| && payments[1..][j] == q;
      assert payments[j + 1] == q;
    }
  }

  /**
   * Capturing from a pending payment of the order takes it off the order's pending payments:
   * what they hold uncaptured and their amounts fall by exactly that payment's, and no
   * payment becomes pending.
   */
  lemma {:induction false} CaptureRemovesPending(payments: seq<Payment>, p: Payment, cents: int, orderId: nat)
    requires UniquePaymentIds(payments)
    requires p in PendingPayments(payments, orderId)
    ensures UncapturedTotal(PendingPayments(PutPayment(payments, Captured(p, cents)), orderId))
            == UncapturedTotal(PendingPayments(payments, orderId)) - Uncaptured(p)
    ensures AmountTotal(PendingPayments(PutPayment(payments, Captured(p, cents)), orderId))
            == AmountTotal(PendingPayments(payments, orderId)) - p.amount
    decreases |payments|
  {
    var q := Captured(p, cents);
    var r := PutPayment(payments, q);
    assert r[1..] == PutPayment(payments[1..], q);
    UniqueTail(payments);
    var rest := PendingPayments(payments[1..], orderId);
    PendingMembers(payments, orderId);
    PendingMembers(payments[1..], orderId);
    if payments[0] == p {
      PutPaymentAbsent(payments[1..], q);
      assert PendingPayments(r, orderId) == rest;
      assert PendingPayments(payments, orderId) == [p] + rest;
      assert ([p] + rest)[1..] == rest;
    } else {
      assert p in payments[1..];
      assert p in rest;
      assert r[0] == payments[0];
      CaptureRemovesPending(payments[1..], p, cents, orderId);
      var head := if payments[0].orderId == orderId && payments[0].state == PaymentState.Pending then [payments[0]] else [];
      var restAfter := PendingPayments(r[1..], orderId);
      assert PendingPayments(r, orderId) == head + restAfter;
      assert PendingPayments(payments, orderId) == head + rest;
      PaymentTotalsConcat(head, rest);
      PaymentTotalsConcat(head, restAfter);
    }
  }

  lemma PaymentTotalsConcat(a: seq<Payment>, b: seq<Payment>)
    requires |a| <= 1
    ensures UncapturedTotal(a + b) == UncapturedTotal(a) + UncapturedTotal(b)
    ensures AmountTotal(a + b) == AmountTotal(a) + AmountTotal(b)
  {
    if a != [] {
      assert (a + b)[1..] == b;
    } else {
      assert a + b == b;
    }
  }

  /** After a capture the order's pending payments are some of those it had. */
  lemma PendingShrinks(payments: seq<Payment>, p: Payment, cents: int, orderId: nat)
    ensures forall q :: q in PendingPayments(PutPayment(payments, Captured(p, cents)), orderId)
                        ==> q in PendingPayments(payments, orderId)
  {
    var after := PutPayment(payments, Captured(p, cents));
    PendingMembers(payments, orderId);
    PendingMembers(after, orderId);
    forall q | q in PendingPayments(after, orderId) ensures q in PendingPayments(payments, orderId) {
      var i :| 0 <= i < |after| && after[i] == q;
      assert payments[i] == q;
    }
  }

  /** A capture of no more than a payment holds keeps every payment solvent. */
  lemma CaptureKeepsSolvent(payments: seq<Payment>, p: Payment, cents: int)
    requires Solvent(payments) && cents <= Uncaptured(p)
    ensures Solvent(PutPayment(payments, Captured(p, cents)))
  {
    var after := PutPayment(payments, Captured(p, cents));
    forall q | q in after ensures Uncaptured(q) >= 0 {
      var i :| 0 <= i < |after| && after[i] == q;
      assert payments[i] in payments;
    }
  }

  /** Ids stay primary keys through a capture. */
  lemma CaptureKeepsUniqueIds(payments: seq<Payment>, p: Payment, cents: int)
    requires UniquePaymentIds(payments)
    ensures UniquePaymentIds(PutPayment(payments, Captured(p, cents)))
  {
    var after := PutPayment(payments, Captured(p, cents));
    forall i, j | 0 <= i < j < |after| ensures after[i].id != after[j].id {
      assert after[i].id == payments[i].id && after[j].id == payments[j].id;
    }
  }

  /** A capture changes no payment's amount. */
  lemma CaptureKeepsAmounts(payments: seq<Payment>, p: Payment, cents: int)
    requires NonNegativeAmounts(payments) && p.amount >= 0
    ensures NonNegativeAmounts(PutPayment(payments, Captured(p, cents)))
  {
    var after := PutPayment(payments, Captured(p, cents));
    forall q | q in after ensures q.amount >= 0 {
      var i :| 0 <= i < |after| && after[i] == q;
      assert payments[i] in payments;
    }
  }

  /** When fewer payments are pending, ranked and unranked ones cannot newly meet. */
  lemma FewerNotMixed(eligible: seq<nat>, ps: seq<Payment>, qs: seq<Payment>)
    requires forall q :: q in qs ==> q in ps
    requires !MixedRanks(eligible, ps)
    ensures !MixedRanks(eligible, qs)
  {
    MixedRanksMeans(eligible, ps);
    MixedRanksMeans(eligible, qs);
  }


  // ---------------------------------------------------------------- shared by the capture loops

  /** `[a, b].min`. */
  function Least(a: int, b: int): (r: int)
    ensures r <= a && r <= b && (r == a || r == b)
  {
    if a < b then a else b
  }

  function PositivePart(x: int): nat
  {
    if x > 0 then x else 0
  }

  /**
   * A payment row after charges against `orders`: its id, order and amount are kept, and it is
   * untouched unless it was a pending payment of one of those orders.
   */
  predicate SameRow(before: Payment, after: Payment, orders: set<nat>)
  {
    && after.id == before.id && after.orderId == before.orderId && after.amount == before.amount
    && (before.orderId !in orders || before.state != PaymentState.Pending ==> after == before)
  }

  /** Row by row, `after` is `before` charged against `orders` only. */
  predicate OnlyPending(before: seq<Payment>, after: seq<Payment>, orders: set<nat>)
  {
    |after| == |before| && forall i :: 0 <= i < |before| ==> SameRow(before[i], after[i], orders)
  }

  lemma OnlyPendingTrans(a: seq<Payment>, b: seq<Payment>, c: seq<Payment>, x: set<nat>, y: set<nat>)
    requires OnlyPending(a, b, x) && OnlyPending(b, c, y)
    ensures OnlyPending(a, c, x + y)
  {
    forall i | 0 <= i < |a| ensures SameRow(a[i], c[i], x + y) {
      assert SameRow(a[i], b[i], x) && SameRow(b[i], c[i], y);
    }
  }

  lemma OnlyPendingRefl(a: seq<Payment>, x: set<nat>)
    ensures OnlyPending(a, a, x)
  {
  }

  /** One `capture!` of a pending payment of the order touches that payment only. */
  lemma CaptureOnlyPending(payments: seq<Payment>, p: Payment, cents: int, orderId: nat)
    requires UniquePaymentIds(payments)
    requires p in PendingPayments(payments, orderId)
    ensures OnlyPending(payments, CapturePayment(payments, p, cents), {orderId})
  {
    PendingMembers(payments, orderId);
    var after := CapturePayment(payments, p, cents);
    forall i | 0 <= i < |payments| ensures SameRow(payments[i], after[i], {orderId}) {
      if payments[i].id == p.id {
        SameIdSamePayment(payments, payments[i], p);
      }
    }
  }

  lemma WritesStep(payments: seq<Payment>, p: Payment, cents: int, orderId: nat, final: seq<Payment>)
    requires UniquePaymentIds(payments)
    requires p in PendingPayments(payments, orderId)
    requires OnlyPending(CapturePayment(payments, p, cents), final, {orderId})
    ensures OnlyPending(payments, final, {orderId})
  {
    CaptureOnlyPending(payments, p, cents, orderId);
    OnlyPendingTrans(payments, CapturePayment(payments, p, cents), final, {orderId}, {orderId});
    assert {orderId} + {orderId} == {orderId};
  }

  /** The ids of some payments. */
  function IdsOf(ps: seq<Payment>): set<nat>
  {
    if ps == [] then {} else {ps[0].id} + IdsOf(ps[1..])
  }

  /** The payment ids some capture events charge. */
  function EventIds(events: seq<CaptureEvent>): set<nat>
  {
    if events == [] then {} else {events[0].paymentId} + EventIds(events[1..])
  }

  lemma EventIdsCons(e: CaptureEvent, rest: seq<CaptureEvent>)
    ensures EventIds([e] + rest) == {e.paymentId} + EventIds(rest)
  {
    assert ([e] + rest)[1..] == rest;
  }

  lemma {:induction false} IdsOfMember(ps: seq<Payment>, p: Payment)
    requires p in ps
    ensures p.id in IdsOf(ps)
  {
    if ps[0] != p {
      IdsOfMember(ps[1..], p);
    }
  }

  lemma {:induction false} IdsOfSubset(a: seq<Payment>, b: seq<Payment>)
    requires forall q :: q in a ==> q in b
    ensures IdsOf(a) <= IdsOf(b)
  {
    if a != [] {
      IdsOfMember(b, a[0]);
      assert forall q :: q in a[1..] ==> q in a;
      IdsOfSubset(a[1..], b);
    }
  }

  lemma PendingIdsShrink(payments: seq<Payment>, p: Payment, cents: int, orderId: nat)
    requires p in PendingPayments(payments, orderId)
    ensures IdsOf(PendingPayments(CapturePayment(payments, p, cents), orderId)) <= IdsOf(PendingPayments(payments, orderId))
    ensures p.id in IdsOf(PendingPayments(payments, orderId))
  {
    PendingShrinks(payments, p, cents, orderId);
    IdsOfSubset(PendingPayments(CapturePayment(payments, p, cents), orderId), PendingPayments(payments, orderId));
    IdsOfMember(PendingPayments(payments, orderId), p);
  }

  /** What solvent pending payments hold uncaptured is never negative. */
  lemma {:induction false} UncapturedTotalNonNegative(ps: seq<Payment>)
    requires forall q :: q in ps ==> Uncaptured(q) >= 0
    ensures UncapturedTotal(ps) >= 0
  {
    if ps != [] {
      assert ps[0] in ps;
      assert forall q :: q in ps[1..] ==> q in ps;
      UncapturedTotalNonNegative(ps[1..]);
    }
  }

  lemma PendingHoldsNothingNegative(after: seq<Payment>, orderId: nat, before: seq<Payment>, p: Payment, cents: int)
    requires after == CapturePayment(before, p, cents)
    requires Solvent(before)
    ensures UncapturedTotal(PendingPayments(after, orderId)) >= 0
  {
    PendingShrinks(before, p, cents, orderId);
    PendingMembers(before, orderId);
    UncapturedTotalNonNegative(PendingPayments(after, orderId));
  }

  lemma OnlyPendingWiden(a: seq<Payment>, b: seq<Payment>, x: set<nat>, y: set<nat>)
    requires OnlyPending(a, b, x) && x <= y
    ensures OnlyPending(a, b, y)
  {
    forall i | 0 <= i < |a| ensures SameRow(a[i], b[i], y) {
      assert SameRow(a[i], b[i], x);
    }
  }

  /** Ids are kept row by row, so they stay distinct. */
  lemma OnlyPendingKeepsUniqueIds(a: seq<Payment>, b: seq<Payment>, x: set<nat>)
    requires UniquePaymentIds(a) && OnlyPending(a, b, x)
    ensures UniquePaymentIds(b)
  {
    forall i, j | 0 <= i < j < |b| ensures b[i].id != b[j].id {
      assert SameRow(a[i], b[i], x) && SameRow(a[j], b[j], x);
    }
  }

  /** Applying one run of captures, then a second, applies the two as one. */
  lemma ApplyTwice(db: Db, first: Charged, second: Charged)
    requires first.err.None?
    ensures ApplyCharges(ApplyCharges(db, first).db, second)
            == ApplyCharges(db, second.(events := first.events + second.events))
  {
    assert db.captureEvents + first.events + second.events == db.captureEvents + (first.events + second.events);
  }

  /** A run of captures with `done` already made before it. */
  function AfterEvents(done: seq<CaptureEvent>, c: Charged): (r: Charged)
    ensures r.payments == c.payments && r.err == c.err && |r.events| == |done| + |c.events|
  {
    c.(events := done + c.events)
  }

  lemma AfterEventsNone(done: seq<CaptureEvent>, c: Charged)
    requires c.events == []
    ensures AfterEvents(done, c) == Charged(c.payments, done, c.err)
  {
    assert done + [] == done;
  }

  lemma AfterEventsStep(done: seq<CaptureEvent>, e: CaptureEvent, c: Charged)
    ensures AfterEvents(done, c.(events := [e] + c.events)) == AfterEvents(done + [e], c)
  {
    assert done + ([e] + c.events) == (done + [e]) + c.events;
  }
}
