/**
  The money side of the booking service: the stay total, the ADVANCE ledger entry
  that create and update write, and the paid sum of the booking list.
*/
module Ledger {
  import opened Wrappers
  import opened Entities

  function Sum(xs: seq<Money>): Money {
    if |xs| == 0 then 0 else xs[0] + Sum(xs[1..])
  }

  lemma {:induction false} SumConcat(a: seq<Money>, b: seq<Money>)
    ensures Sum(a + b) == Sum(a) + Sum(b)
  {
    if |a| == 0 {
      assert a + b == b;
    } else {
      assert (a + b)[1..] == a[1..] + b;
      SumConcat(a[1..], b);
    }
  }

  /** The additional charges' amounts reduced with BigDecimal.add; a null or empty list adds nothing. */
  function ChargesSum(charges: Option<seq<Money>>): Money {
    match charges
    case None => 0
    case Some(xs) => Sum(xs)
  }

  /** nightly rate × (checkOut − checkIn in epoch days) + Σ additional charges. */
  function StayTotal(rate: Money, checkIn: Day, checkOut: Day, charges: Option<seq<Money>>): Money {
    rate * (checkOut - checkIn) + ChargesSum(charges)
  }

  /** A rate of 100 for two nights with one extra charge of 25 costs 225. */
  lemma StayTotalExample()
    ensures StayTotal(100, 20452, 20454, Some([25])) == 225
  {
  }

  /** Each additional charge adds its amount to the total, and an empty list adds nothing. */
  lemma ChargeAddsToTotal(rate: Money, checkIn: Day, checkOut: Day, charges: seq<Money>, amount: Money)
    ensures StayTotal(rate, checkIn, checkOut, Some(charges + [amount]))
         == StayTotal(rate, checkIn, checkOut, Some(charges)) + amount
    ensures StayTotal(rate, checkIn, checkOut, Some([])) == StayTotal(rate, checkIn, checkOut, None)
         == rate * (checkOut - checkIn)
  {
    SumConcat(charges, [amount]);
    assert Sum([amount]) == amount + Sum([]);
  }

  /** A fresh ADVANCE entry: the advance paid, and what the total leaves pending. */
  function NewAdvance(advance: Money, paidBy: Option<string>, total: Money): (p: Payment)
    ensures p.kind == ADVANCE && p.advanceAmount == Some(advance)
    ensures p.pendingAmount == Some(total - advance) && p.paidBy == paidBy
  {
    Payment(ADVANCE, Some(advance), Some(total - advance), paidBy)
  }

  /** The position of the first entry of kind ADVANCE in ledger order, if any (BookingService.java:137-139, 206-208). */
  function FirstAdvance(ps: seq<Payment>): (r: Option<nat>)
    ensures r.Some? ==> r.value < |ps| && ps[r.value].kind == ADVANCE
    ensures r.Some? ==> forall j :: 0 <= j < r.value ==> ps[j].kind != ADVANCE
    ensures r.None? ==> forall j :: 0 <= j < |ps| ==> ps[j].kind != ADVANCE
  {
    if |ps| == 0 then None
    else if ps[0].kind == ADVANCE then Some(0)
    else match FirstAdvance(ps[1..])
      case None => None
      case Some(k) => Some(k + 1)
  }

  /** The number of ADVANCE entries in a ledger. */
  function AdvanceCount(ps: seq<Payment>): nat {
    if |ps| == 0 then 0 else (if ps[0].kind == ADVANCE then 1 else 0) + AdvanceCount(ps[1..])
  }

  /**
    The update's ledger step: with no advance amount the ledger is untouched; otherwise
    the first ADVANCE entry gets the new amount, the pending amount left by `total`,
    and the payment method when one is given, or, when there is no ADVANCE entry,
    one new entry is appended.
  */
  function AmendAdvance(ps: seq<Payment>, advance: Option<Money>, paidBy: Option<string>, total: Money): (r: seq<Payment>)
    ensures advance.None? ==> r == ps
    ensures |ps| <= |r| <= |ps| + 1
    ensures |r| == |ps| + 1 <==> advance.Some? && FirstAdvance(ps).None?
    ensures forall k :: 0 <= k < |ps| ==> r[k].kind == ps[k].kind
    ensures advance.Some? ==>
              && FirstAdvance(r).Some?
              && var i := FirstAdvance(r).value;
              && r[i].advanceAmount == advance
              && r[i].pendingAmount == Some(total - advance.value)
              && r[i].paidBy == (if paidBy.Some? || i == |ps| then paidBy else ps[i].paidBy)
              && forall j :: 0 <= j < |ps| && j != i ==> r[j] == ps[j]
  {
    match advance
    case None => ps
    case Some(a) =>
      match FirstAdvance(ps)
      case Some(i) =>
        var amended := ps[i].(advanceAmount := Some(a), pendingAmount := Some(total - a), paidBy := Override(paidBy, ps[i].paidBy));
        var r := ps[i := amended];
        SameKindsSameFirstAdvance(ps, r);
        r
      case None =>
        var r := ps + [NewAdvance(a, paidBy, total)];
        FirstAdvanceOfAppended(ps, NewAdvance(a, paidBy, total));
        r
  }

  /** Appending an ADVANCE entry to a ledger without one makes it the first. */
  lemma {:induction false} FirstAdvanceOfAppended(ps: seq<Payment>, p: Payment)
    requires forall j :: 0 <= j < |ps| ==> ps[j].kind != ADVANCE
    requires p.kind == ADVANCE
    ensures FirstAdvance(ps + [p]) == Some(|ps|)
  {
    if |ps| == 0 {
      assert ps + [p] == [p];
    } else {
      assert (ps + [p])[1..] == ps[1..] + [p];
      FirstAdvanceOfAppended(ps[1..], p);
    }
  }

  /** Ledgers with the same entry kinds have their first ADVANCE entry at the same place. */
  lemma SameKindsSameFirstAdvance(a: seq<Payment>, b: seq<Payment>)
    requires |a| == |b|
    requires forall k :: 0 <= k < |a| ==> a[k].kind == b[k].kind
    ensures FirstAdvance(a) == FirstAdvance(b)
  {
  }

  lemma {:induction false} AdvanceCountConcat(a: seq<Payment>, b: seq<Payment>)
    ensures AdvanceCount(a + b) == AdvanceCount(a) + AdvanceCount(b)
  {
    if |a| == 0 {
      assert a + b == b;
    } else {
      assert (a + b)[1..] == a[1..] + b;
      AdvanceCountConcat(a[1..], b);
    }
  }

  lemma {:induction false} AdvanceCountSameKinds(a: seq<Payment>, b: seq<Payment>)
    requires |a| == |b|
    requires forall k :: 0 <= k < |a| ==> a[k].kind == b[k].kind
    ensures AdvanceCount(a) == AdvanceCount(b)
  {
    if |a| != 0 {
      AdvanceCountSameKinds(a[1..], b[1..]);
    }
  }

  /** A ledger without an ADVANCE entry has an ADVANCE count of zero. */
  lemma {:induction false} NoAdvanceCountsZero(ps: seq<Payment>)
    requires forall j :: 0 <= j < |ps| ==> ps[j].kind != ADVANCE
    ensures AdvanceCount(ps) == 0
  {
    if |ps| != 0 {
      NoAdvanceCountsZero(ps[1..]);
    }
  }

  /**
    Amending the advance never creates a second ADVANCE entry: a ledger with at most
    one keeps at most one, and a supplied advance leaves exactly one when there was at most one.
  */
  lemma AmendAdvanceKeepsOneAdvance(ps: seq<Payment>, advance: Option<Money>, paidBy: Option<string>, total: Money)
    requires AdvanceCount(ps) <= 1
    ensures AdvanceCount(AmendAdvance(ps, advance, paidBy, total)) <= 1
    ensures advance.Some? ==> AdvanceCount(AmendAdvance(ps, advance, paidBy, total)) == 1
  {
    var r := AmendAdvance(ps, advance, paidBy, total);
    if advance.Some? {
      if FirstAdvance(ps).Some? {
        AdvanceCountSameKinds(ps, r);
        var i := FirstAdvance(ps).value;
        assert ps == ps[..i] + ([ps[i]] + ps[i + 1..]);
        AdvanceCountConcat(ps[..i], [ps[i]] + ps[i + 1..]);
        AdvanceCountConcat([ps[i]], ps[i + 1..]);
        assert AdvanceCount([ps[i]]) == 1 + AdvanceCount([ps[i]][1..]);
      } else {
        NoAdvanceCountsZero(ps);
        AdvanceCountConcat(ps, [r[|ps|]]);
        assert r == ps + [r[|ps|]];
        assert AdvanceCount([r[|ps|]]) == 1 + AdvanceCount([r[|ps|]][1..]);
      }
    }
  }

  /** The paid sum of a ledger: every entry's advance amount, a null amount counting as 0. */
  function TotalPaid(ps: seq<Payment>): Money {
    if |ps| == 0 then 0 else ps[0].advanceAmount.GetOr(0) + TotalPaid(ps[1..])
  }

  lemma {:induction false} TotalPaidConcat(a: seq<Payment>, b: seq<Payment>)
    ensures TotalPaid(a + b) == TotalPaid(a) + TotalPaid(b)
  {
    if |a| == 0 {
      assert a + b == b;
    } else {
      assert (a + b)[1..] == a[1..] + b;
      TotalPaidConcat(a[1..], b);
    }
  }

  /** Replacing one entry changes the paid sum by the difference of the two entries' advance amounts. */
  lemma TotalPaidReplace(ps: seq<Payment>, i: nat, p: Payment)
    requires i < |ps|
    ensures TotalPaid(ps[i := p]) == TotalPaid(ps) - ps[i].advanceAmount.GetOr(0) + p.advanceAmount.GetOr(0)
  {
    var qs := ps[i := p];
    assert ps == ps[..i] + ([ps[i]] + ps[i + 1..]);
    assert qs == ps[..i] + ([p] + ps[i + 1..]);
    TotalPaidConcat(ps[..i], [ps[i]] + ps[i + 1..]);
    TotalPaidConcat([ps[i]], ps[i + 1..]);
    TotalPaidConcat(ps[..i], [p] + ps[i + 1..]);
    TotalPaidConcat([p], ps[i + 1..]);
    assert TotalPaid([ps[i]]) == ps[i].advanceAmount.GetOr(0) + TotalPaid([ps[i]][1..]);
    assert TotalPaid([p]) == p.advanceAmount.GetOr(0) + TotalPaid([p][1..]);
  }

  /**
    After the ledger step of an update with advance `a`, the paid sum is the old one
    with the first ADVANCE entry's amount replaced by `a` (or with `a` added when
    there was no such entry).
  */
  lemma AmendAdvancePaid(ps: seq<Payment>, a: Money, paidBy: Option<string>, total: Money)
    ensures TotalPaid(AmendAdvance(ps, Some(a), paidBy, total))
         == TotalPaid(ps) + a - (match FirstAdvance(ps) case None => 0 case Some(i) => ps[i].advanceAmount.GetOr(0))
  {
    var r := AmendAdvance(ps, Some(a), paidBy, total);
    match FirstAdvance(ps)
    case Some(i) =>
      TotalPaidReplace(ps, i, r[i]);
      assert r == ps[i := r[i]];
    case None =>
      assert r == ps + [r[|ps|]];
      TotalPaidConcat(ps, [r[|ps|]]);
      assert TotalPaid([r[|ps|]]) == a + TotalPaid([r[|ps|]][1..]);
  }
}
