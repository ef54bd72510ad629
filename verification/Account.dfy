/** The account invariant: what every sequence of ledger writes keeps about rows,
    lots and allocations, and what follows for balances. */
module Account {
  import opened Ledger

  // ----- totals of one user

  function Credited(l: seq<Entry>, u: UserId): nat {
    if l == [] then 0
    else Credited(l[..|l| - 1], u) + if l[|l| - 1].user == u then LotAmount(l[|l| - 1]) else 0
  }

  function Spent(l: seq<Entry>, u: UserId): nat {
    if l == [] then 0
    else Spent(l[..|l| - 1], u) + if l[|l| - 1].user == u then SpendAmount(l[|l| - 1]) else 0
  }

  function RefundedFrom(l: seq<Entry>, u: UserId): nat {
    if l == [] then 0
    else RefundedFrom(l[..|l| - 1], u)
         + if l[|l| - 1].user == u && l[|l| - 1].RefundDebit? then l[|l| - 1].amount else 0
  }

  predicate LotOf(l: seq<Entry>, i: nat, u: UserId)
    requires i < |l|
  {
    IsLot(l[i]) && l[i].user == u
  }

  /** Allocations drawn on the user's lots among the first `n` rows. */
  function UsedBy(l: seq<Entry>, a: seq<Allocation>, u: UserId, n: nat): nat
    requires n <= |l|
  {
    if n == 0 then 0 else UsedBy(l, a, u, n - 1) + if LotOf(l, n - 1, u) then Used(a, n - 1) else 0
  }

  /** Refund debits charged against the user's lots among the first `n` rows. */
  function ChargedTo(l: seq<Entry>, u: UserId, n: nat): nat
    requires n <= |l|
  {
    if n == 0 then 0 else ChargedTo(l, u, n - 1) + if LotOf(l, n - 1, u) then Charged(l, n - 1) else 0
  }

  // ----- the invariant

  predicate UniqueKeys(l: seq<Entry>) {
    forall i, j :: 0 <= i < j < |l| ==> KeyOf(l[i]) != KeyOf(l[j])
  }

  predicate IsCredit(e: Entry, o: OrderId, u: UserId) {
    e.PaymentCredit? && e.order == o && e.user == u
  }

  predicate Credits(l: seq<Entry>, o: OrderId, u: UserId) {
    exists j :: 0 <= j < |l| && IsCredit(l[j], o, u)
  }

  /** A refund has a credit of the same order and user; a reversal takes back its whole bonus. */
  predicate Backed(l: seq<Entry>, e: Entry) {
    && (e.RefundDebit? ==> Credits(l, e.order, e.user))
    && (e.ReferralReversal? ==> e.credit < |l| && l[e.credit] == ReferralCredit(e.order, e.user, e.amount))
  }

  predicate RowsOk(l: seq<Entry>) {
    UniqueKeys(l) && forall i :: 0 <= i < |l| ==> Backed(l, l[i])
  }

  predicate AllocationOk(l: seq<Entry>, x: Allocation) {
    x.credit < |l| && x.debit < |l| && IsLot(l[x.credit]) && l[x.credit].user == l[x.debit].user
  }

  predicate LotsOk(l: seq<Entry>, a: seq<Allocation>) {
    && (forall k :: 0 <= k < |a| ==> AllocationOk(l, a[k]))
    && (forall i :: 0 <= i < |l| && IsLot(l[i]) ==> Used(a, i) <= LotAmount(l[i]))
    && (forall j :: 0 <= j < |l| ==> CoveredBy(a, j) == SpendAmount(l[j]))
  }

  ghost predicate TotalsOk(l: seq<Entry>, a: seq<Allocation>) {
    forall u :: UsedBy(l, a, u, |l|) == Spent(l, u) && ChargedTo(l, u, |l|) == RefundedFrom(l, u)
  }

  ghost predicate AccountOk(l: seq<Entry>, a: seq<Allocation>) {
    RowsOk(l) && LotsOk(l, a) && TotalsOk(l, a)
  }

  // ----- consequences

  lemma {:induction false} PositionSplits(l: seq<Entry>, u: UserId)
    ensures Position(l, u) == Credited(l, u) - Spent(l, u) - Clawed(l, u)
    ensures RefundedFrom(l, u) <= Clawed(l, u)
  {
    if l != [] { PositionSplits(l[..|l| - 1], u); }
  }

  lemma {:induction false} UsedWithinCredited(l: seq<Entry>, a: seq<Allocation>, u: UserId, n: nat)
    requires LotsOk(l, a) && n <= |l|
    ensures UsedBy(l, a, u, n) <= Credited(l[..n], u)
  {
    if n > 0 {
      UsedWithinCredited(l, a, u, n - 1);
      assert l[..n][..n - 1] == l[..n - 1];
    }
  }

  /** Only refunds and reversals can take an account below zero. */
  lemma OnlyClawbacksOverdraw(l: seq<Entry>, a: seq<Allocation>, u: UserId)
    requires AccountOk(l, a)
    ensures Position(l, u) + Clawed(l, u) >= 0
  {
    PositionSplits(l, u);
    UsedWithinCredited(l, a, u, |l|);
    assert l[..|l|] == l;
  }

  lemma SpendablePush(l: seq<Entry>, a: seq<Allocation>, lots: seq<nat>, i: nat)
    requires (forall k :: 0 <= k < |lots| ==> lots[k] < |l|) && i < |l|
    ensures Spendable(l, a, lots + [i]) == Spendable(l, a, lots) + Max(0, Capacity(l, a, i))
  {
    assert (lots + [i])[..|lots|] == lots;
  }

  /** What the user's lots of one kind among the first `n` rows can still pay for. */
  function SpendableOf(l: seq<Entry>, a: seq<Allocation>, u: UserId, bonus: bool, n: nat): nat
    requires n <= |l|
  {
    Spendable(l, a, LotsOf(l, u, bonus, n))
  }

  lemma SpendableStep(l: seq<Entry>, a: seq<Allocation>, u: UserId, bonus: bool, n: nat)
    requires n < |l|
    ensures SpendableOf(l, a, u, bonus, n + 1) == SpendableOf(l, a, u, bonus, n)
            + if LotOf(l, n, u) && IsBonusLot(l[n]) == bonus then Max(0, Capacity(l, a, n)) else 0
  {
    var lots := LotsOf(l, u, bonus, n);
    SpendablePush(l, a, lots, n);
    assert lots + [] == lots;
  }

  /** What the user's lots among the first `n` rows hold before anything is clamped at zero. */
  function Unclamped(l: seq<Entry>, a: seq<Allocation>, u: UserId, n: nat): int
    requires n <= |l|
  {
    if n == 0 then 0 else Unclamped(l, a, u, n - 1) + if LotOf(l, n - 1, u) then Capacity(l, a, n - 1) else 0
  }

  lemma {:induction false} SpendableCovers(l: seq<Entry>, a: seq<Allocation>, u: UserId, n: nat)
    requires n <= |l|
    ensures SpendableOf(l, a, u, true, n) + SpendableOf(l, a, u, false, n) >= Unclamped(l, a, u, n)
  {
    hide SpendableOf, Capacity, LotsOf, Spendable, LotOf, IsBonusLot;
    if n > 0 {
      SpendableCovers(l, a, u, n - 1);
      SpendableStep(l, a, u, true, n - 1);
      SpendableStep(l, a, u, false, n - 1);
    }
  }

  lemma {:induction false} UnclampedSplits(l: seq<Entry>, a: seq<Allocation>, u: UserId, n: nat)
    requires n <= |l|
    ensures Unclamped(l, a, u, n) == Credited(l[..n], u) - UsedBy(l, a, u, n) - ChargedTo(l, u, n)
  {
    if n > 0 {
      UnclampedSplits(l, a, u, n - 1);
      assert l[..n][..n - 1] == l[..n - 1];
    }
  }

  lemma {:induction false} SpendableConcat(l: seq<Entry>, a: seq<Allocation>, p: seq<nat>, q: seq<nat>)
    requires forall k :: 0 <= k < |p| ==> p[k] < |l|
    requires forall k :: 0 <= k < |q| ==> q[k] < |l|
    ensures Spendable(l, a, p + q) == Spendable(l, a, p) + Spendable(l, a, q)
  {
    if q == [] {
      assert p + q == p;
    } else {
      SpendableConcat(l, a, p, q[..|q| - 1]);
      assert (p + q)[..|p + q| - 1] == p + q[..|q| - 1];
    }
  }

  /** A balance always has the credit lots behind it, whatever was refunded or reversed before. */
  lemma BalanceHasLots(l: seq<Entry>, a: seq<Allocation>, u: UserId)
    requires AccountOk(l, a)
    ensures Spendable(l, a, FifoLots(l, u)) >= Position(l, u)
  {
    SpendableCovers(l, a, u, |l|);
    UnclampedSplits(l, a, u, |l|);
    SpendableConcat(l, a, LotsOf(l, u, true, |l|), LotsOf(l, u, false, |l|));
    PositionSplits(l, u);
    assert l[..|l|] == l;
  }

  // ----- appending a row

  lemma {:induction false} UsedFresh(a: seq<Allocation>, n: nat)
    requires forall k :: 0 <= k < |a| ==> a[k].credit < n && a[k].debit < n
    ensures Used(a, n) == 0 && CoveredBy(a, n) == 0
  {
    if a != [] { UsedFresh(a[..|a| - 1], n); }
  }

  lemma {:induction false} UsedByPrefix(l: seq<Entry>, e: Entry, a: seq<Allocation>, u: UserId, n: nat)
    requires n <= |l|
    ensures UsedBy(l + [e], a, u, n) == UsedBy(l, a, u, n)
  {
    if n > 0 { UsedByPrefix(l, e, a, u, n - 1); }
  }

  lemma {:induction false} NoRefunds(l: seq<Entry>, o: OrderId)
    requires forall i :: 0 <= i < |l| ==> !(l[i].RefundDebit? && l[i].order == o)
    ensures RefundTotal(l, o) == 0
  {
    if l != [] { NoRefunds(l[..|l| - 1], o); }
  }

  /** A new row that is no refund charges no earlier lot. */
  lemma {:induction false} ChargedPrefix(l: seq<Entry>, e: Entry, u: UserId, n: nat)
    requires n <= |l| && !e.RefundDebit?
    ensures ChargedTo(l + [e], u, n) == ChargedTo(l, u, n)
  {
    if n > 0 {
      ChargedPrefix(l, e, u, n - 1);
      assert (l + [e])[..|l|] == l;
    }
  }

  /** A new refund charges exactly the one lot of its order, when that is among the first `n`. */
  lemma {:induction false} ChargedByRefund(l: seq<Entry>, e: Entry, k: nat, u: UserId, n: nat)
    requires n <= |l| && e.RefundDebit? && UniqueKeys(l)
    requires k < |l| && l[k].PaymentCredit? && l[k].order == e.order
    ensures ChargedTo(l + [e], u, n) == ChargedTo(l, u, n) + if k < n && l[k].user == u then e.amount else 0
  {
    if n > 0 {
      ChargedByRefund(l, e, k, u, n - 1);
      assert (l + [e])[..|l|] == l;
      if n - 1 != k && l[n - 1].PaymentCredit? {
        var i, j := if k < n - 1 then k else n - 1, if k < n - 1 then n - 1 else k;
        assert KeyOf(l[i]) != KeyOf(l[j]);
      }
    }
  }

  lemma BackedLater(l: seq<Entry>, e: Entry, x: Entry)
    requires Backed(l, x)
    ensures Backed(l + [e], x)
  {
    if x.RefundDebit? {
      var j :| 0 <= j < |l| && IsCredit(l[j], x.order, x.user);
      assert IsCredit((l + [e])[j], x.order, x.user);
    }
  }

  lemma RowsAppend(l: seq<Entry>, e: Entry)
    requires RowsOk(l) && !HasKey(l, KeyOf(e)) && Backed(l, e)
    ensures RowsOk(l + [e])
  {
    forall i | 0 <= i < |l + [e]| ensures Backed(l + [e], (l + [e])[i]) {
      BackedLater(l, e, (l + [e])[i]);
    }
  }

  /** The refund total of an order whose credit is not yet written is zero. */
  lemma UncreditedIsUncharged(l: seq<Entry>, o: OrderId)
    requires RowsOk(l) && !HasKey(l, OrderCredit(o))
    ensures RefundTotal(l, o) == 0
  {
    NoRefunds(l, o);
  }

  lemma AppendTotals(l: seq<Entry>, a: seq<Allocation>, e: Entry, u: UserId)
    requires AccountOk(l, a) && !HasKey(l, KeyOf(e)) && Backed(l, e)
    ensures UsedBy(l + [e], a, u, |l| + 1) == Spent(l, u)
    ensures ChargedTo(l + [e], u, |l| + 1) == RefundedFrom(l + [e], u)
  {
    var l' := l + [e];
    assert l'[..|l|] == l;
    UsedFresh(a, |l|);
    UsedByPrefix(l, e, a, u, |l|);
    if e.RefundDebit? {
      var k :| 0 <= k < |l| && IsCredit(l[k], e.order, e.user);
      ChargedByRefund(l, e, k, u, |l|);
    } else {
      ChargedPrefix(l, e, u, |l|);
      if e.PaymentCredit? { UncreditedIsUncharged(l, e.order); }
    }
  }

  /** Writing any row that spends nothing keeps the account in order. */
  lemma AppendKeeps(l: seq<Entry>, a: seq<Allocation>, e: Entry)
    requires AccountOk(l, a) && !HasKey(l, KeyOf(e)) && Backed(l, e) && SpendAmount(e) == 0
    ensures AccountOk(l + [e], a)
  {
    var l' := l + [e];
    RowsAppend(l, e);
    UsedFresh(a, |l|);
    forall u ensures UsedBy(l', a, u, |l'|) == Spent(l', u) && ChargedTo(l', u, |l'|) == RefundedFrom(l', u) {
      AppendTotals(l, a, e, u);
      assert l'[..|l|] == l;
    }
    forall k | 0 <= k < |a| ensures AllocationOk(l', a[k]) { assert AllocationOk(l, a[k]); }
  }
}
