/** FIFO attribution of a debit to credit lots: `_allocate_fifo` as a loop, what it
    draws, and why it never runs dry while the balance covers the debit. */
module Fifo {
  import opened Ledger
  import opened Account

  /** The allocation rows written for a debit and what could not be placed. */
  datatype Draw = Draw(rows: seq<Allocation>, left: nat)

  predicate Lots(l: seq<Entry>, lots: seq<nat>) {
    forall k :: 0 <= k < |lots| ==> lots[k] < |l|
  }

  predicate Distinct(lots: seq<nat>) {
    forall j, k :: 0 <= j < k < |lots| ==> lots[j] != lots[k]
  }

  /** Draw from the lots in order, each at most to its capacity before this debit. */
  function Allocate(l: seq<Entry>, a: seq<Allocation>, lots: seq<nat>, debit: nat, amount: nat): Draw
    requires Lots(l, lots)
  {
    if lots == [] then Draw([], amount)
    else
      var d := Allocate(l, a, lots[..|lots| - 1], debit, amount);
      var lot := lots[|lots| - 1];
      var room := Max(0, Capacity(l, a, lot));
      var chunk := if room < d.left then room else d.left;
      if chunk == 0 then d else Draw(d.rows + [Allocation(lot, debit, chunk)], d.left - chunk)
  }

  /** The loop stops as soon as nothing remains; its result is the full pass. */
  method AllocateFifo(l: seq<Entry>, a: seq<Allocation>, u: UserId, debit: nat, amount: nat) returns (d: Draw)
    ensures d == Allocate(l, a, FifoLots(l, u), debit, amount)
  {
    var lots := FifoLots(l, u);
    var rows, remaining, k := [], amount, 0;
    while k < |lots| && remaining > 0
      invariant 0 <= k <= |lots| && 0 <= remaining
      invariant Draw(rows, remaining) == Allocate(l, a, lots[..k], debit, amount)
    {
      assert lots[..k + 1][..k] == lots[..k];
      var room := Max(0, Capacity(l, a, lots[k]));
      var chunk := if room < remaining then room else remaining;
      if chunk > 0 {
        rows := rows + [Allocation(lots[k], debit, chunk)];
        remaining := remaining - chunk;
      }
      k := k + 1;
    }
    d := Draw(rows, remaining);
    if k < |lots| { NothingLeftToDraw(l, a, lots, k, debit, amount); }
    assert lots[..|lots|] == lots;
  }

  lemma {:induction false} NothingLeftToDraw(
    l: seq<Entry>, a: seq<Allocation>, lots: seq<nat>, k: nat, debit: nat, amount: nat)
    requires Lots(l, lots) && k <= |lots| && Allocate(l, a, lots[..k], debit, amount).left == 0
    ensures Allocate(l, a, lots, debit, amount) == Allocate(l, a, lots[..k], debit, amount)
  {
    if k == |lots| {
      assert lots[..k] == lots;
    } else {
      var rest := lots[..|lots| - 1];
      assert rest[..k] == lots[..k];
      NothingLeftToDraw(l, a, rest, k, debit, amount);
    }
  }

  // ----- what a draw is

  lemma AllocatePush(l: seq<Entry>, a: seq<Allocation>, pre: seq<nat>, lot: nat, debit: nat, amount: nat)
    requires Lots(l, pre) && lot < |l|
    ensures var d, d' := Allocate(l, a, pre, debit, amount), Allocate(l, a, pre + [lot], debit, amount);
            && d'.left == Max(0, d.left - Max(0, Capacity(l, a, lot)))
            && CoveredBy(d'.rows, debit) == CoveredBy(d.rows, debit) + d.left - d'.left
  {
    assert (pre + [lot])[..|pre|] == pre;
    var d, d' := Allocate(l, a, pre, debit, amount), Allocate(l, a, pre + [lot], debit, amount);
    if d' != d { assert d'.rows[..|d'.rows| - 1] == d.rows; }
  }

  lemma {:induction false} DrawTotals(l: seq<Entry>, a: seq<Allocation>, lots: seq<nat>, debit: nat, amount: nat)
    requires Lots(l, lots)
    ensures Allocate(l, a, lots, debit, amount).left == Max(0, amount - Spendable(l, a, lots))
    ensures CoveredBy(Allocate(l, a, lots, debit, amount).rows, debit)
            == amount - Allocate(l, a, lots, debit, amount).left
  {
    if lots != [] {
      hide Allocate, Spendable, Capacity;
      var pre, lot := lots[..|lots| - 1], lots[|lots| - 1];
      assert lots == pre + [lot];
      DrawTotals(l, a, pre, debit, amount);
      AllocatePush(l, a, pre, lot, debit, amount);
      SpendablePush(l, a, pre, lot);
    }
  }

  lemma {:induction false} DrawRows(l: seq<Entry>, a: seq<Allocation>, lots: seq<nat>, debit: nat, amount: nat)
    requires Lots(l, lots)
    ensures forall x :: x in Allocate(l, a, lots, debit, amount).rows ==> x.debit == debit && x.credit in lots
  {
    if lots != [] {
      DrawRows(l, a, lots[..|lots| - 1], debit, amount);
      assert lots == lots[..|lots| - 1] + [lots[|lots| - 1]];
    }
  }

  /** A draw takes what the lots can give, all of it for this debit and from these lots. */
  lemma DrawIsExact(l: seq<Entry>, a: seq<Allocation>, lots: seq<nat>, debit: nat, amount: nat)
    requires Lots(l, lots)
    ensures var d := Allocate(l, a, lots, debit, amount);
            && d.left == Max(0, amount - Spendable(l, a, lots))
            && CoveredBy(d.rows, debit) == amount - d.left
            && forall k :: 0 <= k < |d.rows| ==> d.rows[k].debit == debit && d.rows[k].credit in lots
  {
    DrawTotals(l, a, lots, debit, amount);
    DrawRows(l, a, lots, debit, amount);
  }

  lemma {:induction false} DrawWithinCapacity(
    l: seq<Entry>, a: seq<Allocation>, lots: seq<nat>, debit: nat, amount: nat, i: nat)
    requires Lots(l, lots) && Distinct(lots)
    ensures Used(Allocate(l, a, lots, debit, amount).rows, i)
            <= if i in lots && i < |l| then Max(0, Capacity(l, a, i)) else 0
  {
    hide Capacity;
    if lots != [] {
      var pre := lots[..|lots| - 1];
      DrawWithinCapacity(l, a, pre, debit, amount, i);
      var d := Allocate(l, a, pre, debit, amount);
      var d' := Allocate(l, a, lots, debit, amount);
      assert lots == pre + [lots[|lots| - 1]];
      if d' != d { assert d'.rows[..|d'.rows| - 1] == d.rows; }
    }
  }

  lemma {:induction false} SumsConcat(a: seq<Allocation>, b: seq<Allocation>, i: nat)
    ensures Used(a + b, i) == Used(a, i) + Used(b, i)
    ensures CoveredBy(a + b, i) == CoveredBy(a, i) + CoveredBy(b, i)
  {
    if b == [] {
      assert a + b == a;
    } else {
      SumsConcat(a, b[..|b| - 1], i);
      assert (a + b)[..|a + b| - 1] == a + b[..|b| - 1];
    }
  }

  lemma {:induction false} UsedByPush(l: seq<Entry>, a: seq<Allocation>, x: Allocation, u: UserId, n: nat)
    requires n <= |l|
    ensures UsedBy(l, a + [x], u, n)
            == UsedBy(l, a, u, n) + if x.credit < n && LotOf(l, x.credit, u) then x.amount else 0
  {
    if n > 0 {
      UsedByPush(l, a, x, u, n - 1);
      assert (a + [x])[..|a|] == a;
    }
  }

  /** Rows that all draw on one user's lots for one debit raise that user's usage by their total. */
  lemma {:induction false} UsedByDraw(
    l: seq<Entry>, a: seq<Allocation>, rows: seq<Allocation>, debit: nat, owner: UserId, u: UserId)
    requires forall k :: 0 <= k < |rows| ==>
               rows[k].debit == debit && rows[k].credit < |l| && LotOf(l, rows[k].credit, owner)
    ensures UsedBy(l, a + rows, u, |l|) == UsedBy(l, a, u, |l|) + if u == owner then CoveredBy(rows, debit) else 0
  {
    if rows == [] {
      assert a + rows == a;
    } else {
      var pre, x := rows[..|rows| - 1], rows[|rows| - 1];
      UsedByDraw(l, a, pre, debit, owner, u);
      assert a + rows == a + pre + [x];
      UsedByPush(l, a + pre, x, u, |l|);
    }
  }

  // ----- a debit row and its allocations

  lemma {:induction false} LotsUnchanged(l: seq<Entry>, e: Entry, u: UserId, bonus: bool, n: nat)
    requires n <= |l|
    ensures LotsOf(l + [e], u, bonus, n) == LotsOf(l, u, bonus, n)
  {
    if n > 0 { LotsUnchanged(l, e, u, bonus, n - 1); }
  }

  lemma {:induction false} SpendableUnchanged(l: seq<Entry>, e: Entry, a: seq<Allocation>, lots: seq<nat>)
    requires Lots(l, lots) && !e.RefundDebit?
    ensures Spendable(l + [e], a, lots) == Spendable(l, a, lots)
  {
    if lots != [] {
      SpendableUnchanged(l, e, a, lots[..|lots| - 1]);
      assert (l + [e])[..|l|] == l;
    }
  }

  /** Writing the debit row itself does not change what there is to draw on. */
  lemma DebitLeavesLots(l: seq<Entry>, e: Entry, a: seq<Allocation>, u: UserId)
    requires !IsLot(e) && !e.RefundDebit?
    ensures FifoLots(l + [e], u) == FifoLots(l, u)
    ensures Spendable(l + [e], a, FifoLots(l + [e], u)) == Spendable(l, a, FifoLots(l, u))
  {
    LotsUnchanged(l, e, u, true, |l|);
    LotsUnchanged(l, e, u, false, |l|);
    assert FifoLots(l + [e], u) == FifoLots(l, u);
    SpendableUnchanged(l, e, a, FifoLots(l, u));
  }

  /** The allocation pass for a debit row just written at the end of the ledger. */
  function DrawFor(l: seq<Entry>, a: seq<Allocation>, e: Entry): Draw {
    Allocate(l + [e], a, FifoLots(l + [e], e.user), |l|, SpendAmount(e))
  }

  lemma LotsInRange(l: seq<Entry>, u: UserId)
    ensures Lots(l, FifoLots(l, u))
  {
  }

  /** A debit within the balance is always placed completely: no debit dies for lack of lots. */
  lemma CoveredDebitIsPlaced(l: seq<Entry>, a: seq<Allocation>, e: Entry)
    requires AccountOk(l, a) && SpendAmount(e) > 0 && SpendAmount(e) <= Position(l, e.user)
    ensures DrawFor(l, a, e).left == 0
  {
    hide AccountOk, FifoLots, Allocate, Spendable;
    BalanceHasLots(l, a, e.user);
    DebitLeavesLots(l, e, a, e.user);
    LotsInRange(l + [e], e.user);
    DrawIsExact(l + [e], a, FifoLots(l + [e], e.user), |l|, SpendAmount(e));
  }

  lemma SpendUsed(l: seq<Entry>, a: seq<Allocation>, e: Entry, i: nat)
    requires AccountOk(l, a) && SpendAmount(e) > 0 && i < |l| + 1 && IsLot((l + [e])[i])
    ensures Used(a + DrawFor(l, a, e).rows, i) <= LotAmount((l + [e])[i])
  {
    hide Allocate, Spendable, RowsOk, TotalsOk;
    var l', lots := l + [e], FifoLots(l + [e], e.user);
    SumsConcat(a, DrawFor(l, a, e).rows, i);
    DrawWithinCapacity(l', a, lots, |l|, SpendAmount(e), i);
    UsedFresh(a, |l|);
  }

  lemma SpendCovered(l: seq<Entry>, a: seq<Allocation>, e: Entry, j: nat)
    requires AccountOk(l, a) && SpendAmount(e) > 0 && j < |l| + 1 && DrawFor(l, a, e).left == 0
    ensures CoveredBy(a + DrawFor(l, a, e).rows, j) == SpendAmount((l + [e])[j])
  {
    hide Allocate, Spendable, RowsOk, TotalsOk;
    var l', lots := l + [e], FifoLots(l + [e], e.user);
    var rows := DrawFor(l, a, e).rows;
    DrawIsExact(l', a, lots, |l|, SpendAmount(e));
    SumsConcat(a, rows, j);
    CoveredElsewhere(rows, |l|, j);
    UsedFresh(a, |l|);
  }

  lemma SpendAllocations(l: seq<Entry>, a: seq<Allocation>, e: Entry, k: nat)
    requires AccountOk(l, a) && SpendAmount(e) > 0 && k < |a| + |DrawFor(l, a, e).rows|
    ensures AllocationOk(l + [e], (a + DrawFor(l, a, e).rows)[k])
  {
    hide Allocate, Spendable, RowsOk, TotalsOk;
    var l', lots := l + [e], FifoLots(l + [e], e.user);
    DrawIsExact(l', a, lots, |l|, SpendAmount(e));
    if k < |a| { assert AllocationOk(l, a[k]); } else { assert DrawFor(l, a, e).rows[k - |a|].credit in lots; }
  }

  lemma SpendLots(l: seq<Entry>, a: seq<Allocation>, e: Entry)
    requires AccountOk(l, a) && SpendAmount(e) > 0
    requires !HasKey(l, KeyOf(e)) && DrawFor(l, a, e).left == 0
    ensures LotsOk(l + [e], a + DrawFor(l, a, e).rows)
  {
    hide DrawFor, AccountOk, AllocationOk;
    var l', all := l + [e], a + DrawFor(l, a, e).rows;
    forall k | 0 <= k < |all| ensures AllocationOk(l', all[k]) { SpendAllocations(l, a, e, k); }
    forall i | 0 <= i < |l'| && IsLot(l'[i]) ensures Used(all, i) <= LotAmount(l'[i]) { SpendUsed(l, a, e, i); }
    forall j | 0 <= j < |l'| ensures CoveredBy(all, j) == SpendAmount(l'[j]) { SpendCovered(l, a, e, j); }
  }

  lemma {:induction false} CoveredElsewhere(rows: seq<Allocation>, debit: nat, j: nat)
    requires forall k :: 0 <= k < |rows| ==> rows[k].debit == debit
    ensures j != debit ==> CoveredBy(rows, j) == 0
  {
    if rows != [] { CoveredElsewhere(rows[..|rows| - 1], debit, j); }
  }

  /** A debit row together with its complete allocation keeps the account in order. */
  lemma SpendKeeps(l: seq<Entry>, a: seq<Allocation>, e: Entry)
    requires AccountOk(l, a) && SpendAmount(e) > 0
    requires !HasKey(l, KeyOf(e)) && DrawFor(l, a, e).left == 0
    ensures AccountOk(l + [e], a + DrawFor(l, a, e).rows)
  {
    var l', lots := l + [e], FifoLots(l + [e], e.user);
    var rows := DrawFor(l, a, e).rows;
    RowsAppend(l, e);
    SpendLots(l, a, e);
    DrawIsExact(l', a, lots, |l|, SpendAmount(e));
    forall u
      ensures UsedBy(l', a + rows, u, |l'|) == Spent(l', u) && ChargedTo(l', u, |l'|) == RefundedFrom(l', u)
    {
      AppendTotals(l, a, e, u);
      UsedByDraw(l', a, rows, |l|, e.user, u);
      assert l'[..|l|] == l;
    }
  }

  // ----- oldest first

  lemma {:induction false} UsedElsewhere(
    l: seq<Entry>, a: seq<Allocation>, lots: seq<nat>, debit: nat, amount: nat, i: nat)
    requires Lots(l, lots) && i !in lots
    ensures Used(Allocate(l, a, lots, debit, amount).rows, i) == 0
  {
    if lots != [] {
      var pre := lots[..|lots| - 1];
      assert lots == pre + [lots[|pre|]];
      UsedElsewhere(l, a, pre, debit, amount, i);
      var d, d' := Allocate(l, a, pre, debit, amount), Allocate(l, a, lots, debit, amount);
      if d' != d { assert d'.rows[..|d'.rows| - 1] == d.rows; }
    }
  }

  /** One more lot gives what it can towards what is left, and the others are not touched. */
  lemma UsedPush(l: seq<Entry>, a: seq<Allocation>, pre: seq<nat>, lot: nat, debit: nat, amount: nat, i: nat)
    requires Lots(l, pre) && lot < |l| && lot !in pre
    ensures var d, d' := Allocate(l, a, pre, debit, amount), Allocate(l, a, pre + [lot], debit, amount);
            Used(d'.rows, i) == if i == lot then d.left - d'.left else Used(d.rows, i)
  {
    assert (pre + [lot])[..|pre|] == pre;
    if i == lot { UsedElsewhere(l, a, pre, debit, amount, i); }
    var d, d' := Allocate(l, a, pre, debit, amount), Allocate(l, a, pre + [lot], debit, amount);
    if d' != d { assert d'.rows[..|d'.rows| - 1] == d.rows; }
  }

  /** As long as something is left to place, every lot so far is used up. */
  lemma {:induction false} UsedUp(l: seq<Entry>, a: seq<Allocation>, lots: seq<nat>, debit: nat, amount: nat, p: nat)
    requires Lots(l, lots) && Distinct(lots) && p < |lots| && Allocate(l, a, lots, debit, amount).left > 0
    ensures Used(Allocate(l, a, lots, debit, amount).rows, lots[p]) == Max(0, Capacity(l, a, lots[p]))
  {
    hide Allocate, Capacity;
    var pre, lot := lots[..|lots| - 1], lots[|lots| - 1];
    assert lots == pre + [lot];
    AllocatePush(l, a, pre, lot, debit, amount);
    UsedPush(l, a, pre, lot, debit, amount, lots[p]);
    if p < |pre| { UsedUp(l, a, pre, debit, amount, p); }
  }

  lemma {:induction false} InOrder(
    l: seq<Entry>, a: seq<Allocation>, lots: seq<nat>, debit: nat, amount: nat, p: nat, q: nat)
    requires Lots(l, lots) && Distinct(lots) && p < q < |lots|
    requires Used(Allocate(l, a, lots, debit, amount).rows, lots[q]) > 0
    ensures Used(Allocate(l, a, lots, debit, amount).rows, lots[p]) == Max(0, Capacity(l, a, lots[p]))
  {
    hide Allocate, Capacity;
    var pre, lot := lots[..|lots| - 1], lots[|lots| - 1];
    assert lots == pre + [lot];
    AllocatePush(l, a, pre, lot, debit, amount);
    UsedPush(l, a, pre, lot, debit, amount, lots[p]);
    UsedPush(l, a, pre, lot, debit, amount, lots[q]);
    if q < |pre| { InOrder(l, a, pre, debit, amount, p, q); } else { UsedUp(l, a, pre, debit, amount, p); }
  }

  lemma {:induction false} PlaceOf(l: seq<Entry>, u: UserId, bonus: bool, n: nat, i: nat) returns (p: nat)
    requires i < n <= |l| && l[i].user == u && IsLot(l[i]) && IsBonusLot(l[i]) == bonus
    ensures p < |LotsOf(l, u, bonus, n)| && LotsOf(l, u, bonus, n)[p] == i
  {
    if i == n - 1 { p := |LotsOf(l, u, bonus, n - 1)|; } else { p := PlaceOf(l, u, bonus, n - 1, i); }
  }

  lemma FifoDistinct(l: seq<Entry>, u: UserId)
    ensures Lots(l, FifoLots(l, u)) && Distinct(FifoLots(l, u))
  {
  }

  /** Bonuses and admin credits go before money paid in; of one kind the older goes first. */
  predicate GoesFirst(l: seq<Entry>, i: nat, j: nat)
    requires i < |l| && j < |l|
  {
    if l[i].PaymentCredit? == l[j].PaymentCredit? then i < j else l[j].PaymentCredit?
  }

  lemma PlacesOf(l: seq<Entry>, u: UserId, i: nat, j: nat) returns (p: nat, q: nat)
    requires i < |l| && j < |l| && l[i].user == l[j].user == u && IsLot(l[i]) && IsLot(l[j]) && GoesFirst(l, i, j)
    ensures p < q < |FifoLots(l, u)| && FifoLots(l, u)[p] == i && FifoLots(l, u)[q] == j
  {
    p := PlaceOf(l, u, IsBonusLot(l[i]), |l|, i);
    q := PlaceOf(l, u, IsBonusLot(l[j]), |l|, j);
    var bonus := LotsOf(l, u, true, |l|);
    if !IsBonusLot(l[i]) { p := |bonus| + p; }
    if !IsBonusLot(l[j]) { q := |bonus| + q; }
  }

  /** A lot is drawn on only when every lot of the user that goes before it is used up. */
  lemma OldestFirst(l: seq<Entry>, a: seq<Allocation>, u: UserId, debit: nat, amount: nat, i: nat, j: nat)
    requires i < |l| && j < |l| && l[i].user == l[j].user == u && IsLot(l[i]) && IsLot(l[j]) && GoesFirst(l, i, j)
    requires Lots(l, FifoLots(l, u)) && Used(Allocate(l, a, FifoLots(l, u), debit, amount).rows, j) > 0
    ensures Used(Allocate(l, a, FifoLots(l, u), debit, amount).rows, i) == Max(0, Capacity(l, a, i))
  {
    FifoDistinct(l, u);
    var p, q := PlacesOf(l, u, i, j);
    hide Allocate, Capacity, FifoLots;
    InOrder(l, a, FifoLots(l, u), debit, amount, p, q);
  }
}
