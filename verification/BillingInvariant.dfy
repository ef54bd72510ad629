/** The run invariant of the billing machine: the ledger rows of every order are
    exactly those its life so far calls for, and the account stays in order. */
module BillingInvariant {
  import opened Options
  import opened Ledger
  import opened Account
  import opened Fifo
  import opened Referral
  import opened Billing

  // ----- the rows of one order

  function CreditPart(o: Order): seq<Entry> {
    if o.service == Topup then [PaymentCredit(o.id, o.user, o.amount)] else []
  }

  predicate IsBonusRow(o: Order, e: Entry) {
    e.ReferralCredit? && e.order == o.id && e.user != o.user && e.amount > 0 && 100 * e.amount <= 30 * o.amount
  }

  predicate IsRefundRow(o: Order, e: Entry) {
    e.RefundDebit? && e.order == o.id && e.user == o.user && e.amount == o.amount
  }

  predicate IsReversalRow(b: Entry, e: Entry) {
    b.ReferralCredit? && e.ReferralReversal? && e.order == b.order && e.user == b.user && e.amount == b.amount
  }

  /** Whether a payment of the order can earn a bonus: real money, not the balance. */
  predicate EarnsBonus(o: Order) {
    o.service == Topup || o.via != Wallet
  }

  /** Settled: the credit of a top-up, then at most one referral bonus. */
  predicate PaidTrace(o: Order, t: seq<Entry>) {
    var c := CreditPart(o);
    t == c || (EarnsBonus(o) && |t| == |c| + 1 && t[..|c|] == c && IsBonusRow(o, t[|c|]))
  }

  /** Settled and refunded: the same, then the refund of the credit and the reversal of the bonus. */
  predicate RefundedTrace(o: Order, t: seq<Entry>) {
    if o.service == Topup then
      || (|t| == 2 && [t[0]] == CreditPart(o) && IsRefundRow(o, t[1]))
      || (|t| == 4 && [t[0]] == CreditPart(o) && IsBonusRow(o, t[1])
          && IsRefundRow(o, t[2]) && IsReversalRow(t[1], t[3]))
    else
      || t == []
      || (|t| == 2 && IsBonusRow(o, t[0]) && IsReversalRow(t[0], t[1]))
  }

  /** Never settled: no rows, or the one debit of an order bought from the balance. */
  predicate UnsettledTrace(o: Order, t: seq<Entry>) {
    || t == []
    || (t == [PurchaseDebit(o.id, o.user, o.amount)] && o.via == Wallet && o.status in {Paid, Refunded} && !o.held)
  }

  predicate OrderOk(o: Order, settled: bool, granted: bool, revoked: bool, t: seq<Entry>) {
    && (settled ==> o.status in {Paid, Refunded} && !o.held)
    && (o.held ==> o.status in {Paid, Refunded})
    && (o.status == Paid && !o.held && o.via == Gateway ==> settled)
    && (granted <==> o.service != Topup && o.status in {Paid, Refunded} && !o.held)
    && (revoked <==> granted && o.status == Refunded)
    && if !settled then UnsettledTrace(o, t)
       else (o.service == Topup ==> o.amount > 0) &&
            if o.status == Refunded then RefundedTrace(o, t) else PaidTrace(o, t)
  }

  predicate OkAt(st: State, o: OrderId)
    requires o in st.orders
  {
    OrderOk(st.orders[o], o in st.settled, o in st.granted, o in st.revoked, Trace(st.ledger, o))
  }

  // ----- the whole state

  predicate NoDup(s: seq<OrderId>) {
    forall i, j :: 0 <= i < j < |s| ==> s[i] != s[j]
  }

  predicate Known(st: State, log: seq<OrderId>) {
    forall x :: x in log ==> x in st.orders
  }

  predicate ExternalUnique(orders: map<OrderId, Order>) {
    forall p, q :: p in orders && q in orders && p != q && orders[p].external.Some?
      ==> orders[p].external != orders[q].external
  }

  ghost predicate Base(st: State) {
    && (forall o :: o in st.orders ==> st.orders[o].id == o && st.orders[o].user in st.users)
    && (forall i :: 0 <= i < |st.ledger| && !st.ledger[i].Adjustment? ==> st.ledger[i].order in st.orders)
    && ExternalUnique(st.orders)
    && NoDup(st.settled) && NoDup(st.granted) && NoDup(st.revoked)
    && Known(st, st.settled) && Known(st, st.granted) && Known(st, st.revoked)
    && AccountOk(st.ledger, st.allocs) && ReversalsOk(st.ledger)
  }

  /** Everything but the rules of order `x`, which a step is in the middle of changing. */
  ghost predicate InvBut(st: State, x: OrderId) {
    Base(st) && x in st.orders && forall o :: o in st.orders && o != x ==> OkAt(st, o)
  }

  ghost predicate Inv(st: State) {
    Base(st) && forall o :: o in st.orders ==> OkAt(st, o)
  }

  // ----- small steps

  lemma {:induction false} NoReversals(l: seq<Entry>, c: nat)
    requires forall i :: 0 <= i < |l| ==> !(l[i].ReferralReversal? && l[i].credit == c)
    ensures Reversed(l, c) == 0
  {
    if l != [] { NoReversals(l[..|l| - 1], c); }
  }

  lemma ReversedAppend(l: seq<Entry>, e: Entry, c: nat)
    requires !e.ReferralReversal?
    ensures Reversed(l + [e], c) == Reversed(l, c)
  {
    assert (l + [e])[..|l|] == l;
  }

  lemma ReversalsAppend(l: seq<Entry>, e: Entry)
    requires RowsOk(l) && ReversalsOk(l) && !e.ReferralReversal?
    ensures ReversalsOk(l + [e])
  {
    var r := l + [e];
    forall c | 0 <= c < |r| && r[c].ReferralCredit? ensures Reversed(r, c) == 0 || Reversed(r, c) == r[c].amount {
      ReversedAppend(l, e, c);
      if c == |l| {
        forall i | 0 <= i < |l| ensures !(l[i].ReferralReversal? && l[i].credit == c) { assert Backed(l, l[i]); }
        NoReversals(l, c);
      }
    }
  }

  /** Writing a row of order `x` disturbs no other order. */
  lemma AppendRow(st: State, e: Entry)
    requires !e.Adjustment? && InvBut(st, e.order)
    requires !HasKey(st.ledger, KeyOf(e)) && Backed(st.ledger, e) && SpendAmount(e) == 0 && !e.ReferralReversal?
    ensures InvBut(st.(ledger := st.ledger + [e]), e.order)
    ensures Trace(st.ledger + [e], e.order) == Trace(st.ledger, e.order) + [e]
  {
    var st' := st.(ledger := st.ledger + [e]);
    AppendKeeps(st.ledger, st.allocs, e);
    ReversalsAppend(st.ledger, e);
    TraceAppend(st.ledger, e, e.order);
    forall o | o in st'.orders && o != e.order ensures OkAt(st', o) {
      TraceAppend(st.ledger, e, o);
      assert OkAt(st, o);
    }
  }

  lemma AppendAdjustment(st: State, e: Entry)
    requires e.Adjustment? && Inv(st)
    requires !HasKey(st.ledger, KeyOf(e)) && SpendAmount(e) == 0
    ensures Inv(st.(ledger := st.ledger + [e]))
  {
    var st' := st.(ledger := st.ledger + [e]);
    AppendKeeps(st.ledger, st.allocs, e);
    ReversalsAppend(st.ledger, e);
    forall o | o in st'.orders ensures OkAt(st', o) {
      TraceAppend(st.ledger, e, o);
      assert OkAt(st, o);
    }
  }

  predicate SameButLedger(st: State, st': State) {
    st' == st.(ledger := st'.ledger, allocs := st'.allocs)
  }

  /** A debit and its allocations; `e` may belong to an order or to an admin. */
  lemma SpendRow(st: State, e: Entry, x: OrderId)
    requires Base(st) && SpendAmount(e) > 0 && !HasKey(st.ledger, KeyOf(e)) && Spend(st, e).Done?
    requires !e.Adjustment? ==> e.order == x && x in st.orders
    ensures var st' := Spend(st, e).st;
            && Base(st') && SameButLedger(st, st')
            && (forall o :: Trace(st'.ledger, o) == Trace(st.ledger, o) + if Touches(e, o) then [e] else [])
  {
    SpendKeeps(st.ledger, st.allocs, e);
    ReversalsAppend(st.ledger, e);
    forall o ensures Trace(st.ledger + [e], o) == Trace(st.ledger, o) + if Touches(e, o) then [e] else [] {
      TraceAppend(st.ledger, e, o);
    }
  }

  lemma OthersKept(st: State, st': State, x: OrderId)
    requires Base(st') && x in st'.orders
    requires forall o :: o in st'.orders && o != x ==>
               && o in st.orders && st'.orders[o] == st.orders[o] && OkAt(st, o)
               && Trace(st'.ledger, o) == Trace(st.ledger, o)
               && (o in st'.settled <==> o in st.settled) && (o in st'.granted <==> o in st.granted)
               && (o in st'.revoked <==> o in st.revoked)
    ensures InvBut(st', x)
  {
    forall o | o in st'.orders && o != x ensures OkAt(st', o) { assert OkAt(st, o); }
  }

  /** Replacing (or adding) one order row. */
  lemma SetRow(st: State, o: Order)
    requires Inv(st) || InvBut(st, o.id)
    requires o.user in st.users && (o.external.Some? ==> ExternalFree(st, o.id, o.external.value))
    ensures InvBut(SetOrder(st, o), o.id)
  {
    OthersKept(st, SetOrder(st, o), o.id);
  }

  lemma Close(st: State, x: OrderId)
    requires InvBut(st, x) && OkAt(st, x)
    ensures Inv(st)
  {
  }

  lemma LogGranted(st: State, x: OrderId)
    requires InvBut(st, x) && x !in st.granted
    ensures InvBut(st.(granted := st.granted + [x]), x)
  {
    OthersKept(st, st.(granted := st.granted + [x]), x);
  }

  lemma LogSettled(st: State, x: OrderId)
    requires InvBut(st, x) && x !in st.settled
    ensures InvBut(st.(settled := st.settled + [x]), x)
  {
    OthersKept(st, st.(settled := st.settled + [x]), x);
  }

  lemma LogRevoked(st: State, x: OrderId)
    requires InvBut(st, x) && x !in st.revoked
    ensures InvBut(st.(revoked := st.revoked + [x]), x)
  {
    OthersKept(st, st.(revoked := st.revoked + [x]), x);
  }

  // ----- keys and traces

  /** A key that belongs to an order is used exactly when a row of its trace carries it. */
  lemma KeyInTrace(l: seq<Entry>, k: Key)
    requires HasKey(l, k) && !k.Admin?
    ensures exists e :: e in Trace(l, k.order) && KeyOf(e) == k
  {
    var i :| 0 <= i < |l| && KeyOf(l[i]) == k;
    InTrace(l, l[i], k.order);
  }

  lemma TraceHasKey(l: seq<Entry>, e: Entry)
    requires !e.Adjustment? && e in Trace(l, e.order)
    ensures HasKey(l, KeyOf(e)) && e in l
  {
    InTrace(l, e, e.order);
    var i :| 0 <= i < |l| && l[i] == e;
  }

  /** An order the state does not know has no rows. */
  lemma FreshTrace(st: State, x: OrderId)
    requires Base(st) && x !in st.orders
    ensures Trace(st.ledger, x) == [] && x !in st.settled && x !in st.granted && x !in st.revoked
  {
    if Trace(st.ledger, x) != [] {
      var e := Trace(st.ledger, x)[0];
      InTrace(st.ledger, e, x);
    }
  }

  // ----- settlement

  /** Settling an order that is paid, in the clear and has no rows yet. */
  lemma SettleKeeps(st: State, o: Order, ok: bool)
    requires InvBut(st, o.id) && st.orders[o.id] == o && o.status == Paid && !o.held
    requires Trace(st.ledger, o.id) == [] && o.id !in st.settled && o.id !in st.granted && o.id !in st.revoked
    ensures var r := SettleBenefits(st, o, ok);
            r.Done? ==> && Inv(r.st) && r.st.settled == st.settled + [o.id]
                        && r.st.orders == st.orders && r.st.users == st.users
  {
    var r := SettleBenefits(st, o, ok);
    if r.Done? {
      var s1 := if o.service == Topup then CreateCredit(st, o).st else st;
      if o.service == Topup { CreditOnce(st, o); }
      var s2 := if o.service == Topup || o.via != Wallet then GrantBonus(s1, o) else s1;
      if s2 != s1 { BonusOnce(s1, o); }
      if o.service != Topup { LogGranted(s2, o.id); }
      var s3 := Fulfil(s2, o, ok).st;
      LogSettled(s3, o.id);
      Close(r.st, o.id);
    }
  }

  lemma CreditOnce(st: State, o: Order)
    requires InvBut(st, o.id) && Trace(st.ledger, o.id) == [] && o.amount > 0
    ensures var e := PaymentCredit(o.id, o.user, o.amount);
            && CreateCredit(st, o) == Done(st.(ledger := st.ledger + [e]))
            && InvBut(st.(ledger := st.ledger + [e]), o.id)
            && Trace(st.ledger + [e], o.id) == [e]
  {
    var e := PaymentCredit(o.id, o.user, o.amount);
    if HasKey(st.ledger, KeyOf(e)) { KeyInTrace(st.ledger, KeyOf(e)); }
    AppendRow(st, e);
  }

  lemma BonusOnce(st: State, o: Order)
    requires InvBut(st, o.id) && Trace(st.ledger, o.id) == CreditPart(o) && GrantBonus(st, o) != st && EarnsBonus(o)
    ensures var s := GrantBonus(st, o);
            && InvBut(s, o.id) && s == st.(ledger := s.ledger)
            && PaidTrace(o, Trace(s.ledger, o.id))
  {
    var e := BonusRow(st, o);
    hide GrantBonus, InvBut, Trace, HasKey;
    AppendRow(st, e);
  }

  lemma BonusRow(st: State, o: Order) returns (e: Entry)
    requires GrantBonus(st, o) != st
    ensures IsBonusRow(o, e) && e.ReferralCredit? && e.order == o.id && !HasKey(st.ledger, KeyOf(e))
    ensures GrantBonus(st, o) == st.(ledger := st.ledger + [e])
  {
    var r := Referrer(st, o.user).value;
    e := ReferralCredit(o.id, r, BonusFor(st, o));
    BonusBounds(o.amount, EffectiveCount(st, r, o.user, o.id, o.amount));
    hide HasKey, EffectiveCount, Referrer;
  }

  // ----- reversal

  /** With no bonus among the order's rows there is nothing to reverse. */
  lemma NoBonusNoReversal(l: seq<Entry>, o: OrderId, ref: RefundRef)
    requires forall e :: e in Trace(l, o) ==> !e.ReferralCredit?
    ensures ReverseBonuses(l, o, ref) == l
  {
    var rows := BonusRows(l, o, |l|);
    if rows != [] { InTrace(l, l[rows[0]], o); }
  }

  /** The order's rows hold the bonus `b`, no other, and no reversal. */
  predicate OnlyBonus(t: seq<Entry>, o: OrderId, b: Entry) {
    && b in t && b.ReferralCredit? && b.order == o && b.amount > 0
    && forall e :: e in t ==> !e.ReferralReversal? && (e.ReferralCredit? ==> e == b)
  }

  lemma SoleBonusRow(l: seq<Entry>, o: OrderId, b: Entry) returns (c: nat)
    requires RowsOk(l) && OnlyBonus(Trace(l, o), o, b)
    ensures c < |l| && l[c] == b && BonusRows(l, o, |l|) == [c]
  {
    InTrace(l, b, o);
    c :| 0 <= c < |l| && l[c] == b;
    var rows := BonusRows(l, o, |l|);
    assert c in rows;
    forall k | 0 <= k < |rows| ensures rows[k] == c {
      InTrace(l, l[rows[k]], o);
      assert KeyOf(l[rows[k]]) == KeyOf(l[c]);
    }
    assert rows[0] == c && rows[|rows| - 1] == c;
  }

  lemma NotYetReversed(l: seq<Entry>, o: OrderId, b: Entry, c: nat, ref: RefundRef)
    requires RowsOk(l) && OnlyBonus(Trace(l, o), o, b) && c < |l| && l[c] == b
    ensures Reversed(l, c) == 0 && !HasKey(l, BonusReversal(o, b.user, ref))
  {
    forall i | 0 <= i < |l| ensures !(l[i].ReferralReversal? && l[i].credit == c) {
      assert Backed(l, l[i]);
      InTrace(l, l[i], o);
    }
    NoReversals(l, c);
    if HasKey(l, BonusReversal(o, b.user, ref)) { KeyInTrace(l, BonusReversal(o, b.user, ref)); }
  }

  lemma ReverseOnly(l: seq<Entry>, c: nat, ref: RefundRef)
    requires c < |l| && l[c].ReferralCredit? && l[c].amount > 0
    requires Reversed(l, c) == 0 && !HasKey(l, BonusReversal(l[c].order, l[c].user, ref))
    ensures ReverseEach(l, [c], ref) == l + [ReferralReversal(l[c].order, l[c].user, l[c].amount, c, ref)]
  {
    ReverseEachPush(l, [], c, ref);
    assert [] + [c] == [c];
  }

  /** With one bonus and no reversal yet, exactly its reversal is written. */
  lemma OneBonusOneReversal(l: seq<Entry>, o: OrderId, b: Entry, ref: RefundRef) returns (c: nat)
    requires RowsOk(l) && OnlyBonus(Trace(l, o), o, b)
    ensures c < |l| && l[c] == b
    ensures ReverseBonuses(l, o, ref) == l + [ReferralReversal(o, b.user, b.amount, c, ref)]
  {
    c := SoleBonusRow(l, o, b);
    NotYetReversed(l, o, b, c, ref);
    ReverseOnly(l, c, ref);
  }

  lemma ReverseRowsKeep(l: seq<Entry>, a: seq<Allocation>, o: OrderId, ref: RefundRef)
    requires AccountOk(l, a) && ReversalsOk(l)
    ensures AccountOk(ReverseBonuses(l, o, ref), a) && ReversalsOk(ReverseBonuses(l, o, ref))
  {
    ReverseEachIsExact(l, a, BonusRows(l, o, |l|), o, ref);
  }

  predicate ReversalAdded(l: seq<Entry>, l': seq<Entry>, o: OrderId, b: Entry, r: Entry) {
    l' == l + [r] && IsReversalRow(b, r) && r.order == o
  }

  lemma ReversalRowKeeps(st: State, o: OrderId, b: Entry, ref: RefundRef) returns (r: Entry)
    requires InvBut(st, o) && OnlyBonus(Trace(st.ledger, o), o, b)
    ensures var l := ReverseBonuses(st.ledger, o, ref);
            && InvBut(st.(ledger := l), o)
            && IsReversalRow(b, r) && Trace(l, o) == Trace(st.ledger, o) + [r]
  {
    var c := OneBonusOneReversal(st.ledger, o, b, ref);
    r := ReferralReversal(o, b.user, b.amount, c, ref);
    ReverseRowsKeep(st.ledger, st.allocs, o, ref);
    AddedReversalKeeps(st, ReverseBonuses(st.ledger, o, ref), o, b, r);
  }

  lemma AddedReversalKeeps(st: State, l: seq<Entry>, o: OrderId, b: Entry, r: Entry)
    requires InvBut(st, o) && ReversalAdded(st.ledger, l, o, b, r)
    requires AccountOk(l, st.allocs) && ReversalsOk(l)
    ensures InvBut(st.(ledger := l), o) && Trace(l, o) == Trace(st.ledger, o) + [r]
  {
    forall p ensures Trace(l, p) == Trace(st.ledger, p) + if p == o then [r] else [] {
      TraceAppend(st.ledger, r, p);
    }
    OthersKept(st, st.(ledger := l), o);
  }

  // ----- payments

  lemma ExternalKept(st: State, o: Order)
    requires Base(st) && o.id in st.orders && st.orders[o.id].external == o.external && o.external.Some?
    ensures ExternalFree(st, o.id, o.external.value)
  {
  }

  /** A payable order may be identified, marked and, unless it is settled, left at that. */
  lemma AcceptedRow(st: State, o: Order, o': Order)
    requires Inv(st) && o.id in st.orders && st.orders[o.id] == o && o.status in {Pending, Canceled}
    requires o' == o.(external := o'.external, status := o'.status, held := o'.held, underpaid := o'.underpaid,
                      review := o'.review)
    requires o'.external.Some? ==> ExternalFree(st, o.id, o'.external.value)
    ensures InvBut(SetOrder(st, o'), o.id) && Trace(st.ledger, o.id) == []
    ensures o.id !in st.settled && o.id !in st.granted && o.id !in st.revoked
    ensures (o'.status == o.status && o'.held == o.held) || (o'.status == Paid && o'.held) ==> Inv(SetOrder(st, o'))
  {
    assert OkAt(st, o.id);
    SetRow(st, o');
    if (o'.status == o.status && o'.held == o.held) || (o'.status == Paid && o'.held) { Close(SetOrder(st, o'), o.id); }
  }

  lemma AcceptedSettles(st: State, o: Order, o': Order, ok: bool)
    requires Inv(st) && o.id in st.orders && st.orders[o.id] == o && o.status in {Pending, Canceled}
    requires o' == o.(external := o'.external, status := Paid)
    requires o'.external.Some? ==> ExternalFree(st, o.id, o'.external.value)
    ensures var r := SettleBenefits(SetOrder(st, o'), o', ok); r.Done? ==> Inv(r.st)
  {
    hide Inv, InvBut, SettleBenefits, Trace, ExternalFree;
    AcceptedRow(st, o, o');
    UnsettledIsClear(st, o);
    SettleKeeps(SetOrder(st, o'), o', ok);
  }

  lemma AcceptKeeps(st: State, o: Order, external: Option<string>, paid: Option<real>, ok: bool)
    requires Inv(st) && o.id in st.orders && st.orders[o.id] == o && o.status in {Pending, Canceled}
    ensures var r := Accept(st, o, external, paid, ok); r.Done? ==> Inv(r.st)
  {
    var o1 := Identify(o, external);
    if o1 == o && o.external.Some? { ExternalKept(st, o); }
    hide Inv, InvBut, Take, ExternalFree;
    if o1 == o || ExternalFree(st, o.id, o1.external.value) {
      if paid.Some? && paid.value < o.amount as real {
        AcceptedRow(st, o, o1.(underpaid := true, review := true));
      } else {
        TakeKeeps(st, o, o1.(status := Paid), ok);
      }
    }
  }

  lemma TakeKeeps(st: State, o: Order, o': Order, ok: bool)
    requires Inv(st) && o.id in st.orders && st.orders[o.id] == o && o.status in {Pending, Canceled}
    requires o' == o.(external := o'.external, status := Paid)
    requires o'.external.Some? ==> ExternalFree(st, o.id, o'.external.value)
    ensures var r := Take(st, o', ok); r.Done? ==> Inv(r.st)
  {
    hide Inv, InvBut, SettleBenefits, Trace, ExternalFree;
    if o.user in st.users && WithheldFrom(st.users[o.user], o.service) {
      AcceptedRow(st, o, o'.(held := true));
    } else {
      AcceptedSettles(st, o, o', ok);
    }
  }

  lemma UnsettledIsClear(st: State, o: Order)
    requires Inv(st) && o.id in st.orders && st.orders[o.id] == o && o.status in {Pending, Canceled}
    ensures !o.held
  {
    assert OkAt(st, o.id);
  }

  lemma MarkPaidKeeps(st: State, id: OrderId, external: Option<string>, paid: Option<real>, ok: bool)
    requires Inv(st)
    ensures var r := MarkPaid(st, id, external, paid, ok); r.Done? ==> Inv(r.st)
  {
    if id in st.orders {
      var o := st.orders[id];
      assert OkAt(st, id);
      if o.status == Paid && o.held {
        var o' := o.(held := false);
        if o.external.Some? { ExternalKept(st, o); }
        SetRow(st, o');
        if !(o.user in st.users && StillHeld(st.users[o.user], o.service)) { SettleKeeps(SetOrder(st, o'), o', ok); }
      } else if o.status in {Pending, Canceled} {
        AcceptKeeps(st, o, external, paid, ok);
      }
    }
  }

  // ----- refunds

  /** The rows of a settled order that was just marked refunded: bonus taken back, if any. */
  lemma ReverseKeeps(st: State, o: OrderId, ref: RefundRef)
    requires InvBut(st, o)
    requires var t := Trace(st.ledger, o);
             || (forall e :: e in t ==> !e.ReferralCredit?)
             || (exists b :: b in t && OnlyBonus(t, o, b))
    ensures var l := ReverseBonuses(st.ledger, o, ref); var t := Trace(st.ledger, o);
            && InvBut(st.(ledger := l), o)
            && ((forall e :: e in t ==> !e.ReferralCredit?) ==> l == st.ledger)
            && (forall b :: b in t && OnlyBonus(t, o, b) ==> exists r :: IsReversalRow(b, r) && Trace(l, o) == t + [r])
  {
    var t := Trace(st.ledger, o);
    if forall e :: e in t ==> !e.ReferralCredit? {
      NoBonusNoReversal(st.ledger, o, ref);
      assert st.(ledger := st.ledger) == st;
    } else {
      forall b | b in t && OnlyBonus(t, o, b)
        ensures InvBut(st.(ledger := ReverseBonuses(st.ledger, o, ref)), o)
        ensures exists r :: IsReversalRow(b, r) && Trace(ReverseBonuses(st.ledger, o, ref), o) == t + [r]
      {
        var r := ReversalRowKeeps(st, o, b, ref);
      }
    }
  }

  predicate AccessRows(o: Order, settled: bool, t: seq<Entry>) {
    if settled then RefundedTrace(o.(status := Refunded), t) else UnsettledTrace(o.(status := Refunded), t)
  }

  /** The rows of a refunded access order once its bonus, if any, is taken back. */
  lemma AccessReversed(st: State, o: Order, ref: RefundRef)
    requires InvBut(st, o.id) && o.service != Topup && o.via != Wallet
    requires var t := Trace(st.ledger, o.id); if o.id in st.settled then PaidTrace(o, t) else t == []
    ensures var l := ReverseBonuses(st.ledger, o.id, ref);
            InvBut(st.(ledger := l), o.id) && AccessRows(o, o.id in st.settled, Trace(l, o.id))
  {
    var t := Trace(st.ledger, o.id);
    if t == [] {
      NoBonusNoReversal(st.ledger, o.id, ref);
      assert st.(ledger := st.ledger) == st;
    } else {
      var r := ReversalRowKeeps(st, o.id, t[0], ref);
    }
  }

  lemma AccessRevoked(st: State, o: Order)
    requires InvBut(st, o.id) && st.orders[o.id] == o.(status := Refunded) && o.service != Topup
    requires AccessRows(o, o.id in st.settled, Trace(st.ledger, o.id))
    requires (o.id in st.settled ==> !o.held) && (o.id in st.granted <==> !o.held) && o.id !in st.revoked
    ensures Inv(if o.held then st else st.(revoked := st.revoked + [o.id]))
  {
    if o.held {
      Close(st, o.id);
    } else {
      LogRevoked(st, o.id);
      Close(st.(revoked := st.revoked + [o.id]), o.id);
    }
  }

  /** Refund of anything but a top-up. */
  lemma RefundAccessKeeps(st: State, o: Order, ref: RefundRef)
    requires Inv(st) && o.id in st.orders && st.orders[o.id] == o && o.status == Paid && o.service != Topup
    ensures Inv(RefundAccess(SetOrder(st, o.(status := Refunded)), o, ref))
  {
    var o' := o.(status := Refunded);
    var s1 := SetOrder(st, o');
    assert OkAt(st, o.id);
    if o.external.Some? { ExternalKept(st, o); }
    SetRow(st, o');
    if o.via != Wallet {
      AccessReversed(s1, o, ref);
      AccessRevoked(s1.(ledger := ReverseBonuses(s1.ledger, o.id, ref)), o);
    } else {
      AccessRevoked(s1, o);
    }
  }

  /** Credits and refunds of an order can be read off its rows. */
  lemma {:induction false} TotalsOfTrace(l: seq<Entry>, o: OrderId)
    ensures CreditTotal(l, o) == CreditTotal(Trace(l, o), o)
    ensures RefundTotal(l, o) == RefundTotal(Trace(l, o), o)
  {
    if l != [] {
      TotalsOfTrace(l[..|l| - 1], o);
      var t := Trace(l[..|l| - 1], o);
      assert t + [] == t;
      assert (t + [l[|l| - 1]])[..|t|] == t;
    }
  }

  lemma PaidTotals(o: Order, t: seq<Entry>)
    requires o.service == Topup && PaidTrace(o, t)
    ensures CreditTotal(t, o.id) == o.amount && RefundTotal(t, o.id) == 0
  {
    assert t[..1][..0] == [];
    if |t| == 2 { assert t[..2][..1] == t[..1]; }
  }

  lemma NoRefundYet(l: seq<Entry>, o: Order, ref: RefundRef)
    requires o.service == Topup && PaidTrace(o, Trace(l, o.id))
    ensures !HasKey(l, OrderRefund(o.id, ref))
  {
    var k := OrderRefund(o.id, ref);
    hide Trace;
    if HasKey(l, k) { KeyInTrace(l, k); }
  }

  /** The refund debit of a credited top-up passes the cap and takes a fresh key. */
  lemma RefundDebitAllowed(st: State, o: Order, ref: RefundRef)
    requires o.service == Topup && o.amount > 0 && PaidTrace(o, Trace(st.ledger, o.id))
    ensures var e := RefundDebit(o.id, o.user, o.amount, ref);
            && !HasKey(st.ledger, KeyOf(e)) && Backed(st.ledger, e)
            && CreateRefundDebit(st, o, ref) == Done(st.(ledger := st.ledger + [e]))
  {
    hide Trace, PaidTrace, CreditTotal, RefundTotal, HasKey, Credits;
    TotalsOfTrace(st.ledger, o.id);
    PaidTotals(o, Trace(st.ledger, o.id));
    NoRefundYet(st.ledger, o, ref);
    CreditRow(st.ledger, o);
  }

  lemma CreditRow(l: seq<Entry>, o: Order)
    requires o.service == Topup && PaidTrace(o, Trace(l, o.id))
    ensures Credits(l, o.id, o.user)
  {
    var t := Trace(l, o.id);
    InTrace(l, t[0], o.id);
    var j :| 0 <= j < |l| && l[j] == t[0];
    assert IsCredit(l[j], o.id, o.user);
  }

  lemma RefundDebitOnce(st: State, o: Order, ref: RefundRef)
    requires InvBut(st, o.id) && o.service == Topup && o.amount > 0 && PaidTrace(o, Trace(st.ledger, o.id))
    ensures var e := RefundDebit(o.id, o.user, o.amount, ref); var s := st.(ledger := st.ledger + [e]);
            && CreateRefundDebit(st, o, ref) == Done(s) && InvBut(s, o.id)
            && Trace(s.ledger, o.id) == Trace(st.ledger, o.id) + [e]
  {
    RefundDebitAllowed(st, o, ref);
    AppendRow(st, RefundDebit(o.id, o.user, o.amount, ref));
  }

  predicate RefundedTopup(st: State, o: Order) {
    && o.id in st.orders && st.orders[o.id] == o && o.service == Topup && o.amount > 0
    && o.status == Refunded && !o.held
    && o.id in st.settled && o.id !in st.granted && o.id !in st.revoked
  }

  /** A paid top-up's rows with the refund row behind them: no bonus, or exactly one. */
  lemma BonusOfRefunded(o: Order, t: seq<Entry>, e: Entry)
    requires o.service == Topup && PaidTrace(o, t) && IsRefundRow(o, e)
    ensures |t| == 1 ==> forall x :: x in t + [e] ==> !x.ReferralCredit?
    ensures |t| == 2 ==> t[1] in t + [e] && OnlyBonus(t + [e], o.id, t[1])
  {
    if |t| == 2 { assert t[0] == t[..1][0]; }
  }

  lemma RefundedShape(o: Order, t: seq<Entry>, e: Entry, t2: seq<Entry>)
    requires o.service == Topup && PaidTrace(o, t) && IsRefundRow(o, e)
    requires if |t| == 1 then t2 == t + [e] else exists r :: IsReversalRow(t[1], r) && t2 == t + [e] + [r]
    ensures RefundedTrace(o, t2)
  {
    if |t| == 2 { assert t[0] == t[..1][0]; }
  }

  /** A refunded top-up once its refund debit and its reversal are written. */
  lemma TakenBack(st: State, o: Order, ref: RefundRef) returns (s: State)
    requires InvBut(st, o.id) && RefundedTopup(st, o) && PaidTrace(o, Trace(st.ledger, o.id))
    ensures CreateRefundDebit(st, o, ref).Done?
    ensures var s1 := CreateRefundDebit(st, o, ref).st;
            && s == s1.(ledger := ReverseBonuses(s1.ledger, o.id, ref))
            && s == st.(ledger := s.ledger)
    ensures Inv(s)
  {
    var t, e := Trace(st.ledger, o.id), RefundDebit(o.id, o.user, o.amount, ref);
    RefundDebitOnce(st, o, ref);
    var s1 := st.(ledger := st.ledger + [e]);
    BonusOfRefunded(o, t, e);
    ReverseKeeps(s1, o.id, ref);
    s := s1.(ledger := ReverseBonuses(s1.ledger, o.id, ref));
    RefundedShape(o, t, e, Trace(s.ledger, o.id));
    Close(s, o.id);
  }

  /** A note on an order disturbs nothing. */
  lemma NoteKeeps(st: State, o: Order, o': Order)
    requires Inv(st) && o.id in st.orders && st.orders[o.id] == o && o' == o.(review := o'.review, late := o'.late)
    ensures Inv(SetOrder(st, o'))
  {
    assert OkAt(st, o.id);
    if o.external.Some? { ExternalKept(st, o); }
    SetRow(st, o');
    Close(SetOrder(st, o'), o.id);
  }

  lemma RefundTopupKeeps(c: Config, st: State, o: Order, ref: RefundRef)
    requires InvBut(st, o.id) && RefundedTopup(st, o) && PaidTrace(o, Trace(st.ledger, o.id))
    ensures var r := RefundTopup(c, st, o, ref);
            && (r.Done? ==> Inv(r.st))
            && (r.Done? <==> c.balanceLookup) && (r.Raised? ==> r.fault == CallFailed)
  {
    hide Inv, InvBut, PaidTrace, Trace, ReverseBonuses, Position;
    var s := TakenBack(st, o, ref);
    NoteKeeps(s, o, o.(review := true));
  }

  lemma RefundKeeps(c: Config, st: State, o: Order, amount: Option<real>, ref: RefundRef)
    requires Inv(st) && o.id in st.orders && st.orders[o.id] == o
    ensures var r := RefundOrder(c, st, o, amount, ref); r.Done? ==> Inv(r.st)
  {
    assert OkAt(st, o.id);
    if o.external.Some? { ExternalKept(st, o); }
    if o.status == Paid && amount != Some(o.amount as real) {
      NoteKeeps(st, o, o.(review := true));
    } else if o.status == Paid && o.service != Topup {
      RefundAccessKeeps(st, o, ref);
    } else if o.status == Paid {
      RefundAnyTopupKeeps(c, st, o, ref);
    }
  }

  lemma UnsettledHasNoCredit(o: Order, l: seq<Entry>)
    requires UnsettledTrace(o, Trace(l, o.id))
    ensures !HasKey(l, OrderCredit(o.id))
  {
    hide Trace;
    if HasKey(l, OrderCredit(o.id)) { KeyInTrace(l, OrderCredit(o.id)); }
  }

  lemma SettledHasCredit(o: Order, l: seq<Entry>)
    requires o.service == Topup && (PaidTrace(o, Trace(l, o.id)) || RefundedTrace(o, Trace(l, o.id)))
    ensures HasKey(l, OrderCredit(o.id))
  {
    hide Trace;
    var t := Trace(l, o.id);
    assert t[0] == CreditPart(o)[0] by {
      if PaidTrace(o, t) { assert t[0] == t[..1][0]; } else { assert [t[0]][0] == t[0]; }
    }
    TraceHasKey(l, t[0]);
  }

  /** A top-up has been credited exactly when it has been settled. */
  lemma CreditedIffSettled(st: State, o: OrderId)
    requires Inv(st) && o in st.orders && st.orders[o].service == Topup
    ensures HasKey(st.ledger, OrderCredit(o)) <==> o in st.settled
  {
    hide Trace, PaidTrace, RefundedTrace, UnsettledTrace, HasKey;
    assert OkAt(st, o);
    if o in st.settled {
      SettledHasCredit(st.orders[o], st.ledger);
    } else {
      UnsettledHasNoCredit(st.orders[o], st.ledger);
    }
  }

  lemma RefundAnyTopupKeeps(c: Config, st: State, o: Order, ref: RefundRef)
    requires Inv(st) && o.id in st.orders && st.orders[o.id] == o && o.status == Paid && o.service == Topup
    ensures var r := RefundOrder(c, st, o, Some(o.amount as real), ref);
            && (r.Done? ==> Inv(r.st)) && (r.Done? <==> c.balanceLookup || o.id !in st.settled)
            && (r.Raised? ==> r.fault == CallFailed)
  {
    assert OkAt(st, o.id);
    CreditedIffSettled(st, o.id);
    var o' := o.(status := Refunded);
    if o.external.Some? { ExternalKept(st, o); }
    SetRow(st, o');
    var s1 := SetOrder(st, o');
    hide Inv, InvBut, Trace;
    if o.id in st.settled {
      RefundTopupReads(c, s1, o, o', ref);
      RefundTopupKeeps(c, s1, o', ref);
    } else {
      Close(s1, o.id);
    }
  }

  /** The refund reads only the identity and the amount of the order. */
  lemma RefundTopupReads(c: Config, st: State, o: Order, o': Order, ref: RefundRef)
    requires o' == o.(status := Refunded)
    ensures RefundTopup(c, st, o, ref) == RefundTopup(c, st, o', ref)
  {
    assert CreateRefundDebit(st, o, ref) == CreateRefundDebit(st, o', ref) by { hide HasKey, CreditTotal, RefundTotal; }
    hide CreateRefundDebit, ReverseBonuses, Position;
  }

  // ----- the other steps

  lemma NoticeKeeps(c: Config, st: State, n: Notice, ok: bool)
    requires Inv(st)
    ensures var r := Webhook(c, st, n, ok); r.Done? ==> Inv(r.st)
  {
    var f := Find(st, n);
    if f.Some? && !Mismatched(st.orders[f.value], n) {
      var o := st.orders[f.value];
      match n.kind
      case PaymentSucceeded =>
        MarkPaidKeeps(st, o.id, Some(n.external), n.amount, ok);
        NoteKeeps(st, o, o.(late := true));
      case PaymentCanceled => CancelKeeps(st, f.value, GATEWAY_CANCELED);
      case RefundSucceeded => RefundKeeps(c, st, o, n.amount, RefundRefOf(n, o.id));
      case Other =>
    }
  }

  lemma CancelKeeps(st: State, id: OrderId, reason: string)
    requires Inv(st) && id in st.orders
    ensures Inv(SetOrder(st, MarkCanceled(st.orders[id], reason)))
  {
    var o := st.orders[id];
    assert OkAt(st, id);
    if o.external.Some? { ExternalKept(st, o); }
    SetRow(st, MarkCanceled(o, reason));
    CanceledOk(o, reason, id in st.settled, id in st.granted, id in st.revoked, Trace(st.ledger, id));
    hide InvBut, OrderOk, MarkCanceled, Trace;
    Close(SetOrder(st, MarkCanceled(o, reason)), id);
  }

  lemma CanceledOk(o: Order, reason: string, settled: bool, granted: bool, revoked: bool, t: seq<Entry>)
    requires OrderOk(o, settled, granted, revoked, t)
    ensures OrderOk(MarkCanceled(o, reason), settled, granted, revoked, t)
  {
    hide PaidTrace, RefundedTrace;
  }

  /** A new order of any status with no rows and no log entries. */
  lemma NewOrder(st: State, o: Order)
    requires Inv(st) && o.id !in st.orders && o.user in st.users && !o.held
    requires o.external.Some? ==> ExternalFree(st, o.id, o.external.value)
    ensures InvBut(SetOrder(st, o), o.id) && Trace(st.ledger, o.id) == []
    ensures o.id !in st.settled && o.id !in st.granted && o.id !in st.revoked
    ensures o.status in {Pending, Canceled} ==> Inv(SetOrder(st, o))
  {
    FreshTrace(st, o.id);
    SetRow(st, o);
    if o.status in {Pending, Canceled} { Close(SetOrder(st, o), o.id); }
  }

  lemma DebitKeeps(st: State, o: Order, amount: nat)
    requires InvBut(st, o.id) && Trace(st.ledger, o.id) == []
    ensures var r := CreateDebit(st, o.user, o.id, amount);
            r.Done? ==> && InvBut(r.st, o.id) && SameButLedger(st, r.st)
                        && Trace(r.st.ledger, o.id) ==
                           (if amount == 0 then [] else [PurchaseDebit(o.id, o.user, amount)])
  {
    var e := PurchaseDebit(o.id, o.user, amount);
    if amount > 0 && HasKey(st.ledger, OrderDebit(o.id)) { KeyInTrace(st.ledger, OrderDebit(o.id)); }
    if amount > 0 && Spend(st, e).Done? {
      SpendRow(st, e, o.id);
      OthersKept(st, Spend(st, e).st, o.id);
    }
  }

  lemma WalletKeeps(st: State, id: OrderId, u: UserId, s: Service, amount: nat, ok: bool)
    requires Inv(st) && id !in st.orders
    ensures var r := PayFromWallet(st, id, u, s, amount, ok); r.Done? ==> Inv(r.st)
  {
    if u in st.users {
      var o := Order(id, u, s, Wallet, amount, Paid, None, None, false, false, false, false);
      NewOrder(st, o);
      DebitKeeps(SetOrder(st, o), o, amount);
      var d := CreateDebit(SetOrder(st, o), u, id, amount);
      if d.Done? { PaidFromWallet(d.st, o, ok); }
    }
  }

  lemma PaidFromWallet(st: State, o: Order, ok: bool)
    requires InvBut(st, o.id) && st.orders[o.id] == o.(status := Paid) && o.via == Wallet && !o.held
    requires o.id !in st.settled && o.id !in st.granted && o.id !in st.revoked
    requires Trace(st.ledger, o.id) == if o.amount == 0 then [] else [PurchaseDebit(o.id, o.user, o.amount)]
    ensures var r := Fulfil(st, o, ok); r.Done? ==> Inv(r.st)
  {
    if Fulfil(st, o, ok).Done? {
      if o.service != Topup { LogGranted(st, o.id); }
      Close(Fulfil(st, o, ok).st, o.id);
    }
  }

  lemma CheckoutKeeps(st: State, id: OrderId, u: UserId, s: Service, amount: nat)
    requires Inv(st) && id !in st.orders
    ensures var r := CheckoutWallet(st, id, u, s, amount); r.Done? ==> Inv(r.st)
  {
    if u in st.users && !st.users[u].hold && !st.users[u].topupBlocked {
      var o := Order(id, u, s, Wallet, amount, Pending, None, None, false, false, false, false);
      var d := CreateDebit(SetOrder(st, o), u, id, amount);
      assert u in st.users;
      hide Inv, CreateDebit, Fulfil, MarkCanceled;
      if d.Done? {
        CheckedOut(st, o);
      } else {
        RefusedKeeps(st, o, if d.fault == InsufficientBalance then "insufficient_balance" else "ledger_error");
      }
    }
  }

  lemma RefusedKeeps(st: State, o: Order, note: string)
    requires Inv(st) && o.id !in st.orders && o.user in st.users && o.status == Pending && !o.held
    requires o.external == None
    ensures Inv(SetOrder(st, MarkCanceled(o, note)))
  {
    hide Inv;
    NewOrder(st, MarkCanceled(o, note));
  }

  lemma CheckedOut(st: State, o: Order)
    requires Inv(st) && o.id !in st.orders && o.user in st.users && o.status == Pending && o.via == Wallet
    requires o.external == None && !o.held
    ensures var d := CreateDebit(SetOrder(st, o), o.user, o.id, o.amount);
            d.Done? ==> var r := Fulfil(SetOrder(d.st, o.(status := Paid)), o, true); r.Done? ==> Inv(r.st)
  {
    NewOrder(st, o);
    DebitKeeps(SetOrder(st, o), o, o.amount);
    var d := CreateDebit(SetOrder(st, o), o.user, o.id, o.amount);
    if d.Done? {
      SetRow(d.st, o.(status := Paid));
      PaidFromWallet(SetOrder(d.st, o.(status := Paid)), o, true);
    }
  }

  lemma AdjustKeeps(st: State, u: UserId, delta: int, tag: string)
    requires Inv(st)
    ensures var r := Adjust(st, u, delta, tag); r.Done? ==> Inv(r.st)
  {
    var e := Adjustment(u, delta, tag);
    if !HasKey(st.ledger, KeyOf(e)) {
      if delta > 0 { AppendAdjustment(st, e); }
      if delta < 0 { DeductionKeeps(st, e); }
    }
  }

  lemma DeductionKeeps(st: State, e: Entry)
    requires Inv(st) && e.Adjustment? && e.delta < 0 && !HasKey(st.ledger, KeyOf(e))
    ensures var r := Spend(st, e); r.Done? ==> Inv(r.st)
  {
    var r := Spend(st, e);
    if r.Done? {
      SpendRow(st, e, 0);
      hide Base, Spend, OrderOk;
      forall o | o in st.orders ensures OkAt(r.st, o) {
        assert OkAt(st, o);
        assert Trace(st.ledger, o) + [] == Trace(st.ledger, o);
      }
    }
  }

  lemma BanKeeps(st: State, u: UserId)
    requires Inv(st)
    ensures Inv(BanUser(st, u))
  {
    var st' := BanUser(st, u);
    forall o | o in st'.orders ensures OkAt(st', o) { assert OkAt(st, o); }
  }

  lemma UsersKeep(st: State, st': State)
    requires Inv(st) && st' == st.(users := st'.users) && st.users.Keys <= st'.users.Keys
    ensures Inv(st')
  {
    forall o | o in st'.orders ensures OkAt(st', o) { assert OkAt(st, o); }
  }

  /** Every step of the machine keeps the invariant, whether it commits or rolls back. */
  lemma StepKeeps(c: Config, st: State, ev: Event)
    requires Inv(st)
    ensures Inv(Step(c, st, ev))
  {
    hide Webhook, MarkPaid, PayFromWallet, CheckoutWallet, MarkCanceled, Adjust;
    match ev
    case CreateOrder(id, u, s, m, a, x) =>
      if id !in st.orders && u in st.users && (x.Some? ==> ExternalFree(st, id, x.value)) {
        NewOrder(st, Order(id, u, s, m, a, Pending, x, None, false, false, false, false));
      }
    case Notify(n, ok) => NoticeKeeps(c, st, n, ok);
    case Polled(o, x, p, ok) => MarkPaidKeeps(st, o, x, p, ok);
    case Cancel(o, r) => if o in st.orders { CancelKeeps(st, o, r); }
    case Buy(id, u, s, a, ok) => if id !in st.orders { WalletKeeps(st, id, u, s, a, ok); }
    case Checkout(id, u, s, a) => if id !in st.orders { CheckoutKeeps(st, id, u, s, a); }
    case AdminAdjust(u, d, t) => AdjustKeeps(st, u, d, t);
    case Ban(u) => BanKeeps(st, u);
    case _ => UsersKeep(st, Step(c, st, ev));
  }

  lemma {:induction false} RunKeeps(c: Config, evs: seq<Event>)
    ensures Inv(Run(c, INITIAL, evs))
  {
    if evs != [] {
      RunKeeps(c, evs[..|evs| - 1]);
      StepKeeps(c, Run(c, INITIAL, evs[..|evs| - 1]), evs[|evs| - 1]);
    }
  }
}
