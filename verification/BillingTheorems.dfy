/** What holds on every run of the billing machine. */
module BillingTheorems {
  import opened Options
  import opened Strings
  import opened Ledger
  import opened Account
  import opened Fifo
  import opened Referral
  import opened Billing
  import opened BillingInvariant

  // ----- frames

  /** `l'` extends `l` by rows of order `x` (and admin rows) only. */
  predicate RowsOnlyOf(l: seq<Entry>, l': seq<Entry>, x: OrderId) {
    l <= l' && forall i :: |l| <= i < |l'| ==> l'[i].Adjustment? || l'[i].order == x
  }

  lemma {:induction false} OtherTraceKept(l: seq<Entry>, l': seq<Entry>, x: OrderId, o: OrderId)
    requires RowsOnlyOf(l, l', x) && o != x
    ensures Trace(l', o) == Trace(l, o)
  {
    if |l'| > |l| {
      OtherTraceKept(l, l'[..|l'| - 1], x, o);
    } else {
      assert l' == l;
    }
  }

  predicate OthersSame(st: State, st': State, x: OrderId) {
    forall o :: o in st.orders && o != x ==> o in st'.orders && st'.orders[o] == st.orders[o]
  }

  /** A step works on one order: other rows, orders and log entries stay as they are. */
  predicate Only(st: State, st': State, x: OrderId) {
    && RowsOnlyOf(st.ledger, st'.ledger, x)
    && OthersSame(st, st', x)
    && (st'.settled == st.settled || st'.settled == st.settled + [x])
  }

  lemma SettleOnly(st: State, o: Order, ok: bool)
    ensures var r := SettleBenefits(st, o, ok);
            r.Done? ==> && RowsOnlyOf(st.ledger, r.st.ledger, o.id) && r.st.orders == st.orders
                        && r.st.settled == st.settled + [o.id]
  {
  }

  lemma SetThenSettleOnly(st: State, o: Order, ok: bool)
    ensures var r := SettleBenefits(SetOrder(st, o), o, ok); r.Done? ==> Only(st, r.st, o.id)
  {
    SettleOnly(SetOrder(st, o), o, ok);
  }

  lemma AcceptOnly(st: State, o: Order, external: Option<string>, paid: Option<real>, ok: bool)
    ensures var r := Accept(st, o, external, paid, ok); r.Done? ==> Only(st, r.st, o.id)
  {
    TakeOnly(st, Identify(o, external).(status := Paid), ok);
    hide Take, ExternalFree;
  }

  lemma TakeOnly(st: State, o: Order, ok: bool)
    ensures var r := Take(st, o, ok); r.Done? ==> Only(st, r.st, o.id)
  {
    SetThenSettleOnly(st, o, ok);
    hide SettleBenefits, WithheldFrom;
  }

  lemma MarkPaidOnly(st: State, id: OrderId, external: Option<string>, paid: Option<real>, ok: bool)
    requires Base(st)
    ensures var r := MarkPaid(st, id, external, paid, ok); r.Done? ==> Only(st, r.st, id)
  {
    if id in st.orders {
      var o := st.orders[id];
      AcceptOnly(st, o, external, paid, ok);
      SetThenSettleOnly(st, o.(held := false), ok);
    }
  }

  lemma ReverseOnlyOf(l: seq<Entry>, o: OrderId, ref: RefundRef)
    ensures RowsOnlyOf(l, ReverseBonuses(l, o, ref), o)
  {
    ReverseAddsNoBonus(l, BonusRows(l, o, |l|), o, ref);
    var r := ReverseBonuses(l, o, ref);
    forall i | |l| <= i < |r| ensures r[i].Adjustment? || r[i].order == o { assert ReversalRow(r[i], o); }
  }

  lemma OnlyTrans(l: seq<Entry>, m: seq<Entry>, n: seq<Entry>, x: OrderId)
    requires RowsOnlyOf(l, m, x) && RowsOnlyOf(m, n, x)
    ensures RowsOnlyOf(l, n, x)
  {
    forall i | |l| <= i < |n| ensures n[i].Adjustment? || n[i].order == x {
      if i < |m| { assert n[i] == n[..|m|][i]; }
    }
  }

  lemma RefundDebitOnly(st: State, o: Order, ref: RefundRef)
    ensures var r := CreateRefundDebit(st, o, ref);
            r.Done? ==> RowsOnlyOf(st.ledger, r.st.ledger, o.id) && r.st == st.(ledger := r.st.ledger)
  {
  }

  /** What a completed top-up refund leaves: the reversed ledger, perhaps with a review mark. */
  lemma RefundTopupResult(c: Config, st: State, o: Order, ref: RefundRef)
    requires RefundTopup(c, st, o, ref).Done?
    ensures var d, r := CreateRefundDebit(st, o, ref), RefundTopup(c, st, o, ref);
            && d.Done? && r.st.ledger == ReverseBonuses(d.st.ledger, o.id, ref)
            && r.st == d.st.(ledger := r.st.ledger, orders := r.st.orders)
            && (r.st.orders == d.st.orders
                || (o.id in d.st.orders && r.st.orders == SetOrder(d.st, d.st.orders[o.id].(review := true)).orders))
  {
  }

  lemma RefundTopupOnly(c: Config, st: State, o: Order, ref: RefundRef)
    requires o.id in st.orders && st.orders[o.id].id == o.id
    ensures var r := RefundTopup(c, st, o, ref); r.Done? ==> Only(st, r.st, o.id)
  {
    var r := RefundTopup(c, st, o, ref);
    if r.Done? {
      RefundTopupResult(c, st, o, ref);
      RefundDebitOnly(st, o, ref);
      var d := CreateRefundDebit(st, o, ref);
      ReverseOnlyOf(d.st.ledger, o.id, ref);
      OnlyTrans(st.ledger, d.st.ledger, r.st.ledger, o.id);
    }
  }

  lemma RefundAccessOnly(st: State, o: Order, ref: RefundRef)
    ensures Only(st, RefundAccess(st, o, ref), o.id)
  {
    ReverseOnlyOf(st.ledger, o.id, ref);
  }

  lemma AfterSetOnly(st: State, o: Order, s: State)
    requires Only(SetOrder(st, o), s, o.id)
    ensures Only(st, s, o.id)
  {
  }

  lemma SetOnly(st: State, o: Order)
    ensures Only(st, SetOrder(st, o), o.id)
  {
  }

  lemma SameOnly(st: State, x: OrderId)
    ensures Only(st, st, x)
  {
  }

  lemma RefundAnyTopupOnly(c: Config, st: State, o: Order, amount: Option<real>, ref: RefundRef)
    requires o.service == Topup
    ensures var r := RefundOrder(c, st, o, amount, ref); r.Done? ==> Only(st, r.st, o.id)
  {
    hide RefundTopup, Only;
    var o' := o.(status := Refunded);
    var s1 := SetOrder(st, o');
    var d := RefundTopup(c, s1, o, ref);
    RefundTopupOnly(c, s1, o, ref);
    if d.Done? { AfterSetOnly(st, o', d.st); }
    SetOnly(st, o');
    SetOnly(st, o.(review := true));
    SameOnly(st, o.id);
  }

  lemma RefundOnly(c: Config, st: State, o: Order, amount: Option<real>, ref: RefundRef)
    ensures var r := RefundOrder(c, st, o, amount, ref); r.Done? ==> Only(st, r.st, o.id)
  {
    if o.service == Topup {
      RefundAnyTopupOnly(c, st, o, amount, ref);
    } else {
      var o' := o.(status := Refunded);
      RefundAccessOnly(SetOrder(st, o'), o, ref);
      AfterSetOnly(st, o', RefundAccess(SetOrder(st, o'), o, ref));
    }
  }

  lemma DebitOnly(st: State, u: UserId, o: OrderId, amount: nat)
    ensures var r := CreateDebit(st, u, o, amount);
            r.Done? ==> RowsOnlyOf(st.ledger, r.st.ledger, o) && SameButLedger(st, r.st)
  {
  }

  /** The order an event is about, if it is about one. */
  ghost function Subject(st: State, ev: Event): Option<OrderId> {
    match ev
    case CreateOrder(id, _, _, _, _, _) => Some(id)
    case Notify(n, _) => Find(st, n)
    case Polled(o, _, _, _) => Some(o)
    case Cancel(o, _) => Some(o)
    case Buy(id, _, _, _, _) => Some(id)
    case Checkout(id, _, _, _) => Some(id)
    case _ => None
  }

  /** No order changes, none is settled, and new rows are the admin's. */
  predicate NoOrderTouched(st: State, st': State) {
    && st'.orders == st.orders && st'.settled == st.settled && st.ledger <= st'.ledger
    && forall i :: |st.ledger| <= i < |st'.ledger| ==> st'.ledger[i].Adjustment?
  }

  lemma NoticeOnly(c: Config, st: State, n: Notice, ok: bool)
    requires Base(st)
    ensures var r := Webhook(c, st, n, ok);
            r.Done? ==> r.st == st || (Find(st, n).Some? && Only(st, r.st, Find(st, n).value))
  {
    hide MarkPaid, RefundOrder, Mismatched, RefundRefOf;
    var f := Find(st, n);
    if f.Some? {
      var o := st.orders[f.value];
      MarkPaidOnly(st, o.id, Some(n.external), n.amount, ok);
      RefundOnly(c, st, o, n.amount, RefundRefOf(n, o.id));
      SetOnly(st, o.(late := true));
    }
  }

  lemma WalletOnly(st: State, id: OrderId, u: UserId, s: Service, amount: nat, ok: bool)
    ensures var r := PayFromWallet(st, id, u, s, amount, ok); r.Done? ==> Only(st, r.st, id)
    ensures var r := CheckoutWallet(st, id, u, s, amount); r.Done? ==> Only(st, r.st, id)
  {
    var o := Order(id, u, s, Wallet, amount, Paid, None, None, false, false, false, false);
    DebitOnly(SetOrder(st, o), u, id, amount);
    DebitOnly(SetOrder(st, o.(status := Pending)), u, id, amount);
  }

  lemma PlainStepOnly(c: Config, st: State, ev: Event)
    requires Base(st) && (ev.CreateOrder? || ev.Cancel?)
    ensures Only(st, Step(c, st, ev), Subject(st, ev).value)
  {
  }

  lemma UserStepOnly(c: Config, st: State, ev: Event)
    requires ev.AdminAdjust? || ev.Unban? || ev.SetHolds? || ev.SetDeleted? || ev.AddUser? || ev.BindReferrer?
    ensures NoOrderTouched(st, Step(c, st, ev))
  {
  }

  /** Every event leaves the rows and the row of all orders but its subject alone, all of them if it
      has none, except that a ban cancels pending orders. */
  lemma StepOnly(c: Config, st: State, ev: Event)
    requires Base(st)
    ensures var st' := Step(c, st, ev);
            if ev.Ban? then st' == BanUser(st, ev.user)
            else if Subject(st, ev).Some? then Only(st, st', Subject(st, ev).value)
            else NoOrderTouched(st, st')
  {
    hide Webhook, MarkPaid, PayFromWallet, CheckoutWallet, Find, Only, BanUser, Adjust, OpenOrder, UpdateUser;
    if Subject(st, ev).Some? { SameOnly(st, Subject(st, ev).value); }
    match ev
    case Ban(u) =>
    case Notify(n, ok) => NoticeOnly(c, st, n, ok);
    case Polled(o, x, p, ok) => MarkPaidOnly(st, o, x, p, ok);
    case Buy(id, u, s, a, ok) => WalletOnly(st, id, u, s, a, ok);
    case Checkout(id, u, s, a) => WalletOnly(st, id, u, s, a, true);
    case CreateOrder(_, _, _, _, _, _) => PlainStepOnly(c, st, ev);
    case Cancel(_, _) => PlainStepOnly(c, st, ev);
    case _ => UserStepOnly(c, st, ev);
  }

  // ----- absorbing states

  /** Refunded, or canceled by the payment gateway itself. */
  predicate Closed(o: Order) {
    o.status == Refunded || Rejects(o)
  }

  /** The same but for the note of a late payment, which only a gateway-canceled order gets. */
  predicate SameButNote(o: Order, o': Order) {
    o' == o.(late := o'.late) && (o.status == Refunded ==> o' == o)
  }

  lemma ClosedSubject(c: Config, st: State, ev: Event, o: OrderId)
    requires Base(st) && o in st.orders && Closed(st.orders[o])
    requires Subject(st, ev) == Some(o)
    ensures var st' := Step(c, st, ev);
            && o in st'.orders && SameButNote(st.orders[o], st'.orders[o])
            && RowsOnlyOf(st.ledger, st'.ledger, o + 1)
  {
    assert st.orders[o := st.orders[o]] == st.orders;
    ReadBack(st, o);
    hide Base, Webhook, MarkPaid, OpenOrder, PayFromWallet, CheckoutWallet, Adjust, BanUser, UnbanUser, UpdateUser;
    match ev
    case Notify(n, ok) => ClosedWebhook(c, st, n, ok, o);
    case Polled(_, x, p, ok) => ClosedPayment(st, o, x, p, ok);
    case _ =>
  }

  lemma ReadBack(st: State, o: OrderId)
    requires Base(st) && o in st.orders
    ensures st.orders[o].id == o
  {
  }

  lemma ClosedPayment(st: State, o: OrderId, x: Option<string>, p: Option<real>, ok: bool)
    requires o in st.orders && Closed(st.orders[o])
    ensures MarkPaid(st, o, x, p, ok) == Done(st)
  {
  }

  lemma ClosedWebhook(c: Config, st: State, n: Notice, ok: bool, o: OrderId)
    requires Base(st) && o in st.orders && Closed(st.orders[o]) && (Find(st, n).Some? ==> Find(st, n).value == o)
    ensures var r := Webhook(c, st, n, ok); var x := st.orders[o];
            r == Done(st) || (Rejects(x) && r == Done(SetOrder(st, x.(late := true))))
  {
    hide Base, OnNotice, Find;
    if Find(st, n).Some? { ClosedNotice(c, st, n, ok, o); }
  }

  lemma ClosedNotice(c: Config, st: State, n: Notice, ok: bool, o: OrderId)
    requires Base(st) && o in st.orders && Closed(st.orders[o])
    ensures var x := st.orders[o]; var r := OnNotice(c, st, x, n, ok);
            r == Done(st) || (Rejects(x) && r == Done(SetOrder(st, x.(late := true))))
  {
  }

  lemma ClosedStep(c: Config, st: State, ev: Event, o: OrderId)
    requires Base(st) && o in st.orders && Closed(st.orders[o])
    ensures var st' := Step(c, st, ev);
            && o in st'.orders && SameButNote(st.orders[o], st'.orders[o])
            && Trace(st'.ledger, o) == Trace(st.ledger, o)
  {
    StepOnly(c, st, ev);
    match Subject(st, ev)
    case None => if !ev.Ban? { OtherTraceKept(st.ledger, Step(c, st, ev).ledger, o + 1, o); }
    case Some(x) =>
      if x == o { ClosedSubject(c, st, ev, o); }
      OtherTraceKept(st.ledger, Step(c, st, ev).ledger, if x == o then o + 1 else x, o);
  }

  /** A refunded or gateway-canceled order never changes again, but for the note of a late payment,
      and never gets another row, whatever webhooks, polls, purchases or bans follow. */
  lemma {:induction false} ClosedForever(c: Config, st: State, evs: seq<Event>, o: OrderId)
    requires Inv(st) && o in st.orders && Closed(st.orders[o])
    ensures var st' := Run(c, st, evs);
            && Inv(st') && o in st'.orders && SameButNote(st.orders[o], st'.orders[o])
            && Trace(st'.ledger, o) == Trace(st.ledger, o)
  {
    if evs != [] {
      var pre := evs[..|evs| - 1];
      ClosedForever(c, st, pre, o);
      hide Step, Trace;
      ClosedStep(c, Run(c, st, pre), evs[|evs| - 1], o);
      StepKeeps(c, Run(c, st, pre), evs[|evs| - 1]);
    }
  }

  // ----- settlement

  /** Neither banned nor on a hold that concerns the purchase. */
  predicate InTheClear(u: User, s: Service) {
    !u.banned && !u.hold && !(s == Topup && u.topupBlocked)
  }

  /** The two hold rules, written differently in the two places that use them, agree. */
  lemma HoldAndReleaseAgree(u: User, s: Service)
    ensures (WithheldFrom(u, s) <==> StillHeld(u, s)) && (StillHeld(u, s) <==> !InTheClear(u, s))
  {
  }

  predicate Revivable(o: Order) {
    o.status == Pending || (o.status == Canceled && o.reason != Some(GATEWAY_CANCELED))
  }

  /** What it takes for a payment notice or poll to settle an order. */
  predicate CanSettle(st: State, id: OrderId, paid: Option<real>) {
    && id in st.orders && st.orders[id].user in st.users
    && var o := st.orders[id]; var u := st.users[o.user];
       && InTheClear(u, o.service)
       && ((o.status == Paid && o.held) || (Revivable(o) && !(paid.Some? && paid.value < o.amount as real)))
  }

  predicate Settles(st: State, r: Outcome, id: OrderId, yes: bool) {
    r.Done? ==> r.st.settled == if yes then st.settled + [id] else st.settled
  }

  lemma ReleaseSettlesIff(st: State, o: Order, ok: bool)
    requires o.user in st.users
    ensures Settles(st, Release(st, o, ok), o.id, !StillHeld(st.users[o.user], o.service))
  {
    SettleOnly(SetOrder(st, o.(held := false)), o.(held := false), ok);
  }

  lemma AcceptSettlesIff(st: State, o: Order, external: Option<string>, paid: Option<real>, ok: bool)
    requires o.user in st.users
    ensures Settles(st, Accept(st, o, external, paid, ok), o.id,
                    !(paid.Some? && paid.value < o.amount as real) && !WithheldFrom(st.users[o.user], o.service))
  {
    var o2 := Identify(o, external).(status := Paid);
    SettleOnly(SetOrder(st, o2), o2, ok);
  }

  /** A committed payment settles the order exactly when it is payable, paid in full and its
      user is neither banned nor held; an order already settled is never settled again. */
  lemma PaymentSettlesIff(st: State, id: OrderId, external: Option<string>, paid: Option<real>, ok: bool)
    requires Inv(st)
    ensures Settles(st, MarkPaid(st, id, external, paid, ok), id, CanSettle(st, id, paid))
    ensures CanSettle(st, id, paid) ==> id !in st.settled
  {
    if id in st.orders {
      var o := st.orders[id];
      assert OkAt(st, id);
      HoldAndReleaseAgree(st.users[o.user], o.service);
      ReleaseSettlesIff(st, o, ok);
      AcceptSettlesIff(st, o, external, paid, ok);
    }
  }

  /** Whatever the event, an order that becomes settled in it has a user in the clear. */
  lemma SettledOnlyInTheClear(c: Config, st: State, ev: Event, o: OrderId)
    requires Inv(st) && o !in st.settled && o in Step(c, st, ev).settled
    ensures o in st.orders && InTheClear(st.users[st.orders[o].user], st.orders[o].service)
  {
    hide MarkPaid, RefundOrder, PayFromWallet, CheckoutWallet, Mismatched;
    StepOnly(c, st, ev);
    assert Subject(st, ev) == Some(o);
    match ev
    case Notify(n, ok) =>
      var f := Find(st, n);
      RefundSettlesNothing(c, st, st.orders[f.value], n.amount, RefundRefOf(n, f.value));
      PaymentSettlesIff(st, o, Some(n.external), n.amount, ok);
    case Polled(_, x, p, ok) => PaymentSettlesIff(st, o, x, p, ok);
    case Buy(id, u, s, a, ok) => WalletSettlesNothing(st, id, u, s, a, ok);
    case Checkout(id, u, s, a) => WalletSettlesNothing(st, id, u, s, a, true);
    case _ =>
  }

  lemma RefundSettlesNothing(c: Config, st: State, o: Order, amount: Option<real>, ref: RefundRef)
    ensures var r := RefundOrder(c, st, o, amount, ref); r.Done? ==> r.st.settled == st.settled
  {
    var s1 := SetOrder(st, o.(status := Refunded));
    if RefundTopup(c, s1, o, ref).Done? {
      RefundTopupResult(c, s1, o, ref);
      RefundDebitOnly(s1, o, ref);
    }
  }

  lemma WalletSettlesNothing(st: State, id: OrderId, u: UserId, s: Service, amount: nat, ok: bool)
    ensures var r := PayFromWallet(st, id, u, s, amount, ok); r.Done? ==> r.st.settled == st.settled
    ensures var r := CheckoutWallet(st, id, u, s, amount); r.Done? ==> r.st.settled == st.settled
  {
    var o := Order(id, u, s, Wallet, amount, Paid, None, None, false, false, false, false);
    DebitOnly(SetOrder(st, o), u, id, amount);
    DebitOnly(SetOrder(st, o.(status := Pending)), u, id, amount);
  }

  /** What `MarkPaid` leaves of the order it just worked on, and of the users. */
  predicate PaidOrHeld(st: State, r: Outcome, id: OrderId) {
    r.Done? ==> && r.st.users == st.users && id in r.st.orders && id in st.orders
                && var o, o' := st.orders[id], r.st.orders[id];
                   && o'.user == o.user && o'.service == o.service
                   && (o'.status == Paid && o'.held ==>
                        o.user in st.users && StillHeld(st.users[o.user], o.service))
  }

  lemma SettleKeepsOrders(st: State, o: Order, ok: bool)
    ensures var r := SettleBenefits(st, o, ok);
            r.Done? ==> r.st.users == st.users && r.st.orders == st.orders
  {
  }

  lemma ReleaseLeaves(st: State, o: Order, ok: bool)
    requires o.id in st.orders && st.orders[o.id] == o
    ensures PaidOrHeld(st, Release(st, o, ok), o.id)
  {
    SettleKeepsOrders(SetOrder(st, o.(held := false)), o.(held := false), ok);
  }

  lemma AcceptLeaves(st: State, o: Order, external: Option<string>, paid: Option<real>, ok: bool)
    requires o.id in st.orders && st.orders[o.id] == o && o.status != Paid && !o.held && o.user in st.users
    ensures PaidOrHeld(st, Accept(st, o, external, paid, ok), o.id)
  {
    TakeLeaves(st, Identify(o, external).(status := Paid), ok);
    hide Take, ExternalFree, StillHeld;
  }

  lemma TakeLeaves(st: State, o: Order, ok: bool)
    requires o.id in st.orders && st.orders[o.id].user == o.user && st.orders[o.id].service == o.service
    requires o.status == Paid && !o.held && o.user in st.users
    ensures PaidOrHeld(st, Take(st, o, ok), o.id)
  {
    SettleKeepsOrders(SetOrder(st, o), o, ok);
    HoldAndReleaseAgree(st.users[o.user], o.service);
    hide SettleBenefits, WithheldFrom;
  }

  lemma MarkPaidLeaves(st: State, id: OrderId, x: Option<string>, p: Option<real>, ok: bool)
    requires Inv(st) && id in st.orders
    requires st.orders[id].status == Paid || Revivable(st.orders[id])
    ensures PaidOrHeld(st, MarkPaid(st, id, x, p, ok), id)
  {
    assert OkAt(st, id);
    if st.orders[id].status == Paid {
      ReleaseLeaves(st, st.orders[id], ok);
    } else {
      AcceptLeaves(st, st.orders[id], x, p, ok);
    }
  }

  lemma PaidIsStable(s: State, id: OrderId, x: Option<string>, p: Option<real>, ok: bool)
    requires id in s.orders && s.orders[id].status == Paid
    requires s.orders[id].held
             ==> s.orders[id].user in s.users && StillHeld(s.users[s.orders[id].user], s.orders[id].service)
    ensures MarkPaid(s, id, x, p, ok) == Done(s)
  {
  }

  /** A second delivery of a payment changes nothing, whatever it says: after a first one that
      left the order paid, any further poll or notice finds it settled or still held. */
  lemma DuplicatePaymentIsIgnored(
    st: State, id: OrderId, x: Option<string>, p: Option<real>,
    x2: Option<string>, p2: Option<real>, ok: bool, ok2: bool)
    requires Inv(st) && id in st.orders && MarkPaid(st, id, x, p, ok).Done?
    requires id in MarkPaid(st, id, x, p, ok).st.orders
    requires MarkPaid(st, id, x, p, ok).st.orders[id].status == Paid
    ensures var s := MarkPaid(st, id, x, p, ok).st; MarkPaid(s, id, x2, p2, ok2) == Done(s)
  {
    var r := MarkPaid(st, id, x, p, ok);
    var s := r.st;
    ClosedIsIgnored(st, id, x, p, ok);
    MarkPaidLeaves(st, id, x, p, ok);
    assert PaidOrHeld(st, r, id);
    PaidIsStable(s, id, x2, p2, ok2);
  }

  lemma ClosedIsIgnored(st: State, id: OrderId, x: Option<string>, p: Option<real>, ok: bool)
    requires id in st.orders
    ensures st.orders[id].status == Paid || Revivable(st.orders[id]) || MarkPaid(st, id, x, p, ok) == Done(st)
  {
  }

  function CountKey(l: seq<Entry>, k: Key): nat {
    if l == [] then 0 else CountKey(l[..|l| - 1], k) + if KeyOf(l[|l| - 1]) == k then 1 else 0
  }

  lemma {:induction false} KeyCounts(l: seq<Entry>, k: Key)
    requires UniqueKeys(l)
    ensures CountKey(l, k) == if HasKey(l, k) then 1 else 0
  {
    if l != [] {
      var pre := l[..|l| - 1];
      KeyCounts(pre, k);
      if HasKey(pre, k) {
        var i :| 0 <= i < |pre| && KeyOf(pre[i]) == k;
        assert KeyOf(l[i]) == k;
      } else if KeyOf(l[|l| - 1]) != k {
        assert forall i :: 0 <= i < |l| - 1 ==> l[i] == pre[i];
      }
    }
  }

  /** On every run: settled at most once, credited exactly once if a settled top-up and never
      otherwise; a gateway payment that is not held has been settled; access is granted exactly to
      paid or refunded orders that are not held, and revoked exactly on refund. */
  lemma SettlementIsExact(c: Config, evs: seq<Event>, o: OrderId)
    ensures var st := Run(c, INITIAL, evs);
            && NoDup(st.settled) && NoDup(st.granted) && NoDup(st.revoked)
            && (o in st.orders ==>
                 var x := st.orders[o];
                 && (x.service == Topup ==> CountKey(st.ledger, OrderCredit(o)) == if o in st.settled then 1 else 0)
                 && (x.status == Paid && x.via == Gateway ==> x.held != (o in st.settled))
                 && (o in st.settled ==> x.status in {Paid, Refunded} && !x.held)
                 && (o in st.granted <==> x.service != Topup && x.status in {Paid, Refunded} && !x.held)
                 && (o in st.revoked <==> o in st.granted && x.status == Refunded))
  {
    RunKeeps(c, evs);
    var st := Run(c, INITIAL, evs);
    if o in st.orders {
      assert OkAt(st, o);
      KeyCounts(st.ledger, OrderCredit(o));
      if st.orders[o].service == Topup { CreditedIffSettled(st, o); }
    }
  }

  // ----- conservation

  function Share(t: seq<Entry>, k: nat, u: UserId): int {
    if k < |t| && t[k].user == u then Signed(t[k]) else 0
  }

  lemma {:induction false} NetOfFew(t: seq<Entry>, u: UserId)
    requires |t| <= 4
    ensures Net(t, u) == Share(t, 0, u) + Share(t, 1, u) + Share(t, 2, u) + Share(t, 3, u)
  {
    if t != [] {
      NetOfFew(t[..|t| - 1], u);
    }
  }

  lemma RefundedNet(o: Order, t: seq<Entry>, u: UserId)
    requires o.status == Refunded && RefundedTrace(o, t)
    ensures Net(t, u) == 0
  {
    NetOfFew(t, u);
    if t != [] && o.service == Topup { assert [t[0]][0] == t[0]; }
  }

  lemma UnsettledNet(o: Order, t: seq<Entry>, u: UserId)
    requires UnsettledTrace(o, t)
    ensures o.via == Gateway || o.held ==> t == []
    ensures t != [] ==> Net(t, u) == if u == o.user then -(o.amount as int) else 0
  {
    NetOfFew(t, u);
  }

  /** After a full refund every account is back where the order found it: the rows of the order
      sum to zero for every user, and an order never settled has no rows at all; a purchase from
      the balance keeps its debit. */
  lemma RefundConserves(c: Config, evs: seq<Event>, o: OrderId, u: UserId)
    requires var st := Run(c, INITIAL, evs); o in st.orders && st.orders[o].status == Refunded
    ensures var st := Run(c, INITIAL, evs); var x, t := st.orders[o], Trace(st.ledger, o);
            && (x.via == Gateway ==> Net(t, u) == 0)
            && (x.held || (x.via == Gateway && o !in st.settled) ==> t == [])
            && (o in st.settled ==> Net(t, u) == 0)
            && (o !in st.settled && t != [] ==> Net(t, u) == if u == x.user then -(x.amount as int) else 0)
  {
    RunKeeps(c, evs);
    var st := Run(c, INITIAL, evs);
    var x, t := st.orders[o], Trace(st.ledger, o);
    assert OkAt(st, o);
    if o !in st.settled {
      UnsettledNet(x, t, u);
    } else {
      RefundedNet(x, t, u);
    }
  }

  // ----- balances

  /** On every run only refunds and reversals can take a balance below zero. */
  lemma BalancesBackedOnEveryRun(c: Config, evs: seq<Event>, u: UserId)
    ensures var st := Run(c, INITIAL, evs); Position(st.ledger, u) + Clawed(st.ledger, u) >= 0
  {
    RunKeeps(c, evs);
    var st := Run(c, INITIAL, evs);
    OnlyClawbacksOverdraw(st.ledger, st.allocs, u);
  }

  lemma FreshDebitKey(st: State, id: OrderId)
    requires Base(st) && id !in st.orders
    ensures !HasKey(st.ledger, OrderDebit(id))
  {
    FreshTrace(st, id);
    hide Base, Trace;
    if HasKey(st.ledger, OrderDebit(id)) { KeyInTrace(st.ledger, OrderDebit(id)); }
  }

  /** A covered debit for a new order is written and lowers the balance by its amount. */
  lemma CoveredDebit(st: State, o: Order)
    requires Inv(st) && o.id !in st.orders && o.user in st.users && o.amount <= Position(st.ledger, o.user)
    ensures var d := CreateDebit(SetOrder(st, o), o.user, o.id, o.amount);
            d.Done? && Position(d.st.ledger, o.user) == Position(st.ledger, o.user) - o.amount
  {
    FreshDebitKey(st, o.id);
    hide Inv, DrawFor, HasKey;
    var e := PurchaseDebit(o.id, o.user, o.amount);
    if o.amount > 0 { PlacedDebit(st, e); }
    assert (st.ledger + [e])[..|st.ledger|] == st.ledger;
  }

  lemma PlacedDebit(st: State, e: Entry)
    requires Inv(st) && SpendAmount(e) > 0 && SpendAmount(e) <= Position(st.ledger, e.user)
    ensures DrawFor(st.ledger, st.allocs, e).left == 0
  {
    CoveredDebitIsPlaced(st.ledger, st.allocs, e);
  }

  /** A purchase from the balance succeeds exactly when the user is known, not held and can pay
      for it; the lots behind the balance never run out first. */
  lemma WalletPurchaseIff(st: State, id: OrderId, u: UserId, s: Service, amount: nat, ok: bool)
    requires Inv(st) && id !in st.orders
    ensures var r := PayFromWallet(st, id, u, s, amount, ok);
            && (r.Done? <==> && u in st.users && !st.users[u].hold
                             && Position(st.ledger, u) >= amount
                             && (s == WhiteInternet ==> ok))
            && (r.Done? ==> Position(r.st.ledger, u) == Position(st.ledger, u) - amount)
            && (r.Raised? ==> r.fault != LedgerInvariant && r.fault != LedgerConflict)
  {
    hide Inv, CreateDebit, Position;
    if u in st.users && amount <= Position(st.ledger, u) {
      CoveredDebit(st, Order(id, u, s, Wallet, amount, Paid, None, None, false, false, false, false));
    }
  }

  // ----- what it takes for a refund to commit

  lemma RefundMarks(c: Config, st: State, o: Order, ref: RefundRef)
    requires o.status == Paid && RefundOrder(c, st, o, Some(o.amount as real), ref).Done?
    ensures var r := RefundOrder(c, st, o, Some(o.amount as real), ref);
            o.id in r.st.orders && r.st.orders[o.id].status == Refunded
  {
    var s1 := SetOrder(st, o.(status := Refunded));
    if o.service == Topup && RefundTopup(c, s1, o, ref).Done? {
      RefundTopupResult(c, s1, o, ref);
      RefundDebitOnly(s1, o, ref);
    }
  }

  /** A full refund of a paid order commits unless it is a credited top-up and the balance
      lookup at its end cannot be called. */
  lemma RefundCommitsIff(c: Config, st: State, o: Order, ref: RefundRef)
    requires Inv(st) && o.id in st.orders && st.orders[o.id] == o && o.status == Paid
    ensures var r := RefundOrder(c, st, o, Some(o.amount as real), ref);
            && (r.Done? <==> c.balanceLookup || o.service != Topup || o.id !in st.settled)
            && (r.Done? ==> o.id in r.st.orders && r.st.orders[o.id].status == Refunded)
            && (r.Raised? ==> r.fault == CallFailed)
  {
    var r := RefundOrder(c, st, o, Some(o.amount as real), ref);
    if o.service == Topup { RefundAnyTopupKeeps(c, st, o, ref); }
    if r.Done? { RefundMarks(c, st, o, ref); }
  }

  predicate SettledTopup(st: State, o: OrderId) {
    o in st.orders && st.orders[o].service == Topup && st.orders[o].status == Paid && o in st.settled
  }

  lemma SettledTopupNotice(st: State, o: OrderId, n: Notice, ok: bool)
    requires Inv(st) && SettledTopup(st, o)
    ensures var r := OnNotice(SHIPPED, st, st.orders[o], n, ok); r.Done? ==> SettledTopup(r.st, o)
  {
    var x := st.orders[o];
    assert OkAt(st, o);
    if n.kind == RefundSucceeded && n.amount == Some(x.amount as real) {
      RefundCommitsIff(SHIPPED, st, x, RefundRefOf(n, o));
      hide RefundOrder;
    }
  }

  lemma SettledTopupStep(st: State, ev: Event, o: OrderId)
    requires Inv(st) && SettledTopup(st, o)
    ensures SettledTopup(Step(SHIPPED, st, ev), o)
  {
    hide OnNotice, PayFromWallet, CheckoutWallet, Find, CreateDebit, Adjust, RowsOnlyOf;
    StepOnly(SHIPPED, st, ev);
    if Subject(st, ev) == Some(o) {
      assert OkAt(st, o);
      if ev.Notify? { SettledTopupNotice(st, o, ev.notice, ev.ok); }
    }
  }

  /** As the code stands, a settled top-up can never become refunded, on any run: every refund
      notice for it raises and is rolled back. */
  lemma {:induction false} ShippedNeverRefundsTopups(evs: seq<Event>, more: seq<Event>, o: OrderId)
    requires SettledTopup(Run(SHIPPED, INITIAL, evs), o)
    ensures SettledTopup(Run(SHIPPED, Run(SHIPPED, INITIAL, evs), more), o)
    decreases |more|
  {
    if more != [] {
      var pre := more[..|more| - 1];
      ShippedNeverRefundsTopups(evs, pre, o);
      RunKeeps(SHIPPED, evs);
      RunFromKeeps(SHIPPED, Run(SHIPPED, INITIAL, evs), pre);
      SettledTopupStep(Run(SHIPPED, Run(SHIPPED, INITIAL, evs), pre), more[|more| - 1], o);
    }
  }

  lemma {:induction false} RunFromKeeps(c: Config, st: State, evs: seq<Event>)
    requires Inv(st)
    ensures Inv(Run(c, st, evs))
  {
    if evs != [] {
      RunFromKeeps(c, st, evs[..|evs| - 1]);
      StepKeeps(c, Run(c, st, evs[..|evs| - 1]), evs[|evs| - 1]);
    }
  }

  // ----- release

  /** A held payment is not lost: once its user is in the clear, the next look at it settles it
      (given that provisioning works and the order is not for nothing). */
  lemma HeldIsReleased(st: State, id: OrderId, x: Option<string>, p: Option<real>)
    requires Inv(st) && id in st.orders && st.orders[id].status == Paid && st.orders[id].held
    requires st.orders[id].amount > 0
    ensures var o, r := st.orders[id], MarkPaid(st, id, x, p, true);
            && r.Done? && (id in r.st.settled <==> InTheClear(st.users[o.user], o.service))
            && (r.st == st <==> !InTheClear(st.users[o.user], o.service))
  {
    var o := st.orders[id];
    assert OkAt(st, id);
    var o' := o.(held := false);
    if o.external.Some? { ExternalKept(st, o); }
    SetRow(st, o');
    CreditOrNone(SetOrder(st, o'), o');
    PaymentSettlesIff(st, id, x, p, true);
  }

  lemma CreditOrNone(st: State, o: Order)
    requires InvBut(st, o.id) && Trace(st.ledger, o.id) == [] && o.amount > 0
    ensures SettleBenefits(st, o, true).Done?
  {
    CreditOnce(st, o);
  }

  // ----- the referral tier of a payment

  predicate Without(orders: map<OrderId, Order>, o: OrderId, rest: map<OrderId, Order>) {
    rest.Keys == orders.Keys - {o} && forall p :: p in rest ==> rest[p] == orders[p]
  }

  lemma ActiveWithout(orders: map<OrderId, Order>, o: OrderId, rest: map<OrderId, Order>, u: UserId)
    requires Without(orders, o, rest)
    ensures IsActive(rest, u) <==> HasOther(orders, u, o)
    ensures IsActive(orders, u) <==> HasOther(orders, u, o) || (o in orders && Qualifies(orders[o], u))
  {
    if HasOther(orders, u, o) {
      var p :| p in orders && p != o && Qualifies(orders[p], u);
      assert p in rest && Qualifies(rest[p], u);
    }
  }

  /** The count a payment's tier is taken from is a full recount of the referrer's active
      referrals with this very order left out: a first qualifying payment never raises the tier
      it is paid at. `o` is the order as settlement sees it. */
  lemma EffectiveCountIsRecount(st: State, o: Order, rest: map<OrderId, Order>)
    requires o.id in st.orders && st.orders[o.id] == o && o.status == Paid
    requires o.service == Topup || o.via != Wallet
    requires Referrer(st, o.user).Some? && Without(st.orders, o.id, rest)
    ensures var r := Referrer(st, o.user).value;
            EffectiveCount(st, r, o.user, o.id, o.amount) == |ActiveReferrals(st.users, rest, r)|
  {
    var r := Referrer(st, o.user).value;
    var full := ActiveReferrals(st.users, st.orders, r);
    var part := ActiveReferrals(st.users, rest, r);
    forall u ensures u in part <==> u in full && (u != o.user || HasOther(st.orders, u, o.id)) {
      ActiveWithout(st.orders, o.id, rest, u);
    }
    if !HasOther(st.orders, o.user, o.id) && o.amount >= ACTIVE_MIN_TOPUP {
      ActiveWithout(st.orders, o.id, rest, o.user);
      assert part == full - {o.user};
    } else {
      ActiveWithout(st.orders, o.id, rest, o.user);
      assert part == full;
    }
  }

  /** On every run an order never pays out more than the top rate's share of it in bonuses, one
      bonus at most, and never to its own purchaser. */
  lemma BonusesAreBounded(c: Config, evs: seq<Event>, o: OrderId, i: nat, j: nat)
    requires var l := Run(c, INITIAL, evs).ledger;
             && i <= j < |l| && l[i].ReferralCredit? && l[j].ReferralCredit? && l[i].order == l[j].order == o
    ensures var st := Run(c, INITIAL, evs);
            && i == j && o in st.orders && 100 * st.ledger[i].amount <= 30 * st.orders[o].amount
            && st.ledger[i].user != st.orders[o].user
  {
    RunKeeps(c, evs);
    var st := Run(c, INITIAL, evs);
    assert OkAt(st, o);
    InTrace(st.ledger, st.ledger[i], o);
    InTrace(st.ledger, st.ledger[j], o);
    SoleBonus(st.orders[o], o in st.settled, Trace(st.ledger, o), st.ledger[i], st.ledger[j]);
    assert KeyOf(st.ledger[i]) == KeyOf(st.ledger[j]);
  }

  lemma SoleBonus(o: Order, settled: bool, t: seq<Entry>, a: Entry, b: Entry)
    requires a in t && b in t && a.ReferralCredit? && b.ReferralCredit?
    requires if !settled then UnsettledTrace(o, t)
             else if o.status == Refunded then RefundedTrace(o, t) else PaidTrace(o, t)
    ensures a == b && IsBonusRow(o, a)
  {
    if PaidTrace(o, t) {
      var c := CreditPart(o);
      assert forall k :: 0 <= k < |c| ==> t[k] == c[k];
    }
  }

  // ----- the refund that cannot commit, on a concrete run

  const PAID_NOTICE := Notice(PaymentSucceeded, Id(1), "", None, None)
  const REFUND_NOTICE := Notice(RefundSucceeded, Id(1), "refund", None, Some(100.0))
  const TOPUP_RUN: seq<Event> := [
    AddUser(1, None), CreateOrder(1, 1, Topup, Gateway, 100, None), Notify(PAID_NOTICE, true)]

  lemma RunPush(c: Config, st: State, evs: seq<Event>, ev: Event)
    ensures Run(c, st, evs + [ev]) == Step(c, Run(c, st, evs), ev)
  {
    assert (evs + [ev])[..|evs|] == evs;
  }

  lemma TopupIsSettled(c: Config)
    ensures var st := Run(c, INITIAL, TOPUP_RUN);
            && SettledTopup(st, 1) && st.orders[1].id == 1 && st.orders[1].amount == 100
            && st.orders[1].external == None
  {
    var e1, e2, e3 := TOPUP_RUN[0], TOPUP_RUN[1], TOPUP_RUN[2];
    RunPush(c, INITIAL, [], e1);
    RunPush(c, INITIAL, [e1], e2);
    RunPush(c, INITIAL, [e1, e2], e3);
    assert [] + [e1] == [e1] && [e1] + [e2] == [e1, e2] && [e1, e2] + [e3] == TOPUP_RUN;
    var o := Order(1, 1, Topup, Gateway, 100, Pending, None, None, false, false, false, false);
    var s2 := SetOrder(INITIAL.(users := map[1 := User(false, false, false, false, None)]), o);
    assert Run(c, INITIAL, [e1, e2]) == s2;
    FreshIsSettled(s2, o);
  }

  lemma FreshIsSettled(st: State, o: Order)
    requires st.orders == map[1 := o]
             && o == Order(1, 1, Topup, Gateway, 100, Pending, None, None, false, false, false, false)
    requires st.users == map[1 := User(false, false, false, false, None)] && st.ledger == [] && st.settled == []
    ensures var o' := o.(status := Paid); var r := Webhook(Config(true), st, PAID_NOTICE, true);
            && r == Webhook(Config(false), st, PAID_NOTICE, true)
            && r.Done? && r.st.settled == [1] && r.st.orders == map[1 := o']
  {
    var o' := o.(status := Paid);
    assert Identify(o, Some("")) == o;
    assert st.orders[1 := o'] == map[1 := o'];
    var s1 := CreateCredit(SetOrder(st, o'), o').st;
    assert Referrer(s1, 1) == None;
  }

  lemma RefundNoticeIsRefund(c: Config, st: State)
    requires SettledTopup(st, 1) && st.orders[1].id == 1 && st.orders[1].external == None
    ensures Webhook(c, st, REFUND_NOTICE, true)
            == RefundOrder(c, st, st.orders[1], Some(100.0), "refund")
  {
    assert Trim("refund") == "refund";
  }

  lemma AfterRefundNotice(c: Config)
    ensures var st := Run(c, INITIAL, TOPUP_RUN); var st' := Run(c, INITIAL, TOPUP_RUN + [Notify(REFUND_NOTICE, true)]);
            && 1 in st.orders && st.orders[1].status == Paid
            && (!c.balanceLookup ==> st' == st)
            && (c.balanceLookup ==> 1 in st'.orders && st'.orders[1].status == Refunded)
  {
    var st := Run(c, INITIAL, TOPUP_RUN);
    TopupIsSettled(c);
    RunKeeps(c, TOPUP_RUN);
    RunPush(c, INITIAL, TOPUP_RUN, Notify(REFUND_NOTICE, true));
    RefundNoticeIsRefund(c, st);
    RefundCommitsIff(c, st, st.orders[1], "refund");
  }

  /** A paid top-up whose full refund the gateway reports stays paid as the code stands, and is
      refunded once the balance lookup can be called. */
  lemma RefundIsLost()
    ensures var evs := TOPUP_RUN + [Notify(REFUND_NOTICE, true)];
            var shipped, repaired := Run(SHIPPED, INITIAL, evs), Run(Config(true), INITIAL, evs);
            && shipped == Run(SHIPPED, INITIAL, TOPUP_RUN)
            && 1 in shipped.orders && shipped.orders[1].status == Paid
            && 1 in repaired.orders && repaired.orders[1].status == Refunded
  {
    AfterRefundNotice(SHIPPED);
    AfterRefundNotice(Config(true));
  }
}
