/** When exactly the billing machine refunds, sells and rewards: conditions a reader can check in
    the state before the step. */
module BillingConditions {
  import opened Options
  import opened Strings
  import opened Ledger
  import opened Account
  import opened Fifo
  import opened Referral
  import opened Billing
  import opened BillingInvariant
  import opened BillingTheorems

  // ----- becoming refunded

  /** A refund notice for all that was paid for a paid order. */
  predicate FullRefund(st: State, n: Notice, o: OrderId) {
    && n.kind == RefundSucceeded && o in st.orders && st.orders[o].status == Paid
    && n.amount == Some(st.orders[o].amount as real)
  }

  predicate IsRefunded(st: State, o: OrderId) {
    o in st.orders && st.orders[o].status == Refunded
  }

  /** No order becomes refunded. */
  predicate NoneRefunded(st: State, st': State) {
    forall o :: o in st'.orders && IsRefunded(st', o) ==> IsRefunded(st, o)
  }

  predicate SameKeys(st: State, st': State) {
    st'.orders.Keys == st.orders.Keys
  }

  lemma TakeRefundsNone(st: State, o: Order, ok: bool)
    requires o.id in st.orders && o.status != Refunded
    ensures var r := Take(st, o, ok); r.Done? ==> NoneRefunded(st, r.st) && SameKeys(st, r.st)
  {
    SettleOnly(SetOrder(st, o), o, ok);
    hide SettleBenefits, WithheldFrom;
  }

  lemma AcceptRefundsNone(st: State, o: Order, external: Option<string>, paid: Option<real>, ok: bool)
    requires o.id in st.orders && st.orders[o.id] == o
    ensures var r := Accept(st, o, external, paid, ok); r.Done? ==> NoneRefunded(st, r.st) && SameKeys(st, r.st)
  {
    TakeRefundsNone(st, Identify(o, external).(status := Paid), ok);
    hide Take, ExternalFree;
  }

  lemma ReleaseRefundsNone(st: State, o: Order, ok: bool)
    requires o.id in st.orders && o.status == Paid
    ensures var r := Release(st, o, ok); r.Done? ==> NoneRefunded(st, r.st) && SameKeys(st, r.st)
  {
    SettleOnly(SetOrder(st, o.(held := false)), o.(held := false), ok);
    hide SettleBenefits, StillHeld;
  }

  lemma MarkPaidRefundsNone(st: State, id: OrderId, external: Option<string>, paid: Option<real>, ok: bool)
    requires Base(st)
    ensures var r := MarkPaid(st, id, external, paid, ok); r.Done? ==> NoneRefunded(st, r.st) && SameKeys(st, r.st)
  {
    if id in st.orders {
      var o := st.orders[id];
      assert o.id == id;
      hide Accept, Release, Base, Rejects;
      AcceptRefundsNone(st, o, external, paid, ok);
      if o.status == Paid { ReleaseRefundsNone(st, o, ok); }
    }
  }

  lemma WalletRefundsNone(st: State, id: OrderId, u: UserId, s: Service, amount: nat, ok: bool)
    ensures var r := PayFromWallet(st, id, u, s, amount, ok); r.Done? ==> NoneRefunded(st, r.st)
    ensures var r := CheckoutWallet(st, id, u, s, amount); r.Done? ==> NoneRefunded(st, r.st)
  {
    var o := Order(id, u, s, Wallet, amount, Paid, None, None, false, false, false, false);
    DebitOnly(SetOrder(st, o), u, id, amount);
    DebitOnly(SetOrder(st, o.(status := Pending)), u, id, amount);
    hide CreateDebit, Position;
  }

  lemma UsersRefundNone(c: Config, st: State, ev: Event)
    requires Base(st) && !ev.Notify? && !ev.Polled? && !ev.Buy? && !ev.Checkout?
    ensures NoneRefunded(st, Step(c, st, ev))
  {
    if ev.CreateOrder? || ev.Cancel? || ev.Ban? {
      hide ExternalFree;
    } else {
      UserStepOnly(c, st, ev);
      hide Step;
    }
  }

  /** What one refund does to the order it is for. */
  lemma RefundedByIff(c: Config, st: State, o: Order, amount: Option<real>, ref: RefundRef)
    requires Inv(st) && o.id in st.orders && st.orders[o.id] == o && o.status != Refunded
    ensures var r := RefundOrder(c, st, o, amount, ref); var st' := if r.Done? then r.st else st;
            && (IsRefunded(st', o.id) <==> && o.status == Paid && amount == Some(o.amount as real)
                                           && (c.balanceLookup || o.service != Topup || o.id !in st.settled))
            && (!IsRefunded(st', o.id) ==> r.Raised? || r.st == st || r.st == SetOrder(st, o.(review := true)))
  {
    if o.status == Paid && amount == Some(o.amount as real) {
      RefundCommitsIff(c, st, o, ref);
      hide RefundOrder, Inv;
    } else {
      hide Inv, RefundTopup, RefundAccess, HasKey;
    }
  }

  /** The refund's payment id contradicts the one recorded on the order. */
  predicate ForeignRefund(o: Order, n: Notice) {
    && o.external.Some? && o.external.value != "" && n.related.Some? && n.related.value != ""
    && o.external.value != n.related.value
  }

  /** A refund notice turns the order it is about into a refunded one exactly when the order is paid,
      the amount is all of it, the payment is its own, and the books can be closed. */
  lemma NoticeRefundsIff(c: Config, st: State, n: Notice, ok: bool, o: OrderId)
    requires Inv(st) && n.kind == RefundSucceeded && Find(st, n) == Some(o) && !IsRefunded(st, o)
    ensures IsRefunded(Step(c, st, Notify(n, ok)), o)
            <==> && FullRefund(st, n, o) && !ForeignRefund(st.orders[o], n)
                 && (c.balanceLookup || st.orders[o].service != Topup || o !in st.settled)
  {
    FoundIsKnown(st, n, o);
    RefundedByIff(c, st, st.orders[o], n.amount, RefundRefOf(n, o));
    hide RefundOrder, RefundRefOf, Find, Inv;
  }

  lemma FoundIsKnown(st: State, n: Notice, o: OrderId)
    requires Inv(st) && Find(st, n) == Some(o)
    ensures o in st.orders && st.orders[o].id == o
  {
  }

  /** A notice finds an order only by its id, or by the payment id or object id it was paid under;
      a known order id goes before everything else. */
  lemma FoundByItsNames(st: State, n: Notice, o: OrderId)
    requires Find(st, n) == Some(o)
    ensures o in st.orders
    ensures || n.order == Id(o)
            || (n.related.Some? && n.related.value != "" && st.orders[o].external == n.related)
            || (n.external != "" && st.orders[o].external == Some(n.external))
    ensures n.order.Id? && n.order.id in st.orders ==> o == n.order.id
  {
  }

  lemma OtherNoticesRefundNone(c: Config, st: State, n: Notice, ok: bool)
    requires Inv(st) && n.kind != RefundSucceeded
    ensures NoneRefunded(st, Step(c, st, Notify(n, ok)))
  {
    if Find(st, n).Some? {
      var o := Find(st, n).value;
      FoundIsKnown(st, n, o);
      MarkPaidRefundsNone(st, o, Some(n.external), n.amount, ok);
      hide MarkPaid, Find, Inv, Base, Mismatched;
    }
  }

  lemma RefundTouchesItsOrder(c: Config, st: State, n: Notice, ok: bool, o: OrderId)
    requires Inv(st) && IsRefunded(Step(c, st, Notify(n, ok)), o) && !IsRefunded(st, o)
    ensures Find(st, n) == Some(o)
  {
    StepOnly(c, st, Notify(n, ok));
    hide Step, Find, Inv, Base, RowsOnlyOf;
    if Find(st, n).Some? && Find(st, n).value != o { NoNewOrders(c, st, n, ok); }
  }

  lemma NoticeStep(c: Config, st: State, n: Notice, ok: bool, o: OrderId)
    requires Find(st, n) == Some(o) && o in st.orders
    ensures var r := OnNotice(c, st, st.orders[o], n, ok); Step(c, st, Notify(n, ok)) == if r.Done? then r.st else st
  {
    hide OnNotice, Find;
  }

  lemma NoNewOrders(c: Config, st: State, n: Notice, ok: bool)
    requires Inv(st)
    ensures SameKeys(st, Step(c, st, Notify(n, ok)))
  {
    if Find(st, n).Some? {
      var o := Find(st, n).value;
      FoundIsKnown(st, n, o);
      assert Base(st);
      hide OnNotice, Find, Inv, Step;
      NoticeStep(c, st, n, ok, o);
      NoticeKeys(c, st, st.orders[o], n, ok);
    }
  }

  lemma SetOrderKeys(st: State, o: Order)
    requires o.id in st.orders
    ensures SameKeys(st, SetOrder(st, o)) && SameKeys(st, st)
  {
  }

  lemma NoticeKeys(c: Config, st: State, o: Order, n: Notice, ok: bool)
    requires Base(st) && o.id in st.orders && st.orders[o.id] == o
    ensures var r := OnNotice(c, st, o, n, ok); r.Done? ==> SameKeys(st, r.st)
  {
    hide MarkPaid, RefundOrder, Inv, RefundRefOf, Mismatched, Base, SameKeys, SetOrder;
    MarkPaidRefundsNone(st, o.id, Some(n.external), n.amount, ok);
    RefundKeys(c, st, o, n.amount, RefundRefOf(n, o.id));
    SetOrderKeys(st, o.(late := true));
    SetOrderKeys(st, MarkCanceled(o, GATEWAY_CANCELED));
  }

  lemma TopupRefundKeys(c: Config, st: State, o: Order, ref: RefundRef)
    requires o.id in st.orders && st.orders[o.id].id == o.id
    ensures var r := RefundTopup(c, st, o, ref); r.Done? ==> SameKeys(st, r.st)
  {
    if RefundTopup(c, st, o, ref).Done? { RefundDebitOnly(st, o, ref); }
    hide ReverseBonuses, Position, CreateRefundDebit;
  }

  lemma RefundKeys(c: Config, st: State, o: Order, amount: Option<real>, ref: RefundRef)
    requires o.id in st.orders
    ensures var r := RefundOrder(c, st, o, amount, ref); r.Done? ==> SameKeys(st, r.st)
  {
    TopupRefundKeys(c, SetOrder(st, o.(status := Refunded)), o, ref);
    hide RefundTopup, HasKey, ReverseBonuses;
  }

  /** Whatever the event: an order becomes refunded only by a refund notice for all of its amount
      that finds it paid. */
  lemma RefundedOnlyInFull(c: Config, st: State, ev: Event, o: OrderId)
    requires Inv(st) && IsRefunded(Step(c, st, ev), o) && !IsRefunded(st, o)
    ensures ev.Notify? && Find(st, ev.notice) == Some(o) && FullRefund(st, ev.notice, o)
            && !ForeignRefund(st.orders[o], ev.notice)
  {
    match ev
    case Notify(n, ok) =>
      hide Step, Find, Inv, Base;
      if n.kind != RefundSucceeded { OtherNoticesRefundNone(c, st, n, ok); }
      RefundTouchesItsOrder(c, st, n, ok, o);
      NoticeRefundsIff(c, st, n, ok, o);
    case Polled(id, x, p, ok) => hide MarkPaid; MarkPaidRefundsNone(st, id, x, p, ok);
    case Buy(id, u, s, a, ok) => hide PayFromWallet, CheckoutWallet; WalletRefundsNone(st, id, u, s, a, ok);
    case Checkout(id, u, s, a) => hide PayFromWallet, CheckoutWallet; WalletRefundsNone(st, id, u, s, a, true);
    case _ => UsersRefundNone(c, st, ev);
  }

  /** The same but for the mark that asks for a look at some orders. */
  predicate SameButReview(st: State, st': State) {
    && st' == st.(orders := st'.orders) && st'.orders.Keys == st.orders.Keys
    && forall o :: o in st.orders ==> st'.orders[o] == st.orders[o].(review := st'.orders[o].review)
  }

  /** A refund notice of any other amount, for an order that is not paid, or for another payment
      changes nothing but the mark: no status, no row of the ledger, no access. */
  lemma OtherAmountsAreOnlyNoted(c: Config, st: State, n: Notice, ok: bool)
    requires Inv(st) && n.kind == RefundSucceeded
    requires Find(st, n).Some? ==> var o := Find(st, n).value;
               !FullRefund(st, n, o) || (o in st.orders && ForeignRefund(st.orders[o], n))
    ensures SameButReview(st, Step(c, st, Notify(n, ok)))
  {
    hide Find, Inv, OnNotice, Step, SameButReview;
    NothingSame(st);
    if Find(st, n).Some? {
      var o := Find(st, n).value;
      FoundIsKnown(st, n, o);
      NoticeStep(c, st, n, ok, o);
      OtherRefundIsNoted(c, st, st.orders[o], n, ok);
    } else {
      NothingFound(c, st, n, ok);
    }
  }

  lemma NothingFound(c: Config, st: State, n: Notice, ok: bool)
    requires Find(st, n) == None
    ensures Step(c, st, Notify(n, ok)) == st
  {
    hide Find;
  }

  lemma NothingSame(st: State)
    ensures SameButReview(st, st)
  {
  }

  lemma OtherRefundIsNoted(c: Config, st: State, o: Order, n: Notice, ok: bool)
    requires o.id in st.orders && st.orders[o.id] == o && n.kind == RefundSucceeded
    requires o.status != Paid || n.amount != Some(o.amount as real) || ForeignRefund(o, n)
    ensures var r := OnNotice(c, st, o, n, ok); r.Done? && SameButReview(st, r.st)
  {
    hide RefundTopup, RefundAccess, HasKey, RefundRefOf;
  }

  /** What a webhook may do to the orders: only one refunded in full becomes refunded, and a refund
      notice of another amount leaves everything but the mark. */
  ghost predicate OnlyFullRefunds(st: State, n: Notice, st': State) {
    && (forall o :: o in st'.orders && IsRefunded(st', o) && !IsRefunded(st, o) ==>
          Find(st, n) == Some(o) && FullRefund(st, n, o))
    && (n.kind == RefundSucceeded && (Find(st, n).Some? ==> !FullRefund(st, n, Find(st, n).value)) ==>
          SameButReview(st, st'))
  }

  lemma RefundsUnderNotice(c: Config, st: State, n: Notice, ok: bool)
    requires Inv(st)
    ensures var r := Webhook(c, st, n, ok); OnlyFullRefunds(st, n, if r.Done? then r.st else st)
  {
    var st' := Step(c, st, Notify(n, ok));
    var r := Webhook(c, st, n, ok);
    assert st' == if r.Done? then r.st else st;
    hide Step, Inv, Find, FullRefund, IsRefunded, SameButReview, Webhook;
    forall o | o in st'.orders && IsRefunded(st', o) && !IsRefunded(st, o)
      ensures Find(st, n) == Some(o) && FullRefund(st, n, o)
    {
      RefundedOnlyInFull(c, st, Notify(n, ok), o);
    }
    if n.kind == RefundSucceeded && (Find(st, n).Some? ==> !FullRefund(st, n, Find(st, n).value)) {
      OtherAmountsAreOnlyNoted(c, st, n, ok);
    }
  }

  // ----- buying from the balance

  /** The order a checkout leaves when its debit goes through. */
  function Bought(id: OrderId, u: UserId, s: Service, amount: nat): Order {
    Order(id, u, s, Wallet, amount, Paid, None, None, false, false, false, false)
  }

  predicate OnHold(st: State, u: UserId) {
    u in st.users && (st.users[u].hold || st.users[u].topupBlocked)
  }

  /** What a purchase leaves behind: the paid order, its access, and its one debit. */
  predicate Sold(st: State, st': State, o: Order) {
    && st'.orders == st.orders[o.id := o] && st'.users == st.users
    && st'.granted == (if o.service == Topup then st.granted else st.granted + [o.id])
    && st'.settled == st.settled && st'.revoked == st.revoked
    && st'.ledger == (if o.amount == 0 then st.ledger else st.ledger + [PurchaseDebit(o.id, o.user, o.amount)])
    && Position(st'.ledger, o.user) == Position(st.ledger, o.user) - o.amount
  }

  /** The order a checkout leaves when the balance does not cover it. */
  function Unpaid(id: OrderId, u: UserId, s: Service, amount: nat): Order {
    Bought(id, u, s, amount).(status := Canceled, reason := Some("insufficient_balance"))
  }

  /** A debit for a new order: written exactly when the balance covers it, and nothing else changes. */
  lemma NewDebitIff(st: State, o: Order)
    requires Inv(st) && o.id !in st.orders && o.user in st.users
    requires o.external == None && !o.held && o.status == Pending
    ensures var st1 := SetOrder(st, o); var r := CreateDebit(st1, o.user, o.id, o.amount);
            && (r.Done? <==> o.amount == 0 || Position(st.ledger, o.user) >= o.amount)
            && (r.Raised? ==> r.fault == InsufficientBalance)
            && (r.Done? ==> r.st == st1.(ledger := r.st.ledger, allocs := r.st.allocs)
                            && r.st.ledger == (if o.amount == 0 then st.ledger
                                               else st.ledger + [PurchaseDebit(o.id, o.user, o.amount)]))
  {
    FreshDebitKey(st, o.id);
    hide Inv, HasKey, Position;
    if o.amount > 0 && o.amount <= Position(st.ledger, o.user) { CoveredDebit(st, o); }
  }

  lemma DebitLowers(l: seq<Entry>, o: OrderId, u: UserId, amount: nat)
    ensures Position(l + [PurchaseDebit(o, u, amount)], u) == Position(l, u) - amount
  {
    assert (l + [PurchaseDebit(o, u, amount)])[..|l|] == l;
  }

  /** A checkout sells exactly to a known user without holds whose balance covers the price, and then
      for the price; a known user without holds who cannot pay gets a canceled order with the
      reason, and nobody else anything. */
  lemma CheckoutIff(st: State, id: OrderId, u: UserId, s: Service, amount: nat)
    requires Inv(st) && id !in st.orders
    ensures var r := CheckoutWallet(st, id, u, s, amount);
            && (r.Done? <==> u in st.users) && (r.Raised? ==> r.fault == UnknownUser)
            && (OnHold(st, u) ==> r == Done(st))
            && (u in st.users && !OnHold(st, u) ==>
                 if amount == 0 || Position(st.ledger, u) >= amount then Sold(st, r.st, Bought(id, u, s, amount))
                 else r == Done(SetOrder(st, Unpaid(id, u, s, amount))))
  {
    hide Inv, CreateDebit, Position, Sold;
    if u in st.users && !OnHold(st, u) {
      var o := Bought(id, u, s, amount).(status := Pending);
      NewDebitIff(st, o);
      var d := CreateDebit(SetOrder(st, o), u, id, amount);
      if d.Done? { SoldThen(st, o, d.st); }
    }
  }

  /** The debit is written: what is left is the status and the access. */
  lemma SoldThen(st: State, o: Order, debited: State)
    requires debited == SetOrder(st, o).(ledger := debited.ledger, allocs := debited.allocs)
    requires debited.ledger == if o.amount == 0 then st.ledger
                               else st.ledger + [PurchaseDebit(o.id, o.user, o.amount)]
    ensures var r := Fulfil(SetOrder(debited, o.(status := Paid)), o, true);
            r.Done? && Sold(st, r.st, o.(status := Paid))
  {
    DebitLowers(st.ledger, o.id, o.user, o.amount);
    hide Position;
    assert st.orders[o.id := o][o.id := o.(status := Paid)] == st.orders[o.id := o.(status := Paid)];
  }

  /** The same for a purchase of the first product, which is refused altogether when it cannot be
      paid for, or when the product cannot be set up. */
  lemma PurchaseIff(st: State, id: OrderId, u: UserId, s: Service, amount: nat, ok: bool)
    requires Inv(st) && id !in st.orders
    ensures var r := PayFromWallet(st, id, u, s, amount, ok);
            && (r.Done? <==> && u in st.users && !st.users[u].hold && Position(st.ledger, u) >= amount
                             && (s == WhiteInternet ==> ok))
            && (r.Done? ==> Sold(st, r.st, Bought(id, u, s, amount)))
  {
    WalletPurchaseIff(st, id, u, s, amount, ok);
    hide Position;
    if PayFromWallet(st, id, u, s, amount, ok).Done? {
      PaidDebit(st, Bought(id, u, s, amount));
      DebitLowers(st.ledger, id, u, amount);
      hide CreateDebit, Inv;
    }
  }

  lemma PaidDebit(st: State, o: Order)
    requires Inv(st) && o.id !in st.orders && o.user in st.users && o.external == None && !o.held
    ensures var st1 := SetOrder(st, o); var r := CreateDebit(st1, o.user, o.id, o.amount);
            r.Done? ==> r.st == st1.(ledger := r.st.ledger, allocs := r.st.allocs)
                        && r.st.ledger == (if o.amount == 0 then st.ledger
                                           else st.ledger + [PurchaseDebit(o.id, o.user, o.amount)])
  {
    FreshDebitKey(st, o.id);
    hide Inv, HasKey, Position;
  }

  // ----- rewarding the referrer

  /** Users this referrer brought who are not deleted and have paid real money, 68 roubles or more in
      one order, not counting order `o`. */
  function OtherActives(st: State, r: UserId, o: OrderId): set<UserId> {
    set u | u in st.users && st.users[u].referredBy == Some(r) && !st.users[u].deleted && PaidElsewhere(st, u, o)
  }

  predicate PaidElsewhere(st: State, u: UserId, o: OrderId) {
    exists p :: p in st.orders && p != o && st.orders[p].user == u && st.orders[p].status == Paid
                && st.orders[p].amount >= 68 && (st.orders[p].service == Topup || st.orders[p].via == Gateway)
  }

  /** The share of a payment that goes to the referrer: at the rate of as many other active referrals
      as the referrer has, this very order left out. */
  function Share(st: State, o: Order, r: UserId): nat {
    o.amount * TierRate(|OtherActives(st, r, o.id)|) / 100
  }

  lemma ActivesAre(st: State, r: UserId, o: OrderId)
    ensures ActiveReferrals(st.users, st.orders - {o}, r) == OtherActives(st, r, o)
  {
    forall u ensures IsActive(st.orders - {o}, u) <==> PaidElsewhere(st, u, o) {
      if IsActive(st.orders - {o}, u) {
        var p :| p in st.orders - {o} && Qualifies((st.orders - {o})[p], u);
        assert p in st.orders && p != o && st.orders[p].user == u;
      }
      if PaidElsewhere(st, u, o) {
        var p :| p in st.orders && p != o && st.orders[p].user == u && st.orders[p].status == Paid
                 && st.orders[p].amount >= 68 && (st.orders[p].service == Topup || st.orders[p].via == Gateway);
        assert Qualifies((st.orders - {o})[p], u);
      }
    }
    hide IsActive, PaidElsewhere;
  }

  /** The bonus row of a payment: for a live purchaser whose referrer is another user, neither deleted
      nor banned, if the share is a rouble at least. */
  function BonusPart(st: State, o: Order): seq<Entry> {
    if o.user !in st.users || st.users[o.user].deleted then []
    else match st.users[o.user].referredBy
      case None => []
      case Some(r) =>
        if r == o.user || r !in st.users || st.users[r].deleted || st.users[r].banned || Share(st, o, r) == 0 then []
        else [ReferralCredit(o.id, r, Share(st, o, r))]
  }

  lemma GrantWrites(st: State, o: Order)
    requires o.id in st.orders && st.orders[o.id] == o && o.status == Paid && EarnsBonus(o)
    requires forall e :: e in Trace(st.ledger, o.id) ==> !e.ReferralCredit?
    ensures GrantBonus(st, o) == st.(ledger := st.ledger + BonusPart(st, o))
  {
    var r := Referrer(st, o.user);
    assert st.ledger + [] == st.ledger;
    if r.Some? {
      EffectiveCountIsRecount(st, o, st.orders - {o.id});
      ActivesAre(st, r.value, o.id);
      NoBonusKey(st.ledger, o.id, r.value);
    }
    hide HasKey, ActiveReferrals, OtherActives, EffectiveCount, Trace;
  }

  lemma NoBonusKey(l: seq<Entry>, o: OrderId, r: UserId)
    requires forall e :: e in Trace(l, o) ==> !e.ReferralCredit?
    ensures forall b :: !HasKey(l, KeyOf(ReferralCredit(o, r, b)))
  {
    forall b ensures !HasKey(l, KeyOf(ReferralCredit(o, r, b))) {
      var k := KeyOf(ReferralCredit(o, r, b));
      if HasKey(l, k) { KeyInTrace(l, k); }
    }
  }

  /** The order of a settlement: the credit of a top-up, the bonus, the access. */
  lemma SettlesInOrder(st: State, o: Order, s1: State, ok: bool)
    requires if o.service == Topup then CreateCredit(st, o) == Done(s1) else s1 == st
    ensures var r := SettleBenefits(st, o, ok);
            r.Done? ==> r.st.ledger == (if EarnsBonus(o) then GrantBonus(s1, o) else s1).ledger
  {
    hide CreateCredit, GrantBonus, Fulfil;
    FulfilWritesNothing(if EarnsBonus(o) then GrantBonus(s1, o) else s1, o, ok);
  }

  /** Nothing settles without the credit of a top-up. */
  lemma TopupIsCredited(st: State, o: Order, ok: bool)
    requires InvBut(st, o.id) && Trace(st.ledger, o.id) == [] && SettleBenefits(st, o, ok).Done?
    ensures var s1 := st.(ledger := st.ledger + CreditPart(o));
            (if o.service == Topup then CreateCredit(st, o) == Done(s1) else s1 == st)
            && Trace(s1.ledger, o.id) == CreditPart(o)
  {
    assert st.ledger + [] == st.ledger;
    if o.service == Topup { CreditOnce(st, o); }
    hide InvBut, Trace, HasKey, GrantBonus;
  }

  /** A settlement writes the credit of a top-up and then the bonus its payment earned, and no more. */
  lemma SettlementWrites(st: State, o: Order, ok: bool)
    requires InvBut(st, o.id) && st.orders[o.id] == o && o.status == Paid && Trace(st.ledger, o.id) == []
    ensures var r := SettleBenefits(st, o, ok);
            r.Done? ==> r.st.ledger == st.ledger + CreditPart(o) + (if EarnsBonus(o) then BonusPart(st, o) else [])
  {
    if SettleBenefits(st, o, ok).Done? {
      var s1 := st.(ledger := st.ledger + CreditPart(o));
      assert s1.ledger + [] == s1.ledger;
      assert o.id in st.orders && forall e :: e in CreditPart(o) ==> !e.ReferralCredit?;
      hide InvBut, Trace, GrantBonus, HasKey, BonusPart, CreateCredit, SettleBenefits, CreditPart;
      TopupIsCredited(st, o, ok);
      SettlesInOrder(st, o, s1, ok);
      if EarnsBonus(o) { GrantWrites(s1, o); SameBonus(st, s1, o); }
    }
  }

  lemma FulfilWritesNothing(st: State, o: Order, ok: bool)
    ensures var r := Fulfil(st, o, ok); r.Done? ==> r.st.ledger == st.ledger
  {
  }

  lemma SameBonus(st: State, st': State, o: Order)
    requires st'.users == st.users && st'.orders == st.orders
    ensures BonusPart(st', o) == BonusPart(st, o)
  {
    forall r ensures OtherActives(st', r, o.id) == OtherActives(st, r, o.id) {
      assert forall u :: PaidElsewhere(st', u, o.id) <==> PaidElsewhere(st, u, o.id);
    }
    hide OtherActives;
  }

  /** All that the payment of an order brings. */
  function Earned(st: State, o: Order): seq<Entry> {
    CreditPart(o) + if EarnsBonus(o) then BonusPart(st, o) else []
  }

  predicate Wrote(st: State, r: Outcome, id: OrderId, settles: bool) {
    r.Done? ==> && id in r.st.orders && r.st.orders[id].id == id
                && r.st.ledger == if settles then st.ledger + Earned(r.st, r.st.orders[id]) else st.ledger
  }

  lemma SettledWrites(st: State, o: Order, ok: bool)
    requires InvBut(SetOrder(st, o), o.id) && o.status == Paid && !o.held && Trace(st.ledger, o.id) == []
    requires o.id !in st.settled && o.id !in st.granted && o.id !in st.revoked
    ensures Wrote(st, SettleBenefits(SetOrder(st, o), o, ok), o.id, true)
  {
    var st1 := SetOrder(st, o);
    hide InvBut, SettleBenefits, Trace, BonusPart, Inv;
    SettlementWrites(st1, o, ok);
    SettleKeeps(st1, o, ok);
    var r := SettleBenefits(st1, o, ok);
    if r.Done? { SameBonus(st1, r.st, o); }
  }

  lemma ReleaseWrites(st: State, o: Order, ok: bool)
    requires Inv(st) && o.id in st.orders && st.orders[o.id] == o && o.status == Paid && o.held && o.user in st.users
    ensures Wrote(st, Release(st, o, ok), o.id, !StillHeld(st.users[o.user], o.service))
  {
    var o' := o.(held := false);
    assert OkAt(st, o.id);
    if o.external.Some? { ExternalKept(st, o); }
    SetRow(st, o');
    hide Inv, InvBut, SettleBenefits, Trace, Earned, OkAt, StillHeld;
    SettledWrites(st, o', ok);
  }

  lemma TakeWrites(st: State, o: Order, o': Order, ok: bool)
    requires Inv(st) && o.id in st.orders && st.orders[o.id] == o && o.status in {Pending, Canceled}
    requires o' == o.(external := o'.external, status := Paid) && o.user in st.users
    requires o'.external.Some? ==> ExternalFree(st, o.id, o'.external.value)
    ensures Wrote(st, Take(st, o', ok), o.id, !WithheldFrom(st.users[o.user], o.service))
  {
    hide Inv, InvBut, SettleBenefits, Trace, Earned, WithheldFrom, ExternalFree;
    AcceptedRow(st, o, o');
    UnsettledIsClear(st, o);
    SettledWrites(st, o', ok);
  }

  lemma AcceptWrites(st: State, o: Order, external: Option<string>, paid: Option<real>, ok: bool)
    requires Inv(st) && o.id in st.orders && st.orders[o.id] == o && o.status in {Pending, Canceled}
    requires o.user in st.users
    ensures Wrote(st, Accept(st, o, external, paid, ok), o.id,
                  !(paid.Some? && paid.value < o.amount as real) && !WithheldFrom(st.users[o.user], o.service))
  {
    var o1 := Identify(o, external);
    if o1 == o && o.external.Some? { ExternalKept(st, o); }
    hide Inv, Take, ExternalFree, Earned, WithheldFrom;
    if (o1 == o || ExternalFree(st, o.id, o1.external.value)) && !(paid.Some? && paid.value < o.amount as real) {
      TakeWrites(st, o, o1.(status := Paid), ok);
    }
  }

  /** A payment that settles its order writes exactly what was earned, judged by the state it leaves;
      any other payment writes nothing. */
  lemma PaymentWrites(st: State, id: OrderId, external: Option<string>, paid: Option<real>, ok: bool)
    requires Inv(st) && id in st.orders
    ensures Wrote(st, MarkPaid(st, id, external, paid, ok), id, CanSettle(st, id, paid))
  {
    var o := st.orders[id];
    FoundInOrder(st, id);
    HoldAndReleaseAgree(st.users[o.user], o.service);
    hide Inv, Accept, Release, Earned, WithheldFrom, StillHeld;
    if o.status == Paid && o.held { ReleaseWrites(st, o, ok); }
    if o.status in {Pending, Canceled} { AcceptWrites(st, o, external, paid, ok); }
  }

  lemma FoundInOrder(st: State, id: OrderId)
    requires Inv(st) && id in st.orders
    ensures st.orders[id].id == id && st.orders[id].user in st.users
    ensures st.orders[id].held ==> st.orders[id].status != Pending
  {
    assert OkAt(st, id);
  }

  // ----- the order after a payment

  /** What a payment makes of a payable order: its payment id is recorded, and it is noted as too
      little, or taken, and held back from a user who is not in the clear. */
  function Charged(o: Order, external: Option<string>, paid: Option<real>, clear: bool): Order {
    var o1 := if external.Some? && external.value != "" then o.(external := external) else o;
    if paid.Some? && paid.value < o.amount as real then o1.(underpaid := true, review := true)
    else o1.(status := Paid, held := !clear)
  }

  /** The row of a paid order after another look at it. */
  function Released(o: Order, clear: bool): Order {
    o.(held := o.held && !clear)
  }

  predicate Leaves(st: State, r: Outcome, o: Order) {
    r.Done? ==> r.st.orders == st.orders[o.id := o]
  }

  lemma TakeLeavesRow(st: State, o: Order, ok: bool)
    requires o.user in st.users && !o.held
    ensures Leaves(st, Take(st, o, ok), o.(held := !InTheClear(st.users[o.user], o.service)))
  {
    SettleOnly(SetOrder(st, o), o, ok);
    HoldAndReleaseAgree(st.users[o.user], o.service);
    hide SettleBenefits, WithheldFrom, InTheClear;
    assert o.(held := false) == o;
  }

  lemma AcceptLeavesRow(st: State, o: Order, external: Option<string>, paid: Option<real>, ok: bool)
    requires o.user in st.users && !o.held
    ensures Leaves(st, Accept(st, o, external, paid, ok),
                   Charged(o, external, paid, InTheClear(st.users[o.user], o.service)))
  {
    TakeLeavesRow(st, Identify(o, external).(status := Paid), ok);
    hide Take, ExternalFree, InTheClear;
  }

  lemma ReleaseLeavesRow(st: State, o: Order, ok: bool)
    requires o.id in st.orders && st.orders[o.id] == o && o.user in st.users && o.held
    ensures Leaves(st, Release(st, o, ok), Released(o, InTheClear(st.users[o.user], o.service)))
  {
    SettleOnly(SetOrder(st, o.(held := false)), o.(held := false), ok);
    HoldAndReleaseAgree(st.users[o.user], o.service);
    assert st.orders[o.id := o] == st.orders && o.(held := true) == o;
    hide SettleBenefits, StillHeld, InTheClear;
  }

  /** The row of an order after a payment notice or poll. */
  function RowAfter(st: State, id: OrderId, external: Option<string>, paid: Option<real>): Order
    requires id in st.orders
  {
    var o := st.orders[id];
    var clear := o.user in st.users && InTheClear(st.users[o.user], o.service);
    if Revivable(o) then Charged(o, external, paid, clear) else if o.status == Paid then Released(o, clear) else o
  }

  /** A payment changes its order alone: a payable one as it is charged, a held one by letting it go
      when its user is in the clear, any other not at all. */
  lemma PaymentMarks(st: State, id: OrderId, external: Option<string>, paid: Option<real>, ok: bool)
    requires Inv(st) && id in st.orders
    ensures var o := RowAfter(st, id, external, paid);
            o.id == id && Leaves(st, MarkPaid(st, id, external, paid, ok), o)
  {
    var o := st.orders[id];
    FoundInOrder(st, id);
    NotHeldYet(st, id);
    assert st.orders[id := o] == st.orders && o.(held := o.held) == o;
    hide Inv, Accept, Release, InTheClear, Charged;
    if Revivable(o) { AcceptLeavesRow(st, o, external, paid, ok); }
    if o.status == Paid && o.held { ReleaseLeavesRow(st, o, ok); }
  }

  lemma NotHeldYet(st: State, id: OrderId)
    requires Inv(st) && id in st.orders
    ensures Revivable(st.orders[id]) ==> !st.orders[id].held
  {
    assert OkAt(st, id);
  }

  // ----- the order after a notice

  /** The payment id in the notice contradicts the one recorded on the order. */
  predicate ForeignPayment(o: Order, n: Notice) {
    && n.kind == PaymentSucceeded && n.external != "" && o.external.Some? && o.external.value != ""
    && o.external.value != n.external
  }

  /** The row a notice that is no refund leaves: nothing for somebody else's payment, a note for a
      payment the gateway itself had canceled, a payment taken as any other, a pending order canceled. */
  function RowAfterNotice(st: State, n: Notice, id: OrderId): Order
    requires id in st.orders
  {
    var o := st.orders[id];
    if ForeignPayment(o, n) then o
    else match n.kind
      case PaymentSucceeded =>
        if o.status == Canceled && o.reason == Some("gateway_canceled") then o.(late := true)
        else RowAfter(st, id, Some(n.external), n.amount)
      case PaymentCanceled =>
        if o.status == Pending then o.(status := Canceled, reason := Some(o.reason.GetOr("gateway_canceled"))) else o
      case _ => o
  }

  /** A notice that is no refund changes the row of the order it finds, in this way, and no other. */
  lemma NoticeMarks(c: Config, st: State, n: Notice, ok: bool)
    requires Inv(st) && n.kind != RefundSucceeded
    ensures var r := Webhook(c, st, n, ok); var f := Find(st, n);
            r.Done? ==> if f.None? then r.st == st
                        else f.value in st.orders && r.st.orders == st.orders[f.value := RowAfterNotice(st, n, f.value)]
  {
    if Find(st, n).Some? {
      var id := Find(st, n).value;
      FoundIsKnown(st, n, id);
      PaymentMarks(st, id, Some(n.external), n.amount, ok);
      assert st.orders[id := st.orders[id]] == st.orders;
      hide Inv, MarkPaid, RowAfter, RefundOrder, Find;
    }
  }

  /** Somebody else's payment or refund is ignored altogether. */
  lemma ForeignNoticeIsIgnored(c: Config, st: State, n: Notice, ok: bool, o: OrderId)
    requires Inv(st) && Find(st, n) == Some(o)
    requires o in st.orders && (ForeignPayment(st.orders[o], n)
                                || (n.kind == RefundSucceeded && ForeignRefund(st.orders[o], n)))
    ensures Webhook(c, st, n, ok) == Done(st)
  {
    hide MarkPaid, RefundOrder, Find, Inv;
  }
}
