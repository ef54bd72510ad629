/** The order service as it runs: fields changed step by step inside one transaction,
    rolled back when a step raises. Every entry point is proved to do exactly what
    the state machine of module Billing says and to keep its invariant. */
module OrderService {
  import opened Options
  import opened Ledger
  import opened Fifo
  import opened Referral
  import opened Billing
  import opened BillingInvariant
  import opened BillingTheorems
  import opened BillingConditions

  /** A body that completes leaves the new state; one that raises promises nothing about it. */
  predicate Ran(r: Outcome, fault: Option<Fault>, now: State) {
    match r case Done(s) => fault == None && now == s case Raised(f) => fault == Some(f)
  }

  /** A transaction commits the new state or leaves the old one. */
  predicate Ended(r: Outcome, fault: Option<Fault>, before: State, now: State) {
    match r case Done(s) => fault == None && now == s case Raised(f) => fault == Some(f) && now == before
  }

  lemma IdsMatch(st: State)
    requires Inv(st)
    ensures ExternalUnique(st.orders) && forall o :: o in st.orders ==> st.orders[o].id == o
  {
  }

  lemma UnknownIsIgnored(st: State, id: OrderId, external: Option<string>, paid: Option<real>, ok: bool)
    ensures id !in st.orders ==> MarkPaid(st, id, external, paid, ok) == Done(st) && !CanSettle(st, id, paid)
  {
  }

  lemma ClosedUnderNotice(c: Config, st: State, n: Notice, ok: bool)
    requires Inv(st)
    ensures var r := Webhook(c, st, n, ok); var st' := if r.Done? then r.st else st;
            forall o :: o in st.orders && Closed(st.orders[o]) ==>
              o in st'.orders && SameButNote(st.orders[o], st'.orders[o])
  {
    hide Webhook, Closed, SameButNote;
    forall o | o in st.orders && Closed(st.orders[o])
      ensures var st' := Step(c, st, Notify(n, ok)); o in st'.orders && SameButNote(st.orders[o], st'.orders[o])
    {
      ClosedStep(c, st, Notify(n, ok), o);
    }
  }

  class Desk {
    var orders: map<OrderId, Order>
    var users: map<UserId, User>
    var ledger: seq<Entry>
    var allocs: seq<Allocation>
    var settled: seq<OrderId>
    var granted: seq<OrderId>
    var revoked: seq<OrderId>
    const config: Config

    function Snapshot(): State
      reads this
    {
      State(orders, users, ledger, allocs, settled, granted, revoked)
    }

    ghost predicate Valid()
      reads this
    {
      Inv(Snapshot())
    }

    constructor (c: Config)
      ensures Valid() && Snapshot() == INITIAL && config == c
    {
      orders, users, ledger, allocs := map[], map[], [], [];
      settled, granted, revoked := [], [], [];
      config := c;
    }

    method Rollback(st: State)
      modifies this
      ensures Snapshot() == st
    {
      orders, users, ledger, allocs := st.orders, st.users, st.ledger, st.allocs;
      settled, granted, revoked := st.settled, st.granted, st.revoked;
    }

    // ----- ledger writes

    method InsertOrGet(e: Entry) returns (fault: Option<Fault>)
      modifies this`ledger
      ensures Ran(Billing.InsertOrGet(old(Snapshot()), e), fault, Snapshot())
    {
      fault := None;
      if !HasKey(ledger, KeyOf(e)) {
        ledger := ledger + [e];
      } else if e !in ledger {
        fault := Some(LedgerConflict);
      }
    }

    method CreateOrderCredit(o: Order) returns (fault: Option<Fault>)
      modifies this`ledger
      ensures Ran(CreateCredit(old(Snapshot()), o), fault, Snapshot())
    {
      if o.amount == 0 {
        return Some(BadAmount);
      }
      fault := InsertOrGet(PaymentCredit(o.id, o.user, o.amount));
    }

    method CreateOrderDebit(u: UserId, o: OrderId, amount: nat) returns (fault: Option<Fault>)
      modifies this`ledger, this`allocs
      ensures Ran(CreateDebit(old(Snapshot()), u, o, amount), fault, Snapshot())
      ensures fault.Some? && fault != Some(LedgerInvariant) ==> Snapshot() == old(Snapshot())
    {
      hide Allocate, FifoLots, Position, HasKey;
      fault := None;
      if u !in users {
        return Some(UnknownUser);
      }
      if amount == 0 {
        return;
      }
      var e := PurchaseDebit(o, u, amount);
      if HasKey(ledger, KeyOf(e)) {
        return if e in ledger then None else Some(LedgerConflict);
      }
      if Max(0, Position(ledger, u)) < amount {
        return Some(InsufficientBalance);
      }
      ledger := ledger + [e];
      var d := AllocateFifo(ledger, allocs, u, |ledger| - 1, amount);
      if d.left > 0 {
        return Some(LedgerInvariant);
      }
      allocs := allocs + d.rows;
    }

    method CreateOrderRefundDebit(o: Order, ref: RefundRef) returns (fault: Option<Fault>)
      modifies this`ledger
      ensures Ran(CreateRefundDebit(old(Snapshot()), o, ref), fault, Snapshot())
    {
      if o.amount == 0 {
        return Some(BadAmount);
      }
      var total := CreditTotal(ledger, o.id);
      if total > 0 && RefundTotal(ledger, o.id) + o.amount > total {
        return Some(LedgerInvariant);
      }
      fault := InsertOrGet(RefundDebit(o.id, o.user, o.amount, ref));
    }

    // ----- settlement

    method GrantReferralBonus(o: Order)
      modifies this`ledger
      ensures Snapshot() == GrantBonus(old(Snapshot()), o)
    {
      if o.user !in users || users[o.user].deleted || users[o.user].referredBy == None {
        return;
      }
      var r := users[o.user].referredBy.value;
      if r == o.user || r !in users || users[r].deleted || users[r].banned {
        return;
      }
      var effective := |ActiveReferrals(users, orders, r)|;
      var firstActivation := !HasOther(orders, o.user, o.id);
      if firstActivation && o.amount >= ACTIVE_MIN_TOPUP {
        effective := if effective == 0 then 0 else effective - 1;
      }
      var tier, next := GetReferralTier(effective);
      var bonus := Bonus(o.amount, TIERS[tier].1);
      if bonus == 0 {
        return;
      }
      var e := ReferralCredit(o.id, r, bonus);
      if !HasKey(ledger, KeyOf(e)) {
        ledger := ledger + [e];
      }
    }

    method FulfillOrder(o: Order, ok: bool) returns (fault: Option<Fault>)
      modifies this`granted
      ensures Ran(Fulfil(old(Snapshot()), o, ok), fault, Snapshot())
    {
      fault := None;
      if o.service == Topup {
        return;
      }
      if o.service == WhiteInternet && !ok {
        return Some(ProvisioningFailed);
      }
      granted := granted + [o.id];
    }

    method SettleBenefits(o: Order, ok: bool) returns (fault: Option<Fault>)
      modifies this`ledger, this`granted, this`settled
      ensures Ran(Billing.SettleBenefits(old(Snapshot()), o, ok), fault, Snapshot())
    {
      if o.service == Topup {
        fault := CreateOrderCredit(o);
        if fault != None {
          return;
        }
      }
      if o.service == Topup || o.via != Wallet {
        GrantReferralBonus(o);
      }
      fault := FulfillOrder(o, ok);
      if fault == None {
        settled := settled + [o.id];
      }
    }

    /** The first look at a payment, or the release of a held one. */
    method SettleOrHold(id: OrderId, external: Option<string>, paid: Option<real>, ok: bool)
      returns (fault: Option<Fault>)
      requires id in orders && orders[id].id == id
      modifies this
      ensures Ran(MarkPaid(old(Snapshot()), id, external, paid, ok), fault, Snapshot())
    {
      hide Accept, Billing.SettleBenefits, StillHeld;
      fault := None;
      var o := orders[id];
      if o.status == Paid {
        if !o.held {
          return;
        }
        if o.user in users && StillHeld(users[o.user], o.service) {
          return;
        }
        orders := orders[id := o.(held := false)];
        fault := SettleBenefits(orders[id], ok);
        return;
      }
      if o.status == Refunded || (o.status == Canceled && o.reason == Some(GATEWAY_CANCELED)) {
        return;
      }
      fault := AcceptPayment(o, external, paid, ok);
    }

    method AcceptPayment(o: Order, external: Option<string>, paid: Option<real>, ok: bool)
      returns (fault: Option<Fault>)
      requires o.id in orders && orders[o.id] == o
      modifies this
      ensures Ran(Accept(old(Snapshot()), o, external, paid, ok), fault, Snapshot())
    {
      hide Take, ExternalFree;
      fault := None;
      var o1 := o;
      if external.Some? && external.value != "" {
        o1 := o1.(external := external);
        if o1 != o && !ExternalFree(Snapshot(), o.id, external.value) {
          return Some(DuplicateExternal);
        }
      }
      if paid.Some? && paid.value < o.amount as real {
        orders := orders[o.id := o1.(underpaid := true, review := true)];
        return;
      }
      fault := TakePayment(o1.(status := Paid), ok);
    }

    method TakePayment(o: Order, ok: bool) returns (fault: Option<Fault>)
      requires o.id in orders
      modifies this
      ensures Ran(Take(old(Snapshot()), o, ok), fault, Snapshot())
    {
      hide Billing.SettleBenefits, WithheldFrom;
      fault := None;
      if o.user in users && WithheldFrom(users[o.user], o.service) {
        orders := orders[o.id := o.(held := true)];
        return;
      }
      orders := orders[o.id := o];
      fault := SettleBenefits(o, ok);
    }

    method MarkOrderPaid(id: OrderId, external: Option<string>, paid: Option<real>, ok: bool)
      returns (fault: Option<Fault>)
      requires Valid()
      modifies this
      ensures Valid()
      ensures Ended(MarkPaid(old(Snapshot()), id, external, paid, ok), fault, old(Snapshot()), Snapshot())
      ensures fault == None && id in old(orders) ==>
                orders == old(orders)[id := RowAfter(old(Snapshot()), id, external, paid)]
      ensures settled == old(settled) + if fault == None && CanSettle(old(Snapshot()), id, paid) then [id] else []
      ensures id in old(settled) ==> settled == old(settled)
      ensures fault == None && id in old(orders) ==>
                id in orders && ledger == old(ledger) + if CanSettle(old(Snapshot()), id, paid)
                                                        then Earned(Snapshot(), orders[id]) else []
    {
      hide Inv, MarkPaid, CanSettle, StillHeld, Earned, RowAfter;
      if id in orders {
        PaymentWrites(Snapshot(), id, external, paid, ok);
        PaymentMarks(Snapshot(), id, external, paid, ok);
      }
      MarkPaidKeeps(Snapshot(), id, external, paid, ok);
      PaymentSettlesIff(Snapshot(), id, external, paid, ok);
      UnknownIsIgnored(Snapshot(), id, external, paid, ok);
      IdsMatch(Snapshot());
      var saved := Snapshot();
      if id !in orders {
        return None;
      }
      fault := SettleOrHold(id, external, paid, ok);
      if fault != None {
        Rollback(saved);
      }
    }

    method MarkOrderCanceled(id: OrderId, reason: string)
      requires Valid() && id in orders
      modifies this`orders
      ensures Valid() && Snapshot() == SetOrder(old(Snapshot()), MarkCanceled(old(orders)[id], reason))
      ensures old(orders[id].reason.Some?) ==> orders[id].reason == old(orders[id].reason)
      ensures old(orders[id].status in {Paid, Refunded}) ==> orders == old(orders)
      ensures orders[id].status != Pending
    {
      CancelKeeps(Snapshot(), id, reason);
      var o := orders[id];
      if o.status == Pending {
        o := o.(status := Canceled);
        if o.reason == None {
          o := o.(reason := Some(reason));
        }
      } else if o.status == Canceled && o.reason == None {
        o := o.(reason := Some(reason));
      }
      orders := orders[id := o];
    }

    // ----- refunds

    method RefundTopupOrder(o: Order, ref: RefundRef) returns (fault: Option<Fault>)
      requires o.id in orders && orders[o.id].id == o.id
      modifies this
      ensures Ran(RefundTopup(config, old(Snapshot()), o, ref), fault, Snapshot())
    {
      fault := CreateOrderRefundDebit(o, ref);
      if fault != None {
        return;
      }
      ledger := ReverseReferralBonuses(ledger, o.id, ref);
      if !config.balanceLookup {
        return Some(CallFailed);
      }
      if Position(ledger, o.user) < 0 {
        orders := orders[o.id := orders[o.id].(review := true)];
      }
    }

    method Refund(o: Order, amount: Option<real>, ref: RefundRef) returns (fault: Option<Fault>)
      requires o.id in orders && orders[o.id] == o
      modifies this
      ensures Ran(RefundOrder(config, old(Snapshot()), o, amount, ref), fault, Snapshot())
      ensures o.status != Paid || amount != Some(o.amount as real) ==>
                fault == None && SameButReview(old(Snapshot()), Snapshot())
    {
      fault := None;
      if o.status != Paid {
        return;
      }
      if amount != Some(o.amount as real) {
        orders := orders[o.id := o.(review := true)];
        return;
      }
      orders := orders[o.id := o.(status := Refunded)];
      if o.service == Topup {
        if HasKey(ledger, OrderCredit(o.id)) {
          fault := RefundTopupOrder(o, ref);
        }
        return;
      }
      if o.via != Wallet {
        ledger := ReverseReferralBonuses(ledger, o.id, ref);
      }
      if !o.held {
        revoked := revoked + [o.id];
      }
    }

    // ----- webhooks

    /** Select by payment id; the unique index makes the answer the only one. */
    method SelectByExternal(x: string) returns (id: Option<OrderId>)
      requires ExternalUnique(orders)
      ensures id == ByExternal(orders, x)
    {
      var rest := orders.Keys;
      id := None;
      while rest != {} && id == None
        invariant rest <= orders.Keys
        invariant id == None ==> forall o :: o in orders && o !in rest ==> orders[o].external != Some(x)
        invariant id.Some? ==> id.value in orders && orders[id.value].external == Some(x)
        decreases |rest|
      {
        var o :| o in rest;
        rest := rest - {o};
        if orders[o].external == Some(x) {
          id := Some(o);
        }
      }
    }

    method FindOrder(n: Notice) returns (id: Option<OrderId>)
      requires ExternalUnique(orders)
      ensures id == Find(Snapshot(), n)
    {
      if n.order.Absent? && n.external == "" {
        return None;
      }
      if n.order.Id? && n.order.id in orders {
        return Some(n.order.id);
      }
      id := None;
      if n.related.Some? && n.related.value != "" {
        id := SelectByExternal(n.related.value);
      }
      if id == None && n.external != "" {
        id := SelectByExternal(n.external);
      }
    }

    method ProcessWebhookEvent(n: Notice, ok: bool) returns (fault: Option<Fault>)
      requires Valid()
      modifies this
      ensures Valid()
      ensures Ended(Webhook(config, old(Snapshot()), n, ok), fault, old(Snapshot()), Snapshot())
      ensures forall o :: o in old(orders) && Closed(old(orders)[o]) ==>
                o in orders && SameButNote(old(orders)[o], orders[o])
      ensures OnlyFullRefunds(old(Snapshot()), n, Snapshot())
      ensures fault == None && n.kind != RefundSucceeded ==>
                var f := Find(old(Snapshot()), n);
                if f.None? then Snapshot() == old(Snapshot())
                else f.value in old(orders)
                     && orders == old(orders)[f.value := RowAfterNotice(old(Snapshot()), n, f.value)]
    {
      hide Inv, Closed, ExternalUnique, OnNotice, OnlyFullRefunds, RowAfterNotice;
      if n.kind != RefundSucceeded { NoticeMarks(config, Snapshot(), n, ok); }
      RefundsUnderNotice(config, Snapshot(), n, ok);
      NoticeKeeps(config, Snapshot(), n, ok);
      ClosedUnderNotice(config, Snapshot(), n, ok);
      IdsMatch(Snapshot());
      var saved := Snapshot();
      var found := FindOrder(n);
      if found == None {
        return None;
      }
      var o := orders[found.value];
      fault := Dispatch(o, n, ok);
      if fault != None {
        Rollback(saved);
      }
    }

    method Dispatch(o: Order, n: Notice, ok: bool) returns (fault: Option<Fault>)
      requires o.id in orders && orders[o.id] == o
      modifies this
      ensures Ran(OnNotice(config, old(Snapshot()), o, n, ok), fault, Snapshot())
    {
      fault := None;
      if Mismatched(o, n) {
        return;
      }
      match n.kind
      case PaymentSucceeded =>
        if Rejects(o) {
          orders := orders[o.id := o.(late := true)];
        } else {
          fault := SettleOrHold(o.id, Some(n.external), n.amount, ok);
        }
      case PaymentCanceled =>
        if o.status == Pending {
          orders := orders[o.id := MarkCanceled(o, GATEWAY_CANCELED)];
        }
      case RefundSucceeded => fault := Refund(o, n.amount, RefundRefOf(n, o.id));
      case Other =>
    }

    // ----- wallet purchases

    method BuyFromWallet(id: OrderId, u: UserId, s: Service, amount: nat, ok: bool) returns (fault: Option<Fault>)
      modifies this
      ensures Ran(Billing.PayFromWallet(old(Snapshot()), id, u, s, amount, ok), fault, Snapshot())
    {
      if u in users && users[u].hold {
        return Some(HoldBlocked);
      }
      if u !in users {
        return Some(UnknownUser);
      }
      var balance := Position(ledger, u);
      if balance < 0 {
        return Some(DebtBlocked);
      }
      if balance < amount {
        return Some(InsufficientBalance);
      }
      var o := Order(id, u, s, Wallet, amount, Paid, None, None, false, false, false, false);
      orders := orders[id := o];
      if amount > 0 {
        fault := CreateOrderDebit(u, id, amount);
        if fault != None {
          return;
        }
      }
      fault := FulfillOrder(o, ok);
    }

    method PayFromWallet(id: OrderId, u: UserId, s: Service, amount: nat, ok: bool) returns (fault: Option<Fault>)
      requires Valid() && id !in orders
      modifies this
      ensures Valid()
      ensures Ended(Billing.PayFromWallet(old(Snapshot()), id, u, s, amount, ok), fault, old(Snapshot()), Snapshot())
      ensures fault == None <==> && u in old(users) && !old(users)[u].hold && old(Position(ledger, u)) >= amount
                                 && (s == WhiteInternet ==> ok)
      ensures fault == None ==> Sold(old(Snapshot()), Snapshot(), Bought(id, u, s, amount))
    {
      hide Inv, Billing.PayFromWallet, Position, Sold;
      WalletKeeps(Snapshot(), id, u, s, amount, ok);
      PurchaseIff(Snapshot(), id, u, s, amount, ok);
      var saved := Snapshot();
      fault := BuyFromWallet(id, u, s, amount, ok);
      if fault != None {
        Rollback(saved);
      }
    }

    /** The checkout of the second product keeps a refused order as canceled. */
    method CheckOut(id: OrderId, u: UserId, s: Service, amount: nat) returns (fault: Option<Fault>)
      modifies this
      ensures Ran(CheckoutWallet(old(Snapshot()), id, u, s, amount), fault, Snapshot())
    {
      fault := None;
      if u !in users {
        return Some(UnknownUser);
      }
      if users[u].hold || users[u].topupBlocked {
        return;
      }
      var o := Order(id, u, s, Wallet, amount, Pending, None, None, false, false, false, false);
      orders := orders[id := o];
      if amount > 0 {
        var refused := CreateOrderDebit(u, id, amount);
        if refused == Some(InsufficientBalance) {
          orders := orders[id := MarkCanceled(o, "insufficient_balance")];
          return;
        }
        // The user is locked and known, so what is left are the two errors that are raised again.
        if refused.Some? {
          return refused;
        }
      }
      orders := orders[id := o.(status := Paid)];
      fault := FulfillOrder(o, true);
    }

    method CheckoutWalletOrder(id: OrderId, u: UserId, s: Service, amount: nat) returns (fault: Option<Fault>)
      requires Valid() && id !in orders
      modifies this
      ensures Valid()
      ensures Ended(CheckoutWallet(old(Snapshot()), id, u, s, amount), fault, old(Snapshot()), Snapshot())
      ensures fault == None <==> u in old(users)
      ensures OnHold(old(Snapshot()), u) ==> Snapshot() == old(Snapshot())
      ensures u in old(users) && !OnHold(old(Snapshot()), u) ==>
                if amount == 0 || old(Position(ledger, u)) >= amount
                then Sold(old(Snapshot()), Snapshot(), Bought(id, u, s, amount))
                else Snapshot() == SetOrder(old(Snapshot()), Unpaid(id, u, s, amount))
    {
      hide Inv, CheckoutWallet, Sold, Position;
      CheckoutKeeps(Snapshot(), id, u, s, amount);
      CheckoutIff(Snapshot(), id, u, s, amount);
      var saved := Snapshot();
      fault := CheckOut(id, u, s, amount);
      if fault != None {
        Rollback(saved);
      }
    }

    // ----- users

    method CancelPendingOrders(u: UserId)
      modifies this`orders
      ensures orders == CancelPending(old(orders), u)
    {
      var pending := set o | o in orders && orders[o].user == u && orders[o].status == Pending;
      while pending != {}
        invariant pending <= orders.Keys == old(orders).Keys
        invariant forall o :: o in pending ==> old(orders)[o].user == u && old(orders)[o].status == Pending
        invariant forall o :: o in orders ==>
                    orders[o] == if o in pending then old(orders)[o] else CancelPending(old(orders), u)[o]
        decreases |pending|
      {
        var o :| o in pending;
        pending := pending - {o};
        orders := orders[o := MarkCanceled(orders[o], "user_banned")];
      }
    }

    method BanUser(u: UserId)
      requires Valid()
      modifies this`orders, this`users
      ensures Valid() && Snapshot() == Billing.BanUser(old(Snapshot()), u)
      ensures u in old(users) && !old(users)[u].deleted && !old(users)[u].banned ==>
                && users == old(users)[u := old(users)[u].(banned := true)] && orders.Keys == old(orders).Keys
                && forall o :: o in orders ==> var x := old(orders)[o];
                     orders[o] == if x.user != u || x.status != Pending then x
                                  else x.(status := Canceled, reason := Some(x.reason.GetOr("user_banned")))
      ensures !(u in old(users) && !old(users)[u].deleted && !old(users)[u].banned) ==> Snapshot() == old(Snapshot())
    {
      BanKeeps(Snapshot(), u);
      if u !in users || users[u].deleted || users[u].banned {
        return;
      }
      CancelPendingOrders(u);
      users := users[u := users[u].(banned := true)];
    }

    method UnbanUser(u: UserId)
      requires Valid()
      modifies this`users
      ensures Valid() && Snapshot() == Billing.UnbanUser(old(Snapshot()), u)
    {
      UsersKeep(Snapshot(), Billing.UnbanUser(Snapshot(), u));
      if u in users && !users[u].deleted {
        users := users[u := users[u].(banned := false)];
      }
    }
  }
}
