/** Orders, users and the steps that move them (services/order_service.py,
    services/ban_service.py, the checkout seam of services/white_internet_service.py).
    Every entry point is one transaction: it commits a whole state or raises and
    leaves nothing behind. */
module Billing {
  import opened Options
  import opened Strings
  import opened Ledger
  import opened Account
  import opened Fifo
  import opened Referral

  datatype Service = Standard | WhiteInternet | Topup
  datatype Method = Wallet | Gateway
  datatype Status = Pending | Paid | Canceled | Refunded

  const GATEWAY_CANCELED := "gateway_canceled"

  /** `reason` is the recorded cancellation reason, `held` the settlement-hold mark,
      `review` the manual-review mark, `late` the note of a payment that came too late. */
  datatype Order = Order(
    id: OrderId, user: UserId, service: Service, via: Method, amount: nat, status: Status,
    external: Option<string>, reason: Option<string>, held: bool, underpaid: bool, review: bool,
    late: bool)

  /** Users are keyed by one of their two unique keys. */
  datatype User = User(
    banned: bool, hold: bool, topupBlocked: bool, deleted: bool, referredBy: Option<UserId>)

  /** `settled`, `granted` and `revoked` log the completed settlements, access grants and revocations. */
  datatype State = State(
    orders: map<OrderId, Order>, users: map<UserId, User>,
    ledger: seq<Entry>, allocs: seq<Allocation>,
    settled: seq<OrderId>, granted: seq<OrderId>, revoked: seq<OrderId>)

  datatype Fault =
    | BadAmount | LedgerConflict | LedgerInvariant | InsufficientBalance | DebtBlocked
    | HoldBlocked | UnknownUser | DuplicateExternal | ProvisioningFailed | CallFailed

  /** A transaction body either completes with the new state or raises. */
  datatype Outcome = Done(st: State) | Raised(fault: Fault)

  /** Whether the balance check at the end of a top-up refund can be evaluated as it is written. */
  datatype Config = Config(balanceLookup: bool)

  /** It cannot: the lookup takes the user id by keyword only and is called with it by position
      (and what it returns is a snapshot, which does not compare with zero). */
  const SHIPPED := Config(false)

  // ----- ledger writes

  /** Insert, or find the identical row; a different row under the same key is a conflict. */
  function InsertOrGet(st: State, e: Entry): Outcome {
    if !HasKey(st.ledger, KeyOf(e)) then Done(st.(ledger := st.ledger + [e]))
    else if e in st.ledger then Done(st)
    else Raised(LedgerConflict)
  }

  function CreateCredit(st: State, o: Order): Outcome {
    if o.amount == 0 then Raised(BadAmount)
    else InsertOrGet(st, PaymentCredit(o.id, o.user, o.amount))
  }

  function CreateDebit(st: State, u: UserId, o: OrderId, amount: nat): Outcome {
    var e := PurchaseDebit(o, u, amount);
    if u !in st.users then Raised(UnknownUser)
    else if amount == 0 then Done(st)
    else if HasKey(st.ledger, OrderDebit(o)) then if e in st.ledger then Done(st) else Raised(LedgerConflict)
    else if Max(0, Position(st.ledger, u)) < amount then Raised(InsufficientBalance)
    else Spend(st, e)
  }

  /** Write a debit row and attribute it to lots. */
  function Spend(st: State, e: Entry): Outcome {
    var d := DrawFor(st.ledger, st.allocs, e);
    if d.left > 0 then Raised(LedgerInvariant)
    else Done(st.(ledger := st.ledger + [e], allocs := st.allocs + d.rows))
  }

  function CreditTotal(l: seq<Entry>, o: OrderId): nat {
    if l == [] then 0
    else CreditTotal(l[..|l| - 1], o)
         + if l[|l| - 1].PaymentCredit? && l[|l| - 1].order == o then l[|l| - 1].amount else 0
  }

  function CreateRefundDebit(st: State, o: Order, ref: RefundRef): Outcome {
    var total := CreditTotal(st.ledger, o.id);
    if o.amount == 0 then Raised(BadAmount)
    else if total > 0 && RefundTotal(st.ledger, o.id) + o.amount > total then Raised(LedgerInvariant)
    else InsertOrGet(st, RefundDebit(o.id, o.user, o.amount, ref))
  }

  /** An admin balance change; deductions are attributed to lots like purchases. */
  function Adjust(st: State, u: UserId, delta: int, tag: string): Outcome {
    var e := Adjustment(u, delta, tag);
    if u !in st.users then Raised(UnknownUser)
    else if delta == 0 then Raised(BadAmount)
    else if HasKey(st.ledger, KeyOf(e)) then if e in st.ledger then Done(st) else Raised(LedgerConflict)
    else if delta > 0 then Done(st.(ledger := st.ledger + [e]))
    else Spend(st, e)
  }

  // ----- referral bonus of a payment

  /** Real-money paid activity that activates a referral. */
  predicate Qualifies(o: Order, u: UserId) {
    o.user == u && o.status == Paid && o.amount >= ACTIVE_MIN_TOPUP && (o.service == Topup || o.via != Wallet)
  }

  predicate IsActive(orders: map<OrderId, Order>, u: UserId) {
    exists o :: o in orders && Qualifies(orders[o], u)
  }

  function ActiveReferrals(users: map<UserId, User>, orders: map<OrderId, Order>, referrer: UserId): set<UserId> {
    set u | u in users && users[u].referredBy == Some(referrer) && !users[u].deleted && IsActive(orders, u)
  }

  predicate HasOther(orders: map<OrderId, Order>, u: UserId, except: OrderId) {
    exists o :: o in orders && o != except && Qualifies(orders[o], u)
  }

  /** The count the tier is taken from: a first qualifying payment does not count itself. */
  function EffectiveCount(st: State, referrer: UserId, purchaser: UserId, o: OrderId, amount: nat): nat {
    var active := |ActiveReferrals(st.users, st.orders, referrer)|;
    if !HasOther(st.orders, purchaser, o) && amount >= ACTIVE_MIN_TOPUP then Max(0, active - 1) else active
  }

  /** The referrer a payment of this user would reward. */
  function Referrer(st: State, purchaser: UserId): Option<UserId> {
    if purchaser !in st.users || st.users[purchaser].deleted then None
    else match st.users[purchaser].referredBy
      case None => None
      case Some(r) =>
        if r == purchaser || r !in st.users || st.users[r].deleted || st.users[r].banned then None else Some(r)
  }

  function BonusFor(st: State, o: Order): nat {
    match Referrer(st, o.user)
    case None => 0
    case Some(r) => Bonus(o.amount, TierRate(EffectiveCount(st, r, o.user, o.id, o.amount)))
  }

  function GrantBonus(st: State, o: Order): State {
    var b := BonusFor(st, o);
    if b == 0 then st
    else
      var e := ReferralCredit(o.id, Referrer(st, o.user).value, b);
      if HasKey(st.ledger, KeyOf(e)) then st else st.(ledger := st.ledger + [e])
  }

  // ----- settlement

  /** Access is granted and logged; top-ups grant none. `ok` is the provisioning result. */
  function Fulfil(st: State, o: Order, ok: bool): Outcome {
    if o.service == Topup then Done(st)
    else if o.service == WhiteInternet && !ok then Raised(ProvisioningFailed)
    else Done(st.(granted := st.granted + [o.id]))
  }

  function SettleBenefits(st: State, o: Order, ok: bool): Outcome {
    match if o.service == Topup then CreateCredit(st, o) else Done(st)
    case Raised(f) => Raised(f)
    case Done(s1) =>
      var s2 := if o.service == Topup || o.via != Wallet then GrantBonus(s1, o) else s1;
      match Fulfil(s2, o, ok)
      case Raised(f) => Raised(f)
      case Done(s3) => Done(s3.(settled := s3.settled + [o.id]))
  }

  /** Whether a fresh payment is held back instead of settled. */
  predicate WithheldFrom(u: User, s: Service) {
    var blockedTopup := s == Topup && (u.hold || u.topupBlocked);
    var blockedTariff := s != Topup && u.hold;
    u.banned || blockedTopup || blockedTariff
  }

  /** Whether a held order stays held when its payment is looked at again. */
  predicate StillHeld(u: User, s: Service) {
    u.banned || u.hold || (s == Topup && u.topupBlocked)
  }

  predicate ExternalFree(st: State, o: OrderId, x: string) {
    forall p :: p in st.orders && p != o ==> st.orders[p].external != Some(x)
  }

  function SetOrder(st: State, o: Order): State {
    st.(orders := st.orders[o.id := o])
  }

  /** The payment identity is recorded when it is not empty; it is unique over all orders. */
  function Identify(o: Order, external: Option<string>): Order {
    if external.Some? && external.value != "" then o.(external := external) else o
  }

  function MarkPaid(st: State, id: OrderId, external: Option<string>, paid: Option<real>, ok: bool): Outcome {
    if id !in st.orders then Done(st)
    else
      var o := st.orders[id];
      match o.status
      case Paid => if o.held then Release(st, o, ok) else Done(st)
      case Refunded => Done(st)
      case Canceled => if Rejects(o) then Done(st) else Accept(st, o, external, paid, ok)
      case Pending => Accept(st, o, external, paid, ok)
  }

  /** A held order whose user is in the clear again is settled. */
  function Release(st: State, o: Order, ok: bool): Outcome {
    if o.user in st.users && StillHeld(st.users[o.user], o.service) then Done(st)
    else
      var o' := o.(held := false);
      SettleBenefits(SetOrder(st, o'), o', ok)
  }

  /** A payment for a pending or revivable order: too little is only noted; else settled or held. */
  function Accept(st: State, o: Order, external: Option<string>, paid: Option<real>, ok: bool): Outcome {
    var o1 := Identify(o, external);
    if o1 != o && !ExternalFree(st, o.id, o1.external.value) then Raised(DuplicateExternal)
    else if paid.Some? && paid.value < o.amount as real then
      Done(SetOrder(st, o1.(underpaid := true, review := true)))
    else Take(st, o1.(status := Paid), ok)
  }

  /** A payment in full: held back from a user who is banned or on hold, else settled. */
  function Take(st: State, o: Order, ok: bool): Outcome {
    if o.user in st.users && WithheldFrom(st.users[o.user], o.service) then Done(SetOrder(st, o.(held := true)))
    else SettleBenefits(SetOrder(st, o), o, ok)
  }

  /** Cancels a pending order; on a canceled one it only fills in a missing reason. */
  function MarkCanceled(o: Order, reason: string): Order {
    if o.status == Pending then o.(status := Canceled, reason := if o.reason == None then Some(reason) else o.reason)
    else if o.status == Canceled && o.reason == None then o.(reason := Some(reason))
    else o
  }

  // ----- refunds

  function RefundOrder(c: Config, st: State, o: Order, amount: Option<real>, ref: RefundRef): Outcome {
    if o.status != Paid then Done(st)
    else if amount != Some(o.amount as real) then Done(SetOrder(st, o.(review := true)))
    else
      var s1 := SetOrder(st, o.(status := Refunded));
      if o.service == Topup then
        if !HasKey(s1.ledger, OrderCredit(o.id)) then Done(s1) else RefundTopup(c, s1, o, ref)
      else Done(RefundAccess(s1, o, ref))
  }

  /** Takes the bonus back and revokes the access, unless it was withheld in the first place. */
  function RefundAccess(st: State, o: Order, ref: RefundRef): State {
    var s := if o.via != Wallet then st.(ledger := ReverseBonuses(st.ledger, o.id, ref)) else st;
    if o.held then s else s.(revoked := s.revoked + [o.id])
  }

  /** Takes the credit and its bonus back, then looks at the balance left behind. */
  function RefundTopup(c: Config, st: State, o: Order, ref: RefundRef): Outcome {
    match CreateRefundDebit(st, o, ref)
    case Raised(f) => Raised(f)
    case Done(s1) =>
      var s2 := s1.(ledger := ReverseBonuses(s1.ledger, o.id, ref));
      if !c.balanceLookup then Raised(CallFailed)
      else if Position(s2.ledger, o.user) < 0 && o.id in s2.orders then
        Done(SetOrder(s2, s2.orders[o.id].(review := true)))
      else Done(s2)
  }

  // ----- webhooks

  datatype Kind = PaymentSucceeded | PaymentCanceled | RefundSucceeded | Other

  /** The order id in a notification, which may be missing or not an id at all. */
  datatype OrderRef = Absent | Unreadable | Id(id: OrderId)

  /** A parsed notification; `external` may be empty, `related` is a refund's payment id. */
  datatype Notice = Notice(
    kind: Kind, order: OrderRef, external: string, related: Option<string>, amount: Option<real>)

  ghost function ByExternal(orders: map<OrderId, Order>, x: string): Option<OrderId> {
    if exists o :: o in orders && orders[o].external == Some(x)
    then var o :| o in orders && orders[o].external == Some(x); Some(o)
    else None
  }

  /** The order a notice is about: by order id, then by payment id, then by object id. */
  ghost function Find(st: State, n: Notice): Option<OrderId> {
    if n.order.Absent? && n.external == "" then None
    else if n.order.Id? && n.order.id in st.orders then Some(n.order.id)
    else if n.related.Some? && n.related.value != "" && ByExternal(st.orders, n.related.value).Some? then
      ByExternal(st.orders, n.related.value)
    else if n.external != "" then ByExternal(st.orders, n.external)
    else None
  }

  /** The payment identity in the notice contradicts the one on the order. */
  predicate Mismatched(o: Order, n: Notice) {
    && o.external.Some? && o.external.value != ""
    && (|| (n.kind == PaymentSucceeded && n.external != "" && o.external.value != n.external)
        || (n.kind == RefundSucceeded && n.related.Some? && n.related.value != ""
            && o.external.value != n.related.value))
  }

  function RefundRefOf(n: Notice, o: OrderId): RefundRef {
    if Trim(n.external) != "" then Trim(n.external) else "refund_" + Digits(o)
  }

  /** A payment for an order the gateway itself canceled is only noted. */
  predicate Rejects(o: Order) {
    o.status == Canceled && o.reason == Some(GATEWAY_CANCELED)
  }

  function OnNotice(c: Config, st: State, o: Order, n: Notice, ok: bool): Outcome {
    if Mismatched(o, n) then Done(st)
    else match n.kind
      case PaymentSucceeded =>
        if Rejects(o) then Done(SetOrder(st, o.(late := true))) else MarkPaid(st, o.id, Some(n.external), n.amount, ok)
      case PaymentCanceled =>
        Done(if o.status == Pending then SetOrder(st, MarkCanceled(o, GATEWAY_CANCELED)) else st)
      case RefundSucceeded => RefundOrder(c, st, o, n.amount, RefundRefOf(n, o.id))
      case Other => Done(st)
  }

  ghost function Webhook(c: Config, st: State, n: Notice, ok: bool): Outcome {
    match Find(st, n)
    case None => Done(st)
    case Some(id) => OnNotice(c, st, st.orders[id], n, ok)
  }

  // ----- wallet purchases

  /** A purchase from the balance: paid, debited and granted in one transaction. */
  function PayFromWallet(st: State, id: OrderId, u: UserId, s: Service, amount: nat, ok: bool): Outcome {
    if u in st.users && st.users[u].hold then Raised(HoldBlocked)
    else if u !in st.users then Raised(UnknownUser)
    else if Position(st.ledger, u) < 0 then Raised(DebtBlocked)
    else if Max(0, Position(st.ledger, u)) < amount then Raised(InsufficientBalance)
    else
      var o := Order(id, u, s, Wallet, amount, Paid, None, None, false, false, false, false);
      match CreateDebit(SetOrder(st, o), u, id, amount)
      case Raised(f) => Raised(f)
      case Done(s1) => Fulfil(s1, o, ok)
  }

  /** The checkout of the second product: a failed debit leaves a canceled order. */
  function CheckoutWallet(st: State, id: OrderId, u: UserId, s: Service, amount: nat): Outcome {
    if u !in st.users then Raised(UnknownUser)
    else if st.users[u].hold || st.users[u].topupBlocked then Done(st)
    else
      var o := Order(id, u, s, Wallet, amount, Pending, None, None, false, false, false, false);
      match CreateDebit(SetOrder(st, o), u, id, amount)
      case Raised(LedgerInvariant) => Raised(LedgerInvariant)
      case Raised(LedgerConflict) => Raised(LedgerConflict)
      case Raised(InsufficientBalance) => Done(SetOrder(st, MarkCanceled(o, "insufficient_balance")))
      case Raised(_) => Done(SetOrder(st, MarkCanceled(o, "ledger_error")))
      case Done(s1) => Fulfil(SetOrder(s1, o.(status := Paid)), o, true)
  }

  // ----- users

  function CancelPending(orders: map<OrderId, Order>, u: UserId): map<OrderId, Order> {
    map o | o in orders ::
      if orders[o].user == u && orders[o].status == Pending then MarkCanceled(orders[o], "user_banned") else orders[o]
  }

  /** Banning cancels every pending order of the user. */
  function BanUser(st: State, u: UserId): State {
    if u !in st.users || st.users[u].deleted || st.users[u].banned then st
    else st.(orders := CancelPending(st.orders, u), users := st.users[u := st.users[u].(banned := true)])
  }

  function UnbanUser(st: State, u: UserId): State {
    if u !in st.users || st.users[u].deleted then st
    else st.(users := st.users[u := st.users[u].(banned := false)])
  }

  // ----- the machine

  datatype Event =
    | CreateOrder(id: OrderId, user: UserId, service: Service, via: Method, amount: nat, external: Option<string>)
    | Notify(notice: Notice, ok: bool)
    | Polled(order: OrderId, external: Option<string>, paid: Option<real>, ok: bool)
    | Cancel(order: OrderId, reason: string)
    | Buy(id: OrderId, user: UserId, service: Service, amount: nat, ok: bool)
    | Checkout(id: OrderId, user: UserId, service: Service, amount: nat)
    | AdminAdjust(user: UserId, delta: int, tag: string)
    | Ban(user: UserId)
    | Unban(user: UserId)
    | SetHolds(user: UserId, hold: bool, topupBlocked: bool)
    | SetDeleted(user: UserId, deleted: bool)
    | AddUser(user: UserId, referredBy: Option<UserId>)
    | BindReferrer(user: UserId, referrer: UserId)

  function OpenOrder(st: State, id: OrderId, u: UserId, s: Service, m: Method,
                     amount: nat, x: Option<string>): Outcome {
    if u !in st.users then Raised(UnknownUser)
    else if x.Some? && !ExternalFree(st, id, x.value) then Raised(DuplicateExternal)
    else Done(SetOrder(st, Order(id, u, s, m, amount, Pending, x, None, false, false, false, false)))
  }

  function UpdateUser(st: State, u: UserId, f: User -> User): State {
    if u in st.users then st.(users := st.users[u := f(st.users[u])]) else st
  }

  /** Fresh order ids are never reused, so creating an order under a known id does nothing. */
  ghost function Body(c: Config, st: State, ev: Event): Outcome {
    match ev
    case CreateOrder(id, u, s, m, a, x) => if id in st.orders then Done(st) else OpenOrder(st, id, u, s, m, a, x)
    case Notify(n, ok) => Webhook(c, st, n, ok)
    case Polled(o, x, p, ok) => MarkPaid(st, o, x, p, ok)
    case Cancel(o, r) => Done(if o in st.orders then SetOrder(st, MarkCanceled(st.orders[o], r)) else st)
    case Buy(id, u, s, a, ok) => if id in st.orders then Done(st) else PayFromWallet(st, id, u, s, a, ok)
    case Checkout(id, u, s, a) => if id in st.orders then Done(st) else CheckoutWallet(st, id, u, s, a)
    case AdminAdjust(u, d, t) => Adjust(st, u, d, t)
    case Ban(u) => Done(BanUser(st, u))
    case Unban(u) => Done(UnbanUser(st, u))
    case SetHolds(u, h, b) => Done(UpdateUser(st, u, (x: User) => x.(hold := h, topupBlocked := b)))
    case SetDeleted(u, d) => Done(UpdateUser(st, u, (x: User) => x.(deleted := d)))
    case AddUser(u, r) =>
      Done(if u in st.users then st else st.(users := st.users[u := User(false, false, false, false, r)]))
    case BindReferrer(u, r) =>
      Done(UpdateUser(st, u, (x: User) => if x.referredBy == None then x.(referredBy := Some(r)) else x))
  }

  /** Commit or roll back. */
  ghost function Step(c: Config, st: State, ev: Event): State {
    match Body(c, st, ev) case Done(s) => s case Raised(_) => st
  }

  const INITIAL := State(map[], map[], [], [], [], [], [])

  ghost function Run(c: Config, st: State, evs: seq<Event>): State {
    if evs == [] then st else Step(c, Run(c, st, evs[..|evs| - 1]), evs[|evs| - 1])
  }
}
