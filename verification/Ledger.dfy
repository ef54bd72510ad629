/** The append-only account ledger and the FIFO attribution of debits to credit
    lots (database/repositories/account_ledger_repo.py, services/referral_bonus.py). */
module Ledger {

  type OrderId = nat
  type UserId = nat

  /** The refund reference: the provider's refund id, or a text derived from the order. */
  type RefundRef = string

  /** One row. The shape constraint of the table (type, sign and links of a row)
      is built into the constructors; amounts are magnitudes in whole roubles. */
  datatype Entry =
    | PaymentCredit(order: OrderId, user: UserId, amount: nat)
    | PurchaseDebit(order: OrderId, user: UserId, amount: nat)
    | RefundDebit(order: OrderId, user: UserId, amount: nat, refund: RefundRef)
    | ReferralCredit(order: OrderId, user: UserId, amount: nat)
    | ReferralReversal(order: OrderId, user: UserId, amount: nat, credit: nat, refund: RefundRef)
    | Adjustment(user: UserId, delta: int, tag: string)

  /** The idempotency key of a row. */
  datatype Key =
    | OrderCredit(order: OrderId)
    | OrderDebit(order: OrderId)
    | OrderRefund(order: OrderId, refund: RefundRef)
    | BonusGrant(order: OrderId, referrer: UserId)
    | BonusReversal(order: OrderId, referrer: UserId, refund: RefundRef)
    | Admin(tag: string)

  /** Part of debit `debit` was paid out of credit lot `credit` (both are row numbers). */
  datatype Allocation = Allocation(credit: nat, debit: nat, amount: nat)

  function KeyOf(e: Entry): Key {
    match e
    case PaymentCredit(o, _, _) => OrderCredit(o)
    case PurchaseDebit(o, _, _) => OrderDebit(o)
    case RefundDebit(o, _, _, r) => OrderRefund(o, r)
    case ReferralCredit(o, u, _) => BonusGrant(o, u)
    case ReferralReversal(o, u, _, _, r) => BonusReversal(o, u, r)
    case Adjustment(_, _, t) => Admin(t)
  }

  predicate HasKey(l: seq<Entry>, k: Key) {
    exists i :: 0 <= i < |l| && KeyOf(l[i]) == k
  }

  /** The signed amount a row contributes to its user's accounting position. */
  function Signed(e: Entry): int {
    match e
    case PaymentCredit(_, _, a) => a
    case PurchaseDebit(_, _, a) => -(a as int)
    case RefundDebit(_, _, a, _) => -(a as int)
    case ReferralCredit(_, _, a) => a
    case ReferralReversal(_, _, a, _, _) => -(a as int)
    case Adjustment(_, d, _) => d
  }

  function Position(l: seq<Entry>, u: UserId): int {
    if l == [] then 0
    else Position(l[..|l| - 1], u) + if l[|l| - 1].user == u then Signed(l[|l| - 1]) else 0
  }

  predicate IsClawback(e: Entry) {
    e.RefundDebit? || e.ReferralReversal?
  }

  /** What refund debits and referral reversals have taken back from a user. */
  function Clawed(l: seq<Entry>, u: UserId): nat {
    if l == [] then 0
    else Clawed(l[..|l| - 1], u) + if l[|l| - 1].user == u && IsClawback(l[|l| - 1]) then l[|l| - 1].amount else 0
  }

  function Max(a: int, b: int): int {
    if a < b then b else a
  }

  // ----- rows of one order

  predicate Touches(e: Entry, o: OrderId) {
    !e.Adjustment? && e.order == o
  }

  /** Every row attributable to order `o`, oldest first. */
  function Trace(l: seq<Entry>, o: OrderId): seq<Entry> {
    if l == [] then []
    else Trace(l[..|l| - 1], o) + if Touches(l[|l| - 1], o) then [l[|l| - 1]] else []
  }

  lemma TraceAppend(l: seq<Entry>, e: Entry, o: OrderId)
    ensures Trace(l + [e], o) == Trace(l, o) + if Touches(e, o) then [e] else []
  {
    assert (l + [e])[..|l|] == l;
  }

  lemma {:induction false} InTrace(l: seq<Entry>, e: Entry, o: OrderId)
    ensures e in Trace(l, o) <==> e in l && Touches(e, o)
  {
    if l != [] {
      InTrace(l[..|l| - 1], e, o);
      assert l == l[..|l| - 1] + [l[|l| - 1]];
    }
  }

  /** What the rows `t` add up to for user `u`. */
  function Net(t: seq<Entry>, u: UserId): int {
    Position(t, u)
  }

  // ----- lots

  predicate IsLot(e: Entry) {
    e.PaymentCredit? || e.ReferralCredit? || (e.Adjustment? && e.delta > 0)
  }

  predicate IsBonusLot(e: Entry) {
    IsLot(e) && !e.PaymentCredit?
  }

  function LotAmount(e: Entry): nat {
    if e.PaymentCredit? || e.ReferralCredit? then e.amount
    else if e.Adjustment? && e.delta > 0 then e.delta else 0
  }

  /** Debits that are attributed to lots: purchases and admin deductions. */
  function SpendAmount(e: Entry): nat {
    if e.PurchaseDebit? then e.amount
    else if e.Adjustment? && e.delta < 0 then -e.delta else 0
  }

  function Used(a: seq<Allocation>, lot: nat): nat {
    if a == [] then 0
    else Used(a[..|a| - 1], lot) + if a[|a| - 1].credit == lot then a[|a| - 1].amount else 0
  }

  function CoveredBy(a: seq<Allocation>, debit: nat): nat {
    if a == [] then 0
    else CoveredBy(a[..|a| - 1], debit) + if a[|a| - 1].debit == debit then a[|a| - 1].amount else 0
  }

  function RefundTotal(l: seq<Entry>, o: OrderId): nat {
    if l == [] then 0
    else RefundTotal(l[..|l| - 1], o)
         + if l[|l| - 1].RefundDebit? && l[|l| - 1].order == o then l[|l| - 1].amount else 0
  }

  /** Refund debits charged against lot `i`: only order credits have any. */
  function Charged(l: seq<Entry>, i: nat): nat
    requires i < |l|
  {
    if l[i].PaymentCredit? then RefundTotal(l, l[i].order) else 0
  }

  /** What is left in lot `i`; negative when a lot was spent and then refunded. */
  function Capacity(l: seq<Entry>, a: seq<Allocation>, i: nat): int
    requires i < |l|
  {
    LotAmount(l[i]) - Used(a, i) - Charged(l, i)
  }

  /** Row numbers below `n` of the user's lots of one kind, oldest first. */
  function LotsOf(l: seq<Entry>, u: UserId, bonus: bool, n: nat): (r: seq<nat>)
    requires n <= |l|
    ensures forall k :: 0 <= k < |r| ==> r[k] < n && l[r[k]].user == u && IsLot(l[r[k]]) && IsBonusLot(l[r[k]]) == bonus
    ensures forall j, k :: 0 <= j < k < |r| ==> r[j] < r[k]
  {
    if n == 0 then []
    else LotsOf(l, u, bonus, n - 1)
         + if l[n - 1].user == u && IsLot(l[n - 1]) && IsBonusLot(l[n - 1]) == bonus then [n - 1] else []
  }

  /** The FIFO order: bonus lots first, each kind by age. */
  function FifoLots(l: seq<Entry>, u: UserId): seq<nat> {
    LotsOf(l, u, true, |l|) + LotsOf(l, u, false, |l|)
  }

  /** Total positive capacity of a list of lots. */
  function Spendable(l: seq<Entry>, a: seq<Allocation>, lots: seq<nat>): nat
    requires forall k :: 0 <= k < |lots| ==> lots[k] < |l|
  {
    if lots == [] then 0
    else Spendable(l, a, lots[..|lots| - 1]) + Max(0, Capacity(l, a, lots[|lots| - 1]))
  }
}
