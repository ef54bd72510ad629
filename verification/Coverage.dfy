/** Granting and revoking standard access (services/fulfillment_service.py): the end of a
    subscription under purchases, tariff changes and refunds in any order. Times are whole
    seconds. */
module Coverage {
  import opened Options

  type OrderId = nat

  const DAY := 86400
  const HOUR := 3600
  const GRACE_HOURS := 4

  /** `previous…` is what fulfilment notes down for a later revocation; a zero limit or tariff
      means the order does not set one. */
  datatype Order = Order(
    days: int, deviceLimit: nat, tariff: nat, isChange: bool,
    previousEnd: Option<int>, previousTariff: Option<nat>, previousLimit: Option<nat>)

  datatype User = User(end: Option<int>, deviceLimit: Option<nat>, tariff: Option<nat>)

  function Max(a: int, b: int): int {
    if a < b then b else a
  }

  // ----- fulfilment and revocation

  function Noted(u: User, o: Order): Order {
    o.(previousEnd := if u.end.Some? then u.end else o.previousEnd,
       previousTariff := if u.tariff.Some? then u.tariff else o.previousTariff,
       previousLimit := if u.deviceLimit.Some? then u.deviceLimit else o.previousLimit)
  }

  function Extended(end: Option<int>, o: Order, now: int): Option<int> {
    if o.days <= 0 then end
    else if o.isChange then Some(now + o.days * DAY)
    else Some((if end.Some? then Max(end.value, now) else now) + o.days * DAY)
  }

  function Fulfilled(u: User, o: Order, now: int): User {
    User(Extended(u.end, o, now),
         if o.deviceLimit > 0 then Some(o.deviceLimit) else u.deviceLimit,
         if o.tariff > 0 then Some(o.tariff) else u.tariff)
  }

  /** The end is moved far enough back to be past the grace period too. */
  function Cutoff(now: int): int {
    now - (GRACE_HOURS + 1) * HOUR
  }

  function Shortened(end: int, o: Order, now: int): int {
    if end - o.days * DAY <= now then Cutoff(now) else end - o.days * DAY
  }

  function Revoked(u: User, o: Order, now: int): User {
    if o.isChange && o.previousEnd.Some? then
      User(o.previousEnd,
           if o.previousLimit.Some? then o.previousLimit else u.deviceLimit,
           if o.previousTariff.Some? then o.previousTariff else u.tariff)
    else if o.days > 0 && u.end.Some? then u.(end := Some(Shortened(u.end.value, o, now)))
    else u
  }

  /** Access lasts to the end of the subscription and through the grace period. */
  predicate HasAccess(u: User, now: int) {
    u.end.Some? && u.end.value + GRACE_HOURS * HOUR >= now
  }

  class Subscriber {
    var end: Option<int>
    var deviceLimit: Option<nat>
    var tariff: Option<nat>
    var orders: map<OrderId, Order>

    function Snapshot(): User
      reads this
    {
      User(end, deviceLimit, tariff)
    }

    constructor ()
      ensures Snapshot() == User(None, None, None) && orders == map[]
    {
      end, deviceLimit, tariff, orders := None, None, None, map[];
    }

    method FulfillOrder(id: OrderId, now: int)
      requires id in orders
      modifies this
      ensures Snapshot() == Fulfilled(old(Snapshot()), old(orders[id]), now)
      ensures Gives(old(Snapshot()), old(orders[id]), now, Snapshot())
      ensures orders == old(orders)[id := Noted(old(Snapshot()), old(orders[id]))]
    {
      var o := orders[id];
      PurchaseGives(Snapshot(), o, now);
      hide Gives;
      if end.Some? {
        o := o.(previousEnd := end);
      }
      if tariff.Some? {
        o := o.(previousTariff := tariff);
      }
      if deviceLimit.Some? {
        o := o.(previousLimit := deviceLimit);
      }
      orders := orders[id := o];
      if o.isChange && o.days > 0 {
        end := Some(now + o.days * DAY);
      } else {
        var base := if end.Some? then Max(end.value, now) else now;
        if o.days > 0 {
          end := Some(base + o.days * DAY);
        }
      }
      if o.deviceLimit > 0 {
        deviceLimit := Some(o.deviceLimit);
      }
      if o.tariff > 0 {
        tariff := Some(o.tariff);
      }
    }

    method RevokeOrder(id: OrderId, now: int)
      requires id in orders
      modifies this`end, this`deviceLimit, this`tariff
      ensures Snapshot() == Revoked(old(Snapshot()), orders[id], now)
    {
      var o := orders[id];
      if o.isChange && o.previousEnd.Some? {
        end := o.previousEnd;
        if o.previousTariff.Some? {
          tariff := o.previousTariff;
        }
        if o.previousLimit.Some? {
          deviceLimit := o.previousLimit;
        }
      } else if o.days > 0 && end.Some? {
        var newEnd := end.value - o.days * DAY;
        if newEnd <= now {
          end := Some(now - (GRACE_HOURS + 1) * HOUR);
        } else {
          end := Some(newEnd);
        }
      }
    }
  }

  // ----- one purchase

  /** What an order gives: its days behind the coverage the user still has, or from now on if there is
      none or the tariff is changed, and the limit and tariff it names. */
  predicate Gives(u: User, o: Order, now: int, u': User) {
    && (if o.days <= 0 then u'.end == u.end
        else u'.end.Some? && o.days * DAY ==
               u'.end.value - if u.end.Some? && u.end.value > now && !o.isChange then u.end.value else now)
    && u'.deviceLimit == (if o.deviceLimit == 0 then u.deviceLimit else Some(o.deviceLimit))
    && u'.tariff == (if o.tariff == 0 then u.tariff else Some(o.tariff))
  }

  lemma PurchaseGives(u: User, o: Order, now: int)
    ensures forall u': User :: Gives(u, o, now, u') <==> u' == Fulfilled(u, o, now)
  {
  }

  // ----- one revocation

  /** Revoking an order with no earlier end to go back to takes its days back exactly, or, when nothing
      would be left, ends access at once, grace period included. */
  lemma RevocationIsExact(u: User, o: Order, now: int)
    requires !(o.isChange && o.previousEnd.Some?) && o.days > 0 && u.end.Some?
    ensures var left := u.end.value - o.days * DAY; var u' := Revoked(u, o, now);
            && (HasAccess(u', now) <==> left > now)
            && (left > now ==> u' == u.(end := Some(left)))
            && u'.deviceLimit == u.deviceLimit && u'.tariff == u.tariff
  {
  }

  /** Revoking a tariff change gives back what was there before, at any later time, exactly when
      there was an end to give back and nothing was set that had no value before. */
  lemma RevokedChangeRestoresIff(u: User, o: Order, now: int, later: int)
    requires o.isChange && o.days > 0 && now <= later
    requires o.previousEnd == None && o.previousTariff == None && o.previousLimit == None
    ensures Revoked(Fulfilled(u, o, now), Noted(u, o), later) == u
            <==> u.end.Some? && (u.tariff.Some? || o.tariff == 0) && (u.deviceLimit.Some? || o.deviceLimit == 0)
  {
  }

  /** Without days, or without an end, there is nothing to take back. */
  lemma NothingToTakeBack(u: User, o: Order, now: int)
    requires !(o.isChange && o.previousEnd.Some?) && (o.days <= 0 || u.end == None)
    ensures Revoked(u, o, now) == u
  {
  }

  // ----- any mix of purchases and refunds

  /** A refund carries the order as it was noted down when it was fulfilled. */
  datatype Event = Bought(id: OrderId, order: Order, at: int) | Refunded(id: OrderId, order: Order, at: int)

  function Days(ev: Event): nat {
    if ev.order.days > 0 then ev.order.days else 0
  }

  function After(u: User, ev: Event): User {
    match ev
    case Bought(_, o, t) => Fulfilled(u, o, t)
    case Refunded(_, o, t) => Revoked(u, o, t)
  }

  function Run(u: User, evs: seq<Event>): User {
    if evs == [] then u else After(Run(u, evs[..|evs| - 1]), evs[|evs| - 1])
  }

  /** `ev` is the purchase of this order, whatever was noted on it since. */
  predicate IsPurchase(ev: Event, id: OrderId, o: Order) {
    && ev.Bought? && ev.id == id
    && o == ev.order.(previousEnd := o.previousEnd, previousTariff := o.previousTariff,
                     previousLimit := o.previousLimit)
  }

  /** Orders that are no tariff change, bought once and refunded at most once, after they were bought. */
  predicate History(evs: seq<Event>) {
    && (forall i, j :: 0 <= i < j < |evs| && evs[i].Bought? == evs[j].Bought? ==> evs[i].id != evs[j].id)
    && (forall i :: 0 <= i < |evs| ==> !evs[i].order.isChange)
    && (forall i :: 0 <= i < |evs| && evs[i].Refunded? ==>
         exists j :: 0 <= j < i && IsPurchase(evs[j], evs[i].id, evs[i].order))
  }

  /** An event moves the end by exactly its days: a purchase no later than the end, a refund that
      leaves time or happens to take as much as ending access does, or no days at all. */
  predicate Exact(u: User, ev: Event) {
    && u.end.Some?
    && (|| ev.order.days <= 0
        || (ev.Bought? && ev.at <= u.end.value)
        || (ev.Refunded? && (ev.at < u.end.value - Days(ev) * DAY || u.end.value - Days(ev) * DAY == Cutoff(ev.at))))
  }

  predicate AllExact(u: User, evs: seq<Event>) {
    forall i :: 0 < i < |evs| ==> Exact(Run(u, evs[..i]), evs[i])
  }

  /** Coverage never lapses: time is still left at every purchase but the first, and would still
      be left after every refund. */
  predicate NeverLapses(u: User, evs: seq<Event>) {
    forall i :: 0 < i < |evs| ==> Covered(Run(u, evs[..i]), evs[i])
  }

  predicate Covered(u: User, ev: Event) {
    u.end.Some? && ev.at < u.end.value - (if ev.Refunded? then Days(ev) * DAY else 0)
  }

  predicate RefundedIn(evs: seq<Event>, id: OrderId) {
    exists i :: 0 <= i < |evs| && evs[i].Refunded? && evs[i].id == id
  }

  /** Days of the orders in `evs` that `all` does not refund. */
  function PaidDays(evs: seq<Event>, all: seq<Event>): nat {
    if evs == [] then 0
    else
      var e := evs[|evs| - 1];
      PaidDays(evs[..|evs| - 1], all) + if e.Bought? && !RefundedIn(all, e.id) then Days(e) else 0
  }

  /** Where coverage starts: at the first purchase, or at the end it already had. */
  function Base(u: User, first: Event): int {
    if u.end.Some? then Max(u.end.value, first.at) else first.at
  }

  lemma RefundedMore(all: seq<Event>, e: Event, id: OrderId)
    ensures RefundedIn(all + [e], id) <==> RefundedIn(all, id) || (e.Refunded? && e.id == id)
  {
    assert (all + [e])[|all|] == e;
    if RefundedIn(all, id) {
      var i :| 0 <= i < |all| && all[i].Refunded? && all[i].id == id;
      assert (all + [e])[i] == all[i];
    }
  }

  lemma {:induction false} PaidSame(evs: seq<Event>, all: seq<Event>, e: Event)
    requires e.Refunded? ==> forall i :: 0 <= i < |evs| && evs[i].Bought? ==> evs[i].id != e.id
    ensures PaidDays(evs, all + [e]) == PaidDays(evs, all)
  {
    if evs != [] {
      PaidSame(evs[..|evs| - 1], all, e);
      RefundedMore(all, e, evs[|evs| - 1].id);
    }
  }

  /** Refunding one of the orders takes exactly its days out of the sum. */
  lemma {:induction false} PaidLess(evs: seq<Event>, all: seq<Event>, e: Event, j: nat)
    requires e.Refunded? && !RefundedIn(all, e.id) && j < |evs| && IsPurchase(evs[j], e.id, e.order)
    requires forall i, k :: 0 <= i < k < |evs| && evs[i].Bought? && evs[k].Bought? ==> evs[i].id != evs[k].id
    ensures PaidDays(evs, all + [e]) == PaidDays(evs, all) - Days(e)
  {
    var pre, x := evs[..|evs| - 1], evs[|evs| - 1];
    RefundedMore(all, e, x.id);
    if j == |evs| - 1 {
      PaidSame(pre, all, e);
    } else {
      PaidLess(pre, all, e, j);
    }
  }

  lemma HistoryPrefix(evs: seq<Event>, n: nat)
    requires History(evs) && n <= |evs|
    ensures History(evs[..n])
  {
    var pre := evs[..n];
    forall i | 0 <= i < n && pre[i].Refunded?
      ensures exists j :: 0 <= j < i && IsPurchase(pre[j], pre[i].id, pre[i].order) {
      assert evs[i] == pre[i];
      var j :| 0 <= j < i && IsPurchase(evs[j], evs[i].id, evs[i].order);
      assert pre[j] == evs[j];
    }
  }

  /** A purchase is not refunded before it is made, and a refund is the first of its order. */
  lemma NotRefundedBefore(pre: seq<Event>, e: Event)
    requires History(pre + [e])
    ensures !RefundedIn(pre, e.id)
  {
    var all := pre + [e];
    assert all[|pre|] == e;
    forall i | 0 <= i < |pre| && pre[i].Refunded? ensures pre[i].id != e.id {
      assert all[i] == pre[i];
      if e.Bought? {
        var j :| 0 <= j < i && IsPurchase(all[j], all[i].id, all[i].order);
        assert all[j].Bought? == all[|pre|].Bought?;
      }
    }
  }

  lemma PurchaseOf(pre: seq<Event>, e: Event) returns (j: nat)
    requires History(pre + [e]) && e.Refunded?
    ensures j < |pre| && IsPurchase(pre[j], e.id, e.order)
  {
    var all := pre + [e];
    assert all[|pre|] == e;
    var k :| 0 <= k < |pre| && IsPurchase(all[k], all[|pre|].id, all[|pre|].order);
    j := k;
  }

  function Change(ev: Event): int {
    if ev.Bought? then Days(ev) else -(Days(ev) as int)
  }

  /** As one more event is added, the days of unrefunded orders follow it. */
  lemma PaidStep(pre: seq<Event>, e: Event)
    requires History(pre + [e])
    ensures PaidDays(pre + [e], pre + [e])
            == PaidDays(pre, pre) + Change(e)
  {
    var all := pre + [e];
    assert all[..|pre|] == pre;
    NotRefundedBefore(pre, e);
    RefundedMore(pre, e, e.id);
    if e.Bought? {
      PaidSame(pre, pre, e);
    } else {
      var j := PurchaseOf(pre, e);
      HistoryPrefix(all, |pre|);
      PaidLess(pre, pre, e, j);
    }
  }

  lemma RunPush(u: User, pre: seq<Event>, e: Event)
    ensures Run(u, pre + [e]) == After(Run(u, pre), e)
  {
    assert (pre + [e])[..|pre|] == pre;
  }

  lemma ExactStep(u: User, e: Event)
    requires u.end.Some? && !e.order.isChange
    ensures After(u, e).end == Some(u.end.value + Change(e) * DAY) <==> Exact(u, e)
  {
  }

  /** The end of the subscription is its base plus the days of all orders not refunded so far. */
  predicate SumTellsEnd(u: User, evs: seq<Event>)
    requires evs != []
  {
    Run(u, evs).end == Some(Base(u, evs[0]) + PaidDays(evs, evs) * DAY)
  }

  predicate SumAlwaysTells(u: User, evs: seq<Event>) {
    forall n :: 0 < n <= |evs| ==> SumTellsEnd(u, evs[..n])
  }

  lemma SumPrefixes(u: User, evs: seq<Event>)
    requires |evs| > 1
    ensures var n := |evs| - 1; var pre := evs[..n];
            && (SumAlwaysTells(u, evs) <==> SumAlwaysTells(u, pre) && SumTellsEnd(u, evs))
            && (AllExact(u, evs) <==> AllExact(u, pre) && Exact(Run(u, pre), evs[n]))
            && (SumAlwaysTells(u, pre) ==> SumTellsEnd(u, pre))
  {
    hide SumTellsEnd, Exact, Run;
    var pre := evs[..|evs| - 1];
    assert evs[..|evs|] == evs && pre[..|pre|] == pre;
    assert forall i :: 0 <= i <= |pre| ==> pre[..i] == evs[..i];
  }

  lemma SumStepIff(u: User, pre: seq<Event>, e: Event)
    requires pre != [] && History(pre + [e]) && SumTellsEnd(u, pre)
    ensures SumTellsEnd(u, pre + [e]) <==> Exact(Run(u, pre), e)
  {
    assert (pre + [e])[|pre|] == e;
    hide After, PaidDays, Exact, Run, Base;
    PaidStep(pre, e);
    RunPush(u, pre, e);
    ExactStep(Run(u, pre), e);
  }

  /** Whatever the order of purchases and refunds: the end is at all times the base plus the days of
      the orders not refunded, if and only if every event after the first is exact. */
  lemma {:induction false} EndIsSumIff(u: User, evs: seq<Event>)
    requires evs != [] && evs[0].Bought? && evs[0].order.days > 0 && History(evs)
    ensures SumAlwaysTells(u, evs) <==> AllExact(u, evs)
  {
    var n := |evs| - 1;
    var pre, e := evs[..n], evs[n];
    if n == 0 {
      FirstTells(u, e);
      assert evs[..1] == evs == [e];
    } else {
      hide SumTellsEnd, Exact, Run, SumAlwaysTells, AllExact;
      assert evs == pre + [e];
      HistoryPrefix(evs, n);
      EndIsSumIff(u, pre);
      SumPrefixes(u, evs);
      if SumTellsEnd(u, pre) { SumStepIff(u, pre, e); }
    }
  }

  lemma FirstTells(u: User, e: Event)
    requires e.Bought? && e.order.days > 0 && History([e])
    ensures SumTellsEnd(u, [e])
  {
    assert [e][0] == e && [] + [e] == [e];
    PaidStep([], e);
    RunPush(u, [], e);
    FirstPurchase(u, e);
  }

  /** In particular while coverage does not lapse. */
  lemma EndIsBasePlusPaidDays(u: User, evs: seq<Event>)
    requires evs != [] && evs[0].Bought? && evs[0].order.days > 0 && History(evs) && NeverLapses(u, evs)
    ensures Run(u, evs).end == Some(Base(u, evs[0]) + PaidDays(evs, evs) * DAY)
  {
    hide Run, History, PaidDays;
    forall i | 0 < i < |evs| ensures Exact(Run(u, evs[..i]), evs[i]) { CoveredIsExact(Run(u, evs[..i]), evs[i]); }
    EndIsSumIff(u, evs);
    assert evs[..|evs|] == evs;
  }

  lemma CoveredIsExact(u: User, e: Event)
    requires Covered(u, e)
    ensures Exact(u, e)
  {
  }

  lemma FirstPurchase(u: User, e: Event)
    requires e.Bought? && e.order.days > 0 && !e.order.isChange
    ensures After(u, e).end == Some(Base(u, e) + Days(e) * DAY) && PaidDays([], []) == 0 && Run(u, []) == u
  {
  }

  const ONE_DAY := Order(1, 0, 0, false, None, None, None)
  const FIRST_DAY := Bought(1, ONE_DAY, 0)
  const LATER_DAY := Bought(2, ONE_DAY, 3 * DAY)
  const LATE_REFUND := Refunded(1, ONE_DAY, 3 * DAY + HOUR)

  lemma LapsedRun()
    ensures Run(User(None, None, None), [FIRST_DAY, LATER_DAY, LATE_REFUND])
            == User(Some(Cutoff(3 * DAY + HOUR)), None, None)
  {
    var u := User(None, None, None);
    RunPush(u, [], FIRST_DAY);
    RunPush(u, [FIRST_DAY], LATER_DAY);
    RunPush(u, [FIRST_DAY, LATER_DAY], LATE_REFUND);
    assert [] + [FIRST_DAY] == [FIRST_DAY] && [FIRST_DAY] + [LATER_DAY] == [FIRST_DAY, LATER_DAY];
    assert [FIRST_DAY, LATER_DAY] + [LATE_REFUND] == [FIRST_DAY, LATER_DAY, LATE_REFUND];
  }

  lemma LapsedPaidDays()
    ensures var evs := [FIRST_DAY, LATER_DAY, LATE_REFUND]; History(evs) && PaidDays(evs, evs) == 1
  {
    hide PaidDays;
    var evs := [FIRST_DAY, LATER_DAY, LATE_REFUND];
    assert IsPurchase(evs[0], 1, ONE_DAY);
    assert History(evs);
    HistoryPrefix(evs, 2);
    HistoryPrefix(evs, 1);
    assert evs[..1] == [] + [FIRST_DAY] && evs[..2] == evs[..1] + [LATER_DAY] && evs == evs[..2] + [LATE_REFUND];
    PaidStep(evs[..2], LATE_REFUND);
    PaidStep(evs[..1], LATER_DAY);
    PaidStep([], FIRST_DAY);
    FirstPurchase(User(None, None, None), FIRST_DAY);
  }

  /** An event that is not exact: of two one-day orders the first is refunded when a day of coverage
      is no longer left, and access is simply over. */
  lemma LapsedRefundEndsAccess()
    ensures var evs := [FIRST_DAY, LATER_DAY, LATE_REFUND]; var u := Run(User(None, None, None), evs);
            && History(evs) && PaidDays(evs, evs) == 1 && !SumTellsEnd(User(None, None, None), evs)
            && u.end == Some(Cutoff(3 * DAY + HOUR)) && !HasAccess(u, 3 * DAY + HOUR)
  {
    hide Run, History, PaidDays;
    LapsedRun();
    LapsedPaidDays();
  }

  const NEXT_DAY := Bought(2, ONE_DAY, DAY)

  /** No time has to be left: a second day bought in the second the first one ends is exact. */
  lemma BoughtAtTheEnd()
    ensures var evs := [FIRST_DAY, NEXT_DAY]; var u := User(None, None, None);
            History(evs) && !NeverLapses(u, evs) && SumAlwaysTells(u, evs)
  {
    var evs, u := [FIRST_DAY, NEXT_DAY], User(None, None, None);
    assert evs[..1] == [] + [FIRST_DAY];
    RunPush(u, [], FIRST_DAY);
    FirstPurchase(u, FIRST_DAY);
    assert !Covered(Run(u, evs[..1]), evs[1]);
    assert History(evs);
    hide Run, History, SumAlwaysTells;
    EndIsSumIff(u, evs);
  }
}
