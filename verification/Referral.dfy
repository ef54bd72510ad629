/** Referral tiers, the bonus of a payment and the reversal of bonuses
    (services/referral_bonus.py, config/constants.py). */
module Referral {
  import opened Options
  import opened Ledger
  import opened Account

  /** Thresholds and rates in per cent, in ascending order of threshold. */
  const TIERS: seq<(nat, nat)> := [(0, 15), (3, 20), (7, 25), (15, 30)]

  const ACTIVE_MIN_TOPUP: nat := 68

  /** `t` is the last tier whose threshold `count` reaches. */
  predicate IsTier(count: nat, t: nat) {
    t < |TIERS| && TIERS[t].0 <= count && forall k :: t < k < |TIERS| ==> count < TIERS[k].0
  }

  function TierRate(count: nat): nat {
    if count < 3 then 15 else if count < 7 then 20 else if count < 15 then 25 else 30
  }

  /** The scan over the tier table. The next tier is what a progress bar shows. */
  method GetReferralTier(count: nat) returns (tier: nat, next: Option<nat>)
    ensures IsTier(count, tier) && TIERS[tier].1 == TierRate(count)
    ensures next == if tier + 1 < |TIERS| then Some(tier + 1) else None
  {
    tier, next := 0, None;
    var i := 0;
    while i < |TIERS|
      invariant 0 <= i <= |TIERS|
      invariant i == 0 ==> tier == 0 && next == None
      invariant i > 0 ==> tier == i - 1 && TIERS[tier].0 <= count
      invariant i > 0 ==> next == if i < |TIERS| then Some(i) else None
      invariant forall k :: 0 <= k < i ==> TIERS[k].0 <= count
    {
      if count < TIERS[i].0 {
        break;
      }
      tier := i;
      next := if i + 1 < |TIERS| then Some(i + 1) else None;
      i := i + 1;
    }
  }

  /** Rounded down to whole roubles. */
  function Bonus(amount: nat, rate: nat): nat {
    amount * rate / 100
  }

  lemma TierRateMonotone(a: nat, b: nat)
    requires a <= b
    ensures TierRate(a) <= TierRate(b) <= 30
  {
  }

  /** A bonus is the integer part of its share, and never above the top rate's share. */
  lemma BonusBounds(amount: nat, count: nat)
    ensures var b := Bonus(amount, TierRate(count));
            && 100 * b <= amount * TierRate(count) < 100 * (b + 1)
            && 100 * b <= 30 * amount
  {
    TierRateMonotone(count, count);
    assert amount * TierRate(count) <= amount * 30;
  }

  // ----- reversal

  /** Row numbers below `n` of the bonuses granted for order `o`. */
  function BonusRows(l: seq<Entry>, o: OrderId, n: nat): (r: seq<nat>)
    requires n <= |l|
    ensures forall k :: 0 <= k < |r| ==> r[k] < n && l[r[k]].ReferralCredit? && l[r[k]].order == o
    ensures forall i :: 0 <= i < n && l[i].ReferralCredit? && l[i].order == o ==> i in r
    ensures forall j, k :: 0 <= j < k < |r| ==> r[j] < r[k]
  {
    if n == 0 then []
    else BonusRows(l, o, n - 1) + if l[n - 1].ReferralCredit? && l[n - 1].order == o then [n - 1] else []
  }

  /** What reversals have already taken back from the bonus in row `c`. */
  function Reversed(l: seq<Entry>, c: nat): nat {
    if l == [] then 0
    else Reversed(l[..|l| - 1], c)
         + if l[|l| - 1].ReferralReversal? && l[|l| - 1].credit == c then l[|l| - 1].amount else 0
  }

  predicate BonusesOf(l: seq<Entry>, o: OrderId, credits: seq<nat>) {
    forall k :: 0 <= k < |credits| ==> credits[k] < |l| && l[credits[k]].ReferralCredit? && l[credits[k]].order == o
  }

  /** One round of the reversal loop, for the bonus in row `c`. */
  function ReverseOne(l: seq<Entry>, c: nat, ref: RefundRef): (r: seq<Entry>)
    ensures l <= r
  {
    if c >= |l| || !l[c].ReferralCredit? then l
    else
      var rest := Max(0, l[c].amount - Reversed(l, c));
      if HasKey(l, BonusReversal(l[c].order, l[c].user, ref)) || rest == 0 then l
      else l + [ReferralReversal(l[c].order, l[c].user, rest, c, ref)]
  }

  function ReverseEach(l: seq<Entry>, credits: seq<nat>, ref: RefundRef): (r: seq<Entry>)
    ensures l <= r
  {
    if credits == [] then l
    else ReverseOne(ReverseEach(l, credits[..|credits| - 1], ref), credits[|credits| - 1], ref)
  }

  function ReverseBonuses(l: seq<Entry>, o: OrderId, ref: RefundRef): seq<Entry> {
    ReverseEach(l, BonusRows(l, o, |l|), ref)
  }

  /** No bonus has been taken back more than once over. */
  predicate ReversalsOk(l: seq<Entry>) {
    forall c :: 0 <= c < |l| && l[c].ReferralCredit? ==> Reversed(l, c) == 0 || Reversed(l, c) == l[c].amount
  }

  lemma {:induction false} ReversedByRow(l: seq<Entry>, c: nat, i: nat)
    requires i < |l| && l[i].ReferralReversal? && l[i].credit == c
    ensures Reversed(l, c) >= l[i].amount
  {
    if i < |l| - 1 { ReversedByRow(l[..|l| - 1], c, i); }
  }

  /** A used reversal key means the bonus behind it is already gone: one bonus per order and referrer. */
  lemma KeyMeansReversed(l: seq<Entry>, c: nat, o: OrderId, ref: RefundRef)
    requires RowsOk(l) && ReversalsOk(l)
    requires c < |l| && l[c].ReferralCredit? && l[c].order == o
    requires HasKey(l, BonusReversal(o, l[c].user, ref))
    ensures Reversed(l, c) == l[c].amount
  {
    var i :| 0 <= i < |l| && KeyOf(l[i]) == BonusReversal(o, l[c].user, ref);
    assert Backed(l, l[i]);
    assert KeyOf(l[l[i].credit]) == KeyOf(l[c]);
    ReversedByRow(l, c, i);
  }

  lemma ReverseOneKeeps(l: seq<Entry>, a: seq<Allocation>, c: nat, o: OrderId, ref: RefundRef)
    requires AccountOk(l, a) && ReversalsOk(l)
    requires c < |l| && l[c].ReferralCredit? && l[c].order == o
    ensures var r := ReverseOne(l, c, ref);
            && AccountOk(r, a) && ReversalsOk(r) && Reversed(r, c) == l[c].amount
            && forall d :: d != c ==> Reversed(r, d) == Reversed(l, d)
  {
    var r := ReverseOne(l, c, ref);
    if HasKey(l, BonusReversal(o, l[c].user, ref)) { KeyMeansReversed(l, c, o, ref); }
    if r != l {
      assert r[..|l|] == l;
      AppendKeeps(l, a, r[|l|]);
      forall d | 0 <= d < |r| && r[d].ReferralCredit? ensures Reversed(r, d) == 0 || Reversed(r, d) == r[d].amount {
        if d < |l| { assert r[d] == l[d]; }
      }
    }
  }

  /** The loop takes back every bonus of the order exactly once over, and nothing else. */
  lemma {:induction false} ReverseEachIsExact(
    l: seq<Entry>, a: seq<Allocation>, credits: seq<nat>, o: OrderId, ref: RefundRef)
    requires AccountOk(l, a) && ReversalsOk(l) && BonusesOf(l, o, credits)
    ensures var r := ReverseEach(l, credits, ref);
            && AccountOk(r, a) && ReversalsOk(r)
            && (forall k :: 0 <= k < |credits| ==> Reversed(r, credits[k]) == l[credits[k]].amount)
            && (forall d :: d !in credits ==> Reversed(r, d) == Reversed(l, d))
  {
    hide ReverseOne, AccountOk, ReversalsOk;
    if credits != [] {
      var pre, c := credits[..|credits| - 1], credits[|credits| - 1];
      assert credits == pre + [c];
      ReverseEachIsExact(l, a, pre, o, ref);
      var l1 := ReverseEach(l, pre, ref);
      assert l1[c] == l[c];
      ReverseOneKeeps(l1, a, c, o, ref);
    }
  }

  lemma {:induction false} NothingToReverse(l: seq<Entry>, credits: seq<nat>, o: OrderId, ref: RefundRef)
    requires BonusesOf(l, o, credits)
    requires forall k :: 0 <= k < |credits| ==> Reversed(l, credits[k]) == l[credits[k]].amount
    ensures ReverseEach(l, credits, ref) == l
  {
    if credits != [] { NothingToReverse(l, credits[..|credits| - 1], o, ref); }
  }

  predicate ReversalRow(e: Entry, o: OrderId) {
    e.ReferralReversal? && e.order == o
  }

  lemma ReverseOneAdds(l: seq<Entry>, c: nat, o: OrderId, ref: RefundRef)
    requires c < |l| && l[c].ReferralCredit? && l[c].order == o
    ensures var r := ReverseOne(l, c, ref);
            r == l || (|r| == |l| + 1 && r[..|l|] == l && ReversalRow(r[|l|], o))
  {
  }

  predicate AddsReversals(l: seq<Entry>, r: seq<Entry>, o: OrderId) {
    l <= r && forall i :: |l| <= i < |r| ==> ReversalRow(r[i], o)
  }

  /** The reversal loop adds reversal rows only, so the order keeps its bonus rows. */
  lemma {:induction false} ReverseAddsNoBonus(l: seq<Entry>, credits: seq<nat>, o: OrderId, ref: RefundRef)
    requires BonusesOf(l, o, credits)
    ensures AddsReversals(l, ReverseEach(l, credits, ref), o)
  {
    if credits != [] {
      var pre, c := credits[..|credits| - 1], credits[|credits| - 1];
      ReverseAddsNoBonus(l, pre, o, ref);
      var l1 := ReverseEach(l, pre, ref);
      assert l1[c] == l[c];
      ReverseOneAdds(l1, c, o, ref);
    }
  }

  /** Reversing again, under the same or any other refund id, writes nothing. */
  lemma ReverseBonusesIsIdempotent(l: seq<Entry>, a: seq<Allocation>, o: OrderId, ref: RefundRef, again: RefundRef)
    requires AccountOk(l, a) && ReversalsOk(l)
    ensures var r := ReverseBonuses(l, o, ref);
            && (forall c :: 0 <= c < |r| && r[c].ReferralCredit? && r[c].order == o ==> Reversed(r, c) == r[c].amount)
            && ReverseBonuses(r, o, again) == r
  {
    var credits := BonusRows(l, o, |l|);
    var r := ReverseBonuses(l, o, ref);
    ReverseEachIsExact(l, a, credits, o, ref);
    ReverseAddsNoBonus(l, credits, o, ref);
    forall c | 0 <= c < |r| && r[c].ReferralCredit? && r[c].order == o ensures Reversed(r, c) == r[c].amount {
      assert c < |l| && l[c] == r[c] && c in credits;
    }
    NothingToReverse(r, BonusRows(r, o, |r|), o, again);
  }

  lemma ReverseEachPush(l: seq<Entry>, pre: seq<nat>, c: nat, ref: RefundRef)
    ensures ReverseEach(l, pre + [c], ref) == ReverseOne(ReverseEach(l, pre, ref), c, ref)
  {
    assert (pre + [c])[..|pre|] == pre;
  }

  /** Why one bonus per order and referrer is needed: of two, the second is never taken back. */
  lemma TwoBonusesLeaveOneUnreversed(ref: RefundRef)
    ensures var l := [ReferralCredit(1, 7, 20), ReferralCredit(1, 7, 30)];
            !UniqueKeys(l) && ReverseBonuses(l, 1, ref) == l + [ReferralReversal(1, 7, 20, 0, ref)]
  {
    var l := [ReferralCredit(1, 7, 20), ReferralCredit(1, 7, 30)];
    assert KeyOf(l[0]) == KeyOf(l[1]);
    RowsOfTwo(l);
    var l1 := l + [ReferralReversal(1, 7, 20, 0, ref)];
    FirstOfTwo(l, l1, ref);
    ReverseEachPush(l, [0], 1, ref);
    assert [0] + [1] == [0, 1];
    assert KeyOf(l1[2]) == BonusReversal(1, 7, ref);
    assert ReverseOne(l1, 1, ref) == l1;
  }

  lemma RowsOfTwo(l: seq<Entry>)
    requires l == [ReferralCredit(1, 7, 20), ReferralCredit(1, 7, 30)]
    ensures BonusRows(l, 1, 2) == [0, 1]
  {
    assert BonusRows(l, 1, 0) == [];
    assert BonusRows(l, 1, 1) == [0];
    assert l[1].ReferralCredit? && l[1].order == 1;
  }

  lemma FirstOfTwo(l: seq<Entry>, l1: seq<Entry>, ref: RefundRef)
    requires l == [ReferralCredit(1, 7, 20), ReferralCredit(1, 7, 30)]
    requires l1 == l + [ReferralReversal(1, 7, 20, 0, ref)]
    ensures ReverseEach(l, [0], ref) == l1
  {
    assert l[..1][..0] == [] && Reversed(l[..1], 0) == 0 && Reversed(l, 0) == 0;
    assert !HasKey(l, BonusReversal(1, 7, ref));
    assert ReverseOne(l, 0, ref) == l1;
    ReverseEachPush(l, [], 0, ref);
    assert [] + [0] == [0];
  }

  /** The loop itself, reading the ledger afresh for every bonus. */
  method ReverseReferralBonuses(l: seq<Entry>, o: OrderId, ref: RefundRef) returns (r: seq<Entry>)
    ensures r == ReverseBonuses(l, o, ref)
  {
    hide ReverseOne, BonusRows;
    var credits := BonusRows(l, o, |l|);
    r := l;
    var k := 0;
    while k < |credits|
      invariant 0 <= k <= |credits|
      invariant r == ReverseEach(l, credits[..k], ref)
    {
      assert credits[..k + 1] == credits[..k] + [credits[k]];
      ReverseEachPush(l, credits[..k], credits[k], ref);
      r := ReverseOne(r, credits[k], ref);
      k := k + 1;
    }
    assert credits[..|credits|] == credits;
  }
}
