/** Who referred whom (services/subscription.py): the walk that accepts a referrer, and why the
    graph stays free of cycles. Users are keyed by their Telegram id. */
module ReferralGraph {
  import opened Options

  type Id = n: nat | n > 0 witness 1

  datatype User = User(deleted: bool, referredBy: Option<Id>)

  type Users = map<Id, User>

  const MAX_DEPTH := 50

  /** Lookups do not see soft-deleted users. */
  predicate Live(users: Users, id: Id) {
    id in users && !users[id].deleted
  }

  /** One step up the chain as the walk sees it. */
  function Up(users: Users, id: Id): Option<Id> {
    if Live(users, id) then users[id].referredBy else None
  }

  // ----- chains of links

  type Links = map<Id, Id>

  /** The referrals the walk can follow. */
  function Seen(users: Users): Links {
    map id | id in users && !users[id].deleted && users[id].referredBy.Some? :: users[id].referredBy.value
  }

  /** All referrals there are. */
  function All(users: Users): Links {
    map id | id in users && users[id].referredBy.Some? :: users[id].referredBy.value
  }

  /** The `k`-th referrer above `id`. */
  function Ancestor(g: Links, id: Id, k: nat): Option<Id> {
    if k == 0 then Some(id)
    else match Ancestor(g, id, k - 1)
      case None => None
      case Some(a) => if a in g then Some(g[a]) else None
  }

  /** The chain above `id` has `n` links and stops. */
  predicate Ends(g: Links, id: Id, n: nat) {
    Ancestor(g, id, n).Some? && Ancestor(g, id, n + 1).None?
  }

  ghost predicate OnChain(g: Links, id: Id, t: Id) {
    exists k: nat :: Ancestor(g, id, k) == Some(t)
  }

  ghost predicate Stops(g: Links, id: Id) {
    exists n: nat :: Ends(g, id, n)
  }

  /** No chain goes on for ever; in particular nobody is above themselves. */
  ghost predicate Acyclic(g: Links) {
    forall id :: Stops(g, id)
  }

  lemma {:induction false} Onward(g: Links, id: Id, j: nat, k: nat)
    requires j <= k && Ancestor(g, id, k).Some?
    ensures Ancestor(g, id, j).Some?
  {
    if j < k { Onward(g, id, j, k - 1); }
  }

  lemma {:induction false} FromAncestor(g: Links, id: Id, j: nat, k: nat)
    requires Ancestor(g, id, j).Some?
    ensures Ancestor(g, id, j + k) == Ancestor(g, Ancestor(g, id, j).value, k)
  {
    if k > 0 { FromAncestor(g, id, j, k - 1); }
  }

  /** A chain that comes back to a user it has passed goes on for ever. */
  lemma {:induction false} LoopNeverEnds(g: Links, id: Id, j: nat, k: nat, n: nat)
    requires j < k && Ancestor(g, id, j).Some? && Ancestor(g, id, j) == Ancestor(g, id, k)
    ensures Ancestor(g, id, n).Some?
    decreases n
  {
    if n <= k {
      Onward(g, id, n, k);
    } else {
      FromAncestor(g, id, j, n - k);
      FromAncestor(g, id, k, n - k);
      LoopNeverEnds(g, id, j, k, n - k + j);
    }
  }

  /** In an acyclic graph nobody is their own ancestor. */
  lemma NobodyAboveThemselves(g: Links, id: Id, k: nat)
    requires Acyclic(g) && k > 0
    ensures Ancestor(g, id, k) != Some(id)
  {
    assert Stops(g, id);
    var n: nat :| Ends(g, id, n);
    if Ancestor(g, id, k) == Ancestor(g, id, 0) { LoopNeverEnds(g, id, 0, k, n + 1); }
  }

  // ----- the walk

  /** What the walk knows at link `k`: the chain so far is just what it has visited, without the
      user who is to be bound. */
  ghost predicate Walked(g: Links, t: Id, ref: Id, current: Id, visited: set<Id>, k: nat) {
    && Ancestor(g, ref, k) == Some(current)
    && t in visited
    && (forall j :: 0 <= j <= k ==> Ancestor(g, ref, j).Some? && Ancestor(g, ref, j).value in visited
                                    && Ancestor(g, ref, j).value != t)
    && (forall x :: x in visited && x != t ==> exists j :: 0 <= j <= k && Ancestor(g, ref, j) == Some(x))
  }

  ghost predicate Acceptable(users: Users, t: Id, ref: Id) {
    && ref != t && Live(users, ref)
    && !OnChain(Seen(users), ref, t)
    && exists n: nat :: n < MAX_DEPTH && Ends(Seen(users), ref, n)
  }

  lemma TooDeep(g: Links, ref: Id, k: nat)
    requires k >= MAX_DEPTH && Ancestor(g, ref, k).Some?
    ensures forall n: nat :: n < MAX_DEPTH ==> !Ends(g, ref, n)
  {
    forall n: nat | n < MAX_DEPTH ensures !Ends(g, ref, n) { Onward(g, ref, n + 1, k); }
  }

  lemma Repeats(users: Users, t: Id, ref: Id, current: Id, visited: set<Id>, k: nat)
    requires Walked(Seen(users), t, ref, current, visited, k)
    requires Up(users, current).Some? && Up(users, current).value in visited
    ensures !Acceptable(users, t, ref)
  {
    var g, next := Seen(users), Up(users, current).value;
    assert Ancestor(g, ref, k + 1) == Some(next);
    if next != t {
      var j :| 0 <= j <= k && Ancestor(g, ref, j) == Some(next);
      forall n: nat ensures !Ends(g, ref, n) { LoopNeverEnds(g, ref, j, k + 1, n + 1); }
    }
  }

  lemma Stopped(users: Users, t: Id, ref: Id, current: Id, visited: set<Id>, k: nat)
    requires Walked(Seen(users), t, ref, current, visited, k) && Up(users, current) == None
    requires k < MAX_DEPTH && ref != t && Live(users, ref)
    ensures Acceptable(users, t, ref)
  {
    var g := Seen(users);
    assert Ends(g, ref, k);
    forall j: nat ensures Ancestor(g, ref, j) != Some(t) {
      if j > k && Ancestor(g, ref, j).Some? { Onward(g, ref, k + 1, j); }
    }
  }

  /** The walk accepts a referrer exactly when it is another, live user whose chain stops within
      the depth limit and does not lead to the user who is to be bound. */
  method ValidateReferral(users: Users, t: Id, ref: Id) returns (ok: bool)
    ensures ok <==> Acceptable(users, t, ref)
  {
    if ref == t {
      return false;
    }
    if !Live(users, ref) {
      return false;
    }
    var current := ref;
    var visited := {t, ref};
    var depth := 0;
    assert Ancestor(Seen(users), ref, 0) == Some(ref);
    while true
      invariant 0 <= depth <= MAX_DEPTH
      invariant Walked(Seen(users), t, ref, current, visited, depth)
      decreases MAX_DEPTH - depth
    {
      if depth + 1 > MAX_DEPTH {
        TooDeep(Seen(users), ref, depth);
        return false;
      }
      var next := Up(users, current);
      if next == None {
        Stopped(users, t, ref, current, visited, depth);
        return true;
      }
      if next.value in visited {
        Repeats(users, t, ref, current, visited, depth);
        return false;
      }
      assert Ancestor(Seen(users), ref, depth + 1) == next;
      visited := visited + {next.value};
      current := next.value;
      depth := depth + 1;
    }
  }

  // ----- binding a referrer

  lemma {:induction false} SameChain(g: Links, g': Links, t: Id, id: Id, k: nat)
    requires t !in g && forall x :: x != t ==> (x in g' <==> x in g) && (x in g ==> g'[x] == g[x])
    requires forall j: nat :: j < k ==> Ancestor(g, id, j) != Some(t)
    ensures Ancestor(g', id, k) == Ancestor(g, id, k)
  {
    if k > 0 {
      SameChain(g, g', t, id, k - 1);
      assert Ancestor(g, id, k - 1) != Some(t);
    }
  }

  /** Chains that do not meet the newly bound user stop where they did. */
  lemma ChainApart(g: Links, t: Id, ref: Id, id: Id)
    requires t !in g && Stops(g, id) && !OnChain(g, id, t)
    ensures Stops(g[t := ref], id)
  {
    var n: nat :| Ends(g, id, n);
    SameChain(g, g[t := ref], t, id, n);
    SameChain(g, g[t := ref], t, id, n + 1);
    assert Ends(g[t := ref], id, n);
  }

  lemma {:induction false} FirstMeeting(g: Links, id: Id, t: Id, k: nat) returns (j: nat)
    requires Ancestor(g, id, k) == Some(t)
    ensures j <= k && Ancestor(g, id, j) == Some(t) && forall i: nat :: i < j ==> Ancestor(g, id, i) != Some(t)
  {
    j := 0;
    while Ancestor(g, id, j) != Some(t)
      invariant j <= k && forall i: nat :: i < j ==> Ancestor(g, id, i) != Some(t)
      decreases k - j
    {
      j := j + 1;
    }
  }

  /** Chains that do meet the newly bound user go on up the chain of the referrer. */
  lemma ChainThrough(g: Links, t: Id, ref: Id, id: Id)
    requires t !in g && OnChain(g, id, t) && Stops(g[t := ref], ref)
    ensures Stops(g[t := ref], id)
  {
    var g' := g[t := ref];
    var k: nat :| Ancestor(g, id, k) == Some(t);
    var j := FirstMeeting(g, id, t, k);
    SameChain(g, g', t, id, j);
    var n: nat :| Ends(g', ref, n);
    assert Ancestor(g', id, j + 1) == Some(ref);
    FromAncestor(g', id, j + 1, n);
    FromAncestor(g', id, j + 1, n + 1);
    assert Ends(g', id, j + 1 + n);
  }

  /** Binding a user who has no referrer keeps the graph acyclic exactly when that user is not on
      the chain of the referrer, deleted users included. */
  lemma BindingKeepsAcyclicIff(g: Links, t: Id, ref: Id)
    requires Acyclic(g) && t !in g
    ensures Acyclic(g[t := ref]) <==> !OnChain(g, ref, t)
  {
    var g' := g[t := ref];
    assert Stops(g, ref);
    if OnChain(g, ref, t) {
      var k: nat :| Ancestor(g, ref, k) == Some(t);
      var j := FirstMeeting(g, ref, t, k);
      SameChain(g, g', t, ref, j);
      assert Ancestor(g', ref, j + 1) == Some(ref);
      if Acyclic(g') { NobodyAboveThemselves(g', ref, j + 1); }
    } else {
      ChainApart(g, t, ref, ref);
      forall id ensures Stops(g', id) {
        assert Stops(g, id);
        if OnChain(g, id, t) { ChainThrough(g, t, ref, id); } else { ChainApart(g, t, ref, id); }
      }
    }
  }

  // ----- onboarding

  ghost predicate Sound(users: Users) {
    Acyclic(All(users))
  }

  predicate NoneDeleted(users: Users) {
    forall id :: id in users ==> !users[id].deleted
  }

  /** A returning user is restored first; a referrer is bound once, and not after a top-up. */
  function Restored(users: Users, t: Id): Users {
    if t in users then users[t := users[t].(deleted := false)] else users
  }

  predicate MayBind(users: Users, t: Id, paid: bool) {
    t !in users || (users[t].referredBy == None && !paid)
  }

  ghost function Onboarded(users: Users, t: Id, ref: Option<Id>, paid: bool): Users {
    var u := Restored(users, t);
    var bind := if ref.Some? && MayBind(u, t, paid) && Acceptable(u, t, ref.value) then ref else None;
    if t !in u then u[t := User(false, bind)]
    else if bind.Some? then u[t := u[t].(referredBy := bind)]
    else u
  }

  /** The user is there and not deleted, and nobody else changed. */
  predicate OnlyJoined(users: Users, users': Users, t: Id) {
    && users'.Keys == users.Keys + {t} && !users'[t].deleted
    && forall id :: id in users && id != t ==> users'[id] == users[id]
  }

  /** The referrer a user has afterwards: the old one if there is one; else, unless a known user has
      topped up before, the one of the link if the walk accepts it with the user back in. */
  ghost function BoundTo(users: Users, t: Id, ref: Option<Id>, paid: bool): Option<Id> {
    if t in users && users[t].referredBy.Some? then users[t].referredBy
    else if t in users && paid then None
    else if ref.None? then None
    else
      var back := if t in users then users[t := User(false, None)] else users;
      if Acceptable(back, t, ref.value) then ref else None
  }

  lemma JoinedIs(users: Users, t: Id, ref: Option<Id>, paid: bool)
    ensures var users' := Onboarded(users, t, ref, paid);
            OnlyJoined(users, users', t) && users'[t].referredBy == BoundTo(users, t, ref, paid)
  {
    if t in users && users[t].referredBy.None? { assert Restored(users, t) == users[t := User(false, None)]; }
    hide Acceptable;
  }

  class Registry {
    var users: Users

    constructor ()
      ensures users == map[]
    {
      users := map[];
    }

    method ProcessOnboarding(t: Id, ref: Option<Id>, paid: bool)
      modifies this
      ensures users == Onboarded(old(users), t, ref, paid)
      ensures OnlyJoined(old(users), users, t) && users[t].referredBy == BoundTo(old(users), t, ref, paid)
    {
      JoinedIs(users, t, ref, paid);
      if t in users {
        users := users[t := users[t].(deleted := false)];
        if ref.Some? && users[t].referredBy == None {
          if !paid {
            var ok := ValidateReferral(users, t, ref.value);
            if ok {
              users := users[t := users[t].(referredBy := ref)];
            }
          }
        }
        return;
      }
      var referredBy: Option<Id> := None;
      if ref.Some? {
        var ok := ValidateReferral(users, t, ref.value);
        if ok {
          referredBy := ref;
        }
      }
      users := users[t := User(false, referredBy)];
    }
  }

  /** Binding is acyclic as long as the chain above the referrer holds no soft-deleted user. */
  lemma OnboardingKeepsSound(users: Users, t: Id, ref: Option<Id>, paid: bool)
    requires Sound(users) && NoneDeleted(users)
    ensures Sound(Onboarded(users, t, ref, paid)) && NoneDeleted(Onboarded(users, t, ref, paid))
  {
    var users' := Onboarded(users, t, ref, paid);
    assert Restored(users, t) == users;
    assert Seen(users) == All(users);
    if ref.Some? && MayBind(users, t, paid) && Acceptable(users, t, ref.value) {
      assert All(users') == All(users)[t := ref.value];
      BindingKeepsAcyclicIff(All(users), t, ref.value);
    } else {
      assert All(users') == All(users);
    }
  }

  // ----- runs

  /** Nothing in the code marks a user as deleted, but lookups heed the mark and onboarding takes it off. */
  datatype Event = Onboarding(user: Id, ref: Option<Id>, paid: bool) | SoftDeletion(user: Id)

  ghost function Step(users: Users, ev: Event): Users {
    match ev
    case Onboarding(t, ref, paid) => Onboarded(users, t, ref, paid)
    case SoftDeletion(t) => if t in users then users[t := users[t].(deleted := true)] else users
  }

  ghost function Run(evs: seq<Event>): Users {
    if evs == [] then map[] else Step(Run(evs[..|evs| - 1]), evs[|evs| - 1])
  }

  ghost predicate Binds(users: Users, ev: Event) {
    && ev.Onboarding? && ev.ref.Some?
    && MayBind(Restored(users, ev.user), ev.user, ev.paid)
    && Acceptable(Restored(users, ev.user), ev.user, ev.ref.value)
  }

  /** A user who is bound is not on the referrer's chain, deleted users included. */
  ghost predicate OffChain(users: Users, ev: Event) {
    Binds(users, ev) ==> !OnChain(All(users), ev.ref.value, ev.user)
  }

  lemma StepLinks(users: Users, ev: Event)
    ensures All(Step(users, ev)) == if Binds(users, ev) then All(users)[ev.user := ev.ref.value] else All(users)
    ensures Binds(users, ev) ==> ev.user !in All(users)
  {
    hide Acceptable;
  }

  /** An event keeps the graph acyclic exactly when it binds nobody who is on the referrer's chain. */
  lemma StepKeepsSoundIff(users: Users, ev: Event)
    requires Sound(users)
    ensures Sound(Step(users, ev)) <==> OffChain(users, ev)
  {
    StepLinks(users, ev);
    hide Step, Acceptable, Acyclic, All, OnChain;
    if Binds(users, ev) { BindingKeepsAcyclicIff(All(users), ev.user, ev.ref.value); }
  }

  ghost predicate AlwaysSound(evs: seq<Event>) {
    forall n :: 0 <= n <= |evs| ==> Sound(Run(evs[..n]))
  }

  ghost predicate AlwaysOffChain(evs: seq<Event>) {
    forall n :: 0 <= n < |evs| ==> OffChain(Run(evs[..n]), evs[n])
  }

  lemma Prefixes(evs: seq<Event>)
    requires evs != []
    ensures var pre := evs[..|evs| - 1];
            && (AlwaysSound(evs) <==> AlwaysSound(pre) && Sound(Run(evs)))
            && (AlwaysOffChain(evs) <==> AlwaysOffChain(pre) && OffChain(Run(pre), evs[|evs| - 1]))
            && (AlwaysSound(pre) ==> Sound(Run(pre)))
  {
    hide Sound, OffChain, Run;
    var pre := evs[..|evs| - 1];
    assert evs[..|evs|] == evs && pre[..|pre|] == pre;
    assert forall n :: 0 <= n <= |pre| ==> pre[..n] == evs[..n];
  }

  /** On every run of onboardings and soft deletions: the graph is acyclic throughout if and only if
      nobody was ever bound who stood on the referrer's chain. */
  lemma {:induction false} NeverACycleIff(evs: seq<Event>)
    ensures AlwaysSound(evs) <==> AlwaysOffChain(evs)
  {
    if evs == [] {
      NoUsers();
    } else {
      var pre, ev := evs[..|evs| - 1], evs[|evs| - 1];
      NeverACycleIff(pre);
      Prefixes(evs);
      hide Sound, OffChain, Step, AlwaysSound, AlwaysOffChain;
      if Sound(Run(pre)) { StepKeepsSoundIff(Run(pre), ev); }
    }
  }

  lemma NoUsers()
    ensures Sound(Run([])) && NoneDeleted(Run([]))
  {
    forall x ensures Stops(All(map[]), x) { assert Ends(All(map[]), x, 0); }
  }

  /** On every run of onboardings without soft deletion nobody is ever above themselves. */
  lemma {:induction false} NeverACycle(evs: seq<Event>, id: Id, k: nat)
    requires k > 0 && forall i :: 0 <= i < |evs| ==> evs[i].Onboarding?
    ensures Sound(Run(evs)) && NoneDeleted(Run(evs)) && Ancestor(All(Run(evs)), id, k) != Some(id)
  {
    if evs == [] {
      NoUsers();
    } else {
      var e := evs[|evs| - 1];
      NeverACycle(evs[..|evs| - 1], id, k);
      OnboardingKeepsSound(Run(evs[..|evs| - 1]), e.user, e.ref, e.paid);
    }
    NobodyAboveThemselves(All(Run(evs)), id, k);
  }

  // ----- a deleted user hides a cycle

  const ONE: Users := map[1 := User(false, None)]
  const TWO: Users := map[1 := User(false, None), 2 := User(false, Some(1))]
  const THREE: Users := map[1 := User(false, None), 2 := User(false, Some(1)), 3 := User(false, Some(2))]
  const HIDDEN: Users := map[1 := User(false, None), 2 := User(true, Some(1)), 3 := User(false, Some(2))]

  /** 2 was referred by 1 and 3 by 2; 2 is deleted, and 1 comes back through a link of 3. */
  const CYCLE_RUN: seq<Event> := [
    Onboarding(1, None, false), Onboarding(2, Some(1), false), Onboarding(3, Some(2), false),
    SoftDeletion(2), Onboarding(1, Some(3), false)]

  lemma RunAt(evs: seq<Event>, k: nat)
    requires k < |evs|
    ensures Run(evs[..k + 1]) == Step(Run(evs[..k]), evs[k])
  {
    assert evs[..k + 1][..k] == evs[..k];
  }

  lemma FirstLink()
    ensures Step(ONE, Onboarding(2, Some(1), false)) == TWO
  {
    var g := Seen(ONE);
    assert Ancestor(g, 1, 0) == Some(1) && Ends(g, 1, 0);
    forall k: nat ensures Ancestor(g, 1, k) != Some(2) {
      if k >= 1 && Ancestor(g, 1, k).Some? { Onward(g, 1, 1, k); }
    }
    assert Acceptable(ONE, 2, 1);
  }

  lemma SecondLink()
    ensures Step(TWO, Onboarding(3, Some(2), false)) == THREE
  {
    var g := Seen(TWO);
    assert Ancestor(g, 2, 0) == Some(2);
    assert Ancestor(g, 2, 1) == Some(1);
    assert Ends(g, 2, 1);
    forall k: nat ensures Ancestor(g, 2, k) != Some(3) {
      if k >= 2 && Ancestor(g, 2, k).Some? { Onward(g, 2, 2, k); }
    }
    assert Acceptable(TWO, 3, 2);
  }

  lemma HiddenRun()
    ensures Run(CYCLE_RUN[..4]) == HIDDEN && Run(CYCLE_RUN) == Step(HIDDEN, Onboarding(1, Some(3), false))
  {
    RunAt(CYCLE_RUN, 0);
    RunAt(CYCLE_RUN, 1);
    RunAt(CYCLE_RUN, 2);
    RunAt(CYCLE_RUN, 3);
    RunAt(CYCLE_RUN, 4);
    FirstAndFourth();
    hide Run, Step, ONE, TWO, THREE, HIDDEN;
    FirstLink();
    SecondLink();
    assert CYCLE_RUN[..5] == CYCLE_RUN;
  }

  lemma FirstAndFourth()
    ensures Step(Run(CYCLE_RUN[..0]), Onboarding(1, None, false)) == ONE && Step(THREE, SoftDeletion(2)) == HIDDEN
  {
    assert CYCLE_RUN[..0] == [];
    hide Acceptable;
  }

  lemma HiddenChain()
    ensures Acceptable(HIDDEN, 1, 3) && Ancestor(All(HIDDEN), 3, 2) == Some(1)
  {
    var g := Seen(HIDDEN);
    assert Ancestor(g, 3, 0) == Some(3);
    assert Ancestor(g, 3, 1) == Some(2);
    assert Ancestor(g, 3, 2) == None;
    assert Ends(g, 3, 1);
    forall k: nat ensures Ancestor(g, 3, k) != Some(1) {
      if k >= 2 && Ancestor(g, 3, k).Some? { Onward(g, 3, 2, k); }
    }
    var h := All(HIDDEN);
    assert Ancestor(h, 3, 0) == Some(3);
    assert Ancestor(h, 3, 1) == Some(2);
  }

  /** The rest of a chain is hidden behind a soft-deleted user: on this run 1 is accepted under 3 and
      stands above themselves from then on. */
  lemma DeletedUserHidesACycle()
    ensures Binds(Run(CYCLE_RUN[..4]), CYCLE_RUN[4]) && !OffChain(Run(CYCLE_RUN[..4]), CYCLE_RUN[4])
    ensures Ancestor(All(Run(CYCLE_RUN)), 1, 3) == Some(1) && !Sound(Run(CYCLE_RUN))
  {
    HiddenRun();
    HiddenChain();
    assert Restored(HIDDEN, 1) == HIDDEN;
    var ev := Onboarding(1, Some(3), false);
    assert Binds(HIDDEN, ev);
    StepLinks(HIDDEN, ev);
    var h := All(Step(HIDDEN, ev));
    hide Step, Run, Binds;
    assert Ancestor(h, 1, 1) == Some(3);
    assert Ancestor(h, 1, 2) == Some(2);
    assert Ancestor(h, 1, 3) == Some(1);
    if Acyclic(h) { NobodyAboveThemselves(h, 1, 3); }
  }
}
