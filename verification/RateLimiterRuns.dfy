/** Harmful evictions on runs: every run that meets one can be continued until it shows, and every
    limiter that ever grants anything has such a run. */
module RateLimiterRuns {
  import opened RateLimiter
  import opened RateLimiterTheorems

  // ----- a harmful eviction shows on its run

  lemma {:induction false} RunOn(c: Limits, pre: seq<Request>, more: seq<Request>)
    requires Sane(c)
    ensures Run(c, EMPTY, pre + more) == Run(c, Run(c, EMPTY, pre), more)
    ensures PlainRun(c, map[], pre + more) == PlainRun(c, PlainRun(c, map[], pre), more)
  {
    hide Serve, PlainServe;
    if more == [] {
      assert pre + more == pre;
    } else {
      RunOn(c, pre, more[..|more| - 1]);
      assert (pre + more)[..|pre + more| - 1] == pre + more[..|more| - 1];
    }
  }

  /** Some answer of the run differs from the plain table's. */
  ghost predicate Shows(c: Limits, reqs: seq<Request>)
    requires Sane(c)
  {
    exists i :: 0 <= i < |reqs| && AnswerAt(c, EMPTY, reqs, i) != PlainAnswerAt(c, map[], reqs, i)
  }

  ghost predicate HarmlessAt(c: Limits, reqs: seq<Request>, j: nat)
    requires Sane(c) && j < |reqs|
  {
    Harmless(c, Run(c, EMPTY, reqs[..j]), reqs[j].key, reqs[j].now)
  }

  lemma MonotoneMore(reqs: seq<Request>, k: Key, now: real, n: nat)
    requires Monotone(reqs) && reqs != [] && reqs[|reqs| - 1].now == now
    ensures Monotone(reqs + Repeat(k, now, n))
  {
    forall m: nat | m < n ensures |Repeat(k, now, n)| == n && Repeat(k, now, n)[m] == Request(k, now) {
      RepeatIs(k, now, n, m);
    }
    RepeatIs(k, now, n, n);
  }

  /** After the first harmful eviction of a run, asking for its victim a bucketful of times at once
      gets an answer the plain table would not give. */
  lemma HarmShowsOnItsRun(c: Limits, reqs: seq<Request>) returns (more: seq<Request>)
    requires Sane(c) && Monotone(reqs) && reqs != []
    requires forall j: nat :: j < |reqs| - 1 ==> HarmlessAt(c, reqs, j)
    requires !HarmlessAt(c, reqs, |reqs| - 1)
    ensures Monotone(reqs + more) && Shows(c, reqs + more)
  {
    var j := |reqs| - 1;
    var r := reqs[j];
    var t, plain := Run(c, EMPTY, reqs[..j]), PlainRun(c, map[], reqs[..j]);
    StateBefore(c, reqs);
    hide Harmless, Agree, TableOk, Past, Serve, PlainServe;
    var v, n := Tidied(c, t, r.key, r.now).order[0], c.burst - 1;
    HarmfulEvictionShows(c, t, plain, r.key, r.now);
    more := Repeat(v, r.now, c.burst);
    MonotoneMore(reqs, v, r.now, c.burst);
    LastAnswer(c, reqs, more, n);
    assert AnswerAt(c, EMPTY, reqs + more, |reqs| + n) != PlainAnswerAt(c, map[], reqs + more, |reqs| + n);
  }

  lemma StateBefore(c: Limits, reqs: seq<Request>)
    requires Sane(c) && Monotone(reqs) && reqs != []
    requires forall j: nat :: j < |reqs| - 1 ==> HarmlessAt(c, reqs, j)
    ensures var j := |reqs| - 1; var t := Run(c, EMPTY, reqs[..j]);
            TableOk(c, t) && Past(t, reqs[j].now) && Agree(c, t, PlainRun(c, map[], reqs[..j]), reqs[j].now)
  {
    var j := |reqs| - 1;
    RunOk(c, reqs, j);
    hide Harmless, Agree, TableOk, Past, Run, PlainRun;
    forall i | 0 <= i < j ensures Harmless(c, Run(c, EMPTY, reqs[..i]), reqs[i].key, reqs[i].now) {
      assert HarmlessAt(c, reqs, i);
    }
    RunAgrees(c, reqs, j);
    LaterAgrees(c, Run(c, EMPTY, reqs[..j]), PlainRun(c, map[], reqs[..j]),
                if j == 0 then reqs[0].now else reqs[j - 1].now, reqs[j].now);
  }

  lemma LastAnswer(c: Limits, reqs: seq<Request>, more: seq<Request>, n: nat)
    requires Sane(c) && reqs != [] && n < |more|
    ensures var pre, r := reqs[..|reqs| - 1], reqs[|reqs| - 1];
            && AnswerAt(c, EMPTY, reqs + more, |reqs| + n)
               == AnswerAt(c, Serve(c, Run(c, EMPTY, pre), r.key, r.now).0, more, n)
            && PlainAnswerAt(c, map[], reqs + more, |reqs| + n)
               == PlainAnswerAt(c, PlainServe(c, PlainRun(c, map[], pre), r.key, r.now).0, more, n)
  {
    hide Serve, PlainServe;
    assert (reqs + more)[..|reqs| + n] == reqs + more[..n];
    RunOn(c, reqs, more[..n]);
  }

  // ----- every limiter can be made to evict harmfully

  function Name(i: nat): Key {
    seq(i, _ => 'k')
  }

  /** As many clients at once, each asking for the first time. */
  function Crowd(n: nat): seq<Request> {
    if n == 0 then [] else Crowd(n - 1) + [Request(Name(n - 1), 0.0)]
  }

  lemma {:induction false} CrowdIs(n: nat, m: nat)
    requires m <= n
    ensures |Crowd(n)| == n && Crowd(n)[..m] == Crowd(m) && (m < n ==> Crowd(n)[m] == Request(Name(m), 0.0))
    ensures Monotone(Crowd(n))
  {
    var all := Crowd(n);
    if n > 0 {
      CrowdIs(n - 1, if m < n then m else n - 1);
      if m < n { assert all[..m] == Crowd(n - 1)[..m]; } else { assert all[..m] == all; }
      AllAtZero(n);
    }
  }

  lemma {:induction false} AllAtZero(n: nat)
    ensures forall i :: 0 <= i < |Crowd(n)| ==> Crowd(n)[i].now == 0.0
  {
    if n > 0 { AllAtZero(n - 1); }
  }

  /** Each of the first `n` clients has drawn one token. */
  predicate Drawn(c: Limits, t: Table, n: nat) {
    && |t.order| == n && t.lastCleanup == 0.0
    && (forall i :: 0 <= i < n ==> t.order[i] == Name(i) && t.order[i] in t.buckets)
    && (forall k :: k in t.buckets ==> k in t.order && t.buckets[k] == Bucket(Capacity(c) - 1.0, 0.0))
  }

  lemma NewName(c: Limits, t: Table, n: nat)
    requires Drawn(c, t, n)
    ensures Name(n) !in t.buckets && Name(n) !in t.order
  {
    forall i | 0 <= i < n ensures t.order[i] != Name(n) { assert |Name(i)| == i; }
  }

  lemma {:induction false} WithoutStranger(order: seq<Key>, k: Key)
    requires k !in order
    ensures Without(order, {k}) == order
  {
    if order != [] { WithoutStranger(order[..|order| - 1], k); }
  }

  lemma DrawnNext(c: Limits, t: Table, n: nat)
    requires Sane(c) && c.burst >= 1 && n < c.maxEntries && Drawn(c, t, n)
    ensures Harmless(c, t, Name(n), 0.0) && Drawn(c, Serve(c, t, Name(n), 0.0).0, n + 1)
  {
    NewName(c, t, n);
    var t' := Serve(c, t, Name(n), 0.0).0;
    assert t' == Put(t, Name(n), Bucket(Capacity(c) - 1.0, 0.0)) by { assert Flow(c, 0.0) == 0.0; }
    hide Serve, Flow, Name;
    WithoutStranger(t.order, Name(n));
    PutDrawn(c, t, n);
  }

  lemma PutDrawn(c: Limits, t: Table, n: nat)
    requires Drawn(c, t, n) && Without(t.order, {Name(n)}) == t.order && Name(n) !in t.buckets
    ensures Drawn(c, Put(t, Name(n), Bucket(Capacity(c) - 1.0, 0.0)), n + 1)
  {
    hide Without, Name;
  }

  lemma {:induction false} CrowdDrawn(c: Limits, n: nat)
    requires Sane(c) && c.burst >= 1 && n <= c.maxEntries
    ensures Drawn(c, Run(c, EMPTY, Crowd(n)), n)
  {
    if n == 0 {
      NobodyDrawn(c);
    } else {
      hide Serve, Drawn, Run, Harmless;
      CrowdDrawn(c, n - 1);
      DrawnNext(c, Run(c, EMPTY, Crowd(n - 1)), n - 1);
      OneMore(c, Crowd(n - 1), Request(Name(n - 1), 0.0));
    }
  }

  lemma NobodyDrawn(c: Limits)
    requires Sane(c)
    ensures Drawn(c, Run(c, EMPTY, Crowd(0)), 0)
  {
  }

  lemma OneMore(c: Limits, pre: seq<Request>, r: Request)
    requires Sane(c)
    ensures Run(c, EMPTY, pre + [r]) == Serve(c, Run(c, EMPTY, pre), r.key, r.now).0
  {
    hide Serve;
    assert (pre + [r])[..|pre|] == pre;
  }

  lemma CrowdHarmless(c: Limits, j: nat)
    requires Sane(c) && c.burst >= 1 && j <= c.maxEntries
    ensures |Crowd(c.maxEntries + 1)| == c.maxEntries + 1
    ensures HarmlessAt(c, Crowd(c.maxEntries + 1), j) <==> j < c.maxEntries
  {
    AtCrowd(c, j);
    hide *;
    CrowdDrawn(c, j);
    if j < c.maxEntries { DrawnNext(c, Run(c, EMPTY, Crowd(j)), j); } else { OneTooMany(c, Run(c, EMPTY, Crowd(j))); }
  }

  lemma AtCrowd(c: Limits, j: nat)
    requires Sane(c) && j <= c.maxEntries
    ensures |Crowd(c.maxEntries + 1)| == c.maxEntries + 1
    ensures HarmlessAt(c, Crowd(c.maxEntries + 1), j) <==> Harmless(c, Run(c, EMPTY, Crowd(j)), Name(j), 0.0)
  {
    hide Harmless, Run, Crowd, Name;
    CrowdIs(c.maxEntries + 1, j);
  }

  lemma OneTooMany(c: Limits, t: Table)
    requires Sane(c) && c.burst >= 1 && Drawn(c, t, c.maxEntries)
    ensures !Harmless(c, t, Name(c.maxEntries), 0.0)
  {
    NewName(c, t, c.maxEntries);
    assert t.order[0] in t.buckets;
    assert Flow(c, 0.0) == 0.0;
  }

  // ----- when the bound on the table is unobservable

  lemma EmptyBucketsAreFull(c: Limits, t: Table, key: Key, now: real)
    requires Sane(c) && c.burst == 0 && TableOk(c, t)
    ensures Harmless(c, t, key, now)
  {
    TidiedLevels(c, t, key, now, key);
    var t1 := Tidied(c, t, key, now);
    if t1.order != [] && t1.order[0] in t1.buckets { LevelBounds(c, t1.buckets[t1.order[0]], now); }
  }

  lemma NothingGrantedNothingShows(c: Limits, reqs: seq<Request>)
    requires Sane(c) && c.burst == 0 && Monotone(reqs)
    ensures !Shows(c, reqs)
  {
    hide TableOk, Harmless;
    forall j | 0 <= j < |reqs| ensures Harmless(c, Run(c, EMPTY, reqs[..j]), reqs[j].key, reqs[j].now) {
      RunKeepsBounds(c, reqs[..j]);
      EmptyBucketsAreFull(c, Run(c, EMPTY, reqs[..j]), reqs[j].key, reqs[j].now);
    }
    forall i | 0 <= i < |reqs| ensures AnswerAt(c, EMPTY, reqs, i) == PlainAnswerAt(c, map[], reqs, i) {
      PruningIsUnobservable(c, reqs, i);
    }
  }

  /** Every limiter that ever grants anything has a run on which its bound shows: one client more
      than the table has room for, then the first one again. */
  lemma CrowdShows(c: Limits) returns (more: seq<Request>)
    requires Sane(c) && c.burst >= 1
    ensures var reqs := Crowd(c.maxEntries + 1) + more; Monotone(reqs) && Shows(c, reqs)
  {
    var reqs := Crowd(c.maxEntries + 1);
    CrowdIs(c.maxEntries + 1, c.maxEntries + 1);
    forall j: nat | j < |reqs| ensures HarmlessAt(c, reqs, j) <==> j < c.maxEntries { CrowdHarmless(c, j); }
    hide HarmlessAt, Crowd;
    more := HarmShowsOnItsRun(c, reqs);
  }

  /** The bounded table gives the plain one's answers on every run with a clock that never goes
      back exactly when it never grants anything. */
  lemma BoundUnobservableIff(c: Limits)
    requires Sane(c)
    ensures (forall reqs :: Monotone(reqs) ==> !Shows(c, reqs)) <==> c.burst == 0
  {
    hide Shows, Crowd, Monotone;
    if c.burst == 0 {
      forall reqs | Monotone(reqs) ensures !Shows(c, reqs) { NothingGrantedNothingShows(c, reqs); }
    } else {
      var more := CrowdShows(c);
    }
  }

  // ----- who stays in a full table

  /** Refilled to the brim and not asked for in two minutes. */
  predicate LongIdle(c: Limits, b: Bucket, now: real) {
    b.tokens + (if now < b.last then 0.0 else now - b.last) * c.rate >= c.burst as real && now - b.last > 120.0
  }

  predicate SomeoneIdle(c: Limits, t: Table, now: real) {
    exists k :: k in t.buckets && LongIdle(c, t.buckets[k], now)
  }

  /** A new key finds no room. */
  predicate NoRoom(c: Limits, t: Table, key: Key) {
    key !in t.buckets && |t.order| >= c.maxEntries
  }

  /** The table has no room and was last cleaned up half a minute ago or more. */
  predicate CleanupDue(c: Limits, t: Table, key: Key, now: real) {
    NoRoom(c, t, key) && now - t.lastCleanup >= 30.0
  }

  lemma {:induction false} WithoutSome(order: seq<Key>, gone: set<Key>)
    ensures |Without(order, gone)| <= |order|
    ensures (exists k :: k in order && k in gone) ==> |Without(order, gone)| < |order|
  {
    if order != [] { WithoutSome(order[..|order| - 1], gone); }
  }

  lemma {:induction false} WithoutNobody(order: seq<Key>, gone: set<Key>)
    requires forall k :: k in order ==> k !in gone
    ensures Without(order, gone) == order
  {
    if order != [] { WithoutNobody(order[..|order| - 1], gone); }
  }

  lemma StaleIsLongIdle(c: Limits, t: Table, now: real)
    ensures forall k :: k in StaleKeys(c, t, now) <==> k in t.buckets && LongIdle(c, t.buckets[k], now)
  {
  }

  /** A request of another key takes `k` out of the table only when there is no room: in a cleanup that
      is due, everyone long idle; and if that makes no room, the one at the front. */
  lemma WhoStays(c: Limits, t: Table, key: Key, now: real, k: Key)
    requires Sane(c) && TableOk(c, t) && k in t.buckets && k != key
    ensures var t' := Serve(c, t, key, now).0; var due := CleanupDue(c, t, key, now);
            && t.order != [] && t'.lastCleanup == (if due then now else t.lastCleanup)
            && (k in t'.buckets ==> t'.buckets[k] == t.buckets[k])
            && (k in t'.buckets <==>
                  if due && SomeoneIdle(c, t, now) then !LongIdle(c, t.buckets[k], now)
                  else NoRoom(c, t, key) ==> k != t.order[0])
  {
    ServedAfterRoom(c, t, key, now, k);
    StaleIsLongIdle(c, t, now);
    var gone := StaleKeys(c, t, now);
    WithoutSome(t.order, gone);
    if !SomeoneIdle(c, t, now) { WithoutNobody(t.order, gone); }
    hide Serve, LongIdle, Stale, StaleKeys, Without;
    RoomMade(c, t, key, now, k);
  }

  /** Drawing touches no other key. */
  lemma ServedAfterRoom(c: Limits, t: Table, key: Key, now: real, k: Key)
    requires Sane(c) && k != key
    ensures var t', t1 := Serve(c, t, key, now).0, MakeRoom(c, t, key, now);
            && t'.lastCleanup == t1.lastCleanup && (k in t'.buckets <==> k in t1.buckets)
            && (k in t'.buckets ==> t'.buckets[k] == t1.buckets[k])
  {
    hide MakeRoom;
  }

  lemma RoomMade(c: Limits, t: Table, key: Key, now: real, k: Key)
    requires Sane(c) && TableOk(c, t) && k in t.buckets && k != key
    requires forall x :: x in StaleKeys(c, t, now) <==> x in t.buckets && LongIdle(c, t.buckets[x], now)
    requires var rest := Without(t.order, StaleKeys(c, t, now));
             if SomeoneIdle(c, t, now) then |rest| < |t.order| else rest == t.order
    ensures var t1 := MakeRoom(c, t, key, now); var due := CleanupDue(c, t, key, now);
            && t.order != [] && t1.lastCleanup == (if due then now else t.lastCleanup)
            && (k in t1.buckets ==> t1.buckets[k] == t.buckets[k])
            && (k in t1.buckets <==>
                  if due && SomeoneIdle(c, t, now) then !LongIdle(c, t.buckets[k], now)
                  else NoRoom(c, t, key) ==> k != t.order[0])
  {
    assert k in t.order;
    if SomeoneIdle(c, t, now) {
      assert CleanupDue(c, t, key, now) ==> Tidied(c, t, key, now).buckets == t.buckets - StaleKeys(c, t, now);
    } else {
      assert forall x :: x in t.buckets ==> x !in StaleKeys(c, t, now);
    }
    hide StaleKeys, LongIdle, Without;
  }
}
