/** What holds of every sequence of requests to the limiter, for times that never go back. */
module RateLimiterTheorems {
  import opened RateLimiter

  datatype Request = Request(key: Key, now: real)

  function Run(c: Limits, t: Table, reqs: seq<Request>): Table
    requires Sane(c)
  {
    if reqs == [] then t
    else
      var r := reqs[|reqs| - 1];
      Serve(c, Run(c, t, reqs[..|reqs| - 1]), r.key, r.now).0
  }

  function PlainRun(c: Limits, buckets: map<Key, Bucket>, reqs: seq<Request>): map<Key, Bucket>
    requires Sane(c)
  {
    if reqs == [] then buckets
    else
      var r := reqs[|reqs| - 1];
      PlainServe(c, PlainRun(c, buckets, reqs[..|reqs| - 1]), r.key, r.now).0
  }

  /** The answer to request `i`. */
  function AnswerAt(c: Limits, t: Table, reqs: seq<Request>, i: nat): Answer
    requires Sane(c) && i < |reqs|
  {
    Serve(c, Run(c, t, reqs[..i]), reqs[i].key, reqs[i].now).1
  }

  function PlainAnswerAt(c: Limits, buckets: map<Key, Bucket>, reqs: seq<Request>, i: nat): Answer
    requires Sane(c) && i < |reqs|
  {
    PlainServe(c, PlainRun(c, buckets, reqs[..i]), reqs[i].key, reqs[i].now).1
  }

  predicate Monotone(reqs: seq<Request>) {
    forall i, j :: 0 <= i <= j < |reqs| ==> reqs[i].now <= reqs[j].now
  }

  // ----- levels

  predicate Full(c: Limits, b: Bucket, now: real) {
    Level(c, b, now) >= Capacity(c)
  }

  /** What key `k` can draw on at time `now`; a key that is not in the table has a full bucket. */
  function LevelOf(c: Limits, t: Table, k: Key, now: real): real {
    Level(c, BucketOf(c, t.buckets, k, now), now)
  }

  /** Refilling: the level later follows from the level now. */
  lemma Refill(c: Limits, b: Bucket, now: real, later: real)
    requires Sane(c) && b.last <= now <= later
    ensures Level(c, b, later) == Min(Capacity(c), Level(c, b, now) + Flow(c, later - now))
    ensures Level(c, b, now) <= Level(c, b, later)
  {
    FlowAdds(c, now - b.last, later - now);
    assert now - b.last + (later - now) == later - b.last;
    FlowOrder(c, 0.0, later - now);
  }

  /** No bucket was touched after `now`. */
  predicate Past(t: Table, now: real) {
    forall k :: k in t.buckets ==> t.buckets[k].last <= now
  }

  lemma FullLevel(c: Limits, now: real)
    requires Sane(c)
    ensures Level(c, Bucket(Capacity(c), now), now) == Capacity(c)
  {
    FlowOrder(c, 0.0, 0.0);
  }

  lemma RefillOf(c: Limits, t: Table, k: Key, now: real, later: real)
    requires Sane(c) && TableOk(c, t) && Past(t, now) && now <= later
    ensures LevelOf(c, t, k, later) == Min(Capacity(c), LevelOf(c, t, k, now) + Flow(c, later - now))
    ensures LevelOf(c, t, k, now) <= LevelOf(c, t, k, later)
  {
    hide Flow;
    FlowOrder(c, 0.0, later - now);
    if k in t.buckets {
      Refill(c, t.buckets[k], now, later);
    } else {
      FullLevel(c, now);
      FullLevel(c, later);
    }
  }

  /** The key thrown out to make room for this request, if it had to be, was full anyway. */
  predicate HarmlessFor(c: Limits, t: Table, key: Key, now: real, k: Key) {
    var t1 := Tidied(c, t, key, now);
    MustEvict(c, t, key, now) && t1.order != [] && t1.order[0] == k && k in t1.buckets ==> Full(c, t1.buckets[k], now)
  }

  lemma TidiedLevels(c: Limits, t: Table, key: Key, now: real, k: Key)
    requires Sane(c) && TableOk(c, t)
    ensures LevelOf(c, Tidied(c, t, key, now), k, now) == LevelOf(c, t, k, now)
    ensures TableOk(c, Tidied(c, t, key, now))
  {
    WithoutIs(t.order, StaleKeys(c, t, now));
    if k in t.buckets { LevelBounds(c, t.buckets[k], now); }
  }

  /** Making room changes no level, except that an evicted key starts afresh. */
  lemma MakeRoomLevels(c: Limits, t: Table, key: Key, now: real, k: Key)
    requires Sane(c) && TableOk(c, t)
    ensures LevelOf(c, MakeRoom(c, t, key, now), k, now) >= LevelOf(c, t, k, now)
    ensures HarmlessFor(c, t, key, now, k) ==> LevelOf(c, MakeRoom(c, t, key, now), k, now) == LevelOf(c, t, k, now)
  {
    TidiedLevels(c, t, key, now, k);
    var t1 := Tidied(c, t, key, now);
    if k in t1.buckets { LevelBounds(c, t1.buckets[k], now); }
    hide Tidied, TableOk, BucketOk, Flow;
  }

  lemma MakeRoomPast(c: Limits, t: Table, key: Key, now: real)
    requires Sane(c) && TableOk(c, t) && Past(t, now)
    ensures Past(MakeRoom(c, t, key, now), now)
  {
    WithoutIs(t.order, StaleKeys(c, t, now));
  }

  /** A request takes one token from its own key when it is granted and nothing from any other. */
  lemma DrawLevels(c: Limits, t: Table, key: Key, now: real, k: Key)
    requires Sane(c) && TableOk(c, t) && Past(t, now)
    ensures var (t', a) := Draw(c, t, key, now);
            && Past(t', now)
            && LevelOf(c, t', k, now) == LevelOf(c, t, k, now) - (if k == key && a.allowed then 1.0 else 0.0)
            && (k == key ==> (a.allowed <==> LevelOf(c, t, k, now) >= 1.0))
  {
    LevelBounds(c, BucketOf(c, t.buckets, key, now), now);
  }

  /** One request, seen from key `k`. */
  lemma ServeLevels(c: Limits, t: Table, key: Key, now: real, k: Key)
    requires Sane(c) && TableOk(c, t) && Past(t, now)
    ensures var (t', a) := Serve(c, t, key, now);
            && TableOk(c, t') && Past(t', now)
            && LevelOf(c, t', k, now) >= LevelOf(c, t, k, now) - (if k == key && a.allowed then 1.0 else 0.0)
            && (HarmlessFor(c, t, key, now, k) ==>
                 LevelOf(c, t', k, now) == LevelOf(c, t, k, now) - (if k == key && a.allowed then 1.0 else 0.0))
            && (k == key ==> (a.allowed <==> LevelOf(c, t, k, now) >= 1.0))
  {
    var t1 := MakeRoom(c, t, key, now);
    MakeRoomKeeps(c, t, key, now);
    MakeRoomLevels(c, t, key, now, k);
    MakeRoomPast(c, t, key, now);
    DrawLevels(c, t1, key, now, k);
    ServeKeeps(c, t, key, now);
    if k == key { OwnLevelKept(c, t, key, now); }
  }

  /** A request never evicts its own key. */
  lemma OwnLevelKept(c: Limits, t: Table, key: Key, now: real)
    requires Sane(c) && TableOk(c, t)
    ensures LevelOf(c, MakeRoom(c, t, key, now), key, now) == LevelOf(c, t, key, now)
  {
    TidiedLevels(c, t, key, now, key);
    MakeRoomKeeps(c, t, key, now);
  }

  // ----- pruning is unobservable

  /** The bounded table agrees with the plain one on the keys it still has; the others are full. */
  ghost predicate Agree(c: Limits, t: Table, plain: map<Key, Bucket>, now: real) {
    && (forall k :: k in t.buckets ==> k in plain && plain[k] == t.buckets[k])
    && (forall k :: k in plain ==>
          plain[k].last <= now && BucketOk(c, plain[k]) && (k in t.buckets || Full(c, plain[k], now)))
  }

  predicate Harmless(c: Limits, t: Table, key: Key, now: real) {
    var t1 := Tidied(c, t, key, now);
    MustEvict(c, t, key, now) && t1.order != [] && t1.order[0] in t1.buckets ==> Full(c, t1.buckets[t1.order[0]], now)
  }

  lemma NothingAgrees(c: Limits, now: real)
    ensures Agree(c, EMPTY, map[], now) && TableOk(c, EMPTY)
  {
  }

  lemma LaterAgrees(c: Limits, t: Table, plain: map<Key, Bucket>, before: real, now: real)
    requires Sane(c) && Agree(c, t, plain, before) && before <= now
    ensures Agree(c, t, plain, now)
  {
    hide Level, Flow;
    forall k | k in plain ensures Level(c, plain[k], before) <= Level(c, plain[k], now) {
      Refill(c, plain[k], before, now);
    }
  }

  lemma TidiedAgrees(c: Limits, t: Table, plain: map<Key, Bucket>, key: Key, now: real)
    requires Sane(c) && TableOk(c, t) && Agree(c, t, plain, now)
    ensures Agree(c, Tidied(c, t, key, now), plain, now) && TableOk(c, Tidied(c, t, key, now))
  {
    hide Level, Flow;
    TidiedKeeps(c, t, key, now);
  }

  lemma MakeRoomAgrees(c: Limits, t: Table, plain: map<Key, Bucket>, key: Key, now: real)
    requires Sane(c) && TableOk(c, t) && Agree(c, t, plain, now) && Harmless(c, t, key, now)
    ensures Agree(c, MakeRoom(c, t, key, now), plain, now)
  {
    hide Level, Flow, Tidied;
    TidiedAgrees(c, t, plain, key, now);
    var t1 := Tidied(c, t, key, now);
    if MustEvict(c, t, key, now) { assert t1.order[0] in t1.order; }
  }

  lemma ServeAgrees(c: Limits, t: Table, plain: map<Key, Bucket>, r: Request, before: real)
    requires Sane(c) && TableOk(c, t) && Agree(c, t, plain, before) && before <= r.now && Harmless(c, t, r.key, r.now)
    ensures Serve(c, t, r.key, r.now).1 == PlainServe(c, plain, r.key, r.now).1
    ensures Agree(c, Serve(c, t, r.key, r.now).0, PlainServe(c, plain, r.key, r.now).0, r.now)
    ensures TableOk(c, Serve(c, t, r.key, r.now).0)
  {
    hide Agree, Draw, MakeRoom, Harmless, TableOk, PlainServe;
    LaterAgrees(c, t, plain, before, r.now);
    MakeRoomAgrees(c, t, plain, r.key, r.now);
    MakeRoomKeeps(c, t, r.key, r.now);
    DrawAgrees(c, MakeRoom(c, t, r.key, r.now), plain, r.key, r.now);
    ServeKeeps(c, t, r.key, r.now);
  }

  lemma DrawAgrees(c: Limits, t: Table, plain: map<Key, Bucket>, key: Key, now: real)
    requires Sane(c) && TableOk(c, t) && Agree(c, t, plain, now)
    ensures Draw(c, t, key, now).1 == PlainServe(c, plain, key, now).1
    ensures Agree(c, Draw(c, t, key, now).0, PlainServe(c, plain, key, now).0, now)
  {
    LevelBounds(c, BucketOf(c, plain, key, now), now);
    LevelBounds(c, BucketOf(c, t.buckets, key, now), now);
  }

  /** As long as every key thrown out for lack of room was full at the time (in particular when
      none is), the bounded, pruned table gives the very answers of the plain one. */
  lemma {:induction false} PruningIsUnobservable(c: Limits, reqs: seq<Request>, i: nat)
    requires Sane(c) && Monotone(reqs) && i < |reqs|
    requires forall j :: 0 <= j < |reqs| ==> Harmless(c, Run(c, EMPTY, reqs[..j]), reqs[j].key, reqs[j].now)
    ensures AnswerAt(c, EMPTY, reqs, i) == PlainAnswerAt(c, map[], reqs, i)
  {
    hide Agree, Serve, PlainServe, Harmless, Run, PlainRun;
    RunAgrees(c, reqs, i);
    ServeAgrees(c, Run(c, EMPTY, reqs[..i]), PlainRun(c, map[], reqs[..i]), reqs[i],
                if i == 0 then reqs[0].now else reqs[i - 1].now);
  }

  const EMPTY := Table([], map[], 0.0)

  lemma {:induction false} RunAgrees(c: Limits, reqs: seq<Request>, i: nat)
    requires Sane(c) && Monotone(reqs) && i < |reqs|
    requires forall j :: 0 <= j < i ==> Harmless(c, Run(c, EMPTY, reqs[..j]), reqs[j].key, reqs[j].now)
    ensures TableOk(c, Run(c, EMPTY, reqs[..i]))
    ensures Agree(c, Run(c, EMPTY, reqs[..i]), PlainRun(c, map[], reqs[..i]),
                  if i == 0 then reqs[0].now else reqs[i - 1].now)
  {
    hide Agree, Serve, PlainServe, Harmless, TableOk;
    if i > 0 {
      RunAgrees(c, reqs, i - 1);
      assert reqs[..i][..i - 1] == reqs[..i - 1];
      var t, plain, r := Run(c, EMPTY, reqs[..i - 1]), PlainRun(c, map[], reqs[..i - 1]), reqs[i - 1];
      ServeAgrees(c, t, plain, r, if i == 1 then r.now else reqs[i - 2].now);
    } else {
      NothingAgrees(c, reqs[0].now);
    }
  }

  // ----- throwing out a key that was not full is observable

  function Repeat(k: Key, now: real, n: nat): seq<Request> {
    if n == 0 then [] else Repeat(k, now, n - 1) + [Request(k, now)]
  }

  lemma {:induction false} RepeatIs(k: Key, now: real, n: nat, m: nat)
    requires m <= n
    ensures |Repeat(k, now, n)| == n && Repeat(k, now, n)[..m] == Repeat(k, now, m)
    ensures m < n ==> Repeat(k, now, n)[m] == Request(k, now)
  {
    var all := Repeat(k, now, n);
    if m < n {
      RepeatIs(k, now, n - 1, m);
      assert all[..m] == Repeat(k, now, n - 1)[..m];
    } else if n > 0 {
      RepeatIs(k, now, n - 1, n - 1);
      assert all[..n] == all;
    }
  }

  /** A key that is not in the table can draw a whole bucket at once. */
  lemma {:induction false} DrainFresh(c: Limits, t: Table, k: Key, now: real, n: nat)
    requires Sane(c) && TableOk(c, t) && Past(t, now) && k !in t.buckets && n <= c.burst
    ensures var t' := Run(c, t, Repeat(k, now, n));
            TableOk(c, t') && Past(t', now) && LevelOf(c, t', k, now) == (c.burst - n) as real
  {
    if n == 0 {
      FullLevel(c, now);
    } else {
      DrainFresh(c, t, k, now, n - 1);
      RepeatIs(k, now, n, n - 1);
      hide TableOk, Past, LevelOf, HarmlessFor;
      var t1 := Run(c, t, Repeat(k, now, n - 1));
      OwnStep(c, t1, k, now);
    }
  }

  lemma OwnStep(c: Limits, t: Table, k: Key, now: real)
    requires Sane(c) && TableOk(c, t) && Past(t, now)
    ensures var (t', a) := Serve(c, t, k, now);
            && TableOk(c, t') && Past(t', now) && (a.allowed <==> LevelOf(c, t, k, now) >= 1.0)
            && LevelOf(c, t', k, now) == LevelOf(c, t, k, now) - if a.allowed then 1.0 else 0.0
  {
    hide TableOk, Past, LevelOf, Serve;
    ServeLevels(c, t, k, now, k);
    NeverItself(c, t, k, now);
  }

  lemma NeverItself(c: Limits, t: Table, k: Key, now: real)
    requires Sane(c) && TableOk(c, t)
    ensures HarmlessFor(c, t, k, now, k)
  {
    TidiedKeeps(c, t, k, now);
  }

  /** The plain table's key, short of a full bucket, stays behind and runs dry first. */
  lemma {:induction false} DrainShort(c: Limits, plain: map<Key, Bucket>, k: Key, now: real, n: nat)
    requires Sane(c) && k in plain && BucketOk(c, plain[k]) && plain[k].last <= now && !Full(c, plain[k], now)
    requires n < c.burst
    ensures var p := PlainRun(c, plain, Repeat(k, now, n));
            && k in p && p[k].last <= now && BucketOk(c, p[k])
            && (Level(c, p[k], now) < 1.0 || Level(c, p[k], now) < (c.burst - n) as real)
  {
    if n > 0 {
      DrainShort(c, plain, k, now, n - 1);
      RepeatIs(k, now, n, n - 1);
      var p := PlainRun(c, plain, Repeat(k, now, n - 1));
      PlainStep(c, p, k, now);
    }
  }

  lemma PlainStep(c: Limits, p: map<Key, Bucket>, k: Key, now: real)
    requires Sane(c) && k in p && BucketOk(c, p[k]) && p[k].last <= now
    ensures var (p', a) := PlainServe(c, p, k, now);
            && k in p' && BucketOk(c, p'[k]) && p'[k].last <= now
            && (a.allowed <==> Level(c, p[k], now) >= 1.0)
            && Level(c, p'[k], now) == Level(c, p[k], now) - if a.allowed then 1.0 else 0.0
  {
    LevelBounds(c, p[k], now);
    FlowOrder(c, 0.0, 0.0);
  }

  /** Throwing out a key that was not full always shows: ask for it a bucketful of times at once,
      and the last answer differs from the plain table's. */
  lemma HarmfulEvictionShows(c: Limits, t: Table, plain: map<Key, Bucket>, key: Key, now: real)
    requires Sane(c) && TableOk(c, t) && Past(t, now) && Agree(c, t, plain, now)
    requires !Harmless(c, t, key, now)
    ensures var v := Tidied(c, t, key, now).order[0]; var asks := Repeat(v, now, c.burst);
            && c.burst >= 1 && |asks| == c.burst
            && AnswerAt(c, Serve(c, t, key, now).0, asks, c.burst - 1).allowed
            && !PlainAnswerAt(c, PlainServe(c, plain, key, now).0, asks, c.burst - 1).allowed
  {
    var t1 := Tidied(c, t, key, now);
    var v, n := t1.order[0], c.burst - 1;
    VictimIsShort(c, t, plain, key, now);
    var t', plain' := Serve(c, t, key, now).0, PlainServe(c, plain, key, now).0;
    RepeatIs(v, now, c.burst, n);
    DrainFresh(c, t', v, now, n);
    OwnStep(c, Run(c, t', Repeat(v, now, n)), v, now);
    DrainShort(c, plain', v, now, n);
    PlainStep(c, PlainRun(c, plain', Repeat(v, now, n)), v, now);
  }

  lemma VictimIsShort(c: Limits, t: Table, plain: map<Key, Bucket>, key: Key, now: real)
    requires Sane(c) && TableOk(c, t) && Past(t, now) && Agree(c, t, plain, now)
    requires !Harmless(c, t, key, now)
    ensures var v := Tidied(c, t, key, now).order[0];
            var t', p := Serve(c, t, key, now).0, PlainServe(c, plain, key, now).0;
            && TableOk(c, t') && Past(t', now) && v !in t'.buckets && c.burst >= 1
            && v in p && BucketOk(c, p[v]) && p[v].last <= now && !Full(c, p[v], now)
  {
    var t1 := Tidied(c, t, key, now);
    TidiedAgrees(c, t, plain, key, now);
    var v := t1.order[0];
    LevelBounds(c, t1.buckets[v], now);
    ServeLevels(c, t, key, now, v);
    TidiedKeeps(c, t, key, now);
  }

  // ----- reachable tables

  lemma {:induction false} RunOk(c: Limits, reqs: seq<Request>, i: nat)
    requires Sane(c) && Monotone(reqs) && i < |reqs|
    ensures var t := Run(c, EMPTY, reqs[..i]); TableOk(c, t) && Past(t, reqs[i].now)
    ensures i > 0 ==> Past(Run(c, EMPTY, reqs[..i]), reqs[i - 1].now)
  {
    if i > 0 {
      RunOk(c, reqs, i - 1);
      assert reqs[..i][..i - 1] == reqs[..i - 1];
      var r := reqs[i - 1];
      ServeLevels(c, Run(c, EMPTY, reqs[..i - 1]), r.key, r.now, r.key);
    }
  }

  /** On every run of requests the table keeps its bounds, in size and in every bucket. */
  lemma {:induction false} RunKeepsBounds(c: Limits, reqs: seq<Request>)
    requires Sane(c)
    ensures TableOk(c, Run(c, EMPTY, reqs))
  {
    if reqs != [] {
      RunKeepsBounds(c, reqs[..|reqs| - 1]);
      var r := reqs[|reqs| - 1];
      ServeKeeps(c, Run(c, EMPTY, reqs[..|reqs| - 1]), r.key, r.now);
    }
  }

  // ----- order of the entries

  predicate ByAge(order: seq<Key>, buckets: map<Key, Bucket>) {
    && (forall k :: k in order ==> k in buckets)
    && (forall i, j :: 0 <= i <= j < |order| ==> buckets[order[i]].last <= buckets[order[j]].last)
  }

  lemma {:induction false} WithoutByAge(order: seq<Key>, buckets: map<Key, Bucket>, gone: set<Key>)
    requires ByAge(order, buckets)
    ensures ByAge(Without(order, gone), buckets)
  {
    if order != [] {
      var pre, k := order[..|order| - 1], order[|order| - 1];
      assert order == pre + [k];
      assert ByAge(pre, buckets);
      WithoutByAge(pre, buckets, gone);
      WithoutKeeps(pre, gone);
      var kept := Without(pre, gone);
      forall x | x in pre ensures buckets[x].last <= buckets[k].last {
        var i :| 0 <= i < |pre| && pre[i] == x;
        assert order[i] == x;
      }
      forall i | 0 <= i < |kept| ensures buckets[kept[i]].last <= buckets[k].last { assert kept[i] in pre; }
    }
  }

  lemma ByAgeWithin(order: seq<Key>, buckets: map<Key, Bucket>, fewer: map<Key, Bucket>)
    requires ByAge(order, buckets)
    requires forall k :: k in order ==> k in fewer && fewer[k] == buckets[k]
    ensures ByAge(order, fewer)
  {
  }

  lemma TidiedByAge(c: Limits, t: Table, key: Key, now: real)
    requires Sane(c) && TableOk(c, t) && ByAge(t.order, t.buckets)
    ensures var t1 := Tidied(c, t, key, now); ByAge(t1.order, t1.buckets)
  {
    var gone := StaleKeys(c, t, now);
    WithoutByAge(t.order, t.buckets, gone);
    WithoutIs(t.order, gone);
    ByAgeWithin(Without(t.order, gone), t.buckets, t.buckets - gone);
  }

  lemma PoppedByAge(t: Table)
    requires NoDup(t.order) && t.order != [] && ByAge(t.order, t.buckets)
    ensures ByAge(PopFirst(t).order, PopFirst(t).buckets)
  {
    forall k | k in t.order[1..] ensures k in PopFirst(t).buckets {
      var i :| 0 <= i < |t.order| - 1 && t.order[1..][i] == k;
      assert t.order[i + 1] == k;
    }
  }

  lemma PutByAge(t: Table, key: Key, b: Bucket)
    requires ByAge(t.order, t.buckets) && Past(t, b.last)
    ensures ByAge(Put(t, key, b).order, Put(t, key, b).buckets)
  {
    WithoutByAge(t.order, t.buckets, {key});
    WithoutIs(t.order, {key});
    var rest := Without(t.order, {key});
    ByAgeWithin(rest, t.buckets, t.buckets[key := b]);
  }

  lemma ServeByAge(c: Limits, t: Table, key: Key, now: real)
    requires Sane(c) && TableOk(c, t) && Past(t, now) && ByAge(t.order, t.buckets)
    ensures var t' := Serve(c, t, key, now).0; ByAge(t'.order, t'.buckets)
  {
    TidiedByAge(c, t, key, now);
    TidiedLevels(c, t, key, now, key);
    var t1 := Tidied(c, t, key, now);
    if MustEvict(c, t, key, now) { PoppedByAge(t1); }
    MakeRoomPast(c, t, key, now);
    var t2 := MakeRoom(c, t, key, now);
    PutByAge(t2, key, Take(c, Level(c, BucketOf(c, t2.buckets, key, now), now), now).0);
  }

  /** `r` is the time of the last request for `k` among `reqs`. */
  predicate LastRequest(reqs: seq<Request>, k: Key, when: real) {
    exists i :: 0 <= i < |reqs| && reqs[i] == Request(k, when) && forall j :: i < j < |reqs| ==> reqs[j].key != k
  }

  predicate TimesAreLast(t: Table, reqs: seq<Request>) {
    forall k :: k in t.buckets ==> LastRequest(reqs, k, t.buckets[k].last)
  }

  lemma ServeTimes(c: Limits, t: Table, reqs: seq<Request>, r: Request)
    requires Sane(c) && TableOk(c, t) && TimesAreLast(t, reqs)
    ensures TimesAreLast(Serve(c, t, r.key, r.now).0, reqs + [r])
  {
    var t' := Serve(c, t, r.key, r.now).0;
    WithoutIs(t.order, StaleKeys(c, t, r.now));
    var all := reqs + [r];
    forall k | k in t'.buckets ensures LastRequest(all, k, t'.buckets[k].last) {
      if k == r.key {
        assert all[|reqs|] == Request(k, r.now);
      } else {
        assert k in t.buckets && t'.buckets[k] == t.buckets[k];
        var i :| 0 <= i < |reqs| && reqs[i] == Request(k, t.buckets[k].last)
                 && forall j :: i < j < |reqs| ==> reqs[j].key != k;
        assert all[i] == reqs[i];
      }
    }
  }

  ghost predicate Listed(c: Limits, t: Table, reqs: seq<Request>) {
    TableOk(c, t) && TimesAreLast(t, reqs) && ByAge(t.order, t.buckets)
  }

  lemma ServeListed(c: Limits, t: Table, reqs: seq<Request>, r: Request)
    requires Sane(c) && Listed(c, t, reqs) && Past(t, r.now)
    ensures Listed(c, Serve(c, t, r.key, r.now).0, reqs + [r])
  {
    ServeByAge(c, t, r.key, r.now);
    ServeTimes(c, t, reqs, r);
    ServeKeeps(c, t, r.key, r.now);
  }

  lemma EmptyListed(c: Limits)
    ensures Listed(c, EMPTY, [])
  {
  }

  lemma {:induction false} RunListed(c: Limits, reqs: seq<Request>)
    requires Sane(c) && Monotone(reqs)
    ensures Listed(c, Run(c, EMPTY, reqs), reqs)
  {
    hide Listed, Serve;
    if reqs != [] {
      var pre, r := reqs[..|reqs| - 1], reqs[|reqs| - 1];
      RunListed(c, pre);
      RunOk(c, reqs, |reqs| - 1);
      ServeListed(c, Run(c, EMPTY, pre), pre, r);
      assert reqs == pre + [r];
    } else {
      EmptyListed(c);
    }
  }

  /** On every run the table lists its keys by the time of their last request; what is thrown
      out to make room is the key that has been silent longest. */
  lemma OrderIsLastAccess(c: Limits, reqs: seq<Request>)
    requires Sane(c) && Monotone(reqs)
    ensures var t := Run(c, EMPTY, reqs);
            && TimesAreLast(t, reqs) && ByAge(t.order, t.buckets)
            && forall k :: k in t.buckets ==> t.order != [] && t.order[0] in t.buckets
                                              && t.buckets[t.order[0]].last <= t.buckets[k].last
  {
    hide Run;
    RunListed(c, reqs);
    FirstIsOldest(c, Run(c, EMPTY, reqs), reqs);
  }

  lemma FirstIsOldest(c: Limits, t: Table, reqs: seq<Request>)
    requires Listed(c, t, reqs)
    ensures forall k :: k in t.buckets ==> t.order != [] && t.order[0] in t.buckets
                                           && t.buckets[t.order[0]].last <= t.buckets[k].last
  {
    forall k | k in t.buckets ensures t.order != [] && t.order[0] in t.buckets
        && t.buckets[t.order[0]].last <= t.buckets[k].last {
      assert k in t.order;
      var i :| 0 <= i < |t.order| && t.order[i] == k;
      assert t.order[0] in t.order;
    }
  }

  // ----- levels along a run

  /** The level of `k` just before request `j`, and just after it. */
  function Before(c: Limits, reqs: seq<Request>, k: Key, j: nat): real
    requires Sane(c) && j < |reqs|
  {
    LevelOf(c, Run(c, EMPTY, reqs[..j]), k, reqs[j].now)
  }

  function After(c: Limits, reqs: seq<Request>, k: Key, j: nat): real
    requires Sane(c) && j < |reqs|
  {
    LevelOf(c, Run(c, EMPTY, reqs[..j + 1]), k, reqs[j].now)
  }

  predicate Granted(c: Limits, reqs: seq<Request>, k: Key, j: nat)
    requires Sane(c) && j < |reqs|
  {
    reqs[j].key == k && AnswerAt(c, EMPTY, reqs, j).allowed
  }

  predicate Kept(c: Limits, reqs: seq<Request>, k: Key, j: nat)
    requires Sane(c) && j < |reqs|
  {
    HarmlessFor(c, Run(c, EMPTY, reqs[..j]), reqs[j].key, reqs[j].now, k)
  }

  lemma AtRequest(c: Limits, reqs: seq<Request>, k: Key, j: nat)
    requires Sane(c) && Monotone(reqs) && j < |reqs|
    ensures var g := if Granted(c, reqs, k, j) then 1.0 else 0.0;
            && After(c, reqs, k, j) >= Before(c, reqs, k, j) - g
            && (Kept(c, reqs, k, j) ==> After(c, reqs, k, j) == Before(c, reqs, k, j) - g)
    ensures reqs[j].key == k ==> (Granted(c, reqs, k, j) <==> Before(c, reqs, k, j) >= 1.0)
  {
    hide LevelOf, TableOk, Past, Serve, HarmlessFor, Monotone, Flow;
    assert reqs[..j + 1][..j] == reqs[..j];
    RunOk(c, reqs, j);
    ServeLevels(c, Run(c, EMPTY, reqs[..j]), reqs[j].key, reqs[j].now, k);
  }

  lemma BetweenRequests(c: Limits, reqs: seq<Request>, k: Key, j: nat)
    requires Sane(c) && Monotone(reqs) && j + 1 < |reqs|
    ensures Before(c, reqs, k, j + 1) == Min(Capacity(c), After(c, reqs, k, j) + Flow(c, reqs[j + 1].now - reqs[j].now))
  {
    hide Run, LevelOf, TableOk, Past, Flow;
    RunOk(c, reqs, j + 1);
    RefillOf(c, Run(c, EMPTY, reqs[..j + 1]), k, reqs[j].now, reqs[j + 1].now);
  }

  lemma LevelsAreBounded(c: Limits, reqs: seq<Request>, k: Key, j: nat)
    requires Sane(c) && Monotone(reqs) && j < |reqs|
    ensures 0.0 <= Before(c, reqs, k, j) <= Capacity(c)
    ensures 0.0 <= After(c, reqs, k, j) <= Capacity(c)
  {
    RunKeepsBounds(c, reqs[..j]);
    RunKeepsBounds(c, reqs[..j + 1]);
    LevelBounds(c, BucketOf(c, Run(c, EMPTY, reqs[..j]).buckets, k, reqs[j].now), reqs[j].now);
    LevelBounds(c, BucketOf(c, Run(c, EMPTY, reqs[..j + 1]).buckets, k, reqs[j].now), reqs[j].now);
  }

  lemma Inflow(c: Limits, a: real, b: real, d: real)
    requires Sane(c) && a <= b <= d
    ensures Flow(c, d - a) == Flow(c, b - a) + Flow(c, d - b)
    ensures Flow(c, b - a) >= 0.0 && Flow(c, d - b) >= 0.0 && Flow(c, 0.0) == 0.0
  {
    FlowAdds(c, b - a, d - b);
    assert b - a + (d - b) == d - a;
    FlowOrder(c, 0.0, b - a);
    FlowOrder(c, 0.0, d - b);
  }

  // ----- how much a key can get

  /** Grants to key `k` among requests `i` up to but not including `j`. */
  function Grants(c: Limits, reqs: seq<Request>, k: Key, i: nat, j: nat): nat
    requires Sane(c) && i <= j <= |reqs|
    decreases j
  {
    if i == j then 0 else Grants(c, reqs, k, i, j - 1) + if Granted(c, reqs, k, j - 1) then 1 else 0
  }

  lemma {:induction false} GrantsAndLevel(c: Limits, reqs: seq<Request>, k: Key, i: nat, j: nat)
    requires Sane(c) && Monotone(reqs) && i <= j < |reqs| && (forall n :: i <= n <= j ==> Kept(c, reqs, k, n))
    ensures Grants(c, reqs, k, i, j + 1) as real + After(c, reqs, k, j)
            <= Capacity(c) + Flow(c, reqs[j].now - reqs[i].now)
    decreases j
  {
    hide Before, After, Granted, Kept, Flow;
    AtRequest(c, reqs, k, j);
    if i == j {
      LevelsAreBounded(c, reqs, k, j);
      Inflow(c, reqs[i].now, reqs[i].now, reqs[i].now);
      assert reqs[j].now - reqs[i].now == 0.0;
    } else {
      GrantsAndLevel(c, reqs, k, i, j - 1);
      BetweenRequests(c, reqs, k, j - 1);
      Inflow(c, reqs[i].now, reqs[j - 1].now, reqs[j].now);
    }
  }

  /** A key that is not thrown out early gets, in any stretch of time, at most a full bucket
      and what flows in meanwhile. */
  lemma GrantsAreBounded(c: Limits, reqs: seq<Request>, k: Key, i: nat, j: nat)
    requires Sane(c) && Monotone(reqs) && i <= j < |reqs| && (forall n :: i <= n <= j ==> Kept(c, reqs, k, n))
    ensures Grants(c, reqs, k, i, j + 1) as real <= Capacity(c) + Flow(c, reqs[j].now - reqs[i].now)
  {
    GrantsAndLevel(c, reqs, k, i, j);
    LevelsAreBounded(c, reqs, k, j);
  }

  // ----- the promised wait

  predicate NoGrant(c: Limits, reqs: seq<Request>, k: Key, i: nat, j: nat)
    requires Sane(c) && j <= |reqs|
  {
    forall n :: i <= n < j ==> !Granted(c, reqs, k, n)
  }

  /** While a key is granted nothing its level grows by what flows in, no more and no less. */
  lemma {:induction false} LevelSince(c: Limits, reqs: seq<Request>, k: Key, i: nat, j: nat)
    requires Sane(c) && Monotone(reqs) && i <= j < |reqs| && NoGrant(c, reqs, k, i, j)
    ensures Before(c, reqs, k, j) >= Min(Capacity(c), Before(c, reqs, k, i) + Flow(c, reqs[j].now - reqs[i].now))
    ensures (forall n :: i <= n < j ==> Kept(c, reqs, k, n)) ==>
              Before(c, reqs, k, j) == Min(Capacity(c), Before(c, reqs, k, i) + Flow(c, reqs[j].now - reqs[i].now))
    decreases j
  {
    hide Before, After, Granted, Kept, Flow;
    if i == j {
      LevelsAreBounded(c, reqs, k, j);
      Inflow(c, reqs[i].now, reqs[i].now, reqs[i].now);
      assert reqs[j].now - reqs[i].now == 0.0;
    } else {
      LevelSince(c, reqs, k, i, j - 1);
      AtRequest(c, reqs, k, j - 1);
      BetweenRequests(c, reqs, k, j - 1);
      Inflow(c, reqs[i].now, reqs[j - 1].now, reqs[j].now);
    }
  }

  lemma CeilIs(x: real)
    ensures Ceil(x) as real >= x > Ceil(x) as real - 1.0
  {
  }

  lemma Reached(c: Limits, tokens: real, x: real, seconds: real)
    requires Sane(c) && x * c.rate == 1.0 - tokens
    ensures x <= seconds <==> tokens + Flow(c, seconds) >= 1.0
  {
    FlowOrder(c, x, seconds);
  }

  /** The wait is what the missing part of a token takes, in whole seconds, and at least one. */
  lemma WaitCovers(c: Limits, tokens: real, now: real)
    requires Sane(c) && tokens < 1.0
    ensures var w := Take(c, tokens, now).1.wait;
            && w >= 1 && tokens + Flow(c, w as real) >= 1.0
            && (w > 1 ==> tokens + Flow(c, (w - 1) as real) < 1.0)
  {
    hide Flow, Ceil;
    var x, w := (1.0 - tokens) / c.rate, Take(c, tokens, now).1.wait;
    CeilIs(x);
    Reached(c, tokens, x, w as real);
    Reached(c, tokens, x, (w - 1) as real);
  }

  lemma AnswerIsTake(c: Limits, t: Table, key: Key, now: real)
    requires Sane(c) && TableOk(c, t)
    ensures Serve(c, t, key, now).1 == Take(c, LevelOf(c, t, key, now), now).1
  {
    OwnLevelKept(c, t, key, now);
    hide MakeRoom, Take;
  }

  lemma DenialLevel(c: Limits, reqs: seq<Request>, i: nat)
    requires Sane(c) && Monotone(reqs) && i < |reqs| && !AnswerAt(c, EMPTY, reqs, i).allowed
    ensures var start := Before(c, reqs, reqs[i].key, i); var w := AnswerAt(c, EMPTY, reqs, i).wait;
            && w >= 1 && start + Flow(c, w as real) >= 1.0
            && (w > 1 ==> start + Flow(c, (w - 1) as real) < 1.0)
  {
    hide Run, Serve, LevelOf, TableOk, Past, Take, Flow;
    var t, r := Run(c, EMPTY, reqs[..i]), reqs[i];
    RunOk(c, reqs, i);
    AnswerIsTake(c, t, r.key, r.now);
    AtRequest(c, reqs, r.key, i);
    WaitCovers(c, Before(c, reqs, r.key, i), r.now);
  }

  /** The wait in a denial is honest: a client that waits that long is served, whatever others did
      meanwhile, exactly when the bucket can hold a token at all. */
  lemma WaitingIsEnough(c: Limits, reqs: seq<Request>, i: nat, j: nat)
    requires Sane(c) && Monotone(reqs) && i < j < |reqs| && reqs[j].key == reqs[i].key
    requires !AnswerAt(c, EMPTY, reqs, i).allowed && NoGrant(c, reqs, reqs[i].key, i, j)
    requires reqs[j].now >= reqs[i].now + AnswerAt(c, EMPTY, reqs, i).wait as real
    ensures AnswerAt(c, EMPTY, reqs, j).allowed <==> c.burst >= 1
  {
    hide Before, After, Kept, Run, Serve, Flow;
    var k, w := reqs[i].key, AnswerAt(c, EMPTY, reqs, i).wait;
    DenialLevel(c, reqs, i);
    LevelSince(c, reqs, k, i, j);
    AtRequest(c, reqs, k, j);
    LevelsAreBounded(c, reqs, k, j);
    FlowOrder(c, w as real, reqs[j].now - reqs[i].now);
  }

  /** And it is the shortest such wait in whole seconds: a second earlier the key is still denied. */
  lemma WaitingLessIsNot(c: Limits, reqs: seq<Request>, i: nat, j: nat)
    requires Sane(c) && Monotone(reqs) && i < j < |reqs| && reqs[j].key == reqs[i].key
    requires !AnswerAt(c, EMPTY, reqs, i).allowed && NoGrant(c, reqs, reqs[i].key, i, j)
    requires forall n :: i <= n < j ==> Kept(c, reqs, reqs[i].key, n)
    requires AnswerAt(c, EMPTY, reqs, i).wait > 1
    requires reqs[j].now <= reqs[i].now + (AnswerAt(c, EMPTY, reqs, i).wait - 1) as real
    ensures !AnswerAt(c, EMPTY, reqs, j).allowed
  {
    hide Before, After, Kept, Run, Serve, Flow;
    var k, w := reqs[i].key, AnswerAt(c, EMPTY, reqs, i).wait;
    DenialLevel(c, reqs, i);
    LevelSince(c, reqs, k, i, j);
    AtRequest(c, reqs, k, j);
    FlowOrder(c, reqs[j].now - reqs[i].now, (w - 1) as real);
  }
}
