/** The token bucket limiter of the HTTP endpoints (utils/http_rate_limiter.py), over
    exact time and tokens: a bounded table, pruned and evicted, against a plain one. */
module RateLimiter {

  type Key = string

  datatype Bucket = Bucket(tokens: real, last: real)

  /** Tokens per second, bucket size and table size. */
  datatype Limits = Limits(rate: real, burst: nat, maxEntries: nat)

  /** An insertion-ordered dictionary of buckets. */
  datatype Table = Table(order: seq<Key>, buckets: map<Key, Bucket>, lastCleanup: real)

  datatype Answer = Answer(allowed: bool, wait: int)

  const CLEANUP_EVERY := 30.0
  const IDLE := 120.0

  predicate Sane(c: Limits) {
    c.rate > 0.0 && c.maxEntries >= 1
  }

  function Min(a: real, b: real): real {
    if a < b then a else b
  }

  function Elapsed(since: real, now: real): real {
    if now < since then 0.0 else now - since
  }

  function Ceil(x: real): int {
    -((-x).Floor)
  }

  /** The tokens that flow in over `seconds`. */
  function Flow(c: Limits, seconds: real): real {
    seconds * c.rate
  }

  function Capacity(c: Limits): real {
    c.burst as real
  }

  /** What the bucket holds at time `now`. */
  function Level(c: Limits, b: Bucket, now: real): real {
    Min(Capacity(c), b.tokens + Flow(c, Elapsed(b.last, now)))
  }

  /** Whole seconds until a bucket holding `tokens` has a whole token. */
  function SecondsUntilToken(c: Limits, tokens: real): int
    requires Sane(c)
  {
    Ceil((1.0 - tokens) / c.rate)
  }

  /** One request at a bucket holding `tokens`. */
  function Take(c: Limits, tokens: real, now: real): (Bucket, Answer)
    requires Sane(c)
  {
    if tokens >= 1.0 then (Bucket(tokens - 1.0, now), Answer(true, 0))
    else
      var wait := SecondsUntilToken(c, tokens);
      (Bucket(tokens, now), Answer(false, if wait < 1 then 1 else wait))
  }

  // ----- the bounded table

  function Without(order: seq<Key>, gone: set<Key>): seq<Key> {
    if order == [] then []
    else Without(order[..|order| - 1], gone) + if order[|order| - 1] in gone then [] else [order[|order| - 1]]
  }

  predicate Stale(c: Limits, b: Bucket, now: real) {
    Level(c, b, now) >= Capacity(c) && now - b.last > IDLE
  }

  function StaleKeys(c: Limits, t: Table, now: real): set<Key> {
    set k | k in t.buckets && Stale(c, t.buckets[k], now)
  }

  function Delete(t: Table, gone: set<Key>): Table {
    t.(order := Without(t.order, gone), buckets := t.buckets - gone)
  }

  function Prune(c: Limits, t: Table, now: real): Table {
    Delete(t, StaleKeys(c, t, now))
  }

  /** The least recently used entry goes. */
  function PopFirst(t: Table): Table
    requires t.order != []
  {
    t.(order := t.order[1..], buckets := t.buckets - {t.order[0]})
  }

  /** A full table is cleaned up, at most twice a minute. */
  function Tidied(c: Limits, t: Table, key: Key, now: real): Table {
    if key !in t.buckets && |t.order| >= c.maxEntries && now - t.lastCleanup >= CLEANUP_EVERY
    then Prune(c, t.(lastCleanup := now), now) else t
  }

  predicate MustEvict(c: Limits, t: Table, key: Key, now: real) {
    key !in t.buckets && |Tidied(c, t, key, now).order| >= c.maxEntries
  }

  function MakeRoom(c: Limits, t: Table, key: Key, now: real): Table
    requires Sane(c)
  {
    var t1 := Tidied(c, t, key, now);
    if MustEvict(c, t, key, now) then PopFirst(t1) else t1
  }

  function BucketOf(c: Limits, buckets: map<Key, Bucket>, key: Key, now: real): Bucket {
    if key in buckets then buckets[key] else Bucket(Capacity(c), now)
  }

  function Put(t: Table, key: Key, b: Bucket): Table {
    t.(order := Without(t.order, {key}) + [key], buckets := t.buckets[key := b])
  }

  function Draw(c: Limits, t: Table, key: Key, now: real): (Table, Answer)
    requires Sane(c)
  {
    var (b, a) := Take(c, Level(c, BucketOf(c, t.buckets, key, now), now), now);
    (Put(t, key, b), a)
  }

  function Serve(c: Limits, t: Table, key: Key, now: real): (Table, Answer)
    requires Sane(c)
  {
    Draw(c, MakeRoom(c, t, key, now), key, now)
  }

  // ----- the plain table: every bucket is kept for ever

  function PlainServe(c: Limits, buckets: map<Key, Bucket>, key: Key, now: real): (map<Key, Bucket>, Answer)
    requires Sane(c)
  {
    var (b, a) := Take(c, Level(c, BucketOf(c, buckets, key, now), now), now);
    (buckets[key := b], a)
  }

  // ----- the limiter itself

  lemma {:induction false} WithoutTwice(order: seq<Key>, a: set<Key>, b: set<Key>)
    ensures Without(Without(order, a), b) == Without(order, a + b)
  {
    if order != [] {
      var pre, k := order[..|order| - 1], order[|order| - 1];
      WithoutTwice(pre, a, b);
      var kept := Without(order, a);
      if k in a { assert kept == Without(pre, a); } else { assert kept[..|kept| - 1] == Without(pre, a); }
    }
  }

  lemma DeleteTwice(t: Table, a: set<Key>, b: set<Key>)
    ensures Delete(Delete(t, a), b) == Delete(t, a + b)
  {
    WithoutTwice(t.order, a, b);
    assert t.buckets - a - b == t.buckets - (a + b);
  }

  lemma {:induction false} WithoutNone(order: seq<Key>)
    ensures Without(order, {}) == order
  {
    if order != [] { WithoutNone(order[..|order| - 1]); }
  }

  class HttpRateLimiter {
    const limits: Limits
    var order: seq<Key>
    var buckets: map<Key, Bucket>
    var lastCleanup: real

    function Snapshot(): Table
      reads this
    {
      Table(order, buckets, lastCleanup)
    }

    ghost predicate Valid()
      reads this
    {
      Sane(limits) && TableOk(limits, Snapshot())
    }

    constructor (ratePerMinute: real, burst: nat, maxEntries: nat)
      requires ratePerMinute > 0.0 && maxEntries >= 1
      ensures Valid() && Snapshot() == Table([], map[], 0.0)
      ensures limits == Limits(ratePerMinute / 60.0, burst, maxEntries)
    {
      limits := Limits(ratePerMinute / 60.0, burst, maxEntries);
      order, buckets, lastCleanup := [], map[], 0.0;
    }

    method FindStale(now: real) returns (staleKeys: seq<Key>)
      requires Valid()
      ensures (set k | k in staleKeys) == StaleKeys(limits, Snapshot(), now)
    {
      staleKeys := [];
      var i := 0;
      while i < |order|
        invariant 0 <= i <= |order|
        invariant forall k :: k in staleKeys <==> k in order[..i] && Stale(limits, buckets[k], now)
      {
        var b := buckets[order[i]];
        var current := Level(limits, b, now);
        if current >= Capacity(limits) && now - b.last > IDLE {
          staleKeys := staleKeys + [order[i]];
        }
        i := i + 1;
      }
      assert order[..|order|] == order;
    }

    method Remove(keys: seq<Key>)
      modifies this`order, this`buckets
      ensures Snapshot() == Delete(old(Snapshot()), set k | k in keys)
    {
      ghost var t := Snapshot();
      WithoutNone(order);
      assert t.buckets - {} == t.buckets;
      ghost var gone: set<Key> := {};
      for i := 0 to |keys|
        invariant gone == set k | k in keys[..i]
        invariant Snapshot() == Delete(t, gone)
      {
        DeleteTwice(t, gone, {keys[i]});
        order, buckets := Without(order, {keys[i]}), buckets - {keys[i]};
        gone := gone + {keys[i]};
      }
      assert keys[..|keys|] == keys;
    }

    method Cleanup(now: real)
      requires Valid()
      modifies this`order, this`buckets
      ensures Snapshot() == Prune(limits, old(Snapshot()), now)
    {
      var staleKeys := FindStale(now);
      Remove(staleKeys);
    }

    method Admit(key: Key, now: real)
      requires Valid()
      modifies this
      ensures Snapshot() == MakeRoom(limits, old(Snapshot()), key, now)
    {
      if key !in buckets && |order| >= limits.maxEntries {
        if now - lastCleanup >= CLEANUP_EVERY {
          lastCleanup := now;
          Cleanup(now);
          WithoutIs(old(order), StaleKeys(limits, old(Snapshot()), now));
        }
        if |order| >= limits.maxEntries {
          order, buckets := order[1..], buckets - {order[0]};
        }
      }
    }

    method TakeToken(key: Key, now: real) returns (allowed: bool, wait: int)
      requires Sane(limits)
      modifies this`order, this`buckets
      ensures (Snapshot(), Answer(allowed, wait)) == Draw(limits, old(Snapshot()), key, now)
    {
      var b := BucketOf(limits, buckets, key, now);
      var elapsed := Elapsed(b.last, now);
      var tokens := Min(Capacity(limits), b.tokens + Flow(limits, elapsed));
      order := Without(order, {key}) + [key];
      if tokens >= 1.0 {
        buckets := buckets[key := Bucket(tokens - 1.0, now)];
        return true, 0;
      }
      wait := SecondsUntilToken(limits, tokens);
      if wait < 1 {
        wait := 1;
      }
      buckets := buckets[key := Bucket(tokens, now)];
      allowed := false;
    }

    method Check(key: Key, now: real) returns (allowed: bool, wait: int)
      requires Valid()
      modifies this
      ensures Valid()
      ensures (Snapshot(), Answer(allowed, wait)) == Serve(limits, old(Snapshot()), key, now)
    {
      ServeKeeps(limits, Snapshot(), key, now);
      Admit(key, now);
      allowed, wait := TakeToken(key, now);
    }
  }

  // ----- what every table keeps

  predicate NoDup(s: seq<Key>) {
    forall i, j :: 0 <= i < j < |s| ==> s[i] != s[j]
  }

  predicate BucketOk(c: Limits, b: Bucket) {
    0.0 <= b.tokens <= Capacity(c)
  }

  ghost predicate TableOk(c: Limits, t: Table) {
    && NoDup(t.order) && |t.order| <= c.maxEntries
    && (forall k :: k in t.order <==> k in t.buckets)
    && (forall k :: k in t.buckets ==> BucketOk(c, t.buckets[k]))
  }

  lemma {:induction false} WithoutKeeps(order: seq<Key>, gone: set<Key>)
    ensures forall k :: k in Without(order, gone) <==> k in order && k !in gone
    ensures |Without(order, gone)| <= |order|
  {
    if order != [] {
      var pre, k := order[..|order| - 1], order[|order| - 1];
      WithoutKeeps(pre, gone);
      assert order == pre + [k];
    }
  }

  lemma {:induction false} WithoutNoDup(order: seq<Key>, gone: set<Key>)
    requires NoDup(order)
    ensures NoDup(Without(order, gone))
  {
    if order != [] {
      var pre, k := order[..|order| - 1], order[|order| - 1];
      WithoutNoDup(pre, gone);
      WithoutKeeps(pre, gone);
      assert k !in pre;
    }
  }

  lemma WithoutIs(order: seq<Key>, gone: set<Key>)
    ensures forall k :: k in Without(order, gone) <==> k in order && k !in gone
    ensures |Without(order, gone)| <= |order|
    ensures NoDup(order) ==> NoDup(Without(order, gone))
  {
    WithoutKeeps(order, gone);
    if NoDup(order) { WithoutNoDup(order, gone); }
  }

  lemma {:induction false} WithoutOne(order: seq<Key>, k: Key)
    requires NoDup(order)
    ensures |Without(order, {k})| == |order| - if k in order then 1 else 0
  {
    if order != [] {
      var pre, x := order[..|order| - 1], order[|order| - 1];
      WithoutOne(pre, k);
      assert order == pre + [x];
      assert x !in pre;
    }
  }

  lemma TidiedKeeps(c: Limits, t: Table, key: Key, now: real)
    requires Sane(c) && TableOk(c, t)
    ensures TableOk(c, Tidied(c, t, key, now))
    ensures key in Tidied(c, t, key, now).buckets <==> key in t.buckets
  {
    WithoutIs(t.order, StaleKeys(c, t, now));
  }

  lemma PopKeeps(c: Limits, t: Table)
    requires TableOk(c, t) && t.order != []
    ensures TableOk(c, PopFirst(t)) && |PopFirst(t).order| < c.maxEntries
  {
    var rest := t.order[1..];
    assert t.order == [t.order[0]] + rest;
    assert forall i :: 0 <= i < |rest| ==> rest[i] == t.order[i + 1];
    assert t.order[0] !in rest;
  }

  lemma MakeRoomKeeps(c: Limits, t: Table, key: Key, now: real)
    requires Sane(c) && TableOk(c, t)
    ensures var t1 := MakeRoom(c, t, key, now);
            TableOk(c, t1) && (key in t1.buckets <==> key in t.buckets)
            && (key !in t1.buckets ==> |t1.order| < c.maxEntries)
  {
    TidiedKeeps(c, t, key, now);
    if MustEvict(c, t, key, now) { PopKeeps(c, Tidied(c, t, key, now)); }
  }

  lemma FlowAdds(c: Limits, a: real, b: real)
    ensures Flow(c, a + b) == Flow(c, a) + Flow(c, b) && Flow(c, 0.0) == 0.0
  {
  }

  lemma FlowOrder(c: Limits, a: real, b: real)
    requires Sane(c)
    ensures a <= b <==> Flow(c, a) <= Flow(c, b)
    ensures Flow(c, 0.0) == 0.0
  {
  }

  lemma LevelBounds(c: Limits, b: Bucket, now: real)
    requires Sane(c) && BucketOk(c, b)
    ensures 0.0 <= b.tokens <= Level(c, b, now) <= Capacity(c)
  {
    FlowOrder(c, 0.0, Elapsed(b.last, now));
  }

  lemma PutKeeps(c: Limits, t: Table, key: Key, b: Bucket)
    requires TableOk(c, t) && BucketOk(c, b) && (key in t.buckets || |t.order| < c.maxEntries)
    ensures TableOk(c, Put(t, key, b))
  {
    WithoutIs(t.order, {key});
    WithoutOne(t.order, key);
  }

  /** Every request keeps the table in order, within its size, and the buckets within bounds. */
  lemma ServeKeeps(c: Limits, t: Table, key: Key, now: real)
    requires Sane(c) && TableOk(c, t)
    ensures TableOk(c, Serve(c, t, key, now).0)
  {
    var t1 := MakeRoom(c, t, key, now);
    MakeRoomKeeps(c, t, key, now);
    var level := Level(c, BucketOf(c, t1.buckets, key, now), now);
    LevelBounds(c, BucketOf(c, t1.buckets, key, now), now);
    PutKeeps(c, t1, key, Take(c, level, now).0);
  }
}
