/** What every run of origin moves, sweeps and server changes keeps. */
module OriginOutboxTheorems {
  import opened Options
  import opened OriginOutbox

  // ----- invariants

  predicate UniqueUuids(st: State) {
    forall a, b :: a in st.subs && b in st.subs && a != b ==> st.subs[a].uuid != st.subs[b].uuid
  }

  predicate Targets(r: Row, sub: Sub) {
    r.pending && r.uuid == sub.uuid && sub.origin == Some(r.server)
  }

  /** No pending cleanup is aimed at the current origin of its credential. */
  predicate NoneAimedAtCurrent(st: State) {
    forall id, i :: id in st.subs && 0 <= i < |st.rows| ==> !Targets(st.rows[i], st.subs[id])
  }

  predicate Back(st: State, s: ServerId, u: Uuid) {
    exists id :: id in st.subs && st.subs[id].uuid == u && st.subs[id].origin == Some(s)
  }

  predicate Queued(rows: seq<Row>, s: ServerId, u: Uuid) {
    exists i :: 0 <= i < |rows| && rows[i] == Row(s, u, true)
  }

  /** A credential moved away from `s` is back there, queued for cleanup, found disabled since, or
      its server is no more. */
  predicate Accounted(st: State, s: ServerId, u: Uuid) {
    Back(st, s, u) || Queued(st.rows, s, u) || (s, u) in st.disabled || s in st.gone
  }

  predicate NothingOrphaned(st: State) {
    forall k :: k in st.left ==> Accounted(st, k.0, k.1)
  }

  predicate XrayOrGone(st: State, s: ServerId) {
    s in st.gone || (s in st.servers && st.servers[s].xray)
  }

  /** Cleanups are only ever written for Xray servers. */
  predicate RowsOnXray(st: State) {
    && (forall k :: k in st.left ==> XrayOrGone(st, k.0))
    && (forall i :: 0 <= i < |st.rows| ==> XrayOrGone(st, st.rows[i].server))
  }

  ghost predicate Inv(st: State) {
    UniqueUuids(st) && NothingOrphaned(st) && RowsOnXray(st)
  }

  // ----- cancelling

  lemma {:induction false} CancelIs(rows: seq<Row>, s: ServerId, u: Uuid)
    ensures var c := Cancel(rows, s, u);
            && |c| == |rows|
            && forall i :: 0 <= i < |rows| ==>
                 c[i] == if rows[i] == Row(s, u, true) then Row(s, u, false) else rows[i]
  {
    if rows != [] { CancelIs(rows[..|rows| - 1], s, u); }
  }

  lemma {:induction false} PurgeIs(rows: seq<Row>, s: ServerId)
    ensures var c := PurgeRows(rows, s);
            && |c| == |rows|
            && forall i :: 0 <= i < |rows| ==>
                 c[i] == if rows[i].server == s then rows[i].(pending := false) else rows[i]
  {
    if rows != [] { PurgeIs(rows[..|rows| - 1], s); }
  }

  lemma QueuedStays(rows: seq<Row>, rows': seq<Row>, s: ServerId, u: Uuid)
    requires Queued(rows, s, u) && |rows| <= |rows'|
    requires forall i :: 0 <= i < |rows| && rows[i] == Row(s, u, true) ==> rows'[i] == rows[i]
    ensures Queued(rows', s, u)
  {
    var i :| 0 <= i < |rows| && rows[i] == Row(s, u, true);
    assert rows'[i] == Row(s, u, true);
  }

  // ----- a move away from an unhealthy origin

  /** The new origin is never the old one: it passes the test the old one failed. */
  lemma NewOriginDiffers(st: State, sub: Sub, to: ServerId)
    requires NeedsMigration(st, sub) && Allocated(st, Some(to))
    ensures OriginNode(st, sub) != Some(to)
  {
  }

  lemma RelocateKeepsAim(st: State, id: SubId, to: ServerId)
    requires UniqueUuids(st) && NoneAimedAtCurrent(st)
    requires id in st.subs && OriginNode(st, st.subs[id]) != Some(to)
    ensures NoneAimedAtCurrent(Relocate(st, id, to)) && UniqueUuids(Relocate(st, id, to))
  {
    CancelIs(st.rows, to, st.subs[id].uuid);
  }

  lemma RelocateAccounts(st: State, id: SubId, to: ServerId, s: ServerId, u: Uuid)
    requires Inv(st) && id in st.subs && (s, u) in Relocate(st, id, to).left
    ensures Accounted(Relocate(st, id, to), s, u)
  {
    var sub, st' := st.subs[id], Relocate(st, id, to);
    CancelIs(st.rows, to, sub.uuid);
    if u == sub.uuid && s == to {
      assert st'.subs[id].uuid == u && st'.subs[id].origin == Some(s);
    } else if OriginNode(st, sub) == Some(s) && u == sub.uuid {
      assert st'.rows[|st.rows|] == Row(s, u, true);
    } else {
      assert Accounted(st, s, u) && XrayOrGone(st, s);
      if Queued(st.rows, s, u) { QueuedStays(st.rows, st'.rows, s, u); }
      if Back(st, s, u) && s !in st.gone {
        var x :| x in st.subs && st.subs[x].uuid == u && st.subs[x].origin == Some(s);
        assert x != id;
        assert st'.subs[x] == st.subs[x];
      }
    }
  }

  lemma RelocateKeeps(st: State, id: SubId, to: ServerId)
    requires Inv(st) && id in st.subs
    ensures Inv(Relocate(st, id, to))
  {
    var st' := Relocate(st, id, to);
    CancelIs(st.rows, to, st.subs[id].uuid);
    forall k | k in st'.left ensures Accounted(st', k.0, k.1) { RelocateAccounts(st, id, to, k.0, k.1); }
  }

  // ----- the sweep

  lemma DoneStays(st: State, i: nat, s: ServerId, u: Uuid)
    requires i < |st.rows| && Accounted(st, s, u) && (st.rows[i].server, st.rows[i].uuid) != (s, u)
    ensures Accounted(Done(st, i), s, u)
  {
    if Queued(st.rows, s, u) { QueuedStays(st.rows, Done(st, i).rows, s, u); }
    if Back(st, s, u) {
      var x :| x in st.subs && st.subs[x].uuid == u && st.subs[x].origin == Some(s);
      assert Done(st, i).subs[x] == st.subs[x];
    }
  }

  lemma SweepKeeps(st: State, i: nat, answer: Answer)
    requires Inv(st)
    ensures Inv(Sweep(st, i, answer))
    ensures NoneAimedAtCurrent(st) ==> NoneAimedAtCurrent(Sweep(st, i, answer))
  {
    var st' := Sweep(st, i, answer);
    if st' != st {
      var r := st.rows[i];
      assert XrayOrGone(st, r.server);
      forall k | k in st'.left ensures Accounted(st', k.0, k.1) {
        assert Accounted(st, k.0, k.1);
        if (r.server, r.uuid) == k {
          if InUse(st, r.server, r.uuid) {
            var x :| x in st.subs && st.subs[x].uuid == r.uuid
                     && st.subs[x].origin == Some(r.server) && st.subs[x].live;
            assert st'.subs[x].uuid == k.1 && st'.subs[x].origin == Some(k.0);
          }
        } else {
          DoneStays(st, i, k.0, k.1);
        }
      }
    }
  }

  /** A disable request goes out only for a credential that nobody uses on that server, whatever
      rows there are: moving there and back never cuts off a live subscription. */
  lemma SweepSparesTheLive(st: State, i: nat, answer: Answer, id: SubId)
    requires i < |st.rows| && id in st.subs && st.subs[id].live
    requires st.rows[i].uuid == st.subs[id].uuid && st.subs[id].origin == Some(st.rows[i].server)
    ensures !Calls(st, i) && Sweep(st, i, answer).disabled == st.disabled
    ensures !Sweep(st, i, answer).rows[i].pending
  {
    assert InUse(st, st.rows[i].server, st.rows[i].uuid);
  }

  /** A waiting row is closed exactly when its server is no longer known, its credential is in use
      there again, or an Xray server that can be asked answers that it is disabled. */
  lemma SweepClosesIff(st: State, i: nat, answer: Answer)
    requires i < |st.rows| && st.rows[i].pending
    ensures var r, st' := st.rows[i], Sweep(st, i, answer);
            && |st'.rows| == |st.rows| && (forall j :: 0 <= j < |st.rows| && j != i ==> st'.rows[j] == st.rows[j])
            && (!st'.rows[i].pending <==>
                  || r.server !in st.servers || InUse(st, r.server, r.uuid)
                  || (var s := st.servers[r.server];
                      s.xray && s.isActive && s.callable && answer in {Applied, NewerDisabled}))
            && st'.subs == st.subs && st'.servers == st.servers
  {
  }

  // ----- the admin's moves

  /** Moving one subscription without cancelling keeps the aim exactly when no cleanup of its
      credential is waiting on the target. */
  lemma AdminMoveKeepsAimIff(st: State, id: SubId, source: ServerId, target: ServerId)
    requires UniqueUuids(st) && NoneAimedAtCurrent(st) && id in st.subs && source != target
    ensures NoneAimedAtCurrent(MoveOne(st, id, source, target)) <==> !Queued(st.rows, target, st.subs[id].uuid)
  {
    var st', u := MoveOne(st, id, source, target), st.subs[id].uuid;
    if Queued(st.rows, target, u) {
      var i :| 0 <= i < |st.rows| && st.rows[i] == Row(target, u, true);
      assert Targets(st'.rows[i], st'.subs[id]);
    } else {
      forall x, i | x in st'.subs && 0 <= i < |st'.rows| ensures !Targets(st'.rows[i], st'.subs[x]) {
        if i < |st.rows| { assert st'.rows[i] == st.rows[i]; }
        if x != id { assert st.subs[x].uuid != u; }
      }
    }
  }

  predicate AllOn(st: State, ids: seq<SubId>, s: ServerId) {
    && (forall i, j :: 0 <= i < j < |ids| ==> ids[i] != ids[j])
    && (forall id :: id in ids ==> id in st.subs && st.subs[id].origin == Some(s))
  }

  lemma MoveOneAccounts(st: State, id: SubId, source: ServerId, target: ServerId, s: ServerId, u: Uuid)
    requires Inv(st) && id in st.subs && st.subs[id].origin == Some(source)
    requires (s, u) in MoveOne(st, id, source, target).left
    ensures Accounted(MoveOne(st, id, source, target), s, u)
  {
    var sub, st' := st.subs[id], MoveOne(st, id, source, target);
    if (s, u) == (target, sub.uuid) {
      assert st'.subs[id].uuid == u && st'.subs[id].origin == Some(s);
    } else if (s, u) == (source, sub.uuid) {
      assert st'.rows[|st.rows|] == Row(s, u, true);
    } else {
      assert Accounted(st, s, u);
      if Queued(st.rows, s, u) { QueuedStays(st.rows, st'.rows, s, u); }
      if Back(st, s, u) {
        var x :| x in st.subs && st.subs[x].uuid == u && st.subs[x].origin == Some(s);
        assert x != id;
        assert st'.subs[x] == st.subs[x];
      }
    }
  }

  predicate OnlyMoved(st: State, st': State, ids: seq<SubId>) {
    && st'.subs.Keys == st.subs.Keys && st'.servers == st.servers && st'.gone == st.gone
    && forall id :: id in st.subs && id !in ids ==> st'.subs[id] == st.subs[id]
  }

  lemma MoveOneKeeps(st: State, id: SubId, source: ServerId, target: ServerId)
    requires Inv(st) && id in st.subs && st.subs[id].origin == Some(source) && XrayOrGone(st, source)
    ensures Inv(MoveOne(st, id, source, target)) && OnlyMoved(st, MoveOne(st, id, source, target), [id])
  {
    var st' := MoveOne(st, id, source, target);
    forall k | k in st'.left ensures Accounted(st', k.0, k.1) {
      MoveOneAccounts(st, id, source, target, k.0, k.1);
    }
  }

  lemma AllOnPrefix(st: State, pre: seq<SubId>, id: SubId, s: ServerId)
    requires AllOn(st, pre + [id], s)
    ensures AllOn(st, pre, s) && id !in pre && id in st.subs && st.subs[id].origin == Some(s)
  {
    var ids := pre + [id];
    assert ids[|pre|] == id;
    assert forall i :: 0 <= i < |pre| ==> ids[i] == pre[i];
    assert id in ids;
    assert forall x :: x in pre ==> x in ids;
  }

  lemma {:induction false} MoveAllKeeps(st: State, ids: seq<SubId>, source: ServerId, target: ServerId)
    requires Inv(st) && AllOn(st, ids, source) && XrayOrGone(st, source)
    ensures Inv(MoveAll(st, ids, source, target)) && OnlyMoved(st, MoveAll(st, ids, source, target), ids)
  {
    hide Inv, MoveOne, AllOn;
    if ids != [] {
      var pre, id := ids[..|ids| - 1], ids[|ids| - 1];
      assert ids == pre + [id];
      AllOnPrefix(st, pre, id, source);
      MoveAllKeeps(st, pre, source, target);
      var r := MoveAll(st, pre, source, target);
      assert r.subs[id] == st.subs[id];
      MoveOneKeeps(r, id, source, target);
    }
  }

  lemma MovedRow(st: State, ids: seq<SubId>, source: ServerId, target: ServerId, id: SubId)
    requires AllOn(st, ids, source) && id in ids
    ensures var st' := MoveAll(st, ids, source, target);
            && st.rows <= st'.rows && id in st'.subs && st'.subs[id] == st.subs[id].(origin := Some(target))
    decreases |ids|
  {
    var pre, last := ids[..|ids| - 1], ids[|ids| - 1];
    assert ids == pre + [last];
    AllOnPrefix(st, pre, last, source);
    MoveAllFrame(st, pre, source, target);
    if id != last { MovedRow(st, pre, source, target, id); }
  }

  /** New rows are for the source only, and subscriptions that are not moved stay as they are. */
  lemma {:induction false} MoveAllFrame(st: State, ids: seq<SubId>, source: ServerId, target: ServerId)
    requires AllOn(st, ids, source)
    ensures var st' := MoveAll(st, ids, source, target);
            && st'.subs.Keys == st.subs.Keys && st.rows <= st'.rows
            && (forall i :: |st.rows| <= i < |st'.rows| ==> st'.rows[i].server == source)
            && (forall id :: id in st.subs ==>
                  st'.subs[id] == st.subs[id] || st'.subs[id] == st.subs[id].(origin := Some(target)))
            && (forall id :: id in st.subs && id !in ids ==> st'.subs[id] == st.subs[id])
  {
    if ids != [] {
      var pre, last := ids[..|ids| - 1], ids[|ids| - 1];
      assert ids == pre + [last];
      AllOnPrefix(st, pre, last, source);
      MoveAllFrame(st, pre, source, target);
    }
  }

  /** No credential among `ids` has a cleanup waiting on the target. */
  predicate NoneWaiting(st: State, ids: seq<SubId>, target: ServerId) {
    forall id :: id in ids && id in st.subs ==> !Queued(st.rows, target, st.subs[id].uuid)
  }

  lemma QueuedStaysSame(rows: seq<Row>, rows': seq<Row>, source: ServerId, target: ServerId, u: Uuid)
    requires rows <= rows' && source != target && forall i :: |rows| <= i < |rows'| ==> rows'[i].server == source
    ensures Queued(rows', target, u) <==> Queued(rows, target, u)
  {
    assert forall i :: 0 <= i < |rows| ==> rows'[i] == rows[i];
  }

  lemma WaitingBreaksAim(st: State, ids: seq<SubId>, source: ServerId, target: ServerId)
    requires AllOn(st, ids, source) && !NoneWaiting(st, ids, target)
    ensures !NoneAimedAtCurrent(MoveAll(st, ids, source, target))
  {
    var st' := MoveAll(st, ids, source, target);
    var id :| id in ids && id in st.subs && Queued(st.rows, target, st.subs[id].uuid);
    MovedRow(st, ids, source, target, id);
    var i :| 0 <= i < |st.rows| && st.rows[i] == Row(target, st.subs[id].uuid, true);
    assert Targets(st'.rows[i], st'.subs[id]);
  }

  lemma {:induction false} NoneWaitingKeepsAim(st: State, ids: seq<SubId>, source: ServerId, target: ServerId)
    requires UniqueUuids(st) && NoneAimedAtCurrent(st) && AllOn(st, ids, source) && source != target
    requires NoneWaiting(st, ids, target)
    ensures NoneAimedAtCurrent(MoveAll(st, ids, source, target)) && UniqueUuids(MoveAll(st, ids, source, target))
  {
    if ids != [] {
      var pre, last := ids[..|ids| - 1], ids[|ids| - 1];
      assert ids == pre + [last];
      AllOnPrefix(st, pre, last, source);
      NoneWaitingKeepsAim(st, pre, source, target);
      MoveAllFrame(st, pre, source, target);
      var r := MoveAll(st, pre, source, target);
      QueuedStaysSame(st.rows, r.rows, source, target, st.subs[last].uuid);
      hide MoveAll, NoneAimedAtCurrent, AllOn;
      MoveOneKeepsAim(r, last, source, target);
      LastMove(st, pre, last, source, target);
    }
  }

  lemma LastMove(st: State, pre: seq<SubId>, last: SubId, source: ServerId, target: ServerId)
    requires last in MoveAll(st, pre, source, target).subs
    ensures MoveAll(st, pre + [last], source, target) == MoveOne(MoveAll(st, pre, source, target), last, source, target)
  {
    assert (pre + [last])[..|pre|] == pre;
  }

  lemma MoveOneKeepsAim(st: State, id: SubId, source: ServerId, target: ServerId)
    requires UniqueUuids(st) && NoneAimedAtCurrent(st) && id in st.subs && source != target
    requires !Queued(st.rows, target, st.subs[id].uuid)
    ensures NoneAimedAtCurrent(MoveOne(st, id, source, target)) && UniqueUuids(MoveOne(st, id, source, target))
  {
    AdminMoveKeepsAimIff(st, id, source, target);
  }

  /** An admin migration keeps the aim exactly when no cleanup of a moved credential is waiting on
      the target. */
  lemma AdminMigrationKeepsAimIff(st: State, ids: seq<SubId>, source: ServerId, target: ServerId)
    requires UniqueUuids(st) && NoneAimedAtCurrent(st) && AllOn(st, ids, source) && source != target
    ensures NoneAimedAtCurrent(MoveAll(st, ids, source, target)) <==> NoneWaiting(st, ids, target)
  {
    if NoneWaiting(st, ids, target) {
      NoneWaitingKeepsAim(st, ids, source, target);
    } else {
      WaitingBreaksAim(st, ids, source, target);
    }
  }

  /** Placing a subscription that has no origin keeps the aim exactly when no cleanup of its
      credential is waiting there. */
  lemma ReallocationKeepsAimIff(st: State, id: SubId, to: ServerId)
    requires UniqueUuids(st) && NoneAimedAtCurrent(st) && id in st.subs
             && st.subs[id].origin == None && st.subs[id].live
    ensures NoneAimedAtCurrent(Reallocate(st, id, to)) <==> !Queued(st.rows, to, st.subs[id].uuid)
  {
    var st', u := Reallocate(st, id, to), st.subs[id].uuid;
    if Queued(st.rows, to, u) {
      var i :| 0 <= i < |st.rows| && st.rows[i] == Row(to, u, true);
      assert Targets(st'.rows[i], st'.subs[id]);
    } else {
      forall x, i | x in st'.subs && 0 <= i < |st'.rows| ensures !Targets(st'.rows[i], st'.subs[x]) {
        assert st'.rows[i] == st.rows[i];
      }
    }
  }

  lemma ReallocateKeeps(st: State, id: SubId, to: ServerId)
    requires Inv(st)
    ensures Inv(Reallocate(st, id, to))
  {
    var st' := Reallocate(st, id, to);
    if st' != st {
      forall k | k in st'.left ensures Accounted(st', k.0, k.1) {
        assert Accounted(st, k.0, k.1);
        if k == (to, st.subs[id].uuid) {
          assert st'.subs[id].uuid == k.1 && st'.subs[id].origin == Some(k.0);
        } else if Back(st, k.0, k.1) {
          var x :| x in st.subs && st.subs[x].uuid == k.1 && st.subs[x].origin == Some(k.0);
          assert st'.subs[x] == st.subs[x];
        }
      }
    }
  }

  lemma DeleteKeeps(st: State, s: ServerId)
    requires Inv(st)
    ensures Inv(Delete(st, s))
    ensures NoneAimedAtCurrent(st) ==> NoneAimedAtCurrent(Delete(st, s))
  {
    var st' := Delete(st, s);
    forall k | k in st'.left ensures Accounted(st', k.0, k.1) {
      assert Accounted(st, k.0, k.1);
      if k.0 != s && Back(st, k.0, k.1) {
        var x :| x in st.subs && st.subs[x].uuid == k.1 && st.subs[x].origin == Some(k.0);
        assert st'.subs[x] == st.subs[x];
      }
    }
    forall i | 0 <= i < |st'.rows| ensures XrayOrGone(st', st'.rows[i].server)
    { assert XrayOrGone(st, st.rows[i].server); }
    forall k | k in st'.left ensures XrayOrGone(st', k.0) { assert XrayOrGone(st, k.0); }
  }

  lemma PurgeKeeps(st: State, s: ServerId)
    requires Inv(st)
    ensures Inv(Purge(st, s))
    ensures NoneAimedAtCurrent(st) ==> NoneAimedAtCurrent(Purge(st, s))
  {
    var st' := Purge(st, s);
    PurgeIs(st.rows, s);
    forall k | k in st'.left ensures Accounted(st', k.0, k.1) {
      assert Accounted(st, k.0, k.1);
      if k.0 != s {
        if Queued(st.rows, k.0, k.1) { QueuedStays(st.rows, st'.rows, k.0, k.1); }
        if Back(st, k.0, k.1) {
          var x :| x in st.subs && st.subs[x].uuid == k.1 && st.subs[x].origin == Some(k.0);
          assert st'.subs[x] == st.subs[x];
        }
      }
    }
  }

  // ----- runs

  datatype Event =
    | Operation(kind: Kind, id: SubId, candidate: Option<ServerId>, accepted: bool)
    | SweepRow(i: nat, answer: Answer)
    | Unallocated(id: SubId, to: ServerId)
    | AdminMove(ids: seq<SubId>, source: ServerId, target: ServerId)
    | PurgeServer(server: ServerId)
    | DeleteServer(server: ServerId)
    | SetServer(server: ServerId, now: Server)
    | NewSub(id: SubId, sub: Sub)
    | SetStatus(id: SubId, live: bool, deleting: bool)

  predicate NewUuid(st: State, u: Uuid) {
    && (forall id :: id in st.subs ==> st.subs[id].uuid != u)
    && (forall i :: 0 <= i < |st.rows| ==> st.rows[i].uuid != u)
  }

  /** Server ids and generated credentials are never used twice, a server keeps its protocol. */
  predicate Enabled(st: State, ev: Event) {
    match ev
    case Operation(_, _, c, _) => Allocated(st, c)
    case Unallocated(_, to) => Allocated(st, Some(to))
    case AdminMove(ids, s, t) => s != t && s in st.servers && st.servers[s].xray && AllOn(st, ids, s)
    case SetServer(s, now) => s !in st.gone && (s in st.servers ==> now.xray == st.servers[s].xray)
    case NewSub(id, sub) => id !in st.subs && NewUuid(st, sub.uuid)
    case SetStatus(id, _, _) => id in st.subs
    case _ => true
  }

  function Step(st: State, ev: Event): State {
    if !Enabled(st, ev) then st
    else match ev
      case Operation(kind, id, c, ok) => Operate(st, kind, id, c, ok)
      case Unallocated(id, to) => Reallocate(st, id, to)
      case SweepRow(i, a) => Sweep(st, i, a)
      case AdminMove(ids, s, t) => MoveAll(st, ids, s, t)
      case PurgeServer(s) => Purge(st, s)
      case DeleteServer(s) => Delete(st, s)
      case SetServer(s, now) => st.(servers := st.servers[s := now])
      case NewSub(id, sub) => st.(subs := st.subs[id := sub])
      case SetStatus(id, l, d) => st.(subs := st.subs[id := st.subs[id].(live := l, deleting := d)])
  }

  const NOTHING := State(map[], map[], [], {}, {}, {})

  function Run(evs: seq<Event>): State {
    if evs == [] then NOTHING else Step(Run(evs[..|evs| - 1]), evs[|evs| - 1])
  }

  lemma OperateKeeps(st: State, kind: Kind, id: SubId, c: Option<ServerId>, ok: bool)
    requires Inv(st) && Allocated(st, c)
    ensures Inv(Operate(st, kind, id, c, ok))
    ensures NoneAimedAtCurrent(st) ==> NoneAimedAtCurrent(Operate(st, kind, id, c, ok))
  {
    if Operate(st, kind, id, c, ok) != st {
      NewOriginDiffers(st, st.subs[id], c.value);
      RelocateKeeps(st, id, c.value);
      if NoneAimedAtCurrent(st) { RelocateKeepsAim(st, id, c.value); }
    }
  }

  predicate SameOrigins(st: State, st': State) {
    && st'.rows == st.rows && st'.left == st.left && st'.disabled == st.disabled && st.gone <= st'.gone
    && (forall s :: s in st.servers ==>
          (s in st'.servers && st'.servers[s].xray == st.servers[s].xray) || s in st'.gone)
    && (forall id :: id in st.subs ==>
         id in st'.subs && st'.subs[id].uuid == st.subs[id].uuid && st'.subs[id].origin == st.subs[id].origin)
  }

  lemma SameOriginsKeeps(st: State, st': State)
    requires Inv(st) && SameOrigins(st, st') && UniqueUuids(st')
    ensures Inv(st')
  {
    forall k | k in st'.left ensures Accounted(st', k.0, k.1) {
      assert Accounted(st, k.0, k.1);
      if Back(st, k.0, k.1) {
        var x :| x in st.subs && st.subs[x].uuid == k.1 && st.subs[x].origin == Some(k.0);
        assert st'.subs[x].uuid == k.1;
      }
    }
    forall i | 0 <= i < |st'.rows| ensures XrayOrGone(st', st'.rows[i].server)
    { assert XrayOrGone(st, st.rows[i].server); }
    forall k | k in st'.left ensures XrayOrGone(st', k.0) { assert XrayOrGone(st, k.0); }
  }

  lemma StepKeeps(st: State, ev: Event)
    requires Inv(st)
    ensures Inv(Step(st, ev))
  {
    if Enabled(st, ev) {
      match ev
      case Operation(kind, id, c, ok) => OperateKeeps(st, kind, id, c, ok);
      case SweepRow(i, a) => SweepKeeps(st, i, a);
      case Unallocated(id, to) => ReallocateKeeps(st, id, to);
      case AdminMove(ids, s, t) => MoveAllKeeps(st, ids, s, t);
      case PurgeServer(s) => PurgeKeeps(st, s);
      case DeleteServer(s) => DeleteKeeps(st, s);
      case _ => SameOriginsKeeps(st, Step(st, ev));
    }
  }

  /** On every run, admin moves and new placements included: no origin a credential was moved away
      from is forgotten. */
  lemma {:induction false} NoOriginForgotten(evs: seq<Event>)
    ensures Inv(Run(evs)) && NothingOrphaned(Run(evs))
  {
    if evs != [] {
      NoOriginForgotten(evs[..|evs| - 1]);
      StepKeeps(Run(evs[..|evs| - 1]), evs[|evs| - 1]);
    }
  }

  /** The two writers of an origin that cancel nothing find no cleanup of the credential waiting. */
  predicate Clear(st: State, ev: Event) {
    match ev
    case AdminMove(ids, s, t) => Enabled(st, ev) ==> NoneWaiting(st, ids, t)
    case Unallocated(id, to) =>
      Enabled(st, ev) && id in st.subs && st.subs[id].origin == None && st.subs[id].live
      ==> !Queued(st.rows, to, st.subs[id].uuid)
    case _ => true
  }

  lemma StepKeepsAimIff(st: State, ev: Event)
    requires Inv(st) && NoneAimedAtCurrent(st)
    ensures NoneAimedAtCurrent(Step(st, ev)) <==> Clear(st, ev)
  {
    if Enabled(st, ev) {
      match ev
      case Operation(kind, id, c, ok) => OperateKeeps(st, kind, id, c, ok);
      case SweepRow(i, a) => SweepKeeps(st, i, a);
      case Unallocated(id, to) =>
        if id in st.subs && st.subs[id].origin == None && st.subs[id].live { ReallocationKeepsAimIff(st, id, to); }
      case AdminMove(ids, s, t) => AdminMigrationKeepsAimIff(st, ids, s, t);
      case PurgeServer(s) => PurgeKeeps(st, s);
      case DeleteServer(s) => DeleteKeeps(st, s);
      case _ =>
    }
  }

  predicate AimedAtNoneSoFar(evs: seq<Event>) {
    forall n :: 0 <= n <= |evs| ==> NoneAimedAtCurrent(Run(evs[..n]))
  }

  predicate ClearSoFar(evs: seq<Event>) {
    forall n :: 0 <= n < |evs| ==> Clear(Run(evs[..n]), evs[n])
  }

  /** On every run of operations, sweeps, placements, admin moves, failures and deletions: no pending
      cleanup ever targets a current origin if and only if every admin move and every new placement
      found no cleanup of its credentials waiting on the server. */
  lemma {:induction false} NeverAimedAtCurrentIff(evs: seq<Event>)
    ensures AimedAtNoneSoFar(evs) <==> ClearSoFar(evs)
  {
    if evs != [] {
      var pre, ev := evs[..|evs| - 1], evs[|evs| - 1];
      NeverAimedAtCurrentIff(pre);
      NoOriginForgotten(pre);
      Prefixes(evs);
      hide Clear, NoneAimedAtCurrent, Inv, Step;
      if NoneAimedAtCurrent(Run(pre)) { StepKeepsAimIff(Run(pre), ev); }
    }
  }

  lemma Prefixes(evs: seq<Event>)
    requires evs != []
    ensures var pre := evs[..|evs| - 1];
            && (AimedAtNoneSoFar(evs) <==> AimedAtNoneSoFar(pre) && NoneAimedAtCurrent(Run(evs)))
            && (ClearSoFar(evs) <==> ClearSoFar(pre) && Clear(Run(pre), evs[|evs| - 1]))
            && (AimedAtNoneSoFar(pre) ==> NoneAimedAtCurrent(Run(pre)))
  {
    hide NoneAimedAtCurrent, Clear, Run;
    var pre := evs[..|evs| - 1];
    assert evs[..|evs|] == evs && pre[..|pre|] == pre;
    assert forall n :: 0 <= n <= |pre| ==> pre[..n] == evs[..n];
  }

  predicate OnlyPaidOperations(evs: seq<Event>) {
    forall i :: 0 <= i < |evs| ==> !evs[i].AdminMove? && !evs[i].Unallocated?
  }

  /** In particular on every run of conversions, renewals, device slots, top-ups, cleanups, failures
      and deletions, there and back in any order. */
  lemma NeverAimedAtCurrent(evs: seq<Event>)
    requires OnlyPaidOperations(evs)
    ensures NoneAimedAtCurrent(Run(evs))
  {
    NeverAimedAtCurrentIff(evs);
    assert evs[..|evs|] == evs;
  }

  // ----- the two exceptions are real

  const GOOD := Server(true, true, true, true, true, true)
  const DOWN := GOOD.(online := false)
  const SUB := Sub("u", Some(2), true, false)

  /** Server 2 fails, a renewal moves the subscription to server 1 and queues a cleanup on 2. */
  const MOVED: seq<Event> := [
    SetServer(1, GOOD), SetServer(2, GOOD), NewSub(7, SUB), SetServer(2, DOWN), Operation(Renewal, 7, Some(1), true)]

  /** Server 2 is back when an admin moves the subscription there again. */
  const ADMIN_RUN: seq<Event> := MOVED + [SetServer(2, GOOD), AdminMove([7], 1, 2)]

  /** The subscription lapses, server 1 is deleted, an extension revives it, and server 2 is back
      when the worker looks for an origin. */
  const WORKER_RUN: seq<Event> := MOVED + [
    SetStatus(7, false, false), DeleteServer(1), SetStatus(7, true, false), SetServer(2, GOOD), Unallocated(7, 2)]

  lemma RunAt(evs: seq<Event>, k: nat)
    requires k < |evs|
    ensures Run(evs[..k + 1]) == Step(Run(evs[..k]), evs[k])
  {
    assert evs[..k + 1][..k] == evs[..k];
  }

  const AFTER_MOVE := State(
    map[7 := SUB.(origin := Some(1))], map[1 := GOOD, 2 := DOWN], [Row(2, "u", true)], {}, {(2, "u")}, {})

  lemma RenewalMoves(st: State)
    requires st == State(map[7 := SUB], map[1 := GOOD, 2 := DOWN], [], {}, {}, {})
    ensures Step(st, Operation(Renewal, 7, Some(1), true)) == AFTER_MOVE
  {
    assert NeedsMigration(st, SUB);
    assert Place(st, 7, 1).rows == [];
    assert Place(st, 7, 1).subs == map[7 := SUB.(origin := Some(1))];
    assert [] + [Row(2, "u", true)] == [Row(2, "u", true)];
  }

  lemma ServerSet(st: State, s: ServerId, now: Server)
    requires s !in st.gone && (s in st.servers ==> now.xray == st.servers[s].xray)
    ensures Step(st, SetServer(s, now)) == st.(servers := st.servers[s := now])
  {
  }

  lemma SubAdded()
    ensures var st := NOTHING.(servers := map[1 := GOOD, 2 := GOOD]);
            Step(st, NewSub(7, SUB)) == st.(subs := map[7 := SUB])
  {
    var st := NOTHING.(servers := map[1 := GOOD, 2 := GOOD]);
    assert NewUuid(st, "u");
    assert st.subs[7 := SUB] == map[7 := SUB];
  }

  lemma TwoServers(evs: seq<Event>)
    requires MOVED <= evs
    ensures Run(evs[..2]) == NOTHING.(servers := map[1 := GOOD, 2 := GOOD])
  {
    NoEvents(evs);
    RunAt(evs, 0);
    RunAt(evs, 1);
    hide Run, Step;
    assert evs[0] == MOVED[0] && evs[1] == MOVED[1];
    ServerSet(NOTHING, 1, GOOD);
    ServerSet(Run(evs[..1]), 2, GOOD);
    assert map[1 := GOOD][2 := GOOD] == map[1 := GOOD, 2 := GOOD];
  }

  lemma MovedState(evs: seq<Event>)
    requires MOVED <= evs
    ensures Run(evs[..5]) == AFTER_MOVE
  {
    TwoServers(evs);
    RunAt(evs, 2);
    RunAt(evs, 3);
    RunAt(evs, 4);
    hide Run, Step;
    assert evs[2] == MOVED[2] && evs[3] == MOVED[3] && evs[4] == MOVED[4];
    SubAdded();
    ServerSet(Run(evs[..3]), 2, DOWN);
    assert map[1 := GOOD, 2 := GOOD][2 := DOWN] == map[1 := GOOD, 2 := DOWN];
    RenewalMoves(Run(evs[..4]));
  }

  lemma NoEvents(evs: seq<Event>)
    ensures Run(evs[..0]) == NOTHING
  {
  }

  lemma AimedAt(st: State)
    requires st.subs == map[7 := SUB] && st.rows != [] && st.rows[0] == Row(2, "u", true)
    ensures !NoneAimedAtCurrent(st)
  {
    assert Targets(st.rows[0], st.subs[7]);
  }

  lemma MovedBack(st: State)
    requires st == AFTER_MOVE.(servers := map[1 := GOOD, 2 := GOOD])
    ensures !NoneAimedAtCurrent(Step(st, AdminMove([7], 1, 2)))
  {
    assert AllOn(st, [7], 1);
    assert [7][..0] == [] && MoveAll(st, [7], 1, 2) == MoveOne(MoveAll(st, [], 1, 2), 7, 1, 2);
    AimedAt(MoveOne(st, 7, 1, 2));
  }

  /** An admin migration back to the failed server, once it is up again, aims at the current origin. */
  lemma AdminRunAims()
    ensures !NoneAimedAtCurrent(Run(ADMIN_RUN))
  {
    var evs := ADMIN_RUN;
    MovedState(evs);
    RunAt(evs, 5);
    RunAt(evs, 6);
    hide Run, Step, NoneAimedAtCurrent;
    assert evs[..7] == evs && evs[5] == SetServer(2, GOOD) && evs[6] == AdminMove([7], 1, 2);
    ServerSet(AFTER_MOVE, 2, GOOD);
    assert map[1 := GOOD, 2 := DOWN][2 := GOOD] == map[1 := GOOD, 2 := GOOD];
    MovedBack(Run(evs[..6]));
  }

  const LAPSED := SUB.(origin := Some(1), live := false)
  const STRAY := AFTER_MOVE.(subs := map[7 := LAPSED.(origin := None)], servers := map[2 := DOWN], gone := {1})

  lemma Lapses()
    ensures var st := Step(AFTER_MOVE, SetStatus(7, false, false));
            st == AFTER_MOVE.(subs := map[7 := LAPSED]) && MayDelete(st, 1)
  {
    assert AFTER_MOVE.subs[7 := LAPSED] == map[7 := LAPSED];
  }

  lemma Deleted()
    ensures Step(AFTER_MOVE.(subs := map[7 := LAPSED]), DeleteServer(1)) == STRAY
  {
    var st := AFTER_MOVE.(subs := map[7 := LAPSED]);
    assert Delete(st, 1).subs == map[7 := LAPSED.(origin := None)];
    assert Delete(st, 1).servers == map[2 := DOWN];
    assert {} + {1} == {1};
  }

  lemma Revived()
    ensures Step(STRAY, SetStatus(7, true, false)) == STRAY.(subs := map[7 := SUB.(origin := None)])
  {
    assert STRAY.subs[7 := SUB.(origin := None)] == map[7 := SUB.(origin := None)];
  }

  lemma PlacedBack(st: State)
    requires st == STRAY.(subs := map[7 := SUB.(origin := None)], servers := map[2 := GOOD])
    ensures !NoneAimedAtCurrent(Step(st, Unallocated(7, 2)))
  {
    assert st.subs[7 := SUB] == map[7 := SUB];
    AimedAt(Step(st, Unallocated(7, 2)));
  }

  lemma StrayState(evs: seq<Event>)
    requires evs == WORKER_RUN
    ensures Run(evs[..7]) == STRAY && MayDelete(Run(evs[..6]), 1)
  {
    MovedState(evs);
    RunAt(evs, 5);
    RunAt(evs, 6);
    hide Run, Step, MayDelete;
    assert evs[5] == SetStatus(7, false, false) && evs[6] == DeleteServer(1);
    Lapses();
    Deleted();
  }

  lemma RevivedState(evs: seq<Event>)
    requires evs == WORKER_RUN
    ensures Run(evs[..9]) == STRAY.(subs := map[7 := SUB.(origin := None)], servers := map[2 := GOOD])
  {
    StrayState(evs);
    RunAt(evs, 7);
    RunAt(evs, 8);
    hide Run, Step, MayDelete;
    assert evs[7] == SetStatus(7, true, false) && evs[8] == SetServer(2, GOOD);
    Revived();
    ServerSet(Run(evs[..8]), 2, GOOD);
    assert map[2 := DOWN][2 := GOOD] == map[2 := GOOD];
  }

  /** And so does the worker's placement after the server between was deleted, by the rules. */
  lemma WorkerRunAims()
    ensures MayDelete(Run(WORKER_RUN[..6]), 1) && WORKER_RUN[6] == DeleteServer(1)
    ensures !NoneAimedAtCurrent(Run(WORKER_RUN))
  {
    var evs := WORKER_RUN;
    StrayState(evs);
    RevivedState(evs);
    RunAt(evs, 9);
    hide Run, Step, NoneAimedAtCurrent, MayDelete;
    assert evs[..10] == evs && evs[9] == Unallocated(7, 2);
    PlacedBack(Run(evs[..9]));
  }
}
