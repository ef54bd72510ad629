/** Moving a subscription between origin servers and cleaning up behind it
    (services/white_internet_service.py, database/repositories/white_internet_repo.py,
    services/workers/white_internet_reconciliation.py). */
module OriginOutbox {
  import opened Options

  type ServerId = nat
  type SubId = nat
  type Uuid = string

  datatype Server = Server(xray: bool, isActive: bool, online: bool,
                           lifecycleActive: bool, relays: bool, callable: bool)

  /** `live` is a status that uses the origin, `deleting` a deactivation under way. */
  datatype Sub = Sub(uuid: Uuid, origin: Option<ServerId>, live: bool, deleting: bool)

  /** A credential to be disabled on a former origin. */
  datatype Row = Row(server: ServerId, uuid: Uuid, pending: bool)

  /** `gone` are servers that were deleted or destroyed. The last two fields are history: the
      origins a credential was moved away from, and those where it was found disabled after the
      last move away. */
  datatype State = State(
    subs: map<SubId, Sub>, servers: map<ServerId, Server>, rows: seq<Row>, gone: set<ServerId>,
    left: set<(ServerId, Uuid)>, disabled: set<(ServerId, Uuid)>)

  // ----- the moves

  predicate Healthy(s: Server) {
    s.xray && s.isActive && s.online && s.lifecycleActive && s.relays
  }

  /** The origin row as the lifecycle methods look it up. */
  function OriginNode(st: State, sub: Sub): Option<ServerId> {
    if sub.origin.Some? && sub.origin.value in st.servers && st.servers[sub.origin.value].xray then sub.origin else None
  }

  predicate NeedsMigration(st: State, sub: Sub) {
    match OriginNode(st, sub) case None => true case Some(o) => !Healthy(st.servers[o])
  }

  /** What allocation promises: the server it hands out passes the health test. */
  predicate Allocated(st: State, candidate: Option<ServerId>) {
    candidate.Some? ==> candidate.value in st.servers && Healthy(st.servers[candidate.value])
  }

  function Cancel(rows: seq<Row>, s: ServerId, u: Uuid): seq<Row> {
    if rows == [] then []
    else
      var r := rows[|rows| - 1];
      Cancel(rows[..|rows| - 1], s, u) + [if r.pending && r.server == s && r.uuid == u then r.(pending := false) else r]
  }

  function Place(st: State, id: SubId, to: ServerId): State
    requires id in st.subs
  {
    var sub := st.subs[id];
    st.(subs := st.subs[id := sub.(origin := Some(to))], rows := Cancel(st.rows, to, sub.uuid),
        disabled := st.disabled - {(to, sub.uuid)})
  }

  function Enqueue(st: State, from: Option<ServerId>, u: Uuid): State {
    if from == None then st
    else st.(rows := st.rows + [Row(from.value, u, true)], left := st.left + {(from.value, u)},
             disabled := st.disabled - {(from.value, u)})
  }

  function Relocate(st: State, id: SubId, to: ServerId): State
    requires id in st.subs
  {
    Enqueue(Place(st, id, to), OriginNode(st, st.subs[id]), st.subs[id].uuid)
  }

  datatype Kind = Conversion | Renewal | DeviceSlot | QuotaTopup

  /** A deactivation under way stops conversions and renewals. */
  predicate Refuses(kind: Kind, sub: Sub) {
    sub.deleting && (kind == Conversion || kind == Renewal)
  }

  /** The part the four operations share: an unhealthy origin is replaced, but only when another is
      free, the operation's other checks pass and the payment goes through (`accepted`). */
  function Operate(st: State, kind: Kind, id: SubId, candidate: Option<ServerId>, accepted: bool): State {
    if id !in st.subs || Refuses(kind, st.subs[id]) || !accepted
       || !NeedsMigration(st, st.subs[id]) || candidate == None
    then st else Relocate(st, id, candidate.value)
  }

  /** The worker finds an origin for a live subscription that has none. It cancels nothing. */
  function Reallocate(st: State, id: SubId, to: ServerId): State {
    if id in st.subs && st.subs[id].origin == None && st.subs[id].live
    then st.(subs := st.subs[id := st.subs[id].(origin := Some(to))],
             disabled := st.disabled - {(to, st.subs[id].uuid)})
    else st
  }

  // ----- the sweep

  datatype Answer = Applied | NewerDisabled | NewerOther | Failed

  predicate InUse(st: State, s: ServerId, u: Uuid) {
    exists id :: id in st.subs && st.subs[id].uuid == u && st.subs[id].origin == Some(s) && st.subs[id].live
  }

  function Done(st: State, i: nat): State
    requires i < |st.rows|
  {
    st.(rows := st.rows[i := st.rows[i].(pending := false)])
  }

  /** Whether the sweep sends a disable request for row `i`. */
  predicate Calls(st: State, i: nat)
    requires i < |st.rows|
  {
    var r := st.rows[i];
    && r.pending && r.server in st.servers && !InUse(st, r.server, r.uuid)
    && st.servers[r.server].xray && st.servers[r.server].isActive && st.servers[r.server].callable
  }

  function Sweep(st: State, i: nat, answer: Answer): State {
    if i >= |st.rows| || !st.rows[i].pending then st
    else if st.rows[i].server !in st.servers || InUse(st, st.rows[i].server, st.rows[i].uuid) then Done(st, i)
    else if !Calls(st, i) || answer in {NewerOther, Failed} then st
    else Done(st.(disabled := st.disabled + {(st.rows[i].server, st.rows[i].uuid)}), i)
  }

  // ----- the admin's moves

  function MoveOne(st: State, id: SubId, source: ServerId, target: ServerId): State
    requires id in st.subs
  {
    var sub := st.subs[id];
    st.(rows := st.rows + [Row(source, sub.uuid, true)], left := st.left + {(source, sub.uuid)},
        subs := st.subs[id := sub.(origin := Some(target))],
        disabled := st.disabled - {(target, sub.uuid), (source, sub.uuid)})
  }

  function MoveAll(st: State, ids: seq<SubId>, source: ServerId, target: ServerId): State {
    if ids == [] then st
    else
      var r := MoveAll(st, ids[..|ids| - 1], source, target);
      if ids[|ids| - 1] in r.subs then MoveOne(r, ids[|ids| - 1], source, target) else r
  }

  function PurgeRows(rows: seq<Row>, s: ServerId): seq<Row> {
    if rows == [] then []
    else
      var r := rows[|rows| - 1];
      PurgeRows(rows[..|rows| - 1], s) + [if r.server == s then r.(pending := false) else r]
  }

  /** The node is destroyed: its rows are closed and its subscriptions lose their origin. */
  function Purge(st: State, s: ServerId): State {
    st.(rows := PurgeRows(st.rows, s), gone := st.gone + {s},
        subs := map id | id in st.subs ::
          if st.subs[id].origin == Some(s) then st.subs[id].(origin := None, live := false, deleting := false)
          else st.subs[id])
  }

  /** Deleting a server leaves its subscriptions without an origin. */
  function Delete(st: State, s: ServerId): State {
    st.(servers := st.servers - {s}, gone := st.gone + {s},
        subs := map id | id in st.subs ::
          if st.subs[id].origin == Some(s) then st.subs[id].(origin := None) else st.subs[id])
  }

  /** What the admin's delete dialog asks for. */
  predicate MayDelete(st: State, s: ServerId) {
    && (forall id :: id in st.subs && st.subs[id].origin == Some(s) ==> !st.subs[id].live && !st.subs[id].deleting)
    && (forall i :: 0 <= i < |st.rows| ==> !(st.rows[i].pending && st.rows[i].server == s))
  }

  // ----- what a paid operation may do

  /** The origin is there, is an Xray server and is in good health. */
  predicate OnHealthy(st: State, sub: Sub) {
    && sub.origin.Some? && sub.origin.value in st.servers
    && var s := st.servers[sub.origin.value];
       s.xray && s.isActive && s.online && s.lifecycleActive && s.relays
  }

  /** The operation is paid for, not a conversion or renewal during a deactivation, and an unhealthy
      origin has a replacement. */
  predicate MayProceed(st: State, kind: Kind, sub: Sub, candidate: Option<ServerId>, accepted: bool) {
    accepted && !(sub.deleting && kind in {Conversion, Renewal}) && (OnHealthy(st, sub) || candidate.Some?)
  }

  /** One new row to clean up on the old Xray origin, if there was one. */
  function FormerOrigin(st: State, sub: Sub): seq<Row> {
    if sub.origin.Some? && sub.origin.value in st.servers && st.servers[sub.origin.value].xray
    then [Row(sub.origin.value, sub.uuid, true)] else []
  }

  /** Only this subscription's origin changed, to `to`, and no server did. */
  predicate Replaced(st: State, st': State, id: SubId, to: ServerId) {
    && id in st.subs && st'.subs == st.subs[id := st.subs[id].(origin := Some(to))]
    && st'.servers == st.servers && st'.gone == st.gone
  }

  /** A paid operation that may not proceed changes nothing, and neither does one on a healthy origin;
      any other replaces the origin by the candidate, closes the cleanups waiting there and queues
      one for the old Xray origin. */
  lemma OperateIff(st: State, kind: Kind, id: SubId, candidate: Option<ServerId>, accepted: bool)
    requires Allocated(st, candidate) && id in st.subs
    ensures var sub, st' := st.subs[id], Operate(st, kind, id, candidate, accepted);
            if !MayProceed(st, kind, sub, candidate, accepted) || OnHealthy(st, sub) then st' == st
            else
              && Replaced(st, st', id, candidate.value) && OnHealthy(st', st'.subs[id])
              && st'.rows == Cancel(st.rows, candidate.value, sub.uuid) + FormerOrigin(st, sub)
  {
    assert forall rows: seq<Row> :: rows + [] == rows;
    hide Cancel;
  }

  // ----- in place

  class Outbox {
    var subs: map<SubId, Sub>
    var servers: map<ServerId, Server>
    var rows: seq<Row>
    var gone: set<ServerId>
    ghost var left: set<(ServerId, Uuid)>
    ghost var disabled: set<(ServerId, Uuid)>

    ghost function Snapshot(): State
      reads this
    {
      State(subs, servers, rows, gone, left, disabled)
    }

    method CancelPending(s: ServerId, u: Uuid)
      modifies this`rows
      ensures rows == Cancel(old(rows), s, u)
    {
      var result: seq<Row> := [];
      for i := 0 to |rows|
        invariant result == Cancel(rows[..i], s, u)
      {
        assert rows[..i + 1][..i] == rows[..i];
        var r := rows[i];
        if r.pending && r.server == s && r.uuid == u {
          r := r.(pending := false);
        }
        result := result + [r];
      }
      assert rows[..|rows|] == rows;
      rows := result;
    }

    /** The part of every paid lifecycle operation that replaces an unhealthy origin. */
    method OperateInPlace(kind: Kind, id: SubId, candidate: Option<ServerId>, accepted: bool) returns (ok: bool)
      requires Allocated(Snapshot(), candidate)
      modifies this`subs, this`rows, this`left, this`disabled
      ensures Snapshot() == Operate(old(Snapshot()), kind, id, candidate, accepted)
      ensures ok <==> id in old(subs) && MayProceed(old(Snapshot()), kind, old(subs)[id], candidate, accepted)
      ensures !ok || OnHealthy(old(Snapshot()), old(subs)[id]) ==> Snapshot() == old(Snapshot())
      ensures ok && !OnHealthy(old(Snapshot()), old(subs)[id]) ==>
                && Replaced(old(Snapshot()), Snapshot(), id, candidate.value) && OnHealthy(Snapshot(), subs[id])
                && rows == Cancel(old(rows), candidate.value, old(subs)[id].uuid)
                           + FormerOrigin(old(Snapshot()), old(subs)[id])
    {
      hide Cancel, Replaced, FormerOrigin;
      if id in subs { OperateIff(Snapshot(), kind, id, candidate, accepted); }
      if id !in subs || Refuses(kind, subs[id]) {
        return false;
      }
      var sub := subs[id];
      var originNode: Option<ServerId> :=
        if sub.origin.Some? && sub.origin.value in servers && servers[sub.origin.value].xray then sub.origin else None;
      var needsMigration := originNode == None || !Healthy(servers[originNode.value]);
      if needsMigration && candidate == None {
        return false;
      }
      if !accepted {
        return false;
      }
      if needsMigration {
        subs := subs[id := sub.(origin := candidate)];
        CancelPending(candidate.value, sub.uuid);
        disabled := disabled - {(candidate.value, sub.uuid)};
        if originNode.Some? {
          rows := rows + [Row(originNode.value, sub.uuid, true)];
          left := left + {(originNode.value, sub.uuid)};
          disabled := disabled - {(originNode.value, sub.uuid)};
        }
      }
      ok := true;
    }

    /** The worker's pass over subscriptions without an origin; `pick` is what allocation offers. */
    method SweepUnallocated(ids: seq<SubId>, pick: SubId -> Option<ServerId>)
      modifies this`subs, this`disabled
      ensures Snapshot() == ReallocateAll(old(Snapshot()), ids, pick)
    {
      var i := 0;
      while i < |ids|
        invariant 0 <= i <= |ids|
        invariant ReallocateAll(Snapshot(), ids[i..], pick) == ReallocateAll(old(Snapshot()), ids, pick)
      {
        assert ids[i..][1..] == ids[i + 1..];
        if ids[i] in subs && subs[ids[i]].origin == None && subs[ids[i]].live {
          var sub := subs[ids[i]];
          if pick(ids[i]) == None {
            break;
          }
          subs := subs[ids[i] := sub.(origin := pick(ids[i]))];
          disabled := disabled - {(pick(ids[i]).value, sub.uuid)};
        }
        i := i + 1;
      }
    }

    /** One pass over the outbox, a transaction for every row. */
    method SweepOrphanCleanups(answers: nat -> Answer)
      modifies this`rows, this`disabled
      ensures Snapshot() == SweepAll(old(Snapshot()), |old(rows)|, answers)
    {
      var n := |rows|;
      for i := 0 to n
        invariant |rows| == n
        invariant Snapshot() == SweepAll(old(Snapshot()), i, answers)
      {
        var r := rows[i];
        if r.pending {
          if r.server !in servers {
            rows := rows[i := r.(pending := false)];
          } else if exists id ::
              id in subs && subs[id].uuid == r.uuid && subs[id].origin == Some(r.server) && subs[id].live {
            rows := rows[i := r.(pending := false)];
          } else {
            var s := servers[r.server];
            if s.xray && s.isActive && s.callable {
              if answers(i) == Applied || answers(i) == NewerDisabled {
                rows := rows[i := r.(pending := false)];
                disabled := disabled + {(r.server, r.uuid)};
              }
            }
          }
        }
      }
    }

    method MigrateServer(ids: seq<SubId>, source: ServerId, target: ServerId)
      requires forall id :: id in ids ==> id in subs
      modifies this`subs, this`rows, this`left, this`disabled
      ensures Snapshot() == MoveAll(old(Snapshot()), ids, source, target)
    {
      for i := 0 to |ids|
        invariant subs.Keys == old(subs).Keys
        invariant Snapshot() == MoveAll(old(Snapshot()), ids[..i], source, target)
      {
        assert ids[..i + 1][..i] == ids[..i];
        var sub := subs[ids[i]];
        rows := rows + [Row(source, sub.uuid, true)];
        left := left + {(source, sub.uuid)};
        subs := subs[ids[i] := sub.(origin := Some(target))];
        disabled := disabled - {(target, sub.uuid), (source, sub.uuid)};
      }
      assert ids[..|ids|] == ids;
    }
  }

  function SweepAll(st: State, n: nat, answers: nat -> Answer): State {
    if n == 0 then st else Sweep(SweepAll(st, n - 1, answers), n - 1, answers(n - 1))
  }

  /** The pass stops at the first subscription no server is free for. */
  function ReallocateAll(st: State, ids: seq<SubId>, pick: SubId -> Option<ServerId>): State
    decreases |ids|
  {
    if ids == [] then st
    else if ids[0] in st.subs && st.subs[ids[0]].origin == None && st.subs[ids[0]].live then
      if pick(ids[0]) == None then st
      else ReallocateAll(Reallocate(st, ids[0], pick(ids[0]).value), ids[1..], pick)
    else ReallocateAll(st, ids[1..], pick)
  }
}
