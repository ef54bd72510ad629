/** The credential service as it runs: the subscription's fields are changed in place, the
    rounds are loops that fill a table of results. Every operation is proved to do what module
    CredentialSync says and to keep the invariant. */
module CredentialService {
  import opened CredentialSync
  import opened CredentialTheorems

  method ExtractNodeTargets(servers: seq<Server>) returns (targets: seq<ServerId>)
    ensures targets == Reachable(servers)
  {
    targets := [];
    for i := 0 to |servers|
      invariant targets == Reachable(servers[..i])
    {
      var s := servers[i];
      assert servers[..i + 1][..i] == servers[..i];
      if s.hasUrl {
        if s.hasKey {
          targets := targets + [s.id];
        }
      }
    }
    assert servers[..|servers|] == servers;
  }

  method SelectServers(table: seq<Server>, desired: bool) returns (servers: seq<Server>)
    ensures servers == ServersFor(table, desired)
  {
    servers := [];
    for i := 0 to |table|
      invariant servers == ServersFor(table[..i], desired)
    {
      var s := table[i];
      assert table[..i + 1][..i] == table[..i];
      if s.lifecycleActive && (s.isActive || !desired) && s.capable {
        servers := servers + [s];
      }
    }
    assert table[..|table|] == table;
  }

  class VlessSubscription {
    var uuid: Uuid
    var version: nat
    var active: bool
    var pending: seq<Uuid>
    var lastSynced: nat
    /** The nodes and the messages on their way to them, as far as this credential goes. */
    var nodes: Nodes
    var sent: set<Message>
    ghost var retiredAt: map<Uuid, nat>
    ghost var confirmed: set<(ServerId, Uuid, nat)>

    ghost function Snapshot(): State
      reads this
    {
      State(uuid, version, active, pending, lastSynced, nodes, sent, retiredAt, confirmed)
    }

    ghost predicate Valid()
      reads this
    {
      Inv(Snapshot())
    }

    constructor (u: Uuid, on: bool)
      ensures Valid() && Snapshot() == Initial(u, on)
    {
      uuid, version, active, pending, lastSynced := u, 1, on, [], 0;
      nodes, sent := map[], {};
      retiredAt, confirmed := map[], {};
    }

    method SyncClient(m: Message, d: Delivery) returns (ok: bool, conflict: bool)
      modifies this`nodes, this`sent
      ensures Exchange(Snapshot(), ok, conflict) == Send(old(Snapshot()), m, d)
      ensures var k := (m.server, m.uuid);
              && (ok || conflict ==> k in nodes && m.version <= nodes[k].version)
              && (ok ==> nodes[k].active == m.active) && (conflict ==> nodes[k].active != m.active)
      ensures d.Lost? || ((m.server, m.uuid) in old(nodes) && m.version <= old(nodes)[(m.server, m.uuid)].version)
              ==> nodes == old(nodes)
    {
      sent := sent + {m};
      if d.Lost? {
        return false, false;
      }
      var reply := ReplyTo(nodes, m);
      nodes := Apply(nodes, m);
      if d.Silent? {
        return false, false;
      }
      match reply
      case Applied => return d.verified, false;
      case AlreadyNewer(state) => return d.verified && state == m.active, state != m.active;
    }

    method ExecuteSync(targets: seq<ServerId>, u: Uuid, v: nat, a: bool, env: Env)
      returns (results: map<ServerId, bool>, needsVersionBump: bool)
      modifies this`nodes, this`sent
      ensures Round(Snapshot(), results, needsVersionBump) == SyncRound(old(Snapshot()), targets, u, v, a, env)
    {
      results, needsVersionBump := map[], false;
      for i := 0 to |targets|
        invariant Round(Snapshot(), results, needsVersionBump) == SyncRound(old(Snapshot()), targets[..i], u, v, a, env)
      {
        assert targets[..i + 1][..i] == targets[..i];
        var ok, conflict := SyncClient(Message(targets[i], u, v, a), env(targets[i]));
        results := results[targets[i] := ok];
        if conflict {
          needsVersionBump := true;
        }
      }
      assert targets[..|targets|] == targets;
    }

    method ExecuteDeprovision(targets: seq<ServerId>, u: Uuid, v: nat, env: Env) returns (results: map<ServerId, bool>)
      modifies this`nodes, this`sent, this`confirmed
      ensures Round(Snapshot(), results, false) == RevokeRound(old(Snapshot()), targets, u, v, env)
    {
      results := map[];
      for i := 0 to |targets|
        invariant Round(Snapshot(), results, false) == RevokeRound(old(Snapshot()), targets[..i], u, v, env)
      {
        assert targets[..i + 1][..i] == targets[..i];
        var ok, conflict := SyncClient(Message(targets[i], u, v, false), env(targets[i]));
        results := results[targets[i] := ok];
        if ok {
          confirmed := confirmed + {(targets[i], u, v)};
        }
      }
      assert targets[..|targets|] == targets;
    }

    /** A version conflict costs one bump and one retry. */
    method SyncWithRetry(targets: seq<ServerId>, desired: bool, env1: Env, env2: Env)
      returns (results: map<ServerId, bool>)
      modifies this`nodes, this`sent, this`version
      ensures var r := SyncTwice(old(Snapshot()), targets, desired, env1, env2);
              Snapshot() == r.st && results == r.results
    {
      var bump: bool;
      results, bump := ExecuteSync(targets, uuid, version, desired, env1);
      if bump {
        version := version + 1;
        var again: bool;
        results, again := ExecuteSync(targets, uuid, version, desired, env2);
      }
    }

    /** The state the database wants, on every server that can be asked. */
    method SyncUserToNodes(table: seq<Server>, userOk: bool, forcedOff: bool, env1: Env, env2: Env)
      returns (results: map<ServerId, bool>)
      requires Valid()
      modifies this`nodes, this`sent, this`version, this`lastSynced
      ensures Valid()
      ensures var r := SyncUser(old(Snapshot()), table, userOk, forcedOff, env1, env2);
              Snapshot() == r.st && results == r.results
      ensures forall m :: m in sent && m !in old(sent) ==>
                m.uuid == uuid && m.active == (active && userOk && !forcedOff) && Asked(table, m.active, m.server)
    {
      hide Inv, SyncTwice, ServersFor, Reachable, Asked;
      OnlyTheDesiredIsSent(Snapshot(), table, userOk, forcedOff, env1, env2);
      SyncUserKeeps(Snapshot(), table, userOk, forcedOff, env1, env2);
      var desired := active && userOk;
      if forcedOff {
        desired := false;
      }
      var servers := SelectServers(table, desired);
      var targets := ExtractNodeTargets(servers);
      if targets == [] {
        return map[];
      }
      results := SyncWithRetry(targets, desired, env1, env2);
      if |targets| == |servers| && AllTrue(results) && |results| == |targets| {
        lastSynced := version;
      }
    }

    method PopPendingRevokedUuid(u: Uuid)
      modifies this`pending
      ensures Snapshot() == Clear(old(Snapshot()), u)
      ensures u !in pending
    {
      var kept: seq<Uuid> := [];
      for i := 0 to |pending|
        invariant kept == CredentialSync.Without(pending[..i], u)
      {
        assert pending[..i + 1][..i] == pending[..i];
        if pending[i] != u {
          kept := kept + [pending[i]];
        }
      }
      assert pending[..|pending|] == pending;
      pending := kept;
      WithoutIs(old(pending), u);
    }

    /** One attempt to disable a retired credential everywhere; the list entry goes only when
        every server in service had an endpoint and agreed. */
    method DeprovisionUuid(table: seq<Server>, u: Uuid, v: nat, env: Env) returns (done: bool)
      modifies this`nodes, this`sent, this`confirmed, this`pending
      ensures Snapshot() == Deprovision(old(Snapshot()), table, u, v, env)
      ensures done <==> var servers := RevocationTargets(table); var targets := Reachable(servers);
                        Complete(servers, targets, RevokeRound(old(Snapshot()), targets, u, v, env).results)
      ensures done ==> AllConfirm(table, false, env) && u !in pending
      ensures !done ==> pending == old(pending)
    {
      CompleteMeansAll(Snapshot(), table, u, v, env);
      var servers := SelectServers(table, false);
      var targets := ExtractNodeTargets(servers);
      var results := ExecuteDeprovision(targets, u, v, env);
      done := targets != [] && |targets| == |servers| && AllTrue(results) && |results| == |targets|;
      if done {
        PopPendingRevokedUuid(u);
      }
    }

    method DeprovisionInBackground(table: seq<Server>, u: Uuid, v: nat, env: Env)
      requires Valid() && u in retiredAt && retiredAt[u] <= v <= version
      modifies this`nodes, this`sent, this`confirmed, this`pending, this`lastSynced
      ensures Valid() && Snapshot() == DeprovisionBackground(old(Snapshot()), table, u, v, env)
      ensures lastSynced != old(lastSynced) ==>
                !active && AllConfirm(table, false, env) && old(lastSynced) < lastSynced == v
    {
      hide Inv;
      BackgroundKeeps(Snapshot(), table, u, v, env);
      var done := DeprovisionUuid(table, u, v, env);
      if done && !active {
        lastSynced := if lastSynced < v then v else lastSynced;
      }
    }

    /** The sweep over a copy of the pending list. */
    method RetryPending(table: seq<Server>, envs: Uuid -> Env)
      requires Valid()
      modifies this`nodes, this`sent, this`confirmed, this`pending
      ensures Valid() && Snapshot() == RetryAll(old(Snapshot()), table, old(pending), version, envs)
    {
      hide Inv;
      PendingRetired(Snapshot());
      RetryAllKeeps(Snapshot(), table, pending, envs);
      var copy := pending;
      for i := 0 to |copy|
        invariant Snapshot() == RetryAll(old(Snapshot()), table, copy[..i], version, envs)
      {
        assert copy[..i + 1][..i] == copy[..i];
        var done := DeprovisionUuid(table, copy[i], version, envs(copy[i]));
      }
      assert copy[..|copy|] == copy;
    }

    method RotateUuid(next: Uuid)
      requires Valid() && Fresh(Snapshot(), next)
      modifies this`uuid, this`version, this`pending, this`retiredAt
      ensures Valid() && Snapshot() == Rotate(old(Snapshot()), next)
    {
      RotateKeeps(Snapshot(), next);
      hide Inv;
      var retired := uuid;
      uuid := next;
      version := version + 1;
      if retired !in pending {
        pending := pending + [retired];
      }
      retiredAt := retiredAt[retired := version];
    }

    method BanUser(next: Uuid)
      requires Valid() && Fresh(Snapshot(), next)
      modifies this`uuid, this`version, this`pending, this`retiredAt, this`active
      ensures Valid() && Snapshot() == Ban(old(Snapshot()), next)
      ensures !active && uuid == next && version == old(version) + 1 && old(uuid) in pending
    {
      RotateKeeps(Snapshot(), next);
      RotateUuid(next);
      active := false;
    }

    method UnbanUser(access: bool)
      requires Valid()
      modifies this`active, this`version, this`pending
      ensures Valid() && Snapshot() == Unban(old(Snapshot()), access)
      ensures active == (old(active) || access) && version == old(version) + if access then 1 else 0
      ensures pending == old(pending)
    {
      hide Inv, CredentialSync.Without;
      UnbanDropsNothing(Snapshot(), access);
      if access {
        active := true;
        version := version + 1;
        pending := CredentialSync.Without(pending, uuid);
      }
    }

    method SyncAccess(target: bool)
      requires Valid()
      modifies this`active, this`version
      ensures Valid() && Snapshot() == SyncAccessState(old(Snapshot()), target)
      ensures active == target && version == old(version) + if old(active) == target then 0 else 1
    {
      BumpKeeps(Snapshot(), target);
      hide Inv;
      if active != target {
        active := target;
        version := version + 1;
      }
    }
  }
}
