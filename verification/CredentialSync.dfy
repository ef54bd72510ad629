/** The desired state of one access credential, its version, the credentials rotated out of
    use, and the messages that bring the nodes in line (services/vless_subscription_service.py,
    services/ban_service.py, database/repositories/vless_subscription_repo.py). */
module CredentialSync {

  type ServerId = nat
  type Uuid = string

  /** What a node holds for a credential. Nodes keep this durably and compare versions. */
  datatype Register = Register(version: nat, active: bool)

  type Nodes = map<(ServerId, Uuid), Register>

  datatype Message = Message(server: ServerId, uuid: Uuid, version: nat, active: bool)

  datatype Server = Server(id: ServerId, capable: bool, isActive: bool,
                           lifecycleActive: bool, hasUrl: bool, hasKey: bool)

  /** `sent` holds every message ever sent: any of them may still arrive. The last two fields are
      history: the version each credential was retired at, and the disable replies received for it. */
  datatype State = State(
    uuid: Uuid, version: nat, active: bool, pending: seq<Uuid>, lastSynced: nat,
    nodes: Nodes, sent: set<Message>,
    retiredAt: map<Uuid, nat>, confirmed: set<(ServerId, Uuid, nat)>)

  // ----- the nodes

  /** A node takes a newer version, keeps an equal one and ignores an older one. */
  function Apply(nodes: Nodes, m: Message): Nodes {
    var k := (m.server, m.uuid);
    if k !in nodes || nodes[k].version < m.version then nodes[k := Register(m.version, m.active)] else nodes
  }

  datatype Reply = Applied | AlreadyNewer(state: bool)

  function ReplyTo(nodes: Nodes, m: Message): Reply {
    var k := (m.server, m.uuid);
    if k !in nodes || nodes[k].version < m.version || nodes[k] == Register(m.version, m.active) then Applied
    else AlreadyNewer(nodes[k].active)
  }

  /** What becomes of one request: not delivered yet, delivered without a usable answer, or
      answered, with all inbounds verified or not. */
  datatype Delivery = Lost | Silent | Answered(verified: bool)

  datatype Exchange = Exchange(st: State, ok: bool, conflict: bool)

  function Send(st: State, m: Message, d: Delivery): Exchange {
    var st1 := st.(sent := st.sent + {m});
    var r := ReplyTo(st.nodes, m);
    var matches := r.Applied? || r.state == m.active;
    if d.Lost? then Exchange(st1, false, false)
    else Exchange(st1.(nodes := Apply(st.nodes, m)), d.Answered? && d.verified && matches, d.Answered? && !matches)
  }

  /** A disable request for a retired credential: a good reply is remembered. */
  function Revoke(st: State, m: Message, d: Delivery): Exchange {
    var x := Send(st, m, d);
    if x.ok then x.(st := x.st.(confirmed := x.st.confirmed + {(m.server, m.uuid, m.version)})) else x
  }

  function Deliver(st: State, m: Message): State {
    if m in st.sent then st.(nodes := Apply(st.nodes, m)) else st
  }

  // ----- servers

  function Configured(table: seq<Server>): seq<Server> {
    if table == [] then []
    else
      var s := table[|table| - 1];
      Configured(table[..|table| - 1]) + if s.capable && s.isActive && s.lifecycleActive then [s] else []
  }

  function RevocationTargets(table: seq<Server>): seq<Server> {
    if table == [] then []
    else
      var s := table[|table| - 1];
      RevocationTargets(table[..|table| - 1]) + if s.capable && s.lifecycleActive then [s] else []
  }

  function Reachable(servers: seq<Server>): seq<ServerId> {
    if servers == [] then []
    else
      var s := servers[|servers| - 1];
      Reachable(servers[..|servers| - 1]) + if s.hasUrl && s.hasKey then [s.id] else []
  }

  // ----- one round over the targets

  type Env = ServerId -> Delivery

  datatype Round = Round(st: State, results: map<ServerId, bool>, conflict: bool)

  function SyncRound(st: State, targets: seq<ServerId>, u: Uuid, v: nat, a: bool, env: Env): Round {
    if targets == [] then Round(st, map[], false)
    else
      var r := SyncRound(st, targets[..|targets| - 1], u, v, a, env);
      var s := targets[|targets| - 1];
      var x := Send(r.st, Message(s, u, v, a), env(s));
      Round(x.st, r.results[s := x.ok], r.conflict || x.conflict)
  }

  function RevokeRound(st: State, targets: seq<ServerId>, u: Uuid, v: nat, env: Env): Round {
    if targets == [] then Round(st, map[], false)
    else
      var r := RevokeRound(st, targets[..|targets| - 1], u, v, env);
      var s := targets[|targets| - 1];
      var x := Revoke(r.st, Message(s, u, v, false), env(s));
      Round(x.st, r.results[s := x.ok], false)
  }

  predicate AllTrue(results: map<ServerId, bool>) {
    forall s :: s in results ==> results[s]
  }

  /** Every server had an endpoint and confirmed. */
  predicate Complete(servers: seq<Server>, targets: seq<ServerId>, results: map<ServerId, bool>) {
    targets != [] && |targets| == |servers| && AllTrue(results) && |results| == |targets|
  }

  // ----- the operations

  function Bumped(st: State): State {
    st.(version := st.version + 1)
  }

  /** A reported version conflict is answered with one bump and one more round. */
  function SyncTwice(st: State, targets: seq<ServerId>, desired: bool, env1: Env, env2: Env): Round {
    var r1 := SyncRound(st, targets, st.uuid, st.version, desired, env1);
    if r1.conflict then SyncRound(Bumped(r1.st), targets, st.uuid, st.version + 1, desired, env2) else r1
  }

  function Desired(st: State, userOk: bool, forcedOff: bool): bool {
    st.active && userOk && !forcedOff
  }

  function ServersFor(table: seq<Server>, desired: bool): seq<Server> {
    if desired then Configured(table) else RevocationTargets(table)
  }

  /** A complete round is recorded as the last synchronised version. */
  function Recorded(servers: seq<Server>, targets: seq<ServerId>, r: Round): Round {
    if Complete(servers, targets, r.results) then r.(st := r.st.(lastSynced := r.st.version)) else r
  }

  function SyncUser(st: State, table: seq<Server>, userOk: bool, forcedOff: bool, env1: Env, env2: Env): Round {
    var desired := Desired(st, userOk, forcedOff);
    var servers := ServersFor(table, desired);
    var targets := Reachable(servers);
    if targets == [] then Round(st, map[], false)
    else Recorded(servers, targets, SyncTwice(st, targets, desired, env1, env2))
  }

  function Without(pending: seq<Uuid>, u: Uuid): seq<Uuid> {
    if pending == [] then []
    else Without(pending[..|pending| - 1], u) + if pending[|pending| - 1] == u then [] else [pending[|pending| - 1]]
  }

  /** The credential leaves the pending list. */
  function Clear(st: State, u: Uuid): State {
    st.(pending := Without(st.pending, u))
  }

  function Deprovision(st: State, table: seq<Server>, u: Uuid, v: nat, env: Env): State {
    var servers := RevocationTargets(table);
    var targets := Reachable(servers);
    var r := RevokeRound(st, targets, u, v, env);
    if Complete(servers, targets, r.results) then Clear(r.st, u) else r.st
  }

  /** The first attempt, after a rotation: it also counts as a sync while the subscription is off. */
  function DeprovisionBackground(st: State, table: seq<Server>, u: Uuid, v: nat, env: Env): State {
    var servers := RevocationTargets(table);
    var targets := Reachable(servers);
    var st' := Deprovision(st, table, u, v, env);
    if Complete(servers, targets, RevokeRound(st, targets, u, v, env).results) && !st'.active
    then st'.(lastSynced := if st'.lastSynced < v then v else st'.lastSynced) else st'
  }

  /** Retry of every credential on a copy of the pending list. */
  function RetryAll(st: State, table: seq<Server>, copy: seq<Uuid>, v: nat, env: Uuid -> Env): State {
    if copy == [] then st
    else
      var u := copy[|copy| - 1];
      Deprovision(RetryAll(st, table, copy[..|copy| - 1], v, env), table, u, v, env(u))
  }

  /** A new credential takes over; the old one waits to be revoked. */
  function Rotate(st: State, next: Uuid): State {
    st.(uuid := next, version := st.version + 1,
        pending := if st.uuid in st.pending then st.pending else st.pending + [st.uuid],
        retiredAt := st.retiredAt[st.uuid := st.version + 1])
  }

  function Ban(st: State, next: Uuid): State {
    Rotate(st, next).(active := false)
  }

  function Unban(st: State, access: bool): State {
    if !access then st
    else st.(active := true, version := st.version + 1, pending := Without(st.pending, st.uuid))
  }

  function SyncAccessState(st: State, target: bool): State {
    if st.active != target then st.(active := target, version := st.version + 1) else st
  }
}
