/** What every run of the credential protocol keeps, and what one synchronisation achieves. */
module CredentialTheorems {
  import opened CredentialSync

  // ----- the invariant

  predicate NoRepeat<T(==)>(s: seq<T>) {
    forall i, j :: 0 <= i < j < |s| ==> s[i] != s[j]
  }

  /** The credential in use has not been retired; the waiting ones have. */
  predicate PendingOk(st: State) {
    && st.uuid !in st.retiredAt
    && (forall u :: u in st.pending ==> u in st.retiredAt)
    && (forall u :: u in st.retiredAt ==> st.retiredAt[u] <= st.version)
  }

  predicate MessageOk(st: State, m: Message) {
    && m.version <= st.version
    && (m.uuid == st.uuid || m.uuid in st.retiredAt)
    && (m.uuid in st.retiredAt && m.active ==> m.version < st.retiredAt[m.uuid])
  }

  predicate MessagesOk(st: State) {
    forall m :: m in st.sent ==> MessageOk(st, m)
  }

  /** Every register comes from a message. */
  predicate NodesOk(st: State) {
    forall k :: k in st.nodes ==> Message(k.0, k.1, st.nodes[k].version, st.nodes[k].active) in st.sent
  }

  predicate Off(nodes: Nodes, s: ServerId, u: Uuid, since: nat) {
    (s, u) in nodes && !nodes[(s, u)].active && nodes[(s, u)].version >= since
  }

  predicate ConfirmedOk(st: State) {
    forall c :: c in st.confirmed ==>
      c.1 in st.retiredAt && c.2 >= st.retiredAt[c.1] && Off(st.nodes, c.0, c.1, st.retiredAt[c.1])
  }

  ghost predicate Inv(st: State) {
    PendingOk(st) && MessagesOk(st) && NodesOk(st) && ConfirmedOk(st)
  }

  // ----- nodes

  /** A retired credential that is off at its retirement version stays off, whatever arrives late. */
  lemma OffStays(st: State, m: Message, s: ServerId, u: Uuid)
    requires MessageOk(st, m) && u in st.retiredAt && Off(st.nodes, s, u, st.retiredAt[u])
    ensures Off(Apply(st.nodes, m), s, u, st.retiredAt[u])
  {
  }

  lemma ApplyKeeps(st: State, m: Message)
    requires Inv(st) && m in st.sent
    ensures Inv(st.(nodes := Apply(st.nodes, m)))
  {
    var st' := st.(nodes := Apply(st.nodes, m));
    forall c | c in st'.confirmed ensures Off(st'.nodes, c.0, c.1, st.retiredAt[c.1]) {
      OffStays(st, m, c.0, c.1);
    }
  }

  lemma PostKeeps(st: State, m: Message)
    requires Inv(st) && MessageOk(st, m)
    ensures Inv(st.(sent := st.sent + {m}))
  {
  }

  lemma SendKeeps(st: State, m: Message, d: Delivery)
    requires Inv(st) && MessageOk(st, m)
    ensures Inv(Send(st, m, d).st)
  {
    PostKeeps(st, m);
    ApplyKeeps(st.(sent := st.sent + {m}), m);
  }

  predicate IsRevocation(st: State, m: Message) {
    m.uuid in st.retiredAt && st.retiredAt[m.uuid] <= m.version <= st.version && !m.active
  }

  /** A node always agrees to disable a retired credential: no newer register is active. */
  lemma RevocationAlwaysAgreed(st: State, m: Message, d: Delivery)
    requires Inv(st) && IsRevocation(st, m)
    ensures Revoke(st, m, d).ok <==> d == Answered(true)
    ensures !d.Lost? ==> Off(Revoke(st, m, d).st.nodes, m.server, m.uuid, m.version)
  {
    var k := (m.server, m.uuid);
    if k in st.nodes {
      var from := Message(k.0, k.1, st.nodes[k].version, st.nodes[k].active);
      assert MessageOk(st, from);
    }
  }

  lemma ConfirmKeeps(st: State, m: Message)
    requires Inv(st) && IsRevocation(st, m) && Off(st.nodes, m.server, m.uuid, m.version)
    ensures Inv(st.(confirmed := st.confirmed + {(m.server, m.uuid, m.version)}))
  {
  }

  lemma RevokeKeeps(st: State, m: Message, d: Delivery)
    requires Inv(st) && IsRevocation(st, m)
    ensures Inv(Revoke(st, m, d).st)
  {
    SendKeeps(st, m, d);
    RevocationAlwaysAgreed(st, m, d);
    var x := Send(st, m, d);
    if x.ok { ConfirmKeeps(x.st, m); }
  }

  lemma DeliverKeeps(st: State, m: Message)
    requires Inv(st)
    ensures Inv(Deliver(st, m))
  {
    if m in st.sent { ApplyKeeps(st, m); }
  }

  // ----- rounds

  /** Only messages, registers and confirmations change in a round. */
  predicate RoundFrame(st: State, st': State) {
    st' == st.(nodes := st'.nodes, sent := st'.sent, confirmed := st'.confirmed)
  }

  lemma {:induction false} SyncRoundKeeps(st: State, targets: seq<ServerId>, v: nat, a: bool, env: Env)
    requires Inv(st) && v <= st.version
    ensures var r := SyncRound(st, targets, st.uuid, v, a, env); Inv(r.st) && RoundFrame(st, r.st)
  {
    if targets != [] {
      var pre, s := targets[..|targets| - 1], targets[|targets| - 1];
      SyncRoundKeeps(st, pre, v, a, env);
      SendKeeps(SyncRound(st, pre, st.uuid, v, a, env).st, Message(s, st.uuid, v, a), env(s));
    }
  }

  lemma {:induction false} RevokeRoundKeeps(st: State, targets: seq<ServerId>, u: Uuid, v: nat, env: Env)
    requires Inv(st) && u in st.retiredAt && st.retiredAt[u] <= v <= st.version
    ensures var r := RevokeRound(st, targets, u, v, env); Inv(r.st) && RoundFrame(st, r.st)
  {
    if targets != [] {
      var pre, s := targets[..|targets| - 1], targets[|targets| - 1];
      RevokeRoundKeeps(st, pre, u, v, env);
      RevokeKeeps(RevokeRound(st, pre, u, v, env).st, Message(s, u, v, false), env(s));
    }
  }

  /** Every good result of a round is on record. */
  lemma {:induction false} RoundConfirms(st: State, targets: seq<ServerId>, u: Uuid, v: nat, env: Env)
    ensures var r := RevokeRound(st, targets, u, v, env);
            && (forall s :: s in r.results <==> s in targets)
            && (forall s :: s in r.results && r.results[s] ==> (s, u, v) in r.st.confirmed)
  {
    if targets != [] {
      var pre, s := targets[..|targets| - 1], targets[|targets| - 1];
      RoundConfirms(st, pre, u, v, env);
      assert targets == pre + [s];
    }
  }

  // ----- server lists

  function Ids(servers: seq<Server>): set<ServerId> {
    set s | s in servers :: s.id
  }

  lemma {:induction false} ReachableIds(servers: seq<Server>)
    ensures |Reachable(servers)| <= |servers|
    ensures forall s :: s in Reachable(servers) ==> s in Ids(servers)
    ensures |Reachable(servers)| == |servers| ==> forall s :: s in Ids(servers) ==> s in Reachable(servers)
  {
    if servers != [] {
      var pre, s := servers[..|servers| - 1], servers[|servers| - 1];
      ReachableIds(pre);
      assert servers == pre + [s];
      assert Ids(servers) == Ids(pre) + {s.id};
    }
  }

  // ----- operations

  lemma {:induction false} WithoutIs(pending: seq<Uuid>, u: Uuid)
    ensures forall x :: x in Without(pending, u) <==> x in pending && x != u
  {
    if pending != [] {
      var pre, x := pending[..|pending| - 1], pending[|pending| - 1];
      WithoutIs(pre, u);
      assert pending == pre + [x];
    }
  }

  lemma ClearKeeps(st: State, u: Uuid)
    requires Inv(st)
    ensures Inv(Clear(st, u))
  {
    WithoutIs(st.pending, u);
  }

  lemma DeprovisionKeeps(st: State, table: seq<Server>, u: Uuid, v: nat, env: Env)
    requires Inv(st) && u in st.retiredAt && st.retiredAt[u] <= v <= st.version
    ensures var st' := Deprovision(st, table, u, v, env);
            && Inv(st') && st'.version == st.version && st'.retiredAt == st.retiredAt && st'.active == st.active
            && st'.uuid == st.uuid
  {
    var targets := Reachable(RevocationTargets(table));
    var r := RevokeRound(st, targets, u, v, env);
    RevokeRoundKeeps(st, targets, u, v, env);
    ClearKeeps(r.st, u);
  }

  lemma BackgroundKeeps(st: State, table: seq<Server>, u: Uuid, v: nat, env: Env)
    requires Inv(st) && u in st.retiredAt && st.retiredAt[u] <= v <= st.version
    ensures Inv(DeprovisionBackground(st, table, u, v, env))
  {
    DeprovisionKeeps(st, table, u, v, env);
    var st' := Deprovision(st, table, u, v, env);
    hide Deprovision, RevokeRound;
    forall n ensures Inv(st'.(lastSynced := n)) {
      LastSyncedIsFree(st', n);
    }
  }

  lemma LastSyncedIsFree(st: State, n: nat)
    requires Inv(st)
    ensures Inv(st.(lastSynced := n))
  {
  }

  lemma {:induction false} RetryAllKeeps(st: State, table: seq<Server>, copy: seq<Uuid>, env: Uuid -> Env)
    requires Inv(st) && forall u :: u in copy ==> u in st.retiredAt
    ensures var st' := RetryAll(st, table, copy, st.version, env);
            && Inv(st') && st'.version == st.version && st'.retiredAt == st.retiredAt
  {
    if copy != [] {
      var pre, u := copy[..|copy| - 1], copy[|copy| - 1];
      assert u in copy;
      RetryAllKeeps(st, table, pre, env);
      DeprovisionKeeps(RetryAll(st, table, pre, st.version, env), table, u, st.version, env(u));
    }
  }

  /** Raising the version, as a bump or an access change does. */
  lemma BumpKeeps(st: State, active: bool)
    requires Inv(st)
    ensures Inv(st.(version := st.version + 1)) && Inv(st.(version := st.version + 1, active := active))
  {
    var st' := st.(version := st.version + 1);
    ActiveIsFree(st', active);
  }

  lemma SyncTwiceKeeps(st: State, targets: seq<ServerId>, desired: bool, env1: Env, env2: Env)
    requires Inv(st)
    ensures Inv(SyncTwice(st, targets, desired, env1, env2).st)
  {
    hide Inv;
    SyncRoundKeeps(st, targets, st.version, desired, env1);
    var r1 := SyncRound(st, targets, st.uuid, st.version, desired, env1);
    BumpKeeps(r1.st, st.active);
    SyncRoundKeeps(Bumped(r1.st), targets, st.version + 1, desired, env2);
  }

  lemma SyncUserKeeps(st: State, table: seq<Server>, userOk: bool, forcedOff: bool, env1: Env, env2: Env)
    requires Inv(st)
    ensures Inv(SyncUser(st, table, userOk, forcedOff, env1, env2).st)
  {
    hide Inv, SyncTwice, Reachable, ServersFor;
    var desired := Desired(st, userOk, forcedOff);
    var targets := Reachable(ServersFor(table, desired));
    SyncTwiceKeeps(st, targets, desired, env1, env2);
    var r := SyncTwice(st, targets, desired, env1, env2);
    LastSyncedIsFree(r.st, r.st.version);
  }

  /** A generated credential has never been used before. */
  predicate Fresh(st: State, next: Uuid) {
    next != st.uuid && next !in st.retiredAt
  }

  lemma RotateKeeps(st: State, next: Uuid)
    requires Inv(st) && Fresh(st, next)
    ensures Inv(Rotate(st, next)) && Inv(Ban(st, next))
  {
    var st' := Rotate(st, next);
    ActiveIsFree(st', false);
  }

  lemma ActiveIsFree(st: State, b: bool)
    requires Inv(st)
    ensures Inv(st.(active := b))
  {
  }

  lemma WithoutAbsent(pending: seq<Uuid>, u: Uuid)
    requires u !in pending
    ensures Without(pending, u) == pending
  {
    if pending != [] {
      var pre, x := pending[..|pending| - 1], pending[|pending| - 1];
      assert pending == pre + [x];
      WithoutAbsent(pre, u);
    }
  }

  /** Unbanning drops nothing from the pending list: the credential in use is never on it. */
  lemma UnbanDropsNothing(st: State, access: bool)
    requires Inv(st)
    ensures Unban(st, access).pending == st.pending
    ensures Inv(Unban(st, access))
  {
    WithoutAbsent(st.pending, st.uuid);
    BumpKeeps(st, true);
  }

  // ----- runs

  /** One operation; `Late` is the arrival of any message ever sent. */
  datatype Event =
    | SyncNow(table: seq<Server>, userOk: bool, forcedOff: bool, env1: Env, env2: Env)
    | Background(table: seq<Server>, uuid: Uuid, version: nat, env: Env)
    | Sweep(table: seq<Server>, envs: Uuid -> Env)
    | Late(message: Message)
    | BanUser(next: Uuid)
    | NewCredential(next: Uuid)
    | UnbanUser(access: bool)
    | AccessChange(target: bool)

  predicate Enabled(st: State, ev: Event) {
    match ev
    case Background(_, u, v, _) => u in st.retiredAt && st.retiredAt[u] <= v <= st.version
    case BanUser(next) => Fresh(st, next)
    case NewCredential(next) => Fresh(st, next)
    case _ => true
  }

  function Step(st: State, ev: Event): State {
    if !Enabled(st, ev) then st
    else match ev
      case SyncNow(t, ok, off, e1, e2) => SyncUser(st, t, ok, off, e1, e2).st
      case Background(t, u, v, e) => DeprovisionBackground(st, t, u, v, e)
      case Sweep(t, es) => RetryAll(st, t, st.pending, st.version, es)
      case Late(m) => Deliver(st, m)
      case BanUser(next) => Ban(st, next)
      case NewCredential(next) => Rotate(st, next)
      case UnbanUser(a) => Unban(st, a)
      case AccessChange(b) => SyncAccessState(st, b)
  }

  function Run(st: State, evs: seq<Event>): State {
    if evs == [] then st else Step(Run(st, evs[..|evs| - 1]), evs[|evs| - 1])
  }

  function Initial(u: Uuid, active: bool): State {
    State(u, 1, active, [], 0, map[], {}, map[], {})
  }

  lemma StepKeeps(st: State, ev: Event)
    requires Inv(st)
    ensures Inv(Step(st, ev))
  {
    hide Inv;
    if Enabled(st, ev) {
      match ev
      case SyncNow(t, ok, off, e1, e2) => SyncUserKeeps(st, t, ok, off, e1, e2);
      case Background(t, u, v, e) => BackgroundKeeps(st, t, u, v, e);
      case Sweep(t, es) => PendingRetired(st); RetryAllKeeps(st, t, st.pending, es);
      case Late(m) => DeliverKeeps(st, m);
      case BanUser(next) => RotateKeeps(st, next);
      case NewCredential(next) => RotateKeeps(st, next);
      case UnbanUser(a) => UnbanDropsNothing(st, a);
      case AccessChange(b) => BumpKeeps(st, b);
    }
  }

  lemma PendingRetired(st: State)
    requires Inv(st)
    ensures forall u :: u in st.pending ==> u in st.retiredAt
  {
  }

  lemma {:induction false} RunKeeps(u: Uuid, active: bool, evs: seq<Event>)
    ensures Inv(Run(Initial(u, active), evs))
  {
    if evs != [] {
      RunKeeps(u, active, evs[..|evs| - 1]);
      StepKeeps(Run(Initial(u, active), evs[..|evs| - 1]), evs[|evs| - 1]);
    }
  }

  /** On every run the credential in use is neither retired nor pending, and no node is ahead of
      the version. */
  lemma CurrentIsCurrent(first: Uuid, active: bool, evs: seq<Event>)
    ensures var st := Run(Initial(first, active), evs);
            && st.uuid !in st.pending && st.uuid !in st.retiredAt
            && (forall k :: k in st.nodes ==> st.nodes[k].version <= st.version)
  {
    RunKeeps(first, active, evs);
    var st := Run(Initial(first, active), evs);
    forall k | k in st.nodes ensures st.nodes[k].version <= st.version {
      assert MessageOk(st, Message(k.0, k.1, st.nodes[k].version, st.nodes[k].active));
    }
  }

  // ----- once off, always off

  /** Credential `u` was retired and is off on server `s`. */
  predicate Gone(st: State, s: ServerId, u: Uuid, since: nat) {
    u in st.retiredAt && st.retiredAt[u] == since && Off(st.nodes, s, u, since)
  }

  lemma SendGone(st: State, m: Message, d: Delivery, s: ServerId, u: Uuid, since: nat)
    requires MessageOk(st, m) && Gone(st, s, u, since)
    ensures Gone(Send(st, m, d).st, s, u, since) && Gone(Revoke(st, m, d).st, s, u, since)
  {
    OffStays(st, m, s, u);
  }

  lemma {:induction false} SyncRoundGone(
    st: State, targets: seq<ServerId>, v: nat, a: bool, env: Env, s: ServerId, u: Uuid, since: nat)
    requires Inv(st) && v <= st.version && Gone(st, s, u, since)
    ensures Gone(SyncRound(st, targets, st.uuid, v, a, env).st, s, u, since)
  {
    if targets != [] {
      var pre, t := targets[..|targets| - 1], targets[|targets| - 1];
      SyncRoundGone(st, pre, v, a, env, s, u, since);
      SyncRoundKeeps(st, pre, v, a, env);
      SendGone(SyncRound(st, pre, st.uuid, v, a, env).st, Message(t, st.uuid, v, a), env(t), s, u, since);
    }
  }

  lemma {:induction false} RevokeRoundGone(
    st: State, targets: seq<ServerId>, x: Uuid, v: nat, env: Env, s: ServerId, u: Uuid, since: nat)
    requires Inv(st) && x in st.retiredAt && st.retiredAt[x] <= v <= st.version && Gone(st, s, u, since)
    ensures Gone(RevokeRound(st, targets, x, v, env).st, s, u, since)
  {
    if targets != [] {
      var pre, t := targets[..|targets| - 1], targets[|targets| - 1];
      RevokeRoundGone(st, pre, x, v, env, s, u, since);
      RevokeRoundKeeps(st, pre, x, v, env);
      SendGone(RevokeRound(st, pre, x, v, env).st, Message(t, x, v, false), env(t), s, u, since);
    }
  }

  lemma DeprovisionGone(st: State, table: seq<Server>, x: Uuid, v: nat, env: Env, s: ServerId, u: Uuid, since: nat)
    requires Inv(st) && x in st.retiredAt && st.retiredAt[x] <= v <= st.version && Gone(st, s, u, since)
    ensures Gone(Deprovision(st, table, x, v, env), s, u, since)
  {
    RevokeRoundGone(st, Reachable(RevocationTargets(table)), x, v, env, s, u, since);
  }

  lemma {:induction false} RetryAllGone(
    st: State, table: seq<Server>, copy: seq<Uuid>, env: Uuid -> Env, s: ServerId, u: Uuid, since: nat)
    requires Inv(st) && (forall x :: x in copy ==> x in st.retiredAt) && Gone(st, s, u, since)
    ensures Gone(RetryAll(st, table, copy, st.version, env), s, u, since)
  {
    if copy != [] {
      var pre, x := copy[..|copy| - 1], copy[|copy| - 1];
      assert x in copy;
      RetryAllGone(st, table, pre, env, s, u, since);
      RetryAllKeeps(st, table, pre, env);
      DeprovisionGone(RetryAll(st, table, pre, st.version, env), table, x, st.version, env(x), s, u, since);
    }
  }

  lemma SyncTwiceGone(
    st: State, targets: seq<ServerId>, desired: bool, env1: Env, env2: Env, s: ServerId, u: Uuid, since: nat)
    requires Inv(st) && Gone(st, s, u, since)
    ensures Gone(SyncTwice(st, targets, desired, env1, env2).st, s, u, since)
  {
    hide Inv, SyncRound, Off;
    SyncRoundKeeps(st, targets, st.version, desired, env1);
    SyncRoundGone(st, targets, st.version, desired, env1, s, u, since);
    var r1 := SyncRound(st, targets, st.uuid, st.version, desired, env1);
    BumpKeeps(r1.st, st.active);
    SyncRoundGone(Bumped(r1.st), targets, st.version + 1, desired, env2, s, u, since);
  }

  lemma SyncUserGone(
    st: State, table: seq<Server>, userOk: bool, forcedOff: bool, env1: Env, env2: Env,
    s: ServerId, u: Uuid, since: nat)
    requires Inv(st) && Gone(st, s, u, since)
    ensures Gone(SyncUser(st, table, userOk, forcedOff, env1, env2).st, s, u, since)
  {
    hide Inv, SyncTwice, Reachable, ServersFor;
    var desired := Desired(st, userOk, forcedOff);
    SyncTwiceGone(st, Reachable(ServersFor(table, desired)), desired, env1, env2, s, u, since);
  }

  lemma StepGone(st: State, ev: Event, s: ServerId, u: Uuid, since: nat)
    requires Inv(st) && Gone(st, s, u, since)
    ensures Gone(Step(st, ev), s, u, since)
  {
    if Enabled(st, ev) {
      match ev
      case SyncNow(t, ok, off, e1, e2) => SyncUserGone(st, t, ok, off, e1, e2, s, u, since);
      case Background(t, x, v, e) => DeprovisionGone(st, t, x, v, e, s, u, since);
      case Sweep(t, es) => RetryAllGone(st, t, st.pending, es, s, u, since);
      case Late(m) => if m in st.sent { OffStays(st, m, s, u); }
      case _ =>
    }
  }

  /** A retired credential that is disabled on a server at its retirement version stays disabled
      there for ever: no late, repeated or reordered message can bring it back. */
  lemma {:induction false} RevokedForever(st: State, evs: seq<Event>, s: ServerId, u: Uuid, since: nat)
    requires Inv(st) && Gone(st, s, u, since)
    ensures Inv(Run(st, evs)) && Gone(Run(st, evs), s, u, since)
  {
    if evs != [] {
      RevokedForever(st, evs[..|evs| - 1], s, u, since);
      StepKeeps(Run(st, evs[..|evs| - 1]), evs[|evs| - 1]);
      StepGone(Run(st, evs[..|evs| - 1]), evs[|evs| - 1], s, u, since);
    }
  }

  // ----- one synchronisation

  /** The node holds the same version with the opposite state. */
  predicate Clash(nodes: Nodes, s: ServerId, u: Uuid, v: nat, a: bool) {
    (s, u) in nodes && nodes[(s, u)] == Register(v, !a)
  }

  predicate NotAhead(nodes: Nodes, targets: seq<ServerId>, u: Uuid, v: nat) {
    forall s :: s in targets && (s, u) in nodes ==> nodes[(s, u)].version <= v
  }

  /** What a round does at one target, given what its node held before. */
  predicate ResultIs(before: Nodes, r: Round, s: ServerId, u: Uuid, v: nat, a: bool, env: Env) {
    && s in r.results
    && (r.results[s] <==> env(s) == Answered(true) && !Clash(before, s, u, v, a))
    && (!env(s).Lost? && !Clash(before, s, u, v, a) ==> (s, u) in r.st.nodes && r.st.nodes[(s, u)] == Register(v, a))
  }

  predicate Conflicts(before: Nodes, targets: seq<ServerId>, u: Uuid, v: nat, a: bool, env: Env) {
    exists s :: s in targets && env(s).Answered? && Clash(before, s, u, v, a)
  }

  predicate SameAt(n: Nodes, n': Nodes, k: (ServerId, Uuid)) {
    (k in n' <==> k in n) && (k in n ==> n'[k] == n[k])
  }

  /** One more target changes only its own register. */
  lemma SendIs(st: State, m: Message, d: Delivery)
    requires (m.server, m.uuid) in st.nodes ==> st.nodes[(m.server, m.uuid)].version <= m.version
    ensures var x := Send(st, m, d); var k := (m.server, m.uuid);
            var clash := k in st.nodes && st.nodes[k] == Register(m.version, !m.active);
            && (x.ok <==> d == Answered(true) && !clash) && (x.conflict <==> d.Answered? && clash)
            && (!d.Lost? && !clash ==> k in x.st.nodes && x.st.nodes[k] == Register(m.version, m.active))
    ensures forall k: (ServerId, Uuid) :: k != (m.server, m.uuid) ==> SameAt(st.nodes, Send(st, m, d).st.nodes, k)
  {
  }

  lemma {:induction false} RoundElsewhere(
    st: State, targets: seq<ServerId>, u: Uuid, v: nat, a: bool, env: Env, k: (ServerId, Uuid))
    requires k.0 !in targets || k.1 != u
    ensures SameAt(st.nodes, SyncRound(st, targets, u, v, a, env).st.nodes, k)
  {
    if targets != [] {
      var pre, s := targets[..|targets| - 1], targets[|targets| - 1];
      assert targets == pre + [s];
      RoundElsewhere(st, pre, u, v, a, env, k);
    }
  }

  lemma {:induction false} RoundAt(
    st: State, targets: seq<ServerId>, u: Uuid, v: nat, a: bool, env: Env, t: ServerId)
    requires NoRepeat(targets) && NotAhead(st.nodes, targets, u, v) && t in targets
    ensures ResultIs(st.nodes, SyncRound(st, targets, u, v, a, env), t, u, v, a, env)
  {
    var pre, s := targets[..|targets| - 1], targets[|targets| - 1];
    assert targets == pre + [s];
    assert s !in pre;
    var r := SyncRound(st, pre, u, v, a, env);
    RoundElsewhere(st, pre, u, v, a, env, (s, u));
    SendIs(r.st, Message(s, u, v, a), env(s));
    if t != s {
      RoundAt(st, pre, u, v, a, env, t);
      assert SameAt(r.st.nodes, Send(r.st, Message(s, u, v, a), env(s)).st.nodes, (t, u));
    }
  }

  lemma {:induction false} RoundConflict(st: State, targets: seq<ServerId>, u: Uuid, v: nat, a: bool, env: Env)
    requires NoRepeat(targets) && NotAhead(st.nodes, targets, u, v)
    ensures SyncRound(st, targets, u, v, a, env).conflict <==> Conflicts(st.nodes, targets, u, v, a, env)
  {
    if targets != [] {
      var pre, s := targets[..|targets| - 1], targets[|targets| - 1];
      assert targets == pre + [s];
      assert s !in pre;
      RoundConflict(st, pre, u, v, a, env);
      RoundElsewhere(st, pre, u, v, a, env, (s, u));
      SendIs(SyncRound(st, pre, u, v, a, env).st, Message(s, u, v, a), env(s));
    }
  }

  lemma {:induction false} RoundSize(st: State, targets: seq<ServerId>, u: Uuid, v: nat, a: bool, env: Env)
    requires NoRepeat(targets)
    ensures var r := SyncRound(st, targets, u, v, a, env);
            |r.results| == |targets| && forall s :: s in r.results <==> s in targets
  {
    if targets != [] {
      var pre, s := targets[..|targets| - 1], targets[|targets| - 1];
      assert targets == pre + [s];
      assert s !in pre;
      RoundSize(st, pre, u, v, a, env);
      var r := SyncRound(st, pre, u, v, a, env);
      assert r.results[s := true].Keys == r.results.Keys + {s};
    }
  }

  /** The node holds the desired state at this version. */
  predicate Agrees(st: State, s: ServerId, u: Uuid, a: bool) {
    (s, u) in st.nodes && st.nodes[(s, u)] == Register(st.version, a)
  }

  lemma RoundVersion(st: State, targets: seq<ServerId>, u: Uuid, v: nat, a: bool, env: Env)
    ensures SyncRound(st, targets, u, v, a, env).st.version == st.version
    ensures SyncRound(st, targets, u, v, a, env).st.lastSynced == st.lastSynced
  {
  }

  /** What one synchronisation achieves at target `t`: its result is true exactly when its last
      request was answered with all inbounds verified; whenever that request was answered, and
      after a bump even when the answer was lost, the node holds the desired state. */
  lemma SyncTwiceAt(st: State, targets: seq<ServerId>, desired: bool, env1: Env, env2: Env, t: ServerId)
    requires NoRepeat(targets) && NotAhead(st.nodes, targets, st.uuid, st.version) && t in targets
    ensures var bump := Conflicts(st.nodes, targets, st.uuid, st.version, desired, env1);
            var r := SyncTwice(st, targets, desired, env1, env2);
            var last := if bump then env2(t) else env1(t);
            && r.st.version == st.version + (if bump then 1 else 0)
            && t in r.results && (r.results[t] <==> last == Answered(true))
            && (last.Answered? || (bump && !last.Lost?) ==> Agrees(r.st, t, st.uuid, desired))
  {
    var r1 := SyncRound(st, targets, st.uuid, st.version, desired, env1);
    RoundAt(st, targets, st.uuid, st.version, desired, env1, t);
    RoundConflict(st, targets, st.uuid, st.version, desired, env1);
    RoundVersion(st, targets, st.uuid, st.version, desired, env1);
    if r1.conflict {
      BehindAfter(st, targets, desired, env1);
      RoundAt(Bumped(r1.st), targets, st.uuid, st.version + 1, desired, env2, t);
      RoundVersion(Bumped(r1.st), targets, st.uuid, st.version + 1, desired, env2);
      assert !Clash(Bumped(r1.st).nodes, t, st.uuid, st.version + 1, desired);
    }
  }

  lemma BehindAfter(st: State, targets: seq<ServerId>, a: bool, env: Env)
    requires NotAhead(st.nodes, targets, st.uuid, st.version)
    ensures NotAhead(SyncRound(st, targets, st.uuid, st.version, a, env).st.nodes, targets, st.uuid, st.version)
  {
    BehindAll(st, targets, targets, a, env);
  }

  lemma {:induction false} BehindAll(st: State, targets: seq<ServerId>, all: seq<ServerId>, a: bool, env: Env)
    requires NotAhead(st.nodes, all, st.uuid, st.version)
    ensures NotAhead(SyncRound(st, targets, st.uuid, st.version, a, env).st.nodes, all, st.uuid, st.version)
  {
    if targets != [] {
      BehindAll(st, targets[..|targets| - 1], all, a, env);
    }
  }

  // ----- a whole synchronisation

  predicate DistinctIds(table: seq<Server>) {
    forall i, j :: 0 <= i < j < |table| ==> table[i].id != table[j].id
  }

  predicate Sublist(servers: seq<Server>, table: seq<Server>) {
    DistinctIds(servers) && forall s :: s in servers ==> s in table
  }

  lemma SublistPush(servers: seq<Server>, pre: seq<Server>, s: Server)
    requires Sublist(servers, pre) && DistinctIds(pre + [s])
    ensures Sublist(servers, pre + [s]) && Sublist(servers + [s], pre + [s])
  {
    var all := pre + [s];
    forall i | 0 <= i < |servers| ensures servers[i].id != s.id {
      assert servers[i] in servers;
      var j :| 0 <= j < |pre| && pre[j] == servers[i];
      assert all[j].id != all[|pre|].id;
    }
  }

  lemma {:induction false} ServersAreSublist(table: seq<Server>, desired: bool)
    requires DistinctIds(table)
    ensures Sublist(ServersFor(table, desired), table)
  {
    if table != [] {
      var pre, s := table[..|table| - 1], table[|table| - 1];
      assert table == pre + [s];
      ServersAreSublist(pre, desired);
      SublistPush(ServersFor(pre, desired), pre, s);
      assert ServersFor(pre, desired) + [] == ServersFor(pre, desired);
    }
  }

  lemma {:induction false} ReachableDistinct(servers: seq<Server>)
    requires DistinctIds(servers)
    ensures NoRepeat(Reachable(servers))
  {
    if servers != [] {
      var pre, s := servers[..|servers| - 1], servers[|servers| - 1];
      ReachableDistinct(pre);
      ReachableIds(pre);
      forall t | t in Reachable(pre) ensures t != s.id {
        assert t in Ids(pre);
        var j :| 0 <= j < |pre| && pre[j].id == t;
        assert servers[j].id != servers[|pre|].id;
      }
      var r := Reachable(pre);
      assert r + [] == r;
      forall i, j | 0 <= i < j < |r + [s.id]| ensures (r + [s.id])[i] != (r + [s.id])[j] { assert r[i] in r; }
    }
  }

  /** The servers a credential is kept in line on: capable ones in service, of which one that is
      switched off is only told to disable. */
  predicate Addressed(s: Server, desired: bool) {
    s.capable && s.lifecycleActive && (desired ==> s.isActive)
  }

  lemma {:induction false} ServersAre(table: seq<Server>, desired: bool)
    ensures forall s :: s in ServersFor(table, desired) <==> s in table && Addressed(s, desired)
  {
    if table != [] {
      var pre, s := table[..|table| - 1], table[|table| - 1];
      assert table == pre + [s];
      ServersAre(pre, desired);
    }
  }

  lemma {:induction false} ReachableAll(servers: seq<Server>)
    ensures |Reachable(servers)| <= |servers|
    ensures |Reachable(servers)| == |servers| <==> forall s :: s in servers ==> s.hasUrl && s.hasKey
  {
    if servers != [] {
      var pre, s := servers[..|servers| - 1], servers[|servers| - 1];
      assert servers == pre + [s];
      ReachableAll(pre);
    }
  }

  /** The server with this id is among the targets, and has an endpoint. */
  predicate Asked(table: seq<Server>, desired: bool, t: ServerId) {
    exists s :: s in table && Addressed(s, desired) && s.hasUrl && s.hasKey && s.id == t
  }

  lemma {:induction false} TargetsAreAsked(servers: seq<Server>, t: ServerId)
    ensures t in Reachable(servers) <==> exists s :: s in servers && s.hasUrl && s.hasKey && s.id == t
  {
    if servers != [] {
      var pre, s := servers[..|servers| - 1], servers[|servers| - 1];
      assert servers == pre + [s];
      TargetsAreAsked(pre, t);
    }
  }

  lemma AskedAreTargets(table: seq<Server>, desired: bool, t: ServerId)
    ensures t in Reachable(ServersFor(table, desired)) <==> Asked(table, desired, t)
  {
    TargetsAreAsked(ServersFor(table, desired), t);
    ServersAre(table, desired);
    hide ServersFor, Reachable;
  }

  /** The outcome of the last request to each target. */
  function LastEnv(st: State, targets: seq<ServerId>, desired: bool, env1: Env, env2: Env): Env {
    if Conflicts(st.nodes, targets, st.uuid, st.version, desired, env1) then env2 else env1
  }

  /** A synchronisation against servers with distinct ids, from any reachable state: a reported
      conflict costs exactly one version; every target whose last request was answered holds the
      desired state at the final version, and its result says whether its inbounds were verified. */
  lemma SyncConverges(
    st: State, table: seq<Server>, userOk: bool, forcedOff: bool, env1: Env, env2: Env, t: ServerId)
    requires Inv(st) && DistinctIds(table)
    ensures var desired := st.active && userOk && !forcedOff;
            var targets := Reachable(ServersFor(table, desired));
            var r := SyncUser(st, table, userOk, forcedOff, env1, env2);
            var last := LastEnv(st, targets, desired, env1, env2);
            && (t in r.results <==> Asked(table, desired, t))
            && (t in r.results ==>
                 && r.st.version ==
                    st.version + (if Conflicts(st.nodes, targets, st.uuid, st.version, desired, env1) then 1 else 0)
                 && (r.results[t] <==> last(t) == Answered(true))
                 && (last(t).Answered? ==> Agrees(r.st, t, st.uuid, desired)))
  {
    hide Inv, SyncTwice, Reachable, ServersFor, Configured, RevocationTargets, Asked;
    var desired := Desired(st, userOk, forcedOff);
    var servers := ServersFor(table, desired);
    var targets := Reachable(servers);
    AskedAreTargets(table, desired, t);
    ServersAreSublist(table, desired);
    ReachableDistinct(servers);
    NothingAhead(st, targets);
    SyncTwiceSize(st, targets, desired, env1, env2);
    if t in targets { SyncTwiceAt(st, targets, desired, env1, env2, t); }
  }

  lemma NothingAhead(st: State, targets: seq<ServerId>)
    requires Inv(st)
    ensures NotAhead(st.nodes, targets, st.uuid, st.version)
  {
    forall s | s in targets && (s, st.uuid) in st.nodes ensures st.nodes[(s, st.uuid)].version <= st.version {
      var g := st.nodes[(s, st.uuid)];
      assert MessageOk(st, Message(s, st.uuid, g.version, g.active));
    }
  }

  lemma SyncTwiceSize(st: State, targets: seq<ServerId>, desired: bool, env1: Env, env2: Env)
    requires NoRepeat(targets)
    ensures var r := SyncTwice(st, targets, desired, env1, env2);
            && |r.results| == |targets| && (forall s :: s in r.results <==> s in targets)
            && r.st.lastSynced == st.lastSynced
  {
    hide SyncRound;
    RoundSize(st, targets, st.uuid, st.version, desired, env1);
    RoundVersion(st, targets, st.uuid, st.version, desired, env1);
    var r1 := SyncRound(st, targets, st.uuid, st.version, desired, env1);
    RoundSize(Bumped(r1.st), targets, st.uuid, st.version + 1, desired, env2);
    RoundVersion(Bumped(r1.st), targets, st.uuid, st.version + 1, desired, env2);
  }

  /** There is a server to keep in line, all of them have an endpoint, and all of them answered their
      last request with all inbounds verified. */
  predicate AllConfirm(table: seq<Server>, desired: bool, last: Env) {
    && (exists s :: s in table && Addressed(s, desired))
    && forall s :: s in table && Addressed(s, desired) ==> s.hasUrl && s.hasKey && last(s.id) == Answered(true)
  }

  lemma CompleteIff(table: seq<Server>, desired: bool, results: map<ServerId, bool>, env: Env)
    requires var targets := Reachable(ServersFor(table, desired));
             && |results| == |targets| && (forall s :: s in results <==> s in targets)
             && forall s :: s in targets ==> (results[s] <==> env(s) == Answered(true))
    ensures var servers := ServersFor(table, desired);
            Complete(servers, Reachable(servers), results) <==> AllConfirm(table, desired, env)
  {
    var servers := ServersFor(table, desired);
    ServersAre(table, desired);
    ReachableAll(servers);
    ReachableIds(servers);
    hide ServersFor, Reachable;
    if Complete(servers, Reachable(servers), results) {
      forall s | s in table && Addressed(s, desired) ensures s.hasUrl && s.hasKey && env(s.id) == Answered(true) {
        assert s in servers && s.id in Ids(servers);
      }
      assert servers[0] in servers;
    }
    if AllConfirm(table, desired, env) {
      forall t | t in Reachable(servers) ensures results[t] {
        TargetsAreAsked(servers, t);
      }
    }
  }

  /** The synchronised version is recorded exactly when every server to keep in line has an endpoint
      and confirmed; then every one of them holds the desired state at that version. */
  lemma RecordedMeansEverywhere(
    st: State, table: seq<Server>, userOk: bool, forcedOff: bool, env1: Env, env2: Env)
    requires Inv(st) && DistinctIds(table)
    ensures var desired := st.active && userOk && !forcedOff;
            var r := SyncUser(st, table, userOk, forcedOff, env1, env2);
            var last := LastEnv(st, Reachable(ServersFor(table, desired)), desired, env1, env2);
            && r.st.lastSynced == (if AllConfirm(table, desired, last) then r.st.version else st.lastSynced)
            && (AllConfirm(table, desired, last) ==>
                 forall s :: s in table && Addressed(s, desired) ==> Agrees(r.st, s.id, st.uuid, desired))
  {
    hide Inv, SyncTwice, Reachable, ServersFor, Configured, RevocationTargets;
    var desired := Desired(st, userOk, forcedOff);
    var servers := ServersFor(table, desired);
    var targets := Reachable(servers);
    var last := LastEnv(st, targets, desired, env1, env2);
    var r := SyncTwice(st, targets, desired, env1, env2);
    ServersAreSublist(table, desired);
    ReachableDistinct(servers);
    NothingAhead(st, targets);
    SyncTwiceSize(st, targets, desired, env1, env2);
    forall t | t in targets
      ensures r.results[t] <==> last(t) == Answered(true)
      ensures last(t).Answered? ==> Agrees(r.st, t, st.uuid, desired)
    {
      SyncTwiceAt(st, targets, desired, env1, env2, t);
    }
    hide LastEnv, Agrees, AllConfirm, Addressed;
    CompleteIff(table, desired, r.results, last);
    if AllConfirm(table, desired, last) { ConfirmedAreAsked(table, desired, last); }
  }

  lemma ConfirmedAreAsked(table: seq<Server>, desired: bool, last: Env)
    requires AllConfirm(table, desired, last)
    ensures Reachable(ServersFor(table, desired)) != []
    ensures forall s :: s in table && Addressed(s, desired) ==>
              s.id in Reachable(ServersFor(table, desired)) && last(s.id) == Answered(true)
  {
    hide Reachable, ServersFor, Addressed;
    forall s | s in table && Addressed(s, desired)
      ensures s.id in Reachable(ServersFor(table, desired)) && last(s.id) == Answered(true)
    {
      AskedAreTargets(table, desired, s.id);
    }
    var s :| s in table && Addressed(s, desired);
  }

  /** Without the bound one bump is not enough: a node two versions ahead keeps its own state. */
  lemma NodeAheadKeepsItsState(s: ServerId, u: Uuid, v: nat)
    ensures var st := Initial(u, true).(version := v, nodes := map[(s, u) := Register(v + 2, false)]);
            var r := SyncTwice(st, [s], true, x => Answered(true), x => Answered(true));
            !r.results[s] && r.st.nodes[(s, u)] == Register(v + 2, false)
  {
    var st := Initial(u, true).(version := v, nodes := map[(s, u) := Register(v + 2, false)]);
    var env: Env := x => Answered(true);
    var x := Send(st, Message(s, u, v, true), Answered(true));
    assert [s][..0] == [];
    assert SyncRound(st, [s], u, v, true, env) == Round(x.st, map[s := false], true);
    var y := Send(Bumped(x.st), Message(s, u, v + 1, true), Answered(true));
    assert SyncRound(Bumped(x.st), [s], u, v + 1, true, env) == Round(y.st, map[s := false], true);
  }

  // ----- how a credential leaves the pending list

  /** There are capable servers in service, switched off or not, and all of them hold the credential
      disabled. */
  predicate OffEverywhere(nodes: Nodes, table: seq<Server>, u: Uuid, since: nat) {
    && (exists s :: s in table && s.capable && s.lifecycleActive)
    && forall s :: s in table && s.capable && s.lifecycleActive ==> Off(nodes, s.id, u, since)
  }

  lemma CompleteIsOff(st: State, table: seq<Server>, u: Uuid, v: nat, env: Env)
    requires Inv(st) && u in st.retiredAt && st.retiredAt[u] <= v <= st.version
    requires var servers := RevocationTargets(table); var targets := Reachable(servers);
             Complete(servers, targets, RevokeRound(st, targets, u, v, env).results)
    ensures OffEverywhere(RevokeRound(st, Reachable(RevocationTargets(table)), u, v, env).st.nodes,
                          table, u, st.retiredAt[u])
  {
    var servers := RevocationTargets(table);
    var targets := Reachable(servers);
    var r := RevokeRound(st, targets, u, v, env);
    RevokeRoundKeeps(st, targets, u, v, env);
    RoundConfirms(st, targets, u, v, env);
    ReachableIds(servers);
    ServersAre(table, false);
    assert servers == ServersFor(table, false);
    hide RevokeRound, Reachable, RevocationTargets, ServersFor;
    forall s | s in servers ensures Off(r.st.nodes, s.id, u, st.retiredAt[u]) {
      assert s.id in Ids(servers) && s.id in r.results && (s.id, u, v) in r.st.confirmed;
    }
    assert servers[0] in servers;
  }

  /** One attempt drops at most the credential it is for, and only when every server in service
      holds it disabled. */
  lemma DeprovisionDrops(st: State, table: seq<Server>, u: Uuid, v: nat, env: Env, x: Uuid)
    requires Inv(st) && u in st.retiredAt && st.retiredAt[u] <= v <= st.version && x in st.pending
    ensures var st' := Deprovision(st, table, u, v, env);
            x !in st'.pending ==> x == u && OffEverywhere(st'.nodes, table, u, st.retiredAt[u])
  {
    var servers := RevocationTargets(table);
    var targets := Reachable(servers);
    var r := RevokeRound(st, targets, u, v, env);
    RevokeRoundKeeps(st, targets, u, v, env);
    WithoutIs(st.pending, u);
    if Complete(servers, targets, r.results) { CompleteIsOff(st, table, u, v, env); }
  }

  lemma OffEverywhereStays(st: State, st': State, table: seq<Server>, u: Uuid, since: nat)
    requires u in st.retiredAt && st.retiredAt[u] == since && OffEverywhere(st.nodes, table, u, since)
    requires forall s :: Gone(st, s, u, since) ==> Gone(st', s, u, since)
    ensures OffEverywhere(st'.nodes, table, u, since)
  {
    forall s | s in table && s.capable && s.lifecycleActive ensures Off(st'.nodes, s.id, u, since) {
      assert Gone(st, s.id, u, since);
    }
  }

  lemma {:induction false} RetryAllDrops(st: State, table: seq<Server>, copy: seq<Uuid>, env: Uuid -> Env, x: Uuid)
    requires Inv(st) && (forall u :: u in copy ==> u in st.retiredAt) && x in st.pending && x in st.retiredAt
    ensures var st' := RetryAll(st, table, copy, st.version, env);
            x !in st'.pending ==> OffEverywhere(st'.nodes, table, x, st.retiredAt[x])
  {
    if copy != [] {
      var pre, u, since := copy[..|copy| - 1], copy[|copy| - 1], st.retiredAt[x];
      assert u in copy;
      RetryAllDrops(st, table, pre, env, x);
      RetryAllKeeps(st, table, pre, env);
      var r := RetryAll(st, table, pre, st.version, env);
      hide Inv, Gone, Deprovision, OffEverywhere;
      if x in r.pending {
        DeprovisionDrops(r, table, u, st.version, env(u), x);
      } else {
        forall s | Gone(r, s, x, since) ensures Gone(Deprovision(r, table, u, st.version, env(u)), s, x, since) {
          DeprovisionGone(r, table, u, st.version, env(u), s, x, since);
        }
        OffEverywhereStays(r, Deprovision(r, table, u, st.version, env(u)), table, x, since);
      }
    }
  }

  /** The events that may take `u` off the pending list: the attempt for it, or a sweep. */
  predicate MayDrop(ev: Event, u: Uuid) {
    (ev.Background? && ev.uuid == u) || ev.Sweep?
  }

  /** An entry disappears only in such an event, and only if afterwards every server in service
      holds it disabled. */
  lemma StepDrops(st: State, ev: Event, u: Uuid)
    requires Inv(st) && u in st.pending && u !in Step(st, ev).pending
    ensures u in st.retiredAt && MayDrop(ev, u)
    ensures OffEverywhere(Step(st, ev).nodes, ev.table, u, st.retiredAt[u])
  {
    PendingRetired(st);
    match ev
    case SyncNow(t, ok, off, e1, e2) => SyncUserPending(st, t, ok, off, e1, e2);
    case Background(t, x, v, e) => DeprovisionDrops(st, t, x, v, e, u);
    case Sweep(t, es) => RetryAllDrops(st, t, st.pending, es, u);
    case UnbanUser(a) => UnbanDropsNothing(st, a);
    case _ =>
  }

  lemma SyncUserPending(st: State, table: seq<Server>, userOk: bool, forcedOff: bool, env1: Env, env2: Env)
    requires Inv(st)
    ensures SyncUser(st, table, userOk, forcedOff, env1, env2).st.pending == st.pending
  {
    hide Inv, SyncRound, Reachable, ServersFor;
    var desired := Desired(st, userOk, forcedOff);
    var targets := Reachable(ServersFor(table, desired));
    SyncRoundKeeps(st, targets, st.version, desired, env1);
    var r1 := SyncRound(st, targets, st.uuid, st.version, desired, env1);
    BumpKeeps(r1.st, st.active);
    SyncRoundKeeps(Bumped(r1.st), targets, st.version + 1, desired, env2);
  }

  /** Event `n` of the run took `u` off the pending list, and every server that was in service
      then holds it disabled at the end of the run. */
  predicate DroppedAt(start: State, evs: seq<Event>, n: nat, u: Uuid, since: nat)
    requires n < |evs|
  {
    && u in Run(start, evs[..n]).pending && u !in Run(start, evs[..n + 1]).pending && MayDrop(evs[n], u)
    && OffEverywhere(Run(start, evs).nodes, evs[n].table, u, since)
  }

  lemma DroppedEarlier(start: State, evs: seq<Event>, n: nat, u: Uuid, since: nat)
    requires evs != [] && n < |evs| - 1 && Inv(Run(start, evs[..|evs| - 1]))
    requires DroppedAt(start, evs[..|evs| - 1], n, u, since)
    requires var st := Run(start, evs[..|evs| - 1]); u in st.retiredAt && st.retiredAt[u] == since
    ensures DroppedAt(start, evs, n, u, since)
  {
    var pre, ev := evs[..|evs| - 1], evs[|evs| - 1];
    var st := Run(start, pre);
    assert pre[..n] == evs[..n] && pre[..n + 1] == evs[..n + 1] && pre[n] == evs[n];
    hide Inv, Gone, Step, OffEverywhere;
    forall s | Gone(st, s, u, since) ensures Gone(Step(st, ev), s, u, since) { StepGone(st, ev, s, u, since); }
    OffEverywhereStays(st, Step(st, ev), evs[n].table, u, since);
  }

  lemma StepRetires(st: State, ev: Event, u: Uuid)
    requires Inv(st) && u in Step(st, ev).retiredAt
    ensures u in st.retiredAt ==> Step(st, ev).retiredAt[u] == st.retiredAt[u]
    ensures u !in st.retiredAt ==> u in Step(st, ev).pending
  {
    if Enabled(st, ev) {
      match ev
      case SyncNow(t, ok, off, e1, e2) => SyncUserRetires(st, t, ok, off, e1, e2);
      case Background(t, x, v, e) => DeprovisionKeeps(st, t, x, v, e);
      case Sweep(t, es) => PendingRetired(st); RetryAllKeeps(st, t, st.pending, es);
      case _ =>
    }
  }

  lemma SyncUserRetires(st: State, table: seq<Server>, userOk: bool, forcedOff: bool, env1: Env, env2: Env)
    requires Inv(st)
    ensures SyncUser(st, table, userOk, forcedOff, env1, env2).st.retiredAt == st.retiredAt
  {
    hide Inv, SyncRound, Reachable, ServersFor;
    var desired := Desired(st, userOk, forcedOff);
    var targets := Reachable(ServersFor(table, desired));
    SyncRoundKeeps(st, targets, st.version, desired, env1);
    var r1 := SyncRound(st, targets, st.uuid, st.version, desired, env1);
    BumpKeeps(r1.st, st.active);
    SyncRoundKeeps(Bumped(r1.st), targets, st.version + 1, desired, env2);
  }

  ghost predicate Remembered(start: State, evs: seq<Event>, u: Uuid, since: nat) {
    u in Run(start, evs).pending || exists n: nat :: n < |evs| && DroppedAt(start, evs, n, u, since)
  }

  /** No retired credential is forgotten: on every run it stays on the pending list until an event
      in which every server in service, at least one, holds it disabled; and there it stays disabled. */
  lemma {:induction false} NoneForgotten(first: Uuid, active: bool, evs: seq<Event>, u: Uuid)
    requires u in Run(Initial(first, active), evs).retiredAt
    ensures Remembered(Initial(first, active), evs, u, Run(Initial(first, active), evs).retiredAt[u])
  {
    var start := Initial(first, active);
    if evs != [] {
      var pre, ev, last := evs[..|evs| - 1], evs[|evs| - 1], |evs| - 1;
      var st := Run(start, pre);
      RunKeeps(first, active, pre);
      StepRetires(st, ev, u);
      hide Inv, Step, DroppedAt, OffEverywhere;
      if u in st.retiredAt && u !in Step(st, ev).pending {
        var since := st.retiredAt[u];
        NoneForgotten(first, active, pre, u);
        if u in st.pending {
          StepDrops(st, ev, u);
          LastDrop(start, evs, u, since);
        } else {
          var n: nat :| n < |pre| && DroppedAt(start, pre, n, u, since);
          DroppedEarlier(start, evs, n, u, since);
        }
      }
    }
  }

  lemma LastDrop(start: State, evs: seq<Event>, u: Uuid, since: nat)
    requires evs != [] && u in Run(start, evs[..|evs| - 1]).pending && u !in Run(start, evs).pending
    requires MayDrop(evs[|evs| - 1], u) && OffEverywhere(Run(start, evs).nodes, evs[|evs| - 1].table, u, since)
    ensures DroppedAt(start, evs, |evs| - 1, u, since)
  {
    assert evs[..|evs| - 1 + 1] == evs;
  }

  lemma {:induction false} RevokeResults(st: State, targets: seq<ServerId>, u: Uuid, v: nat, env: Env)
    requires Inv(st) && u in st.retiredAt && st.retiredAt[u] <= v <= st.version && NoRepeat(targets)
    ensures var r := RevokeRound(st, targets, u, v, env);
            && |r.results| == |targets| && (forall s :: s in r.results <==> s in targets)
            && (forall s :: s in targets ==> (r.results[s] <==> env(s) == Answered(true)))
  {
    hide Inv, Revoke;
    if targets != [] {
      var pre, s := targets[..|targets| - 1], targets[|targets| - 1];
      assert targets == pre + [s] && s !in pre;
      RevokeResults(st, pre, u, v, env);
      RevokeRoundKeeps(st, pre, u, v, env);
      var r := RevokeRound(st, pre, u, v, env);
      RevocationAlwaysAgreed(r.st, Message(s, u, v, false), env(s));
      assert r.results[s := true].Keys == r.results.Keys + {s};
    }
  }

  /** One attempt drops its credential exactly when there is a capable server in service, all of them,
      switched off or not, have an endpoint, and all of them answer with their inbounds verified. */
  lemma DeprovisionDropsIff(st: State, table: seq<Server>, u: Uuid, v: nat, env: Env)
    requires Inv(st) && DistinctIds(table) && u in st.pending
    requires u in st.retiredAt && st.retiredAt[u] <= v <= st.version
    ensures u !in Deprovision(st, table, u, v, env).pending <==> AllConfirm(table, false, env)
  {
    var servers := RevocationTargets(table);
    var targets := Reachable(servers);
    ServersAreSublist(table, false);
    assert ServersFor(table, false) == servers;
    hide Inv, RevokeRound, RevocationTargets, ServersFor, Reachable, Without, Complete, AllConfirm;
    ReachableDistinct(servers);
    RevokeResults(st, targets, u, v, env);
    RevokeRoundKeeps(st, targets, u, v, env);
    CompleteIff(table, false, RevokeRound(st, targets, u, v, env).results, env);
    WithoutIs(st.pending, u);
  }

  // ----- what goes out

  function Orders(targets: seq<ServerId>, u: Uuid, v: nat, a: bool): set<Message> {
    set t | t in targets :: Message(t, u, v, a)
  }

  lemma OrdersPush(pre: seq<ServerId>, s: ServerId, u: Uuid, v: nat, a: bool)
    ensures Orders(pre + [s], u, v, a) == Orders(pre, u, v, a) + {Message(s, u, v, a)}
  {
    assert forall t :: t in pre + [s] <==> t in pre || t == s;
  }

  lemma {:induction false} RoundSends(st: State, targets: seq<ServerId>, u: Uuid, v: nat, a: bool, env: Env)
    ensures SyncRound(st, targets, u, v, a, env).st.sent == st.sent + Orders(targets, u, v, a)
  {
    if targets != [] {
      var pre, s := targets[..|targets| - 1], targets[|targets| - 1];
      RoundSends(st, pre, u, v, a, env);
      OrdersPush(pre, s, u, v, a);
      assert targets == pre + [s];
      hide Orders;
    }
  }

  lemma {:induction false} RevokeSends(st: State, targets: seq<ServerId>, u: Uuid, v: nat, env: Env)
    ensures RevokeRound(st, targets, u, v, env).st.sent == st.sent + Orders(targets, u, v, false)
  {
    if targets != [] {
      var pre, s := targets[..|targets| - 1], targets[|targets| - 1];
      RevokeSends(st, pre, u, v, env);
      OrdersPush(pre, s, u, v, false);
      assert targets == pre + [s];
      hide Orders;
    }
  }

  /** A synchronisation tells every server it can ask the state the subscription is to have, at the
      final version, and sends nothing else: access only to an active subscription of a user in good
      standing, and only to servers that are switched on. */
  lemma OnlyTheDesiredIsSent(
    st: State, table: seq<Server>, userOk: bool, forcedOff: bool, env1: Env, env2: Env)
    ensures var desired := st.active && userOk && !forcedOff;
            var r := SyncUser(st, table, userOk, forcedOff, env1, env2);
            && (forall m :: m in r.st.sent && m !in st.sent ==>
                  m.uuid == st.uuid && m.active == desired && Asked(table, desired, m.server)
                  && st.version <= m.version <= r.st.version)
            && forall t :: Asked(table, desired, t) ==> Message(t, st.uuid, r.st.version, desired) in r.st.sent
  {
    var desired := st.active && userOk && !forcedOff;
    var targets := Reachable(ServersFor(table, desired));
    forall t: ServerId ensures t in targets <==> Asked(table, desired, t) { AskedAreTargets(table, desired, t); }
    hide Reachable, ServersFor, Asked, SyncTwice, Complete;
    TwiceSends(st, targets, desired, env1, env2);
  }

  lemma TwiceSends(st: State, targets: seq<ServerId>, desired: bool, env1: Env, env2: Env)
    ensures var r := SyncTwice(st, targets, desired, env1, env2);
            && st.version <= r.st.version
            && (forall m :: m in r.st.sent && m !in st.sent ==>
                  m.uuid == st.uuid && m.active == desired && m.server in targets
                  && st.version <= m.version <= r.st.version)
            && forall t :: t in targets ==> Message(t, st.uuid, r.st.version, desired) in r.st.sent
  {
    hide SyncRound;
    RoundSends(st, targets, st.uuid, st.version, desired, env1);
    var r1 := SyncRound(st, targets, st.uuid, st.version, desired, env1);
    RoundVersion(st, targets, st.uuid, st.version, desired, env1);
    RoundSends(Bumped(r1.st), targets, st.uuid, st.version + 1, desired, env2);
    RoundVersion(Bumped(r1.st), targets, st.uuid, st.version + 1, desired, env2);
  }

  /** An attempt to revoke asks every capable server in service that has an endpoint, also one that is
      switched off, and nobody else. */
  lemma RevocationAsks(st: State, table: seq<Server>, u: Uuid, v: nat, env: Env)
    ensures var st' := Deprovision(st, table, u, v, env);
            && (forall s :: s in table && s.capable && s.lifecycleActive && s.hasUrl && s.hasKey ==>
                  Message(s.id, u, v, false) in st'.sent)
            && forall m :: m in st'.sent && m !in st.sent ==>
                 m == Message(m.server, u, v, false) && Asked(table, false, m.server)
  {
    var targets := Reachable(RevocationTargets(table));
    assert RevocationTargets(table) == ServersFor(table, false);
    forall t: ServerId ensures t in targets <==> Asked(table, false, t) { AskedAreTargets(table, false, t); }
    forall s | s in table && s.capable && s.lifecycleActive && s.hasUrl && s.hasKey ensures Asked(table, false, s.id) {
      assert Addressed(s, false);
    }
    hide Reachable, ServersFor, RevocationTargets, Asked, Complete, RevokeRound;
    RevokeSends(st, targets, u, v, env);
  }

  /** A result counts as good only if the server answered with all inbounds verified. */
  lemma {:induction false} GoodResults(st: State, targets: seq<ServerId>, u: Uuid, v: nat, env: Env)
    ensures var r := RevokeRound(st, targets, u, v, env);
            forall s :: s in r.results ==> s in targets && (r.results[s] ==> env(s) == Answered(true))
  {
    if targets != [] {
      var pre := targets[..|targets| - 1];
      GoodResults(st, pre, u, v, env);
      assert targets == pre + [targets[|targets| - 1]];
    }
  }

  /** An attempt is complete only when every server it concerns has an endpoint and confirmed. */
  lemma CompleteMeansAll(st: State, table: seq<Server>, u: Uuid, v: nat, env: Env)
    ensures var servers := RevocationTargets(table); var targets := Reachable(servers);
            Complete(servers, targets, RevokeRound(st, targets, u, v, env).results) ==> AllConfirm(table, false, env)
  {
    var servers := RevocationTargets(table);
    var targets := Reachable(servers);
    var r := RevokeRound(st, targets, u, v, env);
    GoodResults(st, targets, u, v, env);
    RoundConfirms(st, targets, u, v, env);
    ServersAre(table, false);
    ReachableAll(servers);
    ReachableIds(servers);
    assert servers == ServersFor(table, false);
    hide RevokeRound, Reachable, RevocationTargets, ServersFor;
    if Complete(servers, targets, r.results) {
      forall s | s in table && Addressed(s, false) ensures s.hasUrl && s.hasKey && env(s.id) == Answered(true) {
        assert s in servers && s.id in Ids(servers) && s.id in r.results;
      }
      assert servers[0] in servers;
    }
  }
}
