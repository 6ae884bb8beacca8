/**
 * The coordinator as a state machine: syncs of its clients, the messages it has sent, and the history
 * that the theorems speak about.
 */
module Network {
  import opened Basics
  import opened Candidates
  import opened Endpoints
  import opened CandidateExchange
  import opened Pairs
  import opened Coordinator
  import opened Fingerprints
  import P = PeerRegions

  /**
   * What does not change in a run: the libraries, and the directory that gives every key its one
   * overlay address and its role.
   */
  datatype Setting = Setting(lib: Library, json: Json, read: AddressReader, home: string -> string, server: string -> bool)

  /** A session that was opened once. */
  datatype Opened = Opened(key: string, ip: string, id: string, started: nat)

  function OpenedOf(s: Session): Opened {
    Opened(s.key, s.ip, s.id, s.started)
  }

  /**
   * An offer on the wire, with the timestamp of its signature; when it was sent and the stamp of its sync
   * are kept for the theorems.
   */
  datatype Sent = Sent(to: string, payload: Payload, lease: real, timestamp: int, sentAt: real, stamp: real)

  function OfferedOf(m: Sent): Opened {
    Opened(m.payload.key, m.payload.ip, m.payload.sessionId, m.payload.started)
  }

  datatype Gone = Gone(session: Opened, reason: P.Reason)

  /** The last push for a session and a server that was answered with ok, and the time stamp of its sync. */
  datatype Ack = Ack(push: Push, at: real)

  /** A sync between its first and its last locked region; `base` lacks only the server. */
  datatype Sync = Sync(now: real, base: Push, targets: seq<Peer>, pending: seq<Push>, results: map<string, string>)

  /** `history`, `offers`, `removes` and `acked` are kept for the theorems: no decision reads them. */
  datatype Net = Net(
    clock: real,
    sessions: Sessions,
    sync: Option<Sync>,
    history: set<Opened>,
    offers: set<Sent>,
    removes: set<Gone>,
    acked: map<(string, string), Ack>)

  /**
   * `now` of a sync or of the reaper was read before the lock was taken.  One lock admits a single sync
   * at a time; disconnects and the reaper interleave with it.
   */
  datatype NetEvent =
    | Tick(to: real)
    | Begin(now: real, client: Peer, instanceId: string, lan: string, candidates: seq<Candidate>, peers: seq<Peer>,
            force: bool, newId: string, newStart: nat)
    | Post(i: nat, ok: bool)
    | Finish
    | Leave(ip: string)
    | Reap(now: real)

  /** An id that was never used, and a start time later than all before. */
  predicate FreshSession(n: Net, id: string, started: nat) {
    Plain(id) && started > 0 && forall o :: o in n.history ==> o.id != id && o.started < started
  }

  predicate PlainPeer(p: Peer) {
    Plain(p.key) && Plain(p.ip) && Plain(p.instance) && Plain(p.endpoint)
  }

  function Identified(client: Peer, instanceId: string): Peer {
    if instanceId != "" then client.(instance := instanceId) else client
  }

  predicate NetEnabled(c: Setting, n: Net, e: NetEvent) {
    match e
    case Tick(to) => n.clock <= to
    case Begin(now, client, instanceId, lan, _, peers, _, newId, newStart) =>
      && n.sync.None? && now <= n.clock && FreshSession(n, newId, newStart)
      && client.ip == c.home(client.key) && client.server == c.server(client.key)
      && PlainPeer(client) && Plain(instanceId) && Plain(lan)
      && forall i :: 0 <= i < |peers| ==> PlainPeer(peers[i])
    case Post(i, _) => n.sync.Some? && i < |n.sync.value.pending|
    case Finish => n.sync.Some?
    case Leave(_) => true
    case Reap(now) => now <= n.clock
  }

  function BaseOf(s: Session, client: Peer, lan: string, candidates: seq<Candidate>): Push {
    Push(s.id, s.started, client, lan, candidates, client)
  }

  function Begun(c: Setting, n: Net, e: NetEvent): Net
    requires e.Begin?
  {
    var client := Identified(e.client, e.instanceId);
    var o := Open(n.sessions, client, e.instanceId, e.now, e.newId, e.newStart);
    var base := BaseOf(o.session, client, e.lan, e.candidates);
    var targets := Targets(c.read, client, e.peers);
    n.(sessions := o.sessions,
       history := n.history + {OpenedOf(o.session)},
       removes := n.removes + if o.stale.None? then {} else {Gone(OpenedOf(o.stale.value), P.Superseded)},
       sync := Some(Sync(e.now, base, targets, Pending(c.json, o.session, base, targets, e.now, e.force), map[])))
  }

  function Posted(c: Setting, n: Net, i: nat, ok: bool): Net
    requires n.sync.Some? && i < |n.sync.value.pending|
  {
    var sync := n.sync.value;
    var p := sync.pending[i];
    var payload := PayloadOf(c.lib, p);
    if payload.None? then n
    else
      var m := Sent(p.server.ip, payload.value, LeaseOf(n.clock), n.clock.Floor, n.clock, sync.now);
      var sent := n.(offers := n.offers + {m});
      if !ok then sent
      else
        sent.(sync := Some(sync.(results := sync.results[p.server.ip := Fingerprint(c.json, p)])),
              acked := n.acked[(p.id, p.server.ip) := Ack(p, sync.now)])
  }

  function NetNext(c: Setting, n: Net, e: NetEvent): Net
    requires NetEnabled(c, n, e)
  {
    match e
    case Tick(to) => n.(clock := to)
    case Begin(_, _, _, _, _, _, _, _, _) => Begun(c, n, e)
    case Post(i, ok) => Posted(c, n, i, ok)
    case Finish =>
      var sync := n.sync.value;
      n.(sessions := Store(n.sessions, sync.base.client.ip, sync.base.id, sync.now, sync.results), sync := None)
    case Leave(ip) =>
      if ip !in n.sessions then n
      else n.(sessions := n.sessions - {ip}, removes := n.removes + {Gone(OpenedOf(n.sessions[ip]), P.Disconnect)})
    case Reap(now) =>
      n.(sessions := Kept(n.sessions, now),
         removes := n.removes + set s | s in LapsedSessions(n.sessions, now) :: Gone(OpenedOf(s), P.Expired))
  }

  predicate NetInitial(n: Net) {
    n.sessions == map[] && n.sync.None? && n.history == {} && n.offers == {} && n.removes == {} && n.acked == map[]
  }

  // ---------------------------------------------------------------- invariant

  /** The session is the newest one that was ever opened for its key. */
  predicate Newest(s: Opened, history: set<Opened>) {
    s in history && forall o :: o in history && o.key == s.key ==> o == s || o.started < s.started
  }

  predicate HistoryOk(c: Setting, history: set<Opened>) {
    && (forall o :: o in history ==> o.started > 0 && Plain(o.id) && o.ip == c.home(o.key))
    && (forall o, p :: o in history && p in history && o.id == p.id ==> o == p)
  }

  predicate SessionsOk(n: Net) {
    forall ip :: ip in n.sessions ==> n.sessions[ip].ip == ip && Newest(OpenedOf(n.sessions[ip]), n.history)
  }

  /** A server gets no offers about the servers it drives itself. */
  predicate Rightly(c: Setting, key: string, to: string) {
    c.server(key) ==> Owns(c.read, c.home(key), to)
  }

  predicate OffersOk(c: Setting, n: Net) {
    forall m :: m in n.offers ==>
      && OfferedOf(m) in n.history && Rightly(c, m.payload.key, m.to)
      && m.stamp <= m.sentAt && m.lease == LeaseOf(m.sentAt) && m.timestamp == m.sentAt.Floor
  }

  predicate RemovesOk(n: Net) {
    forall r :: r in n.removes ==>
      && r.session in n.history
      && forall ip :: ip in n.sessions ==> OpenedOf(n.sessions[ip]) != r.session
  }

  predicate BaseOk(c: Setting, n: Net, p: Push) {
    && Opened(p.client.key, p.client.ip, p.id, p.started) in n.history
    && p.client.server == c.server(p.client.key) && PlainPeer(p.client) && Plain(p.lan)
  }

  predicate PendingOk(c: Setting, s: Sync) {
    && (forall i :: 0 <= i < |s.targets| ==> Initiates(c.read, s.base.client, s.targets[i]) && PlainPeer(s.targets[i]))
    && (forall i :: 0 <= i < |s.pending| ==>
          s.pending[i].server in s.targets && s.pending[i] == s.base.(server := s.pending[i].server))
  }

  predicate SyncOk(c: Setting, n: Net) {
    n.sync.Some? ==>
      n.sync.value.now <= n.clock && BaseOk(c, n, n.sync.value.base) && PendingOk(c, n.sync.value)
  }

  predicate NetInv(c: Setting, n: Net) {
    HistoryOk(c, n.history) && SessionsOk(n) && OffersOk(c, n) && RemovesOk(n) && SyncOk(c, n)
  }

  lemma {:induction false} PendingExactly(json: Json, s: Session, base: Push, servers: seq<Peer>, now: real,
                                          force: bool, p: Push)
    ensures p in Pending(json, s, base, servers, now, force) <==>
            p.server in servers && p == base.(server := p.server)
            && Due(s, p.server.ip, Fingerprint(json, p), now, force)
  {
    if servers != [] {
      PendingExactly(json, s, base, servers[1..], now, force, p);
      assert servers == [servers[0]] + servers[1..];
    }
  }

  /** What a sync opens or refreshes is the newest session of its key, and what it replaces is closed. */
  lemma OpenKeeps(c: Setting, n: Net, e: NetEvent)
    requires NetInv(c, n) && NetEnabled(c, n, e) && e.Begin?
    ensures var n' := Begun(c, n, e); SessionsOk(n') && RemovesOk(n')
  {
    var client := Identified(e.client, e.instanceId);
    var o := Open(n.sessions, client, e.instanceId, e.now, e.newId, e.newStart);
    var n' := Begun(c, n, e);
    forall ip | ip in n'.sessions
      ensures n'.sessions[ip].ip == ip && Newest(OpenedOf(n'.sessions[ip]), n'.history)
      ensures forall r :: r in n'.removes ==> OpenedOf(n'.sessions[ip]) != r.session
    {
      var s := n'.sessions[ip];
      if ip != client.ip {
        assert s == n.sessions[ip];
        assert s.key != client.key;
      }
    }
  }

  lemma HistoryGrows(c: Setting, n: Net, e: NetEvent)
    requires NetInv(c, n) && NetEnabled(c, n, e) && e.Begin?
    ensures HistoryOk(c, Begun(c, n, e).history)
  {
  }

  lemma BeginKeeps(c: Setting, n: Net, e: NetEvent)
    requires NetInv(c, n) && NetEnabled(c, n, e) && e.Begin?
    ensures NetInv(c, Begun(c, n, e))
  {
    HistoryGrows(c, n, e);
    OpenKeeps(c, n, e);
    SyncStarts(c, n, e);
  }

  lemma SyncStarts(c: Setting, n: Net, e: NetEvent)
    requires NetInv(c, n) && NetEnabled(c, n, e) && e.Begin?
    ensures var n' := Begun(c, n, e); SyncOk(c, n') && OffersOk(c, n')
  {
    var client := Identified(e.client, e.instanceId);
    var o := Open(n.sessions, client, e.instanceId, e.now, e.newId, e.newStart);
    var sync := Begun(c, n, e).sync.value;
    forall i | 0 <= i < |sync.targets|
      ensures Initiates(c.read, client, sync.targets[i]) && PlainPeer(sync.targets[i])
    {
      TargetsExactly(c.read, client, e.peers, sync.targets[i]);
    }
    forall i | 0 <= i < |sync.pending|
      ensures sync.pending[i].server in sync.targets && sync.pending[i] == sync.base.(server := sync.pending[i].server)
    {
      PendingExactly(c.json, o.session, sync.base, sync.targets, e.now, e.force, sync.pending[i]);
    }
  }

  lemma PostKeeps(c: Setting, n: Net, i: nat, ok: bool)
    requires NetInv(c, n) && n.sync.Some? && i < |n.sync.value.pending|
    ensures NetInv(c, Posted(c, n, i, ok))
  {
  }

  lemma CloseKeeps(c: Setting, n: Net, n': Net, closed: set<Gone>)
    requires NetInv(c, n)
    requires n' == n.(sessions := n'.sessions, removes := n.removes + closed)
    requires forall ip :: ip in n'.sessions ==> ip in n.sessions && n'.sessions[ip] == n.sessions[ip]
    requires forall r :: r in closed ==>
               exists ip :: ip in n.sessions && ip !in n'.sessions && r.session == OpenedOf(n.sessions[ip])
    ensures NetInv(c, n')
  {
  }

  lemma NetKeeps(c: Setting, n: Net, e: NetEvent)
    requires NetInv(c, n) && NetEnabled(c, n, e)
    ensures NetInv(c, NetNext(c, n, e))
  {
    match e
    case Begin(_, _, _, _, _, _, _, _, _) => BeginKeeps(c, n, e);
    case Post(i, ok) => PostKeeps(c, n, i, ok);
    case Leave(ip) =>
      if ip in n.sessions {
        var r := Gone(OpenedOf(n.sessions[ip]), P.Disconnect);
        CloseKeeps(c, n, NetNext(c, n, e), {r});
      }
    case Reap(now) =>
      var closed := set s | s in LapsedSessions(n.sessions, now) :: Gone(OpenedOf(s), P.Expired);
      CloseKeeps(c, n, NetNext(c, n, e), closed);
    case _ =>
  }

  // ---------------------------------------------------------------- runs

  predicate NetPossible(c: Setting, n: Net, run: seq<NetEvent>)
    decreases |run|
  {
    run == [] || (NetEnabled(c, n, run[0]) && NetPossible(c, NetNext(c, n, run[0]), run[1..]))
  }

  function NetAfter(c: Setting, n: Net, run: seq<NetEvent>): Net
    requires NetPossible(c, n, run)
    decreases |run|
  {
    if run == [] then n else NetAfter(c, NetNext(c, n, run[0]), run[1..])
  }
}
