/** A push that the coordinator skips would have repeated what the server has acknowledged. */
module SuppressionTheorems {
  import opened Basics
  import opened Candidates
  import opened Endpoints
  import opened CandidateExchange
  import opened Pairs
  import opened Coordinator
  import opened Fingerprints
  import opened Network

  /** The acknowledged push of (session, server) produced `mark` in the sync stamped `at`. */
  predicate Answered(c: Setting, n: Net, id: string, serverIp: string, mark: string, at: real) {
    && (id, serverIp) in n.acked
    && var ack := n.acked[(id, serverIp)];
    && Fingerprint(c.json, ack.push) == mark && ack.at == at
  }

  /** Every record in `acked` is about its own session and server, and about an offer that was sent. */
  predicate AckOk(c: Setting, n: Net, id: string, serverIp: string) {
    (id, serverIp) in n.acked ==>
      var p := n.acked[(id, serverIp)].push;
      && p.id == id && p.server.ip == serverIp && PlainPush(p) && PayloadOf(c.lib, p).Some?
      && Opened(p.client.key, p.client.ip, p.id, p.started) in n.history
  }

  ghost predicate AcksOk(c: Setting, n: Net) {
    forall id, ip :: AckOk(c, n, id, ip)
  }

  /** A newer answer of the running sync waits to be stored. */
  predicate Waiting(n: Net, id: string, serverIp: string) {
    n.sync.Some? && n.sync.value.base.id == id && serverIp in n.sync.value.results
  }

  predicate StoredOk(c: Setting, n: Net, s: Session, serverIp: string) {
    serverIp in s.prints ==>
      && serverIp in s.lastPush
      && (Waiting(n, s.id, serverIp) || Answered(c, n, s.id, serverIp, s.prints[serverIp], s.lastPush[serverIp]))
  }

  ghost predicate TableOk(c: Setting, n: Net) {
    forall ip, serverIp :: ip in n.sessions ==> StoredOk(c, n, n.sessions[ip], serverIp)
  }

  predicate ResultsOk(c: Setting, n: Net) {
    n.sync.Some? ==>
      forall serverIp :: serverIp in n.sync.value.results ==>
        Answered(c, n, n.sync.value.base.id, serverIp, n.sync.value.results[serverIp], n.sync.value.now)
  }

  ghost predicate AckInv(c: Setting, n: Net) {
    NetInv(c, n) && AcksOk(c, n) && TableOk(c, n) && ResultsOk(c, n)
  }

  lemma PostKeepsAcks(c: Setting, n: Net, i: nat, ok: bool)
    requires AckInv(c, n) && n.sync.Some? && i < |n.sync.value.pending|
    ensures AcksOk(c, Posted(c, n, i, ok))
  {
    var sync, n' := n.sync.value, Posted(c, n, i, ok);
    var p := sync.pending[i];
    assert PlainPush(p) by {
      assert p.server in sync.targets;
      var j :| 0 <= j < |sync.targets| && sync.targets[j] == p.server;
      assert PlainPeer(sync.targets[j]);
      assert Opened(p.client.key, p.client.ip, p.id, p.started) in n.history;
    }
    forall id, ip ensures AckOk(c, n', id, ip) {
      assert AckOk(c, n, id, ip);
    }
  }

  lemma PostKeepsTable(c: Setting, n: Net, i: nat, ok: bool)
    requires AckInv(c, n) && n.sync.Some? && i < |n.sync.value.pending|
    ensures TableOk(c, Posted(c, n, i, ok))
  {
    var n' := Posted(c, n, i, ok);
    forall ip, serverIp | ip in n'.sessions ensures StoredOk(c, n', n'.sessions[ip], serverIp) {
      assert StoredOk(c, n, n.sessions[ip], serverIp);
    }
  }

  lemma PostKeepsResults(c: Setting, n: Net, i: nat, ok: bool)
    requires AckInv(c, n) && n.sync.Some? && i < |n.sync.value.pending|
    ensures ResultsOk(c, Posted(c, n, i, ok))
  {
  }

  lemma FinishKeepsTable(c: Setting, n: Net)
    requires AckInv(c, n) && n.sync.Some?
    ensures TableOk(c, NetNext(c, n, Finish))
  {
    var sync, n' := n.sync.value, NetNext(c, n, Finish);
    forall ip, serverIp | ip in n'.sessions ensures StoredOk(c, n', n'.sessions[ip], serverIp) {
      var s := n.sessions[ip];
      assert StoredOk(c, n, s, serverIp);
      // A session with the id of the sync sits at the address of the sync.
      assert s.id == sync.base.id ==> ip == sync.base.client.ip by {
        assert OpenedOf(s) in n.history && BaseOk(c, n, sync.base);
      }
    }
  }

  lemma BeginKeepsAcks(c: Setting, n: Net, e: NetEvent)
    requires AckInv(c, n) && NetEnabled(c, n, e) && e.Begin?
    ensures AcksOk(c, Begun(c, n, e)) && TableOk(c, Begun(c, n, e)) && ResultsOk(c, Begun(c, n, e))
  {
    var n' := Begun(c, n, e);
    forall id, ip ensures AckOk(c, n', id, ip) {
      assert AckOk(c, n, id, ip);
    }
    forall ip, serverIp | ip in n'.sessions ensures StoredOk(c, n', n'.sessions[ip], serverIp) {
      if ip in n.sessions { assert StoredOk(c, n, n.sessions[ip], serverIp); }
    }
  }

  /** Steps that only close sessions or move the clock. */
  lemma ShrinkKeepsAcks(c: Setting, n: Net, n': Net)
    requires AckInv(c, n) && n'.sync == n.sync && n'.acked == n.acked && n'.history == n.history
    requires forall ip :: ip in n'.sessions ==> ip in n.sessions && n'.sessions[ip] == n.sessions[ip]
    ensures AcksOk(c, n') && TableOk(c, n') && ResultsOk(c, n')
  {
    forall id, ip ensures AckOk(c, n', id, ip) {
      assert AckOk(c, n, id, ip);
    }
    forall ip, serverIp | ip in n'.sessions ensures StoredOk(c, n', n'.sessions[ip], serverIp) {
      assert StoredOk(c, n, n.sessions[ip], serverIp);
    }
  }

  lemma StepKeepsAcks(c: Setting, n: Net, e: NetEvent)
    requires AckInv(c, n) && NetEnabled(c, n, e)
    ensures AckInv(c, NetNext(c, n, e))
  {
    NetKeeps(c, n, e);
    match e
    case Begin(_, _, _, _, _, _, _, _, _) => BeginKeepsAcks(c, n, e);
    case Post(i, ok) =>
      PostKeepsAcks(c, n, i, ok);
      PostKeepsTable(c, n, i, ok);
      PostKeepsResults(c, n, i, ok);
    case Finish =>
      FinishKeepsTable(c, n);
      assert forall id, ip :: AckOk(c, n, id, ip) ==> AckOk(c, NetNext(c, n, e), id, ip);
    case _ => ShrinkKeepsAcks(c, n, NetNext(c, n, e));
  }

  lemma {:induction false} RunKeepsAcks(c: Setting, n: Net, run: seq<NetEvent>)
    requires AckInv(c, n) && NetPossible(c, n, run)
    ensures AckInv(c, NetAfter(c, n, run))
    decreases |run|
  {
    if run != [] {
      StepKeepsAcks(c, n, run[0]);
      RunKeepsAcks(c, NetNext(c, n, run[0]), run[1..]);
    }
  }

  lemma InitiallyAcked(c: Setting, n: Net)
    requires NetInitial(n)
    ensures AckInv(c, n)
  {
  }

  /**
   * Whenever a sync skips a server, the offer it would have sent equals in every field but the lease the
   * last one that the server acknowledged within this session, and the sync of that one began less than
   * 120 seconds before.  A forced sync skips nobody.
   */
  lemma SuppressionIsSound(c: Setting, start: Net, run: seq<NetEvent>, e: NetEvent, server: Peer)
    requires NetInitial(start) && NetPossible(c, start, run) && Injective(c.json)
    requires e.Begin? && NetEnabled(c, NetAfter(c, start, run), e)
    requires var sync := Begun(c, NetAfter(c, start, run), e).sync.value;
             server in sync.targets && sync.base.(server := server) !in sync.pending
    ensures var n := NetAfter(c, start, run);
            var p := Begun(c, n, e).sync.value.base.(server := server);
            && !e.force && (p.id, server.ip) in n.acked
            && var ack := n.acked[(p.id, server.ip)];
            && PayloadOf(c.lib, p).Some? && PayloadOf(c.lib, p) == PayloadOf(c.lib, ack.push)
            && ack.push.id == p.id && ack.push.server.ip == server.ip && ack.push.server.key == server.key
            && e.now - ack.at < 120.0
  {
    var n := NetAfter(c, start, run);
    InitiallyAcked(c, start);
    RunKeepsAcks(c, start, run);
    var n' := Begun(c, n, e);
    var sync := n'.sync.value;
    var p := sync.base.(server := server);
    var client := Identified(e.client, e.instanceId);
    var s := Open(n.sessions, client, e.instanceId, e.now, e.newId, e.newStart).session;
    PendingExactly(c.json, s, sync.base, sync.targets, e.now, e.force, p);
    assert server.ip in s.prints;
    assert s == n.sessions[client.ip].(lastSeen := e.now);
    assert StoredOk(c, n, n.sessions[client.ip], server.ip) && AckOk(c, n, p.id, server.ip);
    var q := n.acked[(p.id, server.ip)].push;
    NetKeeps(c, n, e);
    assert PlainPush(p) by {
      var j :| 0 <= j < |sync.targets| && sync.targets[j] == server;
      assert PlainPeer(sync.targets[j]);
    }
    assert Opened(q.client.key, q.client.ip, q.id, q.started) == OpenedOf(n.sessions[client.ip]);
    SamePrintSamePayload(c.json, c.lib, p, q);
    FingerprintIsInjective(c.json, p, q);
  }

  // ---------------------------------------------------------------- and it skips all that it can

  /** What an open session's server has acknowledged is stored with the session, or waits to be. */
  ghost predicate AcksStored(c: Setting, n: Net) {
    forall ip, serverIp :: ip in n.sessions && (n.sessions[ip].id, serverIp) in n.acked ==>
      AckStored(c, n, n.sessions[ip], serverIp)
  }

  predicate AckStored(c: Setting, n: Net, s: Session, serverIp: string)
    requires (s.id, serverIp) in n.acked
  {
    var ack := n.acked[(s.id, serverIp)];
    if Waiting(n, s.id, serverIp)
    then n.sync.value.results[serverIp] == Fingerprint(c.json, ack.push) && n.sync.value.now == ack.at
    else && serverIp in s.prints && s.prints[serverIp] == Fingerprint(c.json, ack.push)
         && serverIp in s.lastPush && s.lastPush[serverIp] == ack.at
  }

  lemma BeginStores(c: Setting, n: Net, e: NetEvent)
    requires AckInv(c, n) && AcksStored(c, n) && NetEnabled(c, n, e) && e.Begin?
    ensures AcksStored(c, Begun(c, n, e))
  {
    var n' := Begun(c, n, e);
    forall ip, serverIp | ip in n'.sessions && (n'.sessions[ip].id, serverIp) in n'.acked
      ensures AckStored(c, n', n'.sessions[ip], serverIp)
    {
      assert AckOk(c, n, n'.sessions[ip].id, serverIp);
      KeptOrNew(c, n, e, ip);
      assert AckStored(c, n, n.sessions[ip], serverIp);
    }
  }

  /** A session after the beginning of a sync is an old one, but for its last sync, or has a new id. */
  lemma KeptOrNew(c: Setting, n: Net, e: NetEvent, ip: string)
    requires NetEnabled(c, n, e) && e.Begin? && ip in Begun(c, n, e).sessions
    ensures var s := Begun(c, n, e).sessions[ip];
            s.id == e.newId || (ip in n.sessions && s == n.sessions[ip].(lastSeen := s.lastSeen))
  {
  }

  lemma PostStores(c: Setting, n: Net, i: nat, ok: bool)
    requires AckInv(c, n) && AcksStored(c, n) && n.sync.Some? && i < |n.sync.value.pending|
    ensures AcksStored(c, Posted(c, n, i, ok))
  {
    var n' := Posted(c, n, i, ok);
    forall ip, serverIp | ip in n'.sessions && (n'.sessions[ip].id, serverIp) in n'.acked
      ensures AckStored(c, n', n'.sessions[ip], serverIp)
    {
      if (n.sessions[ip].id, serverIp) in n.acked { assert AckStored(c, n, n.sessions[ip], serverIp); }
    }
  }

  lemma FinishStores(c: Setting, n: Net)
    requires AckInv(c, n) && AcksStored(c, n) && n.sync.Some?
    ensures AcksStored(c, NetNext(c, n, Finish))
  {
    var sync, n' := n.sync.value, NetNext(c, n, Finish);
    forall ip, serverIp | ip in n'.sessions && (n'.sessions[ip].id, serverIp) in n'.acked
      ensures AckStored(c, n', n'.sessions[ip], serverIp)
    {
      var s := n.sessions[ip];
      assert AckStored(c, n, s, serverIp);
      assert s.id == sync.base.id ==> ip == sync.base.client.ip by {
        assert OpenedOf(s) in n.history && BaseOk(c, n, sync.base);
      }
    }
  }

  lemma {:induction false} RunStores(c: Setting, n: Net, run: seq<NetEvent>)
    requires AckInv(c, n) && AcksStored(c, n) && NetPossible(c, n, run)
    ensures AckInv(c, NetAfter(c, n, run)) && AcksStored(c, NetAfter(c, n, run))
    decreases |run|
  {
    if run != [] {
      StepKeepsAcks(c, n, run[0]);
      match run[0] {
        case Begin(_, _, _, _, _, _, _, _, _) => BeginStores(c, n, run[0]);
        case Post(i, ok) => PostStores(c, n, i, ok);
        case Finish => FinishStores(c, n);
        case _ => ClosingStores(c, n, NetNext(c, n, run[0]));
      }
      RunStores(c, NetNext(c, n, run[0]), run[1..]);
    }
  }

  lemma ClosingStores(c: Setting, n: Net, n': Net)
    requires AcksStored(c, n) && n'.sync == n.sync && n'.acked == n.acked
    requires forall ip :: ip in n'.sessions ==> ip in n.sessions && n'.sessions[ip] == n.sessions[ip]
    ensures AcksStored(c, n')
  {
    forall ip, serverIp | ip in n'.sessions && (n'.sessions[ip].id, serverIp) in n'.acked
      ensures AckStored(c, n', n'.sessions[ip], serverIp)
    {
      assert AckStored(c, n, n.sessions[ip], serverIp);
    }
  }

  /**
   * A server is skipped exactly if the sync is not forced and the last push that it acknowledged within this
   * session has the same fingerprint and belongs to a sync that began less than 120 seconds before.
   */
  lemma SkipsExactly(c: Setting, start: Net, run: seq<NetEvent>, e: NetEvent, server: Peer)
    requires NetInitial(start) && NetPossible(c, start, run)
    requires e.Begin? && NetEnabled(c, NetAfter(c, start, run), e)
    requires server in Begun(c, NetAfter(c, start, run), e).sync.value.targets
    ensures var n := NetAfter(c, start, run);
            var sync := Begun(c, n, e).sync.value;
            var p := sync.base.(server := server);
            p !in sync.pending
            <==> !e.force && (p.id, server.ip) in n.acked
                 && Fingerprint(c.json, n.acked[(p.id, server.ip)].push) == Fingerprint(c.json, p)
                 && e.now - n.acked[(p.id, server.ip)].at < 120.0
  {
    var n := NetAfter(c, start, run);
    InitiallyAcked(c, start);
    RunStores(c, start, run);
    var sync := Begun(c, n, e).sync.value;
    var p := sync.base.(server := server);
    var client := Identified(e.client, e.instanceId);
    var s := Open(n.sessions, client, e.instanceId, e.now, e.newId, e.newStart).session;
    PendingExactly(c.json, s, sync.base, sync.targets, e.now, e.force, p);
    if client.ip in n.sessions { assert StoredOk(c, n, n.sessions[client.ip], server.ip); }
    assert AckOk(c, n, p.id, server.ip);
  }
}
