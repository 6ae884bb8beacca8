/** What a sync does to the session table, what an offer says, and what becomes of every session. */
module CoordinatorTheorems {
  import opened Basics
  import opened Candidates
  import opened Endpoints
  import opened CandidateExchange
  import opened Pairs
  import opened Coordinator
  import opened Network
  import opened CandidateSelection
  import opened OfferIntake
  import opened PermissionTheorems
  import P = PeerRegions

  // ---------------------------------------------------------------- the session of a sync

  /** The node needs a session of its own: it has none here, or it is another node, or a restarted one. */
  predicate Rotates(ss: Sessions, client: Peer, instanceId: string) {
    client.ip !in ss || ss[client.ip].key != client.key || (instanceId != "" && ss[client.ip].instance != instanceId)
  }

  /**
   * A sync opens a new session exactly then, and returns the one that it replaces.  Otherwise it refreshes
   * the session that is there.  Either way the session is the client's and of its instance, and no other
   * session is touched.
   */
  lemma SyncOpensExactly(ss: Sessions, client: Peer, instanceId: string, now: real, newId: string, newStart: nat)
    ensures var o := Open(ss, client, instanceId, now, newId, newStart);
            && o.sessions == ss[client.ip := o.session]
            && o.session.key == client.key && o.session.lastSeen == now
            && (instanceId != "" ==> o.session.instance == instanceId)
            && (if Rotates(ss, client, instanceId)
                then o.session == Session(newId, newStart, client.key, client.ip, instanceId, now, map[], map[])
                     && o.stale == if client.ip in ss then Some(ss[client.ip]) else None
                else o.session == ss[client.ip].(lastSeen := now) && o.stale == None)
  {
  }

  /**
   * What the sync offers: the session of the table, the node as it announces itself, with its instance if it gives
   * one, to exactly the listed servers that it initiates to.
   */
  lemma SyncOffers(c: Setting, n: Net, e: NetEvent, to: Peer)
    requires NetEnabled(c, n, e) && e.Begin?
    ensures var n' := Begun(c, n, e);
            var sync, p := n'.sync.value, n'.sync.value.base;
            && e.client.ip in n'.sessions
            && p.id == n'.sessions[e.client.ip].id && p.started == n'.sessions[e.client.ip].started
            && p.client == e.client.(instance := if e.instanceId == "" then e.client.instance else e.instanceId)
            && p.lan == e.lan && p.candidates == e.candidates && sync.now == e.now && sync.results == map[]
            && (to in sync.targets <==> to in e.peers && Initiates(c.read, p.client, to))
  {
    TargetsExactly(c.read, Identified(e.client, e.instanceId), e.peers, to);
  }

  /** The results of a sync go into the session that sent them, if it is still there, and nowhere else. */
  lemma StoresExactly(ss: Sessions, ip: string, id: string, now: real, results: map<string, string>)
    ensures var stored := Store(ss, ip, id, now, results);
            if ip in ss && ss[ip].id == id
            then && stored == ss[ip := stored[ip]] && stored[ip].lastSeen == now
                 && stored[ip] == ss[ip].(lastSeen := now, lastPush := stored[ip].lastPush, prints := stored[ip].prints)
                 && stored[ip].prints == ss[ip].prints + results
                 && stored[ip].lastPush.Keys == ss[ip].lastPush.Keys + results.Keys
                 && (forall server :: server in stored[ip].lastPush ==>
                       stored[ip].lastPush[server] == if server in results then now else ss[ip].lastPush[server])
            else stored == ss
  {
  }

  // ---------------------------------------------------------------- what becomes of a session

  predicate IsOpened(n: Net, o: Opened) {
    exists ip :: ip in n.sessions && OpenedOf(n.sessions[ip]) == o
  }

  /** Every session that was ever opened is open, or it was closed once and for one reason. */
  ghost predicate Accounted(n: Net) {
    && (forall o :: o in n.history ==> IsOpened(n, o) || exists g :: g in n.removes && g.session == o)
    && (forall g, h :: g in n.removes && h in n.removes && g.session == h.session ==> g == h)
  }

  /** What a step closes, and why. */
  predicate ClosesFor(c: Setting, n: Net, e: NetEvent, ip: string, reason: P.Reason)
    requires ip in n.sessions
  {
    match e
    case Begin(now, client, instanceId, _, _, _, _, _, _) =>
      reason == P.Superseded && ip == client.ip && Rotates(n.sessions, Identified(client, instanceId), instanceId)
    case Leave(left) => reason == P.Disconnect && ip == left
    case Reap(now) => reason == P.Expired && now - n.sessions[ip].lastSeen > 180.0
    case _ => false
  }

  lemma BeginCloses(c: Setting, n: Net, e: NetEvent, ip: string)
    requires NetInv(c, n) && NetEnabled(c, n, e) && e.Begin? && ip in n.sessions
    ensures var n', o := Begun(c, n, e), OpenedOf(n.sessions[ip]);
            && (ClosesFor(c, n, e, ip, P.Superseded) <==> !IsOpened(n', o))
            && (ClosesFor(c, n, e, ip, P.Superseded) ==> Gone(o, P.Superseded) in n'.removes)
  {
    var client := Identified(e.client, e.instanceId);
    var n', o := Begun(c, n, e), OpenedOf(n.sessions[ip]);
    SyncOpensExactly(n.sessions, client, e.instanceId, e.now, e.newId, e.newStart);
    assert o in n.history;
    if !ClosesFor(c, n, e, ip, P.Superseded) {
      assert ip in n'.sessions && OpenedOf(n'.sessions[ip]) == o;
    }
  }

  lemma OthersClose(c: Setting, n: Net, e: NetEvent, ip: string, reason: P.Reason)
    requires NetInv(c, n) && NetEnabled(c, n, e) && !e.Begin? && ip in n.sessions
    ensures var n', o := NetNext(c, n, e), OpenedOf(n.sessions[ip]);
            && (ClosesFor(c, n, e, ip, reason) ==> Gone(o, reason) in n'.removes && !IsOpened(n', o))
            && (!IsOpened(n', o) ==> exists r :: ClosesFor(c, n, e, ip, r))
  {
    var n', o := NetNext(c, n, e), OpenedOf(n.sessions[ip]);
    if e.Leave? {
      assert ip == e.ip ==> ClosesFor(c, n, e, ip, P.Disconnect);
    } else if e.Reap? {
      assert Lapsed(n.sessions[ip], e.now) <==> ClosesFor(c, n, e, ip, P.Expired);
      assert Lapsed(n.sessions[ip], e.now) ==> n.sessions[ip] in LapsedSessions(n.sessions, e.now);
    }
    assert ip in n'.sessions ==> OpenedOf(n'.sessions[ip]) == o;
  }

  /**
   * A step closes a session exactly for one of three reasons, and then tells the servers: it is replaced by the
   * sync of a restarted or another node, its node leaves, or nothing was heard of it for more than 180 seconds.
   */
  lemma SessionsCloseExactly(c: Setting, n: Net, e: NetEvent, ip: string)
    requires NetInv(c, n) && NetEnabled(c, n, e) && ip in n.sessions
    ensures var n', o := NetNext(c, n, e), OpenedOf(n.sessions[ip]);
            && (!IsOpened(n', o) <==> exists r :: ClosesFor(c, n, e, ip, r))
            && (forall r :: ClosesFor(c, n, e, ip, r) ==> Gone(o, r) in n'.removes)
  {
    if e.Begin? {
      BeginCloses(c, n, e, ip);
      assert forall r :: ClosesFor(c, n, e, ip, r) ==> r == P.Superseded;
    } else {
      var n', o := NetNext(c, n, e), OpenedOf(n.sessions[ip]);
      forall r ensures ClosesFor(c, n, e, ip, r) ==> Gone(o, r) in n'.removes && !IsOpened(n', o) {
        OthersClose(c, n, e, ip, r);
      }
      OthersClose(c, n, e, ip, P.Expired);
    }
  }

  /** The servers are told of nothing else. */
  lemma RemovesAreClosings(c: Setting, n: Net, e: NetEvent, g: Gone)
    requires NetInv(c, n) && NetEnabled(c, n, e) && g in NetNext(c, n, e).removes && g !in n.removes
    ensures exists ip :: ip in n.sessions && g.session == OpenedOf(n.sessions[ip]) && ClosesFor(c, n, e, ip, g.reason)
  {
    match e
    case Begin(_, client, instanceId, _, _, _, _, _, _) =>
      SyncOpensExactly(n.sessions, Identified(client, instanceId), instanceId, e.now, e.newId, e.newStart);
      assert g.session == OpenedOf(n.sessions[client.ip]) && ClosesFor(c, n, e, client.ip, g.reason);
    case Leave(ip) => assert ClosesFor(c, n, e, ip, g.reason);
    case Reap(now) =>
      var s :| s in LapsedSessions(n.sessions, now) && g == Gone(OpenedOf(s), P.Expired);
      var ip :| ip in n.sessions && Lapsed(n.sessions[ip], now) && n.sessions[ip] == s;
      assert ClosesFor(c, n, e, ip, g.reason);
    case _ =>
  }

  lemma OneReason(c: Setting, n: Net, e: NetEvent, g: Gone, h: Gone)
    requires NetInv(c, n) && NetEnabled(c, n, e) && Accounted(n)
    requires g in NetNext(c, n, e).removes && h in NetNext(c, n, e).removes && g.session == h.session
    ensures g == h
  {
    if g !in n.removes { RemovesAreClosings(c, n, e, g); }
    if h !in n.removes { RemovesAreClosings(c, n, e, h); }
  }

  lemma StaysAccounted(c: Setting, n: Net, e: NetEvent, o: Opened)
    requires NetInv(c, n) && NetEnabled(c, n, e) && Accounted(n) && o in NetNext(c, n, e).history
    ensures IsOpened(NetNext(c, n, e), o) || exists g :: g in NetNext(c, n, e).removes && g.session == o
  {
    var n' := NetNext(c, n, e);
    if o in n.history && IsOpened(n, o) {
      var ip :| ip in n.sessions && OpenedOf(n.sessions[ip]) == o;
      SessionsCloseExactly(c, n, e, ip);
      if !IsOpened(n', o) {
        var r :| ClosesFor(c, n, e, ip, r);
        assert Gone(o, r) in n'.removes && Gone(o, r).session == o;
      }
    } else if o in n.history {
      var g :| g in n.removes && g.session == o;
      assert g in n'.removes;
    } else {
      var ip := e.client.ip;
      assert ip in n'.sessions && OpenedOf(n'.sessions[ip]) == o;
    }
  }

  lemma StepAccounts(c: Setting, n: Net, e: NetEvent)
    requires NetInv(c, n) && NetEnabled(c, n, e) && Accounted(n)
    ensures Accounted(NetNext(c, n, e))
  {
    var n' := NetNext(c, n, e);
    forall o | o in n'.history ensures IsOpened(n', o) || exists g :: g in n'.removes && g.session == o {
      StaysAccounted(c, n, e, o);
    }
    forall g, h | g in n'.removes && h in n'.removes && g.session == h.session ensures g == h {
      OneReason(c, n, e, g, h);
    }
  }

  lemma {:induction false} RunAccounts(c: Setting, n: Net, run: seq<NetEvent>)
    requires NetInv(c, n) && Accounted(n) && NetPossible(c, n, run)
    ensures NetInv(c, NetAfter(c, n, run)) && Accounted(NetAfter(c, n, run))
    decreases |run|
  {
    if run != [] {
      NetKeeps(c, n, run[0]);
      StepAccounts(c, n, run[0]);
      RunAccounts(c, NetNext(c, n, run[0]), run[1..]);
    }
  }

  /** No session is lost: each one that a sync ever opened is open, or the servers were told once of its end. */
  lemma EverySessionIsAccounted(c: Setting, start: Net, run: seq<NetEvent>, o: Opened)
    requires NetInitial(start) && NetPossible(c, start, run) && o in NetAfter(c, start, run).history
    ensures var n := NetAfter(c, start, run);
            && (IsOpened(n, o) <==> !(exists g :: g in n.removes && g.session == o))
            && (forall g, h :: g in n.removes && h in n.removes && g.session == o == h.session ==> g == h)
  {
    RunAccounts(c, start, run);
  }

  // ---------------------------------------------------------------- what an offer says

  /** Node and server are seen at one address, or neither of them at a readable one. */
  predicate SameAddress(lib: Library, p: Push) {
    var s, c := Parse(lib, p.server.endpoint), Parse(lib, p.client.endpoint);
    if s.Some? && c.Some? then s.value.host.text == c.value.host.text else s.None? && c.None?
  }

  /**
   * An offer is a LAN offer of the announced LAN endpoint exactly if both are seen at one address, otherwise a
   * WAN offer of the endpoint that the node is seen at; without that endpoint there is no offer.
   */
  lemma OfferNamesTheEndpoint(lib: Library, p: Push)
    requires Faithful(lib)
    ensures var o, lan := PayloadOf(lib, p), SameAddress(lib, p);
            && (o.None? <==> (if lan then p.lan else p.client.endpoint) == "")
            && (o.Some? ==>
                  && o.value.lan == lan && o.value.endpoint == (if lan then p.lan else p.client.endpoint)
                  && o.value.sessionId == p.id && o.value.started == p.started
                  && o.value.key == p.client.key && o.value.ip == p.client.ip && o.value.instance == p.client.instance
                  && o.value.candidates == OfferCandidates(lib, p.lan, p.candidates, p.client.endpoint))
  {
    var s, c := Parse(lib, p.server.endpoint), Parse(lib, p.client.endpoint);
    if s.Some? { ParseIsIdempotent(lib, p.server.endpoint); }
    if c.Some? { ParseIsIdempotent(lib, p.client.endpoint); }
  }

  /** The message is what some push says, sent to the server of that push, which is one that its node initiates to. */
  ghost predicate IsPush(c: Setting, m: Sent) {
    exists p: Push :: PayloadOf(c.lib, p) == Some(m.payload) && p.server.ip == m.to
                      && Initiates(c.read, p.client, p.server)
  }

  ghost predicate AllPushes(c: Setting, n: Net) {
    forall m :: m in n.offers ==> IsPush(c, m)
  }

  lemma PostSendsPush(c: Setting, n: Net, i: nat, ok: bool)
    requires NetInv(c, n) && AllPushes(c, n) && n.sync.Some? && i < |n.sync.value.pending|
    ensures AllPushes(c, Posted(c, n, i, ok))
  {
    var p, sync := n.sync.value.pending[i], n.sync.value;
    var j :| 0 <= j < |sync.targets| && sync.targets[j] == p.server;
    assert Initiates(c.read, sync.base.client, sync.targets[j]);
    forall m | m in Posted(c, n, i, ok).offers ensures IsPush(c, m) {
      if m !in n.offers { assert PayloadOf(c.lib, p) == Some(m.payload) && p.server.ip == m.to; }
    }
  }

  lemma {:induction false} RunSendsPushes(c: Setting, n: Net, run: seq<NetEvent>)
    requires NetInv(c, n) && AllPushes(c, n) && NetPossible(c, n, run)
    ensures AllPushes(c, NetAfter(c, n, run))
    decreases |run|
  {
    if run != [] {
      NetKeeps(c, n, run[0]);
      if run[0].Post? { PostSendsPush(c, n, run[0].i, run[0].ok); }
      RunSendsPushes(c, NetNext(c, n, run[0]), run[1..]);
    }
  }

  /** Whatever was sent is the offer of a node to a server that it initiates to, about its own session. */
  lemma EveryOfferIsAPush(c: Setting, start: Net, run: seq<NetEvent>, m: Sent)
    requires NetInitial(start) && NetPossible(c, start, run) && m in NetAfter(c, start, run).offers
    ensures IsPush(c, m)
  {
    RunSendsPushes(c, start, run);
  }

  // ---------------------------------------------------------------- what the agent makes of it

  /** The part of an offer that the agent takes its candidates from. */
  function TextOf(o: Payload): Text {
    Text(ToRaws(o.candidates), o.endpoint, if o.lan then "LAN" else "WAN")
  }

  lemma DeclaredLan()
    ensures DeclaresLan("LAN") && DeclaresLan("lan4") && !DeclaresLan("WAN")
  {
    var l4 := seq(|"lan4"|, i requires 0 <= i < |"lan4"| => Lower("lan4"[i]));
    assert l4 == "lan4";
    var l := seq(|"LAN"|, i requires 0 <= i < |"LAN"| => Lower("LAN"[i]));
    assert l == "lan";
    var w := seq(|"WAN"|, i requires 0 <= i < |"WAN"| => Lower("WAN"[i]));
    assert w[0] == 'w';
  }

  /** The list of an offer is valid at the agent. */
  lemma OfferIsValid(l: Locality, p: Push)
    requires Faithful(l.lib) && AllReadable(l.lib, p.candidates) && PayloadOf(l.lib, p).Some?
    requires Parse(l.lib, PayloadOf(l.lib, p).value.endpoint).Some?
    ensures var o := PayloadOf(l.lib, p).value; Valid(l, TextOf(o)) == Some(o.candidates)
  {
    ReadableOffer(l.lib, p.lan, p.candidates, p.client.endpoint);
  }

  lemma LegacyIs(l: Locality, endpoint: string)
    requires Faithful(l.lib) && Parse(l.lib, endpoint).Some? && !Parse(l.lib, endpoint).value.host.v6
    ensures var e := Parse(l.lib, endpoint).value;
            && Legacy(LegacyOf(l, endpoint), true, true)
               == [if e.host.isPrivate then Candidate(Lan4, Udp4, e.text, 1000, false)
                   else Candidate(Observed4, Udp4, e.text, 700, true)]
            && Legacy(LegacyOf(l, endpoint), false, true) == [Candidate(Observed4, Udp4, e.text, 700, true)]
  {
    ParseIsIdempotent(l.lib, endpoint);
  }

  lemma EndpointIsNotEmpty(lib: Library, s: string)
    requires Faithful(lib) && Parse(lib, s).Some?
    ensures Parse(lib, s).value.text != ""
  {
    ParseIsIdempotent(lib, s);
    assert Split("") == None;
  }

  lemma LegacyIsRanked(l: Locality, t: Text, cs: seq<Candidate>, c: Candidate)
    requires Valid(l, t) == Some(cs) && c in Legacy(LegacyOf(l, t.endpoint), AllowsLan(l, t), true) && c.endpoint != ""
    ensures var entries := Entries(l, cs, t.endpoint, AllowsLan(l, t));
            && c in entries && Represented(c, Ranked(entries))
            && Intake(l, t) == Some(Choose(entries)) && Choose(entries) != []
  {
    var entries := Entries(l, cs, t.endpoint, AllowsLan(l, t));
    assert c in entries;
    IsRepresented(entries, c);
    SelectionIsExact(entries);
  }

  /**
   * The IPv4 endpoint that an offer names is among what the agent ranks: as LAN if the offer is declared so and
   * the address is private, as observed if it is not private or LAN addresses are not tried.  Either way the
   * agent tries something that is at least as good, and that endpoint in its best entry is ranked.
   */
  lemma NamedEndpointIsRanked(l: Locality, p: Push)
    requires Faithful(l.lib) && AllReadable(l.lib, p.candidates) && PayloadOf(l.lib, p).Some?
    requires var e := Parse(l.lib, PayloadOf(l.lib, p).value.endpoint); e.Some? && !e.value.host.v6
    ensures var o := PayloadOf(l.lib, p).value;
            var e, allow := Parse(l.lib, o.endpoint).value, AllowsLan(l, TextOf(o));
            var entries := Entries(l, o.candidates, o.endpoint, allow);
            var c := if allow && e.host.isPrivate then Candidate(Lan4, Udp4, e.text, 1000, false)
                     else Candidate(Observed4, Udp4, e.text, 700, true);
            && (o.lan ==> allow) && c in entries && Represented(c, Ranked(entries))
            && Intake(l, TextOf(o)).Some? && Intake(l, TextOf(o)).value != []
            && Intake(l, TextOf(o)).value == Choose(entries)
  {
    var o := PayloadOf(l.lib, p).value;
    OfferIsValid(l, p);
    DeclaredLan();
    LegacyIs(l, o.endpoint);
    EndpointIsNotEmpty(l.lib, o.endpoint);
    LegacyIsRanked(l, TextOf(o), o.candidates, Legacy(LegacyOf(l, o.endpoint), AllowsLan(l, TextOf(o)), true)[0]);
  }
}
