/** Runs from the start that meet the hypotheses of the theorem about regular syncs. */
module RegularRun {
  import opened Basics
  import opened Candidates
  import opened Endpoints
  import opened Fingerprints
  import opened PeerRegions
  import opened AgentMachine
  import opened SessionTheorems
  import opened Deployment
  import opened StickyTheorems
  import opened RegularTheorems
  import opened Pairs
  import C = Coordinator
  import N = Network

  /** A node that advertises `list` and one server, the agent's; `picked` is what the agent selects. */
  datatype Scene = Scene(s: Site, node: Peer, server: Peer, lan: string, list: seq<Candidate>, picked: seq<Candidate>)

  predicate Proper(x: Scene) {
    && x.server.ip == x.s.me && Initiates(x.s.setting.read, x.node, x.server) && !DrivenHere(x.s, x.node.key)
    && x.node.ip == x.s.setting.home(x.node.key) && x.node.server == x.s.setting.server(x.node.key)
    && N.PlainPeer(x.node) && N.PlainPeer(x.server) && Plain(x.lan)
    && x.node.instance != "" && x.node.endpoint != "" && x.lan != "" && x.picked != []
  }

  function Push(x: Scene): C.Push {
    C.Push("a", 1, x.node, x.lan, x.list, x.server)
  }

  function Base(x: Scene): C.Push {
    Push(x).(server := x.node)
  }

  function Mark(x: Scene): string {
    C.Fingerprint(x.s.setting.json, Push(x))
  }

  function Open(x: Scene): Session {
    Session("a", 1)
  }

  function Begin(x: Scene, now: real, id: string, started: nat): N.NetEvent {
    N.Begin(now, x.node, x.node.instance, x.lan, x.list, [x.server], false, id, started)
  }

  function Entry(x: Scene, lastSeen: real, lastPush: map<string, real>, prints: map<string, string>): C.Session {
    C.Session("a", 1, x.node.key, x.node.ip, x.node.instance, lastSeen, lastPush, prints)
  }

  const NET := N.Net(1000.0, map[], None, {}, {}, {}, map[])
  const AGENT := World(Store(map[], map[], 0), 1000.0, map[], 0.0)

  lemma OneTarget(x: Scene)
    requires Proper(x)
    ensures Targets(x.s.setting.read, x.node, [x.server]) == [x.server]
  {
    assert [x.server][1..] == [];
  }

  lemma OnePending(x: Scene, e: C.Session, now: real)
    ensures C.Pending(x.s.setting.json, e, Base(x), [x.server], now, false)
            == if C.Due(e, x.server.ip, Mark(x), now, false) then [Push(x)] else []
  {
    assert [x.server][1..] == [];
    assert Base(x).(server := x.server) == Push(x);
  }

  // ---------------------------------------------------------------- the first sync

  function Begun(x: Scene): N.Net {
    NET.(sessions := map[x.node.ip := Entry(x, 1000.0, map[], map[])],
         sync := Some(N.Sync(1000.0, Base(x), [x.server], [Push(x)], map[])),
         history := {N.Opened(x.node.key, x.node.ip, "a", 1)})
  }

  lemma FirstBegin(x: Scene)
    requires Proper(x)
    ensures N.NetEnabled(x.s.setting, NET, Begin(x, 1000.0, "a", 1))
    ensures N.NetNext(x.s.setting, NET, Begin(x, 1000.0, "a", 1)) == Begun(x)
  {
    OneTarget(x);
    OnePending(x, Entry(x, 1000.0, map[], map[]), 1000.0);
  }

  function Message(x: Scene): (m: N.Sent)
    requires Proper(x)
    ensures C.PayloadOf(x.s.setting.lib, Push(x)) == Some(m.payload)
  {
    N.Sent(x.server.ip, C.PayloadOf(x.s.setting.lib, Push(x)).value, 1180.0, 1000, 1000.0, 1000.0)
  }

  function Pushed(x: Scene): N.Net
    requires Proper(x)
  {
    Begun(x).(offers := {Message(x)}, acked := map[("a", x.server.ip) := N.Ack(Push(x), 1000.0)],
              sync := Some(N.Sync(1000.0, Base(x), [x.server], [Push(x)], map[x.server.ip := Mark(x)])))
  }

  lemma FirstPost(x: Scene)
    requires Proper(x)
    ensures N.NetEnabled(x.s.setting, Begun(x), N.Post(0, true))
    ensures N.NetNext(x.s.setting, Begun(x), N.Post(0, true)) == Pushed(x)
  {
    assert C.LeaseOf(1000.0) == 1180.0 && 1000.0.Floor == 1000;
  }

  function Delivery(x: Scene): Event {
    OfferIn(x.node.key, Offer(Responder, "a", 1, x.node.instance, x.node.ip, x.picked, 1180.0), 1000.0, true)
  }

  lemma FirstContact(o: Offer, now: real)
    requires o.candidates != []
    ensures HandleOffer(Cell(None, None, 0), o, now, true).outcome.Accepted?
  {
  }

  lemma Delivered(x: Scene, g: Timing)
    requires Proper(x) && Fits(g)
    ensures var sys, e := System(Pushed(x), AGENT), Delivery(x);
            && SysEnabled(x.s, sys, AtAgent(e)) && Accepts(sys, e, x.node.key, Open(x))
            && OnTime(x.s, sys, Track(1000.0, false), AtAgent(e), x.node.key, Open(x), g)
  {
    var sys, e, m := System(Pushed(x), AGENT), Delivery(x), Message(x);
    assert m in sys.net.offers && CarriesOffer(x.s, m, x.node.key, e.offer);
    if g.channel.Windowed? { assert VerifiedAt(x.s, sys, m, 1000.0, g.channel.wait, e, x.node.key); }
    FirstContact(e.offer, 1000.0);
  }

  /** A timing that allows syncs 30 seconds apart. */
  predicate Fits(g: Timing) {
    30.0 <= g.gap && 0.0 <= g.latency && (g.channel.Windowed? ==> 0.0 <= g.channel.wait)
  }

  /** The delivery puts both machines in step. */
  lemma FirstLeads(x: Scene, g: Timing)
    requires Proper(x) && Fits(g)
    ensures var sys, e := System(Pushed(x), AGENT), Delivery(x);
            && SysEnabled(x.s, sys, AtAgent(e))
            && var sys' := SysNext(x.s, sys, AtAgent(e));
            && SysInv(x.s, sys') && Steady(At(sys'.agent.store, x.node.key), Open(x))
            && Leads(x.s, sys', Track(1000.0, true), x.node.key, Open(x), g)
  {
    var s, sys, e := x.s, System(Pushed(x), AGENT), Delivery(x);
    FirstBegin(x);
    FirstPost(x);
    Delivered(x, g);
    InitiallySys(s, System(NET, AGENT));
    SysKeeps(s, System(NET, AGENT), AtCoordinator(Begin(x, 1000.0, "a", 1)));
    SysKeeps(s, System(Begun(x), AGENT), AtCoordinator(N.Post(0, true)));
    SysKeeps(s, sys, AtAgent(e));
    assert PushesTo(sys.net.sync.value, s.me) by { assert sys.net.sync.value.pending[0].server.ip == s.me; }
    FirstOfferLeads(s, sys, Track(1000.0, false), e, x.node.key, Open(x), g);
  }

  // ---------------------------------------------------------------- the second sync

  function Stored(x: Scene, lastSeen: real): C.Session {
    Entry(x, lastSeen, map[x.server.ip := 1000.0], map[x.server.ip := Mark(x)])
  }

  function Between(x: Scene, lastSeen: real, clock: real): N.Net
    requires Proper(x)
  {
    Pushed(x).(clock := clock, sessions := map[x.node.ip := Stored(x, lastSeen)], sync := None)
  }

  /** Nothing is due 30 seconds later. */
  function Skipping(x: Scene): N.Net
    requires Proper(x)
  {
    Between(x, 1030.0, 1030.0).(sync := Some(N.Sync(1030.0, Base(x), [x.server], [], map[])))
  }

  lemma FirstFinish(x: Scene)
    requires Proper(x)
    ensures N.NetNext(x.s.setting, Pushed(x), N.Finish) == Between(x, 1000.0, 1000.0)
  {
    var results := map[x.server.ip := Mark(x)];
    assert C.Stamps(results, 1000.0) == map[x.server.ip := 1000.0];
    assert C.Record(Entry(x, 1000.0, map[], map[]), 1000.0, results) == Stored(x, 1000.0);
    assert map[x.node.ip := Entry(x, 1000.0, map[], map[])][x.node.ip := Stored(x, 1000.0)]
        == map[x.node.ip := Stored(x, 1000.0)];
  }

  lemma Refreshed(x: Scene, n: N.Net, e: N.NetEvent)
    requires Proper(x) && n.sessions == map[x.node.ip := Stored(x, 1000.0)] && e == Begin(x, 1030.0, "b", 2)
    requires n.history == {N.Opened(x.node.key, x.node.ip, "a", 1)}
    ensures N.Begun(x.s.setting, n, e)
            == n.(sessions := map[x.node.ip := Stored(x, 1030.0)],
                  sync := Some(N.Sync(1030.0, Base(x), [x.server], [], map[])))
  {
    OneTarget(x);
    OnePending(x, Stored(x, 1030.0), 1030.0);
    var o := C.Open(n.sessions, x.node, x.node.instance, 1030.0, "b", 2);
    assert o.sessions == map[x.node.ip := Stored(x, 1030.0)] && o.session == Stored(x, 1030.0) && o.stale.None?;
    assert n.history + {N.OpenedOf(o.session)} == n.history && n.removes + {} == n.removes;
  }

  lemma SecondBegin(x: Scene)
    requires Proper(x)
    ensures var n, e := Between(x, 1000.0, 1030.0), Begin(x, 1030.0, "b", 2);
            N.NetEnabled(x.s.setting, n, e) && N.NetNext(x.s.setting, n, e) == Skipping(x)
  {
    Refreshed(x, Between(x, 1000.0, 1030.0), Begin(x, 1030.0, "b", 2));
  }

  /** A sync without results leaves the table as it is. */
  lemma IdleFinish(c: N.Setting, n: N.Net)
    requires n.sync.Some? && n.sync.value.results == map[]
    requires forall ip :: ip in n.sessions ==> n.sessions[ip].lastSeen == n.sync.value.now
    ensures N.NetNext(c, n, N.Finish) == n.(sync := None)
  {
    var sync := n.sync.value;
    var ip := sync.base.client.ip;
    if ip in n.sessions {
      var e := n.sessions[ip];
      assert C.Record(e, sync.now, map[]) == e;
      assert n.sessions[ip := e] == n.sessions;
    }
  }

  lemma SecondFinish(x: Scene)
    requires Proper(x)
    ensures N.NetNext(x.s.setting, Skipping(x), N.Finish) == Between(x, 1030.0, 1030.0)
  {
    IdleFinish(x.s.setting, Skipping(x));
  }

  /** A step that is possible and on time, while the session is open. */
  ghost predicate Goes(x: Scene, sys: System, t: Track, h: Happening, sys': System, t': Track, g: Timing) {
    && SysEnabled(x.s, sys, h) && SysNext(x.s, sys, h) == sys' && IsOpen(x.s, sys, x.node.key, Open(x))
    && OnTime(x.s, sys, t, h, x.node.key, Open(x), g) && Follow(t, sys, h, x.node.key, Open(x)) == t'
  }

  /** A run that is possible, keeps the session open and is on time. */
  ghost predicate Good(x: Scene, sys: System, t: Track, run: seq<Happening>, g: Timing) {
    && SysPossible(x.s, sys, run) && StaysOpen(x.s, sys, run, x.node.key, Open(x))
    && AlwaysOnTime(x.s, sys, t, run, x.node.key, Open(x), g)
  }

  lemma GoodCons(x: Scene, sys: System, t: Track, h: Happening, sys': System, t': Track, rest: seq<Happening>, g: Timing)
    requires Goes(x, sys, t, h, sys', t', g) && Good(x, sys', t', rest, g)
    ensures Good(x, sys, t, [h] + rest, g)
  {
    assert ([h] + rest)[1..] == rest;
  }

  lemma FirstEnds(x: Scene, w: World, g: Timing)
    requires Proper(x) && Fits(g) && w.clock == 1000.0
    ensures Goes(x, System(Pushed(x), w), Track(1000.0, true), AtCoordinator(N.Finish),
                 System(Between(x, 1000.0, 1000.0), w), Track(1000.0, true), g)
  {
    FirstFinish(x);
  }

  lemma TimePasses(x: Scene, w: World, g: Timing)
    requires Proper(x) && Fits(g) && w.clock == 1000.0
    ensures Goes(x, System(Between(x, 1000.0, 1000.0), w), Track(1000.0, true), Elapse(1030.0),
                 System(Between(x, 1000.0, 1030.0), w.(clock := 1030.0)), Track(1000.0, true), g)
  {
  }

  lemma SecondStarts(x: Scene, w: World, g: Timing)
    requires Proper(x) && Fits(g) && w.clock == 1030.0
    ensures Goes(x, System(Between(x, 1000.0, 1030.0), w), Track(1000.0, true), AtCoordinator(Begin(x, 1030.0, "b", 2)),
                 System(Skipping(x), w), Track(1030.0, false), g)
  {
    SecondBegin(x);
    assert Skipping(x).sync.value.targets[0].ip == x.s.me;
  }

  lemma SecondEnds(x: Scene, w: World, g: Timing)
    requires Proper(x) && Fits(g) && w.clock == 1030.0
    ensures Goes(x, System(Skipping(x), w), Track(1030.0, false), AtCoordinator(N.Finish),
                 System(Between(x, 1030.0, 1030.0), w), Track(1030.0, false), g)
    ensures Good(x, System(Between(x, 1030.0, 1030.0), w), Track(1030.0, false), [], g)
  {
    SecondFinish(x);
  }

  /** Four steps in a row. */
  lemma FourSteps(x: Scene, s0: System, s1: System, s2: System, s3: System, s4: System, t: Track, t': Track,
                  h0: Happening, h1: Happening, h2: Happening, h3: Happening, g: Timing)
    requires Goes(x, s0, t, h0, s1, t, g) && Goes(x, s1, t, h1, s2, t, g)
    requires Goes(x, s2, t, h2, s3, t', g) && Goes(x, s3, t', h3, s4, t', g) && Good(x, s4, t', [], g)
    ensures Good(x, s0, t, [h0, h1, h2, h3], g)
  {
    GoodCons(x, s3, t', h3, s4, t', [], g);
    GoodCons(x, s2, t, h2, s3, t', [h3] + [], g);
    GoodCons(x, s1, t, h1, s2, t, [h2] + ([h3] + []), g);
    GoodCons(x, s0, t, h0, s1, t, [h1] + ([h2] + ([h3] + [])), g);
    assert [h0, h1, h2, h3] == [h0] + ([h1] + ([h2] + ([h3] + [])));
  }

  /** The end of the first sync, and the second one. */
  function Rest(x: Scene): seq<Happening> {
    [AtCoordinator(N.Finish), Elapse(1030.0), AtCoordinator(Begin(x, 1030.0, "b", 2)), AtCoordinator(N.Finish)]
  }

  lemma RestIsGood(x: Scene, w: World, g: Timing)
    requires Proper(x) && Fits(g) && w.clock == 1000.0
    ensures Good(x, System(Pushed(x), w), Track(1000.0, true), Rest(x), g)
  {
    var w' := w.(clock := 1030.0);
    FirstEnds(x, w, g);
    TimePasses(x, w, g);
    SecondStarts(x, w', g);
    SecondEnds(x, w', g);
    FourSteps(x, System(Pushed(x), w), System(Between(x, 1000.0, 1000.0), w), System(Between(x, 1000.0, 1030.0), w'),
              System(Skipping(x), w'), System(Between(x, 1030.0, 1030.0), w'), Track(1000.0, true), Track(1030.0, false),
              AtCoordinator(N.Finish), Elapse(1030.0), AtCoordinator(Begin(x, 1030.0, "b", 2)), AtCoordinator(N.Finish), g);
  }

  lemma Prepend(s: Site, sys: System, h: Happening, rest: seq<Happening>)
    requires SysEnabled(s, sys, h) && SysPossible(s, SysNext(s, sys, h), rest)
    ensures SysPossible(s, sys, [h] + rest) && SysAfter(s, sys, [h] + rest) == SysAfter(s, SysNext(s, sys, h), rest)
  {
    assert ([h] + rest)[1..] == rest;
  }

  /**
   * For every timing that allows it there is such a run from the start: after three steps the agent holds the
   * session and both machines are in step, and another sync follows, which has nothing to push.
   */
  lemma RegularRunExists(x: Scene, g: Timing) returns (first: seq<Happening>)
    requires Proper(x) && Fits(g)
    ensures var start := System(NET, AGENT);
            && SysInitial(start) && SysPossible(x.s, start, first)
            && var sys, k, a := SysAfter(x.s, start, first), x.node.key, Open(x);
            && SysInv(x.s, sys) && Steady(At(sys.agent.store, k), a) && Leads(x.s, sys, Track(1000.0, true), k, a, g)
            && SysPossible(x.s, sys, Rest(x)) && StaysOpen(x.s, sys, Rest(x), k, a)
            && AlwaysOnTime(x.s, sys, Track(1000.0, true), Rest(x), k, a, g)
  {
    var begin, post, e := AtCoordinator(Begin(x, 1000.0, "a", 1)), AtCoordinator(N.Post(0, true)), AtAgent(Delivery(x));
    FirstBegin(x);
    FirstPost(x);
    FirstLeads(x, g);
    Prepend(x.s, System(Pushed(x), AGENT), e, []);
    Prepend(x.s, System(Begun(x), AGENT), post, [e] + []);
    Prepend(x.s, System(NET, AGENT), begin, [post] + ([e] + []));
    first := [begin] + ([post] + ([e] + []));
    RestIsGood(x, Next(AGENT, e.e), g);
  }

  /** A scene: a node behind a NAT with a LAN address and a mapped port, and a server. */
  lemma SomeScene(lib: Library, json: C.Json) returns (x: Scene)
    ensures Proper(x) && x.s.setting.lib == lib && x.s.setting.json == json
  {
    var node := Peer("A", "10.0.0.3", false, "8.8.8.8:51820", "i");
    var server := Peer("B", "10.0.0.2", true, "1.1.1.1:51820", "j");
    var mapped := Candidate(Mapped4, Udp4, "8.8.8.8:40000", 800, false);
    var list := [Candidate(Lan4, Udp4, "192.168.1.5:51820", 1000, false), mapped];
    var picked := [mapped, Candidate(Observed4, Udp4, "8.8.8.8:51820", 700, true)];
    var home := (k: string) => if k == "A" then "10.0.0.3" else "";
    var setting := N.Setting(lib, json, (text: string) => None, home, (k: string) => false);
    x := Scene(Site(setting, "10.0.0.2"), node, server, "192.168.1.5:51820", list, picked);
  }
}
