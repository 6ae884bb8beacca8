/**
 * Regular syncs keep a session alive from end to end: the timing of the coordinator's pushes meets the
 * agent's leases in the composed system.
 */
module RegularTheorems {
  import opened Basics
  import opened PeerRegions
  import opened AgentMachine
  import opened AgentInvariants
  import opened SessionTheorems
  import opened Deployment
  import opened StickyTheorems
  import opened LeaseTheorems
  import opened Pairs
  import C = Coordinator
  import N = Network
  import V = ReplayCache

  /** How offers of the session reach the agent. */
  datatype Channel =
    | InStep                // each within the sync that made it
    | Windowed(wait: real)  // verified in time, and handled at most `wait` seconds later

  /** Syncs begin at most `gap` apart, and a push takes at most `latency` from the stamp of its sync. */
  datatype Timing = Timing(gap: real, latency: real, channel: Channel)

  /** What an accepted offer leaves of the lease, counted from the stamp of the last sync. */
  function Span(g: Timing): real {
    match g.channel
    case InStep => 179.0
    case Windowed(wait) => 150.0 - wait
  }

  /** The lease covers the 120 seconds of a refresh, one more gap and one more push. */
  predicate Tight(g: Timing) {
    0.0 <= g.gap && 120.0 + g.gap + g.latency <= Span(g)
  }

  /** The time stamp of the last sync of the client, and whether the agent has accepted an offer since. */
  datatype Track = Track(lastSync: real, served: bool)

  /** A sync of the session is running. */
  predicate OwnSync(sys: System, a: Session) {
    sys.net.sync.Some? && sys.net.sync.value.base.id == a.id
  }

  /** The sync pushes to the agent. */
  predicate PushesTo(sync: N.Sync, me: string) {
    exists i :: 0 <= i < |sync.pending| && sync.pending[i].server.ip == me
  }

  predicate Pushing(s: Site, sys: System, a: Session) {
    OwnSync(sys, a) && PushesTo(sys.net.sync.value, s.me)
  }

  predicate Accepts(sys: System, e: Event, k: Key, a: Session) {
    e.OfferIn? && e.k == k && e.offer.sessionId == a.id
    && HandleOffer(At(sys.agent.store, k), e.offer, e.now, e.wgOk).outcome.Accepted?
  }

  function Follow(t: Track, sys: System, h: Happening, k: Key, a: Session): Track {
    match h
    case AtCoordinator(ne) => if ne.Begin? && ne.client.key == k then Track(ne.now, false) else t
    case AtAgent(e) => if Accepts(sys, e, k, a) then t.(served := true) else t
    case Elapse(_) => t
  }

  /** The offer came in a message of the running sync, and the agent read its clock after it was sent. */
  predicate InSync(s: Site, sys: System, e: Event, k: Key)
    requires sys.net.sync.Some? && e.OfferIn?
  {
    exists m :: m in sys.net.offers && CarriesOffer(s, m, k, e.offer)
                && m.stamp == sys.net.sync.value.now && m.sentAt <= e.now
  }

  /** `e` delivers `m`, which passed the check of its signature at `v`. */
  predicate VerifiedAt(s: Site, sys: System, m: N.Sent, v: real, wait: real, e: Event, k: Key)
    requires e.OfferIn?
  {
    m in sys.net.offers && CarriesOffer(s, m, k, e.offer) && V.WithinSkew(m.timestamp, v)
    && v <= e.now && sys.agent.clock <= v + wait
  }

  ghost predicate Arrives(s: Site, sys: System, e: Event, k: Key, a: Session, channel: Channel)
    requires e.OfferIn?
  {
    match channel
    case InStep => OwnSync(sys, a) && InSync(s, sys, e, k)
    case Windowed(wait) => exists m, v :: VerifiedAt(s, sys, m, v, wait, e, k)
  }

  /**
   * Regular timing, on one clock.  Syncs of the client begin at most `gap` apart and list the agent's node.
   * A sync that pushes to the agent ends when the agent has accepted an offer since its stamp and the push is
   * acknowledged.  Offers of the session arrive as the channel says.  Between the stamp of a sync and the
   * handling of its push at most `latency` passes, and so does between a stamp that is due and the sync that
   * carries it.
   */
  ghost predicate OnTime(s: Site, sys: System, t: Track, h: Happening, k: Key, a: Session, g: Timing)
    requires SysEnabled(s, sys, h)
  {
    match h
    case AtCoordinator(ne) =>
      && !ne.Tick?
      && (ne.Begin? && ne.client.key == k ==>
            && t.lastSync <= ne.now <= t.lastSync + g.gap && sys.net.clock <= ne.now + g.latency
            && var sync := N.Begun(s.setting, sys.net, ne).sync.value;
            exists j :: 0 <= j < |sync.targets| && sync.targets[j].ip == s.me)
      && (ne.Finish? && Pushing(s, sys, a) ==> t.served && s.me in sys.net.sync.value.results)
    case AtAgent(e) =>
      && !e.Tick?
      && (e.OfferIn? && e.k == k && e.offer.sessionId == a.id ==> Arrives(s, sys, e, k, a, g.channel))
    case Elapse(to) =>
      && to <= t.lastSync + g.gap + g.latency
      && (Pushing(s, sys, a) && !t.served ==> to <= t.lastSync + g.latency)
  }

  ghost predicate AlwaysOnTime(s: Site, sys: System, t: Track, run: seq<Happening>, k: Key, a: Session, g: Timing)
    requires SysPossible(s, sys, run)
    decreases |run|
  {
    run == [] ||
    (&& OnTime(s, sys, t, run[0], k, a, g)
     && AlwaysOnTime(s, SysNext(s, sys, run[0]), Follow(t, sys, run[0], k, a), run[1..], k, a, g))
  }

  /** The stamp of the last acknowledged push to the agent, as the coordinator has stored it. */
  function Stamp(s: Site, sys: System, k: Key): real {
    var ip := s.setting.home(k);
    if ip in sys.net.sessions then C.LastPush(sys.net.sessions[ip], s.me) else 0.0
  }

  /** Both sides read one clock, it has reached the last sync, and it has not passed a deadline. */
  predicate Punctual(s: Site, sys: System, t: Track, a: Session, g: Timing) {
    && t.lastSync <= sys.net.clock == sys.agent.clock <= t.lastSync + g.gap + g.latency
    && (Pushing(s, sys, a) && !t.served ==> sys.net.clock <= t.lastSync + g.latency)
  }

  predicate SyncLeads(s: Site, sys: System, t: Track, k: Key, a: Session, g: Timing, lease: real) {
    OwnSync(sys, a) ==>
      var sync := sys.net.sync.value;
      && sync.now == t.lastSync && sync.base.client.ip == s.setting.home(k)
      && (t.served ==> t.lastSync + Span(g) <= lease)
      && (s.me in sync.results ==> PushesTo(sync, s.me))
  }

  /**
   * The lease outlasts the last stored push by its span, and that push is recent enough, or the running
   * sync is about to store a newer one.
   */
  predicate Leads(s: Site, sys: System, t: Track, k: Key, a: Session, g: Timing) {
    && k in sys.agent.store.states && Punctual(s, sys, t, a, g)
    && var lease := sys.agent.store.states[k].lease;
    && Stamp(s, sys, k) + Span(g) <= lease
    && SyncLeads(s, sys, t, k, a, g, lease)
    && Stamp(s, sys, k) <= t.lastSync
    && ( || (Pushing(s, sys, a) && t.served)
         || t.lastSync - Stamp(s, sys, k) < (if Pushing(s, sys, a) then 120.0 + g.gap else 120.0))
  }

  /** So no pass finds the lease run out. */
  lemma PassIsInTime(s: Site, sys: System, t: Track, e: Event, k: Key, a: Session, g: Timing)
    requires SysEnabled(s, sys, AtAgent(e)) && e.Monitor? && Leads(s, sys, t, k, a, g)
    requires Tight(g)
    ensures e.now < sys.agent.store.states[k].lease
  {
  }

  /** A message of the running sync asks for more than 179 seconds from the stamp of the sync. */
  lemma AskedFor(s: Site, sys: System, e: Event, k: Key)
    requires N.NetInv(s.setting, sys.net) && e.OfferIn? && sys.net.sync.Some? && InSync(s, sys, e, k)
    ensures var stamp := sys.net.sync.value.now;
            stamp <= e.now && stamp + 179.0 < e.offer.requestedExpiry
            && stamp + 179.0 < LeaseExpiry(e.offer.requestedExpiry, e.now)
  {
    var m :| m in sys.net.offers && CarriesOffer(s, m, k, e.offer) && m.stamp == sys.net.sync.value.now && m.sentAt <= e.now;
    assert m.lease == C.LeaseOf(m.sentAt) && m.stamp <= m.sentAt;
  }

  /** So does, less the window, any message that passes its check. */
  lemma AskedForLate(s: Site, sys: System, t: Track, e: Event, k: Key, a: Session, g: Timing)
    requires N.NetInv(s.setting, sys.net) && e.OfferIn? && Punctual(s, sys, t, a, g) && g.channel.Windowed?
    requires Arrives(s, sys, e, k, a, g.channel)
    ensures t.lastSync + Span(g) <= LeaseExpiry(e.offer.requestedExpiry, e.now)
  {
    var m, v :| VerifiedAt(s, sys, m, v, g.channel.wait, e, k);
    assert m.lease == C.LeaseOf(m.sentAt) && m.timestamp == m.sentAt.Floor;
  }

  /** Either way the lease that comes with an offer of the session lasts for the span. */
  lemma AskedForSpan(s: Site, sys: System, t: Track, e: Event, k: Key, a: Session, g: Timing)
    requires N.NetInv(s.setting, sys.net) && e.OfferIn? && Punctual(s, sys, t, a, g)
    requires OwnSync(sys, a) ==> sys.net.sync.value.now == t.lastSync
    requires Arrives(s, sys, e, k, a, g.channel)
    ensures t.lastSync + Span(g) <= LeaseExpiry(e.offer.requestedExpiry, e.now)
  {
    match g.channel
    case InStep => AskedFor(s, sys, e, k);
    case Windowed(_) => AskedForLate(s, sys, t, e, k, a, g);
  }

  // ---------------------------------------------------------------- the coordinator's steps

  /** A step that touches neither the entry of `a` nor a sync of `a`. */
  lemma EntryUntouched(s: Site, sys: System, sys': System, t: Track, k: Key, a: Session, g: Timing)
    requires Leads(s, sys, t, k, a, g) && sys'.agent == sys.agent && Stamp(s, sys', k) == Stamp(s, sys, k)
    requires sys'.net.clock == sys.net.clock
    requires sys'.net.sync == sys.net.sync || (!OwnSync(sys', a) && !OwnSync(sys, a))
    ensures Leads(s, sys', t, k, a, g)
  {
  }

  /** A sync of the client that leaves `a` open has refreshed `a`. */
  lemma OwnBegin(s: Site, sys: System, t: Track, ne: N.NetEvent, k: Key, a: Session, g: Timing)
    requires SysInv(s, sys) && N.NetEnabled(s.setting, sys.net, ne) && ne.Begin? && ne.client.key == k
    requires IsOpen(s, sys, k, a) && IsOpen(s, SysNext(s, sys, AtCoordinator(ne)), k, a)
    requires Leads(s, sys, t, k, a, g) && OnTime(s, sys, t, AtCoordinator(ne), k, a, g)
    ensures Leads(s, SysNext(s, sys, AtCoordinator(ne)), Follow(t, sys, AtCoordinator(ne), k, a), k, a, g)
  {
    var n, n' := sys.net, N.Begun(s.setting, sys.net, ne);
    var ip, sync := s.setting.home(k), n'.sync.value;
    var o := C.Open(n.sessions, N.Identified(ne.client, ne.instanceId), ne.instanceId, ne.now, ne.newId, ne.newStart);
    assert N.OpenedOf(n.sessions[ip]) in n.history;
    assert o.session == n.sessions[ip].(lastSeen := ne.now);
    if !PushesTo(sync, s.me) {
      var j :| 0 <= j < |sync.targets| && sync.targets[j].ip == s.me;
      var p := sync.base.(server := sync.targets[j]);
      N.PendingExactly(s.setting.json, o.session, sync.base, sync.targets, ne.now, ne.force, p);
      assert forall i :: 0 <= i < |sync.pending| ==> sync.pending[i].server.ip != s.me;
      assert p !in sync.pending;
    }
  }

  lemma OtherBase(s: Site, sys: System, ne: N.NetEvent, k: Key, a: Session)
    requires SysInv(s, sys) && N.NetEnabled(s.setting, sys.net, ne) && ne.Begin? && ne.client.key != k
    requires IsOpen(s, SysNext(s, sys, AtCoordinator(ne)), k, a)
    ensures N.Begun(s.setting, sys.net, ne).sync.value.base.id != a.id
  {
    var n', ip := N.Begun(s.setting, sys.net, ne), s.setting.home(k);
    var base := n'.sync.value.base;
    N.BeginKeeps(s.setting, sys.net, ne);
    assert N.Opened(base.client.key, base.client.ip, base.id, base.started) in n'.history;
    assert N.OpenedOf(n'.sessions[ip]) in n'.history;
  }

  /** A sync of someone else that leaves `a` open has not touched it. */
  lemma OtherBegin(s: Site, sys: System, t: Track, ne: N.NetEvent, k: Key, a: Session, g: Timing)
    requires SysInv(s, sys) && N.NetEnabled(s.setting, sys.net, ne) && ne.Begin? && ne.client.key != k
    requires IsOpen(s, sys, k, a) && IsOpen(s, SysNext(s, sys, AtCoordinator(ne)), k, a)
    requires Leads(s, sys, t, k, a, g)
    ensures Leads(s, SysNext(s, sys, AtCoordinator(ne)), t, k, a, g)
  {
    OtherBase(s, sys, ne, k, a);
    assert ne.client.ip != s.setting.home(k);
    EntryUntouched(s, sys, SysNext(s, sys, AtCoordinator(ne)), t, k, a, g);
  }

  /** A post adds at most the result of its own push. */
  lemma PostResults(s: Site, n: N.Net, i: nat, ok: bool)
    requires n.sync.Some? && i < |n.sync.value.pending|
    ensures var n' := N.Posted(s.setting, n, i, ok);
            && n'.sessions == n.sessions && n'.sync.Some?
            && n'.sync.value == n.sync.value.(results := n'.sync.value.results)
            && (s.me in n'.sync.value.results ==> s.me in n.sync.value.results || PushesTo(n.sync.value, s.me))
  {
  }

  lemma PostLeads(s: Site, sys: System, t: Track, ne: N.NetEvent, k: Key, a: Session, g: Timing)
    requires N.NetEnabled(s.setting, sys.net, ne) && ne.Post? && Leads(s, sys, t, k, a, g)
    ensures Leads(s, SysNext(s, sys, AtCoordinator(ne)), t, k, a, g)
  {
    PostResults(s, sys.net, ne.i, ne.ok);
    var sync, sync' := sys.net.sync.value, SysNext(s, sys, AtCoordinator(ne)).net.sync.value;
    assert PushesTo(sync', s.me) <==> PushesTo(sync, s.me);
  }

  lemma FinishLeads(s: Site, sys: System, t: Track, k: Key, a: Session, g: Timing)
    requires SysInv(s, sys) && N.NetEnabled(s.setting, sys.net, N.Finish) && IsOpen(s, sys, k, a)
    requires Leads(s, sys, t, k, a, g) && OnTime(s, sys, t, AtCoordinator(N.Finish), k, a, g)
    ensures Leads(s, SysNext(s, sys, AtCoordinator(N.Finish)), t, k, a, g)
  {
    var sync := sys.net.sync.value;
    var ip := s.setting.home(k);
    if OwnSync(sys, a) {
      var stored := C.Record(sys.net.sessions[ip], sync.now, sync.results);
      assert s.me in sync.results ==> stored.lastPush[s.me] == sync.now;
      assert s.me !in sync.results ==> C.LastPush(stored, s.me) == Stamp(s, sys, k);
    } else {
      EntryUntouched(s, sys, SysNext(s, sys, AtCoordinator(N.Finish)), t, k, a, g);
    }
  }

  /** Closing other sessions leaves the entry of `a` as it was. */
  lemma CloseLeads(s: Site, sys: System, t: Track, ne: N.NetEvent, k: Key, a: Session, g: Timing)
    requires SysInv(s, sys) && N.NetEnabled(s.setting, sys.net, ne) && (ne.Leave? || ne.Reap?)
    requires IsOpen(s, sys, k, a) && IsOpen(s, SysNext(s, sys, AtCoordinator(ne)), k, a)
    requires Leads(s, sys, t, k, a, g)
    ensures Leads(s, SysNext(s, sys, AtCoordinator(ne)), t, k, a, g)
  {
    EntryUntouched(s, sys, SysNext(s, sys, AtCoordinator(ne)), t, k, a, g);
  }

  lemma NetStepLeads(s: Site, sys: System, t: Track, ne: N.NetEvent, k: Key, a: Session, g: Timing)
    requires SysInv(s, sys) && N.NetEnabled(s.setting, sys.net, ne)
    requires IsOpen(s, sys, k, a) && IsOpen(s, SysNext(s, sys, AtCoordinator(ne)), k, a)
    requires Leads(s, sys, t, k, a, g) && OnTime(s, sys, t, AtCoordinator(ne), k, a, g)
    ensures Leads(s, SysNext(s, sys, AtCoordinator(ne)), Follow(t, sys, AtCoordinator(ne), k, a), k, a, g)
  {
    match ne
    case Begin(_, client, _, _, _, _, _, _, _) =>
      if client.key == k {
        OwnBegin(s, sys, t, ne, k, a, g);
      } else {
        OtherBegin(s, sys, t, ne, k, a, g);
      }
    case Post(_, _) => PostLeads(s, sys, t, ne, k, a, g);
    case Finish => FinishLeads(s, sys, t, k, a, g);
    case Leave(_) => CloseLeads(s, sys, t, ne, k, a, g);
    case Reap(_) => CloseLeads(s, sys, t, ne, k, a, g);
    case Tick(_) =>
  }

  // ---------------------------------------------------------------- the agent's steps

  /** An offer leaves the lease, or sets it to its own. */
  lemma OfferLeaseEither(c: Cell, o: Offer, now: real, wgOk: bool)
    requires c.st.Some?
    ensures var d := HandleOffer(c, o, now, wgOk).cell;
            d.st.Some? && (d.st.value.lease == c.st.value.lease || d.st.value.lease == LeaseExpiry(o.requestedExpiry, now))
  {
    if o.candidates != [] && !IsStale(c, o) && !ChangesStart(c, o) {
      var based := Rebase(c, o, now, wgOk);
      if !based.aborted {
        SteerKeepsControl(based.cell.(st := Some(Header(based.cell.st.value, o, now))), o, now, wgOk);
      }
    }
  }

  lemma OfferLeads(s: Site, sys: System, t: Track, e: Event, k: Key, a: Session, g: Timing)
    requires SysInv(s, sys) && SysEnabled(s, sys, AtAgent(e)) && !DrivenHere(s, k) && Holds(s, sys, k, a)
    requires e.OfferIn? && e.k == k && Leads(s, sys, t, k, a, g)
    requires OnTime(s, sys, t, AtAgent(e), k, a, g)
    ensures Leads(s, SysNext(s, sys, AtAgent(e)), Follow(t, sys, AtAgent(e), k, a), k, a, g)
  {
    var c := At(sys.agent.store, k);
    OfferSticks(s, sys, e, k, a);
    OfferLeaseEither(c, e.offer, e.now, e.wgOk);
    if e.offer.sessionId == a.id { AskedForSpan(s, sys, t, e, k, a, g); }
    if Accepts(sys, e, k, a) { OfferLease(c, e.offer, e.now, e.wgOk); }
    PutAt(sys.agent.store, k, HandleOffer(c, e.offer, e.now, e.wgOk).cell, k);
    ClockStays(sys.agent, e);
    NewLease(s, sys, SysNext(s, sys, AtAgent(e)), t, Follow(t, sys, AtAgent(e), k, a), k, a, g);
  }

  /** The coordinator has not moved, and the lease is the old one or outlasts the running sync. */
  lemma NewLease(s: Site, sys: System, sys': System, t: Track, t': Track, k: Key, a: Session, g: Timing)
    requires Leads(s, sys, t, k, a, g) && sys'.net == sys.net && k in sys'.agent.store.states
    requires sys'.agent.clock == sys.agent.clock
    requires t' == t || t' == t.(served := true)
    requires var lease, lease' := sys.agent.store.states[k].lease, sys'.agent.store.states[k].lease;
             && (lease' == lease || t.lastSync + Span(g) <= lease')
             && (t' != t ==> t.lastSync + Span(g) <= lease')
    ensures Leads(s, sys', t', k, a, g)
  {
  }

  lemma ClockStays(w: World, e: Event)
    requires Enabled(w, e) && !e.Tick?
    ensures Next(w, e).clock == w.clock
  {
  }

  lemma AgentStepLeads(s: Site, sys: System, t: Track, e: Event, k: Key, a: Session, g: Timing)
    requires SysInv(s, sys) && SysEnabled(s, sys, AtAgent(e)) && !DrivenHere(s, k)
    requires Steady(At(sys.agent.store, k), a) && IsOpen(s, sys, k, a) && Leads(s, sys, t, k, a, g)
    requires OnTime(s, sys, t, AtAgent(e), k, a, g) && Tight(g)
    ensures Leads(s, SysNext(s, sys, AtAgent(e)), Follow(t, sys, AtAgent(e), k, a), k, a, g)
  {
    var sys' := SysNext(s, sys, AtAgent(e));
    if e.OfferIn? && e.k == k {
      OfferLeads(s, sys, t, e, k, a, g);
    } else {
      if e.RemoveIn? && e.k == k {
        RemoveSticks(s, sys, e, k, a);
      } else {
        if e.Monitor? { PassIsInTime(s, sys, t, e, k, a, g); }
        LocalStepKeepsControl(sys.agent, e, k);
      }
      assert At(sys'.agent.store, k).st == Get(sys'.agent.store.states, k);
      ClockStays(sys.agent, e);
      NewLease(s, sys, sys', t, t, k, a, g);
    }
  }

  // ---------------------------------------------------------------- runs

  lemma TimeLeads(s: Site, sys: System, t: Track, h: Happening, k: Key, a: Session, g: Timing)
    requires SysEnabled(s, sys, h) && h.Elapse? && Leads(s, sys, t, k, a, g)
    requires OnTime(s, sys, t, h, k, a, g)
    ensures Leads(s, SysNext(s, sys, h), t, k, a, g)
  {
  }

  lemma StepLeads(s: Site, sys: System, t: Track, h: Happening, k: Key, a: Session, g: Timing)
    requires SysInv(s, sys) && SysEnabled(s, sys, h) && !DrivenHere(s, k)
    requires Steady(At(sys.agent.store, k), a) && IsOpen(s, sys, k, a) && IsOpen(s, SysNext(s, sys, h), k, a)
    requires Leads(s, sys, t, k, a, g) && OnTime(s, sys, t, h, k, a, g)
    requires Tight(g)
    ensures Leads(s, SysNext(s, sys, h), Follow(t, sys, h, k, a), k, a, g)
    ensures Steady(At(SysNext(s, sys, h).agent.store, k), a)
  {
    if h.AtCoordinator? {
      NetStepLeads(s, sys, t, h.ne, k, a, g);
    } else if h.AtAgent? {
      AgentStepLeads(s, sys, t, h.e, k, a, g);
      if h.e.Monitor? { PassIsInTime(s, sys, t, h.e, k, a, g); }
    } else {
      TimeLeads(s, sys, t, h, k, a, g);
    }
    StepKeepsSteady(s, sys, h, k, a);
  }

  /**
   * With syncs at most `gap` apart and pushes taking at most `latency`, together at most 59 seconds, or 30
   * seconds less the wait when offers of the session may arrive as late as their signature allows, the agent
   * keeps the session for as long as the coordinator has it open: whatever else is lost, repeated or
   * reordered, and whatever commands, probes, passes and cleanups do or fail to do.
   */
  lemma {:induction false} RegularSyncsHold(s: Site, sys: System, t: Track, run: seq<Happening>, k: Key, a: Session,
                                            g: Timing)
    requires SysInv(s, sys) && SysPossible(s, sys, run) && !DrivenHere(s, k)
    requires Steady(At(sys.agent.store, k), a) && StaysOpen(s, sys, run, k, a)
    requires Leads(s, sys, t, k, a, g) && AlwaysOnTime(s, sys, t, run, k, a, g)
    requires Tight(g)
    ensures Steady(At(SysAfter(s, sys, run).agent.store, k), a)
    decreases |run|
  {
    if run != [] {
      StepLeads(s, sys, t, run[0], k, a, g);
      SysKeeps(s, sys, run[0]);
      RegularSyncsHold(s, SysNext(s, sys, run[0]), Follow(t, sys, run[0], k, a), run[1..], k, a, g);
    }
  }

  lemma FirstOfferSteady(s: Site, sys: System, e: Event, k: Key, a: Session)
    requires SysInv(s, sys) && SysEnabled(s, sys, AtAgent(e)) && !DrivenHere(s, k) && IsOpen(s, sys, k, a)
    requires Accepts(sys, e, k, a) && e.wgOk
    ensures var d := At(Next(sys.agent, e).store, k);
            Steady(d, a) && d.st.value.lease == LeaseExpiry(e.offer.requestedExpiry, e.now)
  {
    var c := At(sys.agent.store, k);
    OpenSessionTakesHold(s, sys, e, k, a);
    OneSource(s, sys, e);
    OfferLease(c, e.offer, e.now, e.wgOk);
    AcceptedControl(c, e.offer, e.now, e.wgOk);
    PutAt(sys.agent.store, k, HandleOffer(c, e.offer, e.now, e.wgOk).cell, k);
  }

  lemma AcceptedControl(c: Cell, o: Offer, now: real, wgOk: bool)
    requires HandleOffer(c, o, now, wgOk).outcome.Accepted?
    ensures var d := HandleOffer(c, o, now, wgOk).cell;
            d.st.Some? && d.st.value.controller == o.controller && !d.st.value.controlExpired
  {
    var based := Rebase(c, o, now, wgOk);
    SteerKeepsControl(based.cell.(st := Some(Header(based.cell.st.value, o, now))), o, now, wgOk);
  }

  /** The first accepted offer of a session, while a sync pushes it, starts such a run. */
  lemma FirstOfferLeads(s: Site, sys: System, t: Track, e: Event, k: Key, a: Session, g: Timing)
    requires SysInv(s, sys) && SysEnabled(s, sys, AtAgent(e)) && !DrivenHere(s, k) && IsOpen(s, sys, k, a)
    requires Accepts(sys, e, k, a) && OnTime(s, sys, t, AtAgent(e), k, a, g) && e.wgOk
    requires Pushing(s, sys, a) && sys.net.sync.value.now == t.lastSync && Punctual(s, sys, t, a, g)
    requires sys.net.sync.value.base.client.ip == s.setting.home(k) && Stamp(s, sys, k) <= t.lastSync
    ensures var sys' := SysNext(s, sys, AtAgent(e));
            Steady(At(sys'.agent.store, k), a) && Leads(s, sys', Follow(t, sys, AtAgent(e), k, a), k, a, g)
  {
    FirstOfferSteady(s, sys, e, k, a);
    AskedForSpan(s, sys, t, e, k, a, g);
    ClockStays(sys.agent, e);
    var sys' := SysNext(s, sys, AtAgent(e));
    assert At(sys'.agent.store, k).st == Get(sys'.agent.store.states, k);
  }
}
