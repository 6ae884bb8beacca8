/**
 * The coordinator and one agent over a channel that loses, repeats, delays and reorders: any message
 * that was ever sent may arrive at any later time, or never.
 */
module Deployment {
  import opened Basics
  import opened Candidates
  import opened PeerRegions
  import opened AgentMachine
  import opened AgentInvariants
  import opened SessionTheorems
  import opened Pairs
  import C = Coordinator
  import N = Network

  /** `me` is the overlay address of the agent. */
  datatype Site = Site(setting: N.Setting, me: string)

  datatype System = System(net: N.Net, agent: World)

  /** A step of either side on its own clock, or time that passes on both. */
  datatype Happening = AtCoordinator(ne: N.NetEvent) | AtAgent(e: Event) | Elapse(to: real)

  /** The agent initiates the pair with `k` itself. */
  predicate DrivenHere(s: Site, k: Key) {
    s.setting.server(k) && Owns(s.setting.read, s.me, s.setting.home(k))
  }

  function Identity(k: Key, ip: string, id: string, started: nat): N.Opened {
    N.Opened(k, ip, id, started)
  }

  /** `m` is the message that `o` came in; nothing is assumed about instance and candidates. */
  predicate CarriesOffer(s: Site, m: N.Sent, k: Key, o: Offer) {
    m.to == s.me && N.OfferedOf(m) == Identity(k, o.ip, o.sessionId, o.started) && o.requestedExpiry == m.lease
  }

  predicate CarriesRemoval(g: N.Gone, k: Key, m: Removal) {
    g.session == Identity(k, m.ip, m.sessionId, g.session.started) && g.reason == m.reason
  }

  /**
   * Offers with a responder role and removes come from messages of the coordinator; offers with an
   * initiator role are made by the agent, for the servers it drives.
   */
  predicate Sourced(s: Site, sys: System, e: Event) {
    && (e.OfferIn? ==>
          if e.offer.controller == Responder then exists m :: m in sys.net.offers && CarriesOffer(s, m, e.k, e.offer)
          else DrivenHere(s, e.k))
    && (e.RemoveIn? ==> exists g :: g in sys.net.removes && CarriesRemoval(g, e.k, e.removal))
  }

  predicate SysEnabled(s: Site, sys: System, h: Happening) {
    match h
    case AtCoordinator(ne) => N.NetEnabled(s.setting, sys.net, ne)
    case AtAgent(e) => Enabled(sys.agent, e) && Sourced(s, sys, e)
    case Elapse(to) => sys.net.clock <= to && sys.agent.clock <= to
  }

  function SysNext(s: Site, sys: System, h: Happening): System
    requires SysEnabled(s, sys, h)
  {
    match h
    case AtCoordinator(ne) => sys.(net := N.NetNext(s.setting, sys.net, ne))
    case AtAgent(e) => sys.(agent := Next(sys.agent, e))
    case Elapse(to) => System(sys.net.(clock := to), sys.agent.(clock := to))
  }

  predicate SysPossible(s: Site, sys: System, run: seq<Happening>)
    decreases |run|
  {
    run == [] || (SysEnabled(s, sys, run[0]) && SysPossible(s, SysNext(s, sys, run[0]), run[1..]))
  }

  function SysAfter(s: Site, sys: System, run: seq<Happening>): System
    requires SysPossible(s, sys, run)
    decreases |run|
  {
    if run == [] then sys else SysAfter(s, SysNext(s, sys, run[0]), run[1..])
  }

  predicate SysInitial(sys: System) {
    N.NetInitial(sys.net) && Initial(sys.agent)
  }

  // ---------------------------------------------------------------- whose offers a key gets

  /** The coordinator opened the session that the cell carries, and it is a responder's. */
  predicate FromCoordinator(s: Site, history: set<N.Opened>, k: Key, c: Cell) {
    c.st.Some? ==>
      && c.st.value.controller == Responder
      && Identity(k, s.setting.home(k), c.st.value.sessionId, c.st.value.started) in history
  }

  predicate Own(c: Cell) {
    c.st.Some? ==> c.st.value.controller == Initiator
  }

  predicate KeyOk(s: Site, sys: System, k: Key) {
    if DrivenHere(s, k) then Own(At(sys.agent.store, k))
    else FromCoordinator(s, sys.net.history, k, At(sys.agent.store, k))
  }

  ghost predicate SysInv(s: Site, sys: System) {
    N.NetInv(s.setting, sys.net) && forall k :: KeyOk(s, sys, k)
  }

  lemma OfferController(c: Cell, o: Offer, now: real, wgOk: bool)
    requires o.started > 0
    ensures var d := HandleOffer(c, o, now, wgOk).cell;
            d.st.Some? ==>
              || (c.st.Some? && SessionOf(d) == SessionOf(c) && d.st.value.controller == c.st.value.controller)
              || (SessionOf(d) == Some(Session(o.sessionId, o.started)) && d.st.value.controller == o.controller)
  {
    if o.candidates != [] && !IsStale(c, o) && !ChangesStart(c, o) {
      var based := Rebase(c, o, now, wgOk);
      if !based.aborted {
        SteerKeepsControl(based.cell.(st := Some(Header(based.cell.st.value, o, now))), o, now, wgOk);
      }
    }
  }

  /** A server's offers never come from both sides. */
  lemma OneSource(s: Site, sys: System, e: Event)
    requires N.NetInv(s.setting, sys.net) && e.OfferIn? && Sourced(s, sys, e)
    ensures e.offer.controller == Initiator <==> DrivenHere(s, e.k)
    ensures e.offer.controller == Responder ==>
              Identity(e.k, s.setting.home(e.k), e.offer.sessionId, e.offer.started) in sys.net.history
  {
  }

  lemma AgentStepKeeps(s: Site, sys: System, e: Event, k: Key)
    requires SysInv(s, sys) && SysEnabled(s, sys, AtAgent(e))
    ensures KeyOk(s, SysNext(s, sys, AtAgent(e)), k)
  {
    var w := sys.agent;
    assert KeyOk(s, sys, k);
    if e.OfferIn? && e.k == k {
      OneSource(s, sys, e);
      OfferController(At(w.store, k), e.offer, e.now, e.wgOk);
      PutAt(w.store, k, HandleOffer(At(w.store, k), e.offer, e.now, e.wgOk).cell, k);
    } else {
      StepSession(w, e, k);
    }
  }

  lemma SysKeeps(s: Site, sys: System, h: Happening)
    requires SysInv(s, sys) && SysEnabled(s, sys, h)
    ensures SysInv(s, SysNext(s, sys, h))
  {
    var sys' := SysNext(s, sys, h);
    match h
    case AtCoordinator(ne) =>
      N.NetKeeps(s.setting, sys.net, ne);
      forall k ensures KeyOk(s, sys', k) {
        assert KeyOk(s, sys, k);
      }
    case AtAgent(e) =>
      forall k ensures KeyOk(s, sys', k) {
        AgentStepKeeps(s, sys, e, k);
      }
    case Elapse(to) =>
      N.NetKeeps(s.setting, sys.net, N.Tick(to));
      forall k ensures KeyOk(s, sys', k) {
        assert KeyOk(s, sys, k);
      }
  }

  lemma {:induction false} RunKeepsSys(s: Site, sys: System, run: seq<Happening>)
    requires SysInv(s, sys) && SysPossible(s, sys, run)
    ensures SysInv(s, SysAfter(s, sys, run))
    decreases |run|
  {
    if run != [] {
      SysKeeps(s, sys, run[0]);
      RunKeepsSys(s, SysNext(s, sys, run[0]), run[1..]);
    }
  }

  lemma InitiallySys(s: Site, sys: System)
    requires SysInitial(sys)
    ensures SysInv(s, sys)
  {
  }

  /** The coordinator's open session of `k`, if it has one. */
  predicate IsOpen(s: Site, sys: System, k: Key, a: Session) {
    var ip := s.setting.home(k);
    && ip in sys.net.sessions
    && N.OpenedOf(sys.net.sessions[ip]) == Identity(k, ip, a.id, a.started)
  }

  /**
   * In every reachable state, a peer that the agent does not drive itself carries a session that the
   * coordinator opened for that key.  If a session of the key is open, the agent carries that one or an
   * older one.
   */
  lemma AgentIsNeverAhead(s: Site, start: System, run: seq<Happening>, k: Key, a: Session)
    requires SysInitial(start) && SysPossible(s, start, run) && !DrivenHere(s, k)
    requires k in SysAfter(s, start, run).agent.store.states
    ensures var sys := SysAfter(s, start, run);
            var held := SessionAt(sys.agent, k).value;
            && Identity(k, s.setting.home(k), held.id, held.started) in sys.net.history
            && (IsOpen(s, sys, k, a) ==> held == a || (held.started < a.started && held.id != a.id))
  {
    InitiallySys(s, start);
    RunKeepsSys(s, start, run);
    var sys := SysAfter(s, start, run);
    assert KeyOk(s, sys, k);
    if IsOpen(s, sys, k, a) {
      assert N.Newest(N.OpenedOf(sys.net.sessions[s.setting.home(k)]), sys.net.history);
    }
  }
}
