/** The newest session wins at the agent and stays, however the channel behaves. */
module StickyTheorems {
  import opened Basics
  import opened Candidates
  import opened PeerRegions
  import opened AgentMachine
  import opened AgentInvariants
  import opened SessionTheorems
  import opened Pairs
  import opened Deployment
  import N = Network

  /** The agent carries the session that the coordinator has open. */
  predicate Holds(s: Site, sys: System, k: Key, a: Session) {
    SessionAt(sys.agent, k) == Some(a) && IsOpen(s, sys, k, a)
  }

  predicate IsDelivery(h: Happening, k: Key) {
    h.AtAgent? && ((h.e.OfferIn? && h.e.k == k) || (h.e.RemoveIn? && h.e.k == k))
  }

  /** The message is an offer of the session `a` itself. */
  predicate About(h: Happening, a: Session) {
    h.AtAgent? && h.e.OfferIn? && h.e.offer.sessionId == a.id
  }

  /** An offer that arrives for `k` while `a` is open belongs to `a` or is older. */
  lemma OtherOffersAreOlder(s: Site, sys: System, e: Event, k: Key, a: Session)
    requires SysInv(s, sys) && SysEnabled(s, sys, AtAgent(e)) && !DrivenHere(s, k) && IsOpen(s, sys, k, a)
    requires e.OfferIn? && e.k == k
    ensures e.offer.sessionId == a.id ==> e.offer.started == a.started
    ensures e.offer.sessionId != a.id ==> e.offer.started < a.started
    ensures a.started > 0
  {
  }

  lemma OfferSticks(s: Site, sys: System, e: Event, k: Key, a: Session)
    requires SysInv(s, sys) && SysEnabled(s, sys, AtAgent(e)) && !DrivenHere(s, k)
    requires Holds(s, sys, k, a) && e.OfferIn? && e.k == k
    ensures var d := At(Next(sys.agent, e).store, k);
            && SessionOf(d) == Some(a) && (e.offer.sessionId != a.id ==> d == At(sys.agent.store, k))
            && d.st.value.controller == Responder
            && (d.st.value.controlExpired ==> sys.agent.store.states[k].controlExpired)
  {
    var w, c := sys.agent, At(sys.agent.store, k);
    assert KeyOk(s, sys, k);
    OtherOffersAreOlder(s, sys, e, k, a);
    OneSource(s, sys, e);
    OfferOfHeld(c, e.offer, e.now, e.wgOk);
    PutAt(w.store, k, HandleOffer(c, e.offer, e.now, e.wgOk).cell, k);
  }

  /** An offer for a held session: an older one changes nothing, its own keeps the session. */
  lemma OfferOfHeld(c: Cell, o: Offer, now: real, wgOk: bool)
    requires c.st.Some? && c.st.value.started > 0
    requires o.sessionId == c.st.value.sessionId ==> o.started == c.st.value.started
    requires o.sessionId != c.st.value.sessionId ==> o.started < c.st.value.started
    ensures var d := HandleOffer(c, o, now, wgOk).cell;
            && SessionOf(d) == SessionOf(c) && (o.sessionId != c.st.value.sessionId ==> d == c)
            && (d.st.value.controller == c.st.value.controller || d.st.value.controller == o.controller)
            && (d.st.value.controlExpired ==> c.st.value.controlExpired)
  {
    if o.candidates != [] && !IsStale(c, o) {
      var based := Rebase(c, o, now, wgOk);
      if !based.aborted {
        SteerKeepsControl(based.cell.(st := Some(Header(based.cell.st.value, o, now))), o, now, wgOk);
      }
    }
  }

  lemma RemoveSticks(s: Site, sys: System, e: Event, k: Key, a: Session)
    requires SysInv(s, sys) && SysEnabled(s, sys, AtAgent(e)) && Holds(s, sys, k, a) && e.RemoveIn? && e.k == k
    ensures At(Next(sys.agent, e).store, k) == At(sys.agent.store, k)
  {
  }

  /**
   * Once the agent holds the open session, no delivered message replaces or deletes it; a message about
   * any other session changes nothing at all for the peer.
   */
  lemma OpenSessionIsSticky(s: Site, sys: System, h: Happening, k: Key, a: Session)
    requires SysInv(s, sys) && SysEnabled(s, sys, h) && !DrivenHere(s, k)
    requires Holds(s, sys, k, a) && IsDelivery(h, k)
    ensures Holds(s, SysNext(s, sys, h), k, a)
    ensures !About(h, a) ==> At(SysNext(s, sys, h).agent.store, k) == At(sys.agent.store, k)
  {
    if h.e.OfferIn? {
      OfferSticks(s, sys, h.e, k, a);
    } else {
      RemoveSticks(s, sys, h.e, k, a);
    }
  }

  /** An offer of the open session takes hold, whatever the agent carried before. */
  lemma OpenSessionTakesHold(s: Site, sys: System, e: Event, k: Key, a: Session)
    requires SysInv(s, sys) && SysEnabled(s, sys, AtAgent(e)) && !DrivenHere(s, k) && IsOpen(s, sys, k, a)
    requires e.OfferIn? && e.k == k && e.offer.sessionId == a.id && e.wgOk && e.offer.candidates != []
    ensures Holds(s, SysNext(s, sys, AtAgent(e)), k, a)
  {
    var w, c := sys.agent, At(sys.agent.store, k);
    OtherOffersAreOlder(s, sys, e, k, a);
    assert KeyOk(s, sys, k);
    var entry := sys.net.sessions[s.setting.home(k)];
    assert N.Newest(N.OpenedOf(entry), sys.net.history);
    OfferSession(c, e.offer, e.now, e.wgOk);
    PutAt(w.store, k, HandleOffer(c, e.offer, e.now, e.wgOk).cell, k);
  }

  // ---------------------------------------------------------------- over runs

  /** The cell carries the coordinator's session `a`, whose control is not marked as lost. */
  predicate Steady(c: Cell, a: Session) {
    SessionOf(c) == Some(a) && c.st.value.controller == Responder && !c.st.value.controlExpired
  }

  lemma MonitorKeepsControl(c: Cell, now: real, wgOk: bool)
    requires c.st.Some? && !c.st.value.controlExpired && now < c.st.value.lease
    ensures KeepsControl(c, MonitorKey(c, now, wgOk).cell)
  {
  }

  lemma {:induction false} PassKeepsControl(st: Store, order: seq<Key>, now: real, fails: set<Key>, k: Key)
    requires k in st.states && !st.states[k].controlExpired && now < st.states[k].lease
    ensures KeepsControl(At(st, k), At(MonitorPass(st, order, now, fails).store, k))
    decreases |order|
  {
    if order == [] {
    } else if order[0] !in st.states {
      PassKeepsControl(st, order[1..], now, fails, k);
    } else {
      var r := MonitorKey(At(st, order[0]), now, order[0] !in fails);
      if order[0] == k { MonitorKeepsControl(At(st, k), now, k !in fails); }
      PutAt(st, order[0], r.cell, k);
      if !r.aborted {
        var st' := Put(st, order[0], r.cell);
        assert At(st', k).st == Some(st'.states[k]);
        PassKeepsControl(st', order[1..], now, fails, k);
      }
    }
  }

  lemma {:induction false} CleanupKeepsControl(st: Store, order: seq<Key>, active: set<Key>, fails: set<Key>, k: Key)
    requires k in st.states && st.states[k].controller == Responder
    ensures KeepsControl(At(st, k), At(CleanupPass(st, order, active, fails), k))
    decreases |order|
  {
    if order == [] {
    } else if order[0] in st.states && st.states[order[0]].controller == Initiator && order[0] !in active {
      var d := CleanupKey(At(st, order[0]), order[0] !in fails);
      PutAt(st, order[0], d, k);
      var st' := Put(st, order[0], d);
      assert At(st', k).st == Some(st'.states[k]);
      CleanupKeepsControl(st', order[1..], active, fails, k);
    } else {
      CleanupKeepsControl(st, order[1..], active, fails, k);
    }
  }

  /** No step of the agent but a delivery for the key or a pass after the lease touches its control. */
  lemma LocalStepKeepsControl(w: World, e: Event, k: Key)
    requires Enabled(w, e) && k in w.store.states && !IsDelivery(AtAgent(e), k)
    requires w.store.states[k].controller == Responder && !w.store.states[k].controlExpired
    requires e.Monitor? ==> e.now < w.store.states[k].lease
    ensures KeepsControl(At(w.store, k), At(Next(w, e).store, k))
  {
    match e
    case OfferIn(j, o, now, wgOk) => PutAt(w.store, j, HandleOffer(At(w.store, j), o, now, wgOk).cell, k);
    case RemoveIn(j, m, wgOk) => PutAt(w.store, j, HandleRemove(At(w.store, j), m, w.clock, wgOk).cell, k);
    case Monitor(order, now, fails) => PassKeepsControl(w.store, order, now, fails, k);
    case Cleanup(order, active, fails) => CleanupKeepsControl(w.store, order, active, fails, k);
    case ProbeWork(_, _) => WorkersKeepControl(w, e, k);
    case ConfirmWork(_, _) => WorkersKeepControl(w, e, k);
    case _ =>
  }

  /** The session stays open at the coordinator through the whole run. */
  predicate StaysOpen(s: Site, sys: System, run: seq<Happening>, k: Key, a: Session)
    requires SysPossible(s, sys, run)
    decreases |run|
  {
    IsOpen(s, sys, k, a) && (run == [] || StaysOpen(s, SysNext(s, sys, run[0]), run[1..], k, a))
  }

  /** No monitor pass of the run finds the lease run out. */
  predicate LeaseAhead(s: Site, sys: System, run: seq<Happening>, k: Key)
    requires SysPossible(s, sys, run)
    decreases |run|
  {
    run == [] ||
    (&& (run[0].AtAgent? && run[0].e.Monitor? && k in sys.agent.store.states ==>
           run[0].e.now < sys.agent.store.states[k].lease)
     && LeaseAhead(s, SysNext(s, sys, run[0]), run[1..], k))
  }

  lemma StepKeepsSteady(s: Site, sys: System, h: Happening, k: Key, a: Session)
    requires SysInv(s, sys) && SysEnabled(s, sys, h) && !DrivenHere(s, k)
    requires Steady(At(sys.agent.store, k), a) && IsOpen(s, sys, k, a)
    requires h.AtAgent? && h.e.Monitor? ==> h.e.now < sys.agent.store.states[k].lease
    ensures Steady(At(SysNext(s, sys, h).agent.store, k), a)
  {
    match h
    case AtCoordinator(_) =>
    case AtAgent(e) =>
      assert At(sys.agent.store, k).st == Some(sys.agent.store.states[k]);
      if !IsDelivery(h, k) {
        LocalStepKeepsControl(sys.agent, e, k);
      } else if e.OfferIn? {
        OfferSticks(s, sys, e, k, a);
      } else {
        RemoveSticks(s, sys, e, k, a);
      }
    case Elapse(_) =>
  }

  /**
   * As long as the coordinator keeps the session open and the lease is renewed in time, the agent keeps
   * the session: through lost, repeated and reordered messages, failing commands, probes, passes and
   * cleanups.
   */
  lemma {:induction false} HeldWhileOpen(s: Site, sys: System, run: seq<Happening>, k: Key, a: Session)
    requires SysInv(s, sys) && SysPossible(s, sys, run) && !DrivenHere(s, k)
    requires Steady(At(sys.agent.store, k), a) && StaysOpen(s, sys, run, k, a) && LeaseAhead(s, sys, run, k)
    ensures Steady(At(SysAfter(s, sys, run).agent.store, k), a)
    decreases |run|
  {
    if run != [] {
      StepKeepsSteady(s, sys, run[0], k, a);
      SysKeeps(s, sys, run[0]);
      HeldWhileOpen(s, SysNext(s, sys, run[0]), run[1..], k, a);
    }
  }
}
