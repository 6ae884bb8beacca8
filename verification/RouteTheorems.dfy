/** Where /32 routes come from, when they may stay, and what an offer leaves behind. */
module RouteTheorems {
  import opened Basics
  import opened PeerRegions
  import opened PeerInvariants
  import opened AgentMachine
  import opened AgentInvariants
  import opened ClaimTheorems

  predicate RoutedAt(w: World, k: Key) {
    Routed(At(w.store, k).peer)
  }

  // ---------------------------------------------------------------- routes need a handshake

  /**
   * The step is the promotion of a probe that holds the claim of `k` and saw a handshake newer than
   * the baseline it read; the peer entry that gets the route has such a handshake itself.
   */
  ghost predicate Promotes(w: World, e: Event, k: Key) {
    && Enabled(w, e)
    && e.ProbeWork? && w.jobs[e.g].key == k && w.jobs[e.g].probe.Seen?
    && ClaimedIn(At(w.store, k), e.g, Probe)
    && w.jobs[e.g].probe.baseline < w.jobs[e.g].probe.latest <= Latest(At(w.store, k).peer)
    && Next(w, e).jobs[e.g].probe.Promoted?
  }

  lemma ProbeRoutes(c: Cell, g: nat, j: Job, act: Act, now: real)
    requires CellInv(c) && JobInv(c, g, j) && !Routed(c.peer)
    ensures var r := ProbeStep(c, g, j, act, now);
            Routed(r.cell.peer) ==>
              && j.probe.Seen? && ClaimedIn(c, g, Probe) && r.job.probe.Promoted?
              && j.probe.baseline < j.probe.latest <= Latest(c.peer)
  {
  }

  lemma ConfirmRoutes(c: Cell, g: nat, j: Job, act: Act, now: real)
    requires CellInv(c) && JobInv(c, g, j) && !Routed(c.peer)
    ensures !Routed(ConfirmStep(c, g, j, act, now).cell.peer)
  {
  }

  /** No other step installs a route, not even the one that re-creates a peer for confirm6. */
  lemma RoutesEnterByPromotion(w: World, e: Event, k: Key)
    requires Safe(w) && Enabled(w, e) && !RoutedAt(w, k) && RoutedAt(Next(w, e), k)
    ensures Promotes(w, e, k)
  {
    if WorksOn(w, e, k) {
      var j := w.jobs[e.g];
      assert CellInv(At(w.store, k)) && JobInv(At(w.store, k), e.g, j);
      if e.ProbeWork? {
        ProbeRoutes(At(w.store, k), e.g, j, e.act, w.clock);
        ProbeStepKeeps(At(w.store, k), e.g, j, e.act, w.clock);
        PutAt(w.store, k, Worked(w, e.g, e.act).cell, k);
      } else {
        ConfirmRoutes(At(w.store, k), e.g, j, e.act, w.clock);
        ConfirmStepKeeps(At(w.store, k), e.g, j, e.act, w.clock);
        PutAt(w.store, k, Rekeyed(w, e.g, e.act).cell, k);
      }
    } else {
      StepOutside(w, e, k);
    }
  }

  predicate RoutedThroughout(w: World, run: seq<Event>, k: Key)
    requires Possible(w, run)
    decreases |run|
  {
    RoutedAt(w, k) && (run == [] || RoutedThroughout(Next(w, run[0]), run[1..], k))
  }

  /** A promotion of `k` happens in the run and its route is there ever since. */
  ghost predicate PromotedAndKept(w: World, run: seq<Event>, k: Key)
    requires Possible(w, run)
    decreases |run|
  {
    && run != []
    && ( || (Promotes(w, run[0], k) && RoutedThroughout(Next(w, run[0]), run[1..], k))
         || PromotedAndKept(Next(w, run[0]), run[1..], k))
  }

  lemma {:induction false} RouteHistory(w: World, run: seq<Event>, k: Key)
    requires Safe(w) && Possible(w, run) && RoutedAt(After(w, run), k)
    ensures RoutedThroughout(w, run, k) || PromotedAndKept(w, run, k)
    decreases |run|
  {
    if run != [] {
      NextKeeps(w, run[0]);
      RouteHistory(Next(w, run[0]), run[1..], k);
      if !RoutedAt(w, k) && RoutedThroughout(Next(w, run[0]), run[1..], k) {
        RoutesEnterByPromotion(w, run[0], k);
      }
    }
  }

  /** Every /32 that is ever installed goes back to a promotion since which it was never withdrawn. */
  lemma RoutesAreBackedByHandshakes(w: World, run: seq<Event>, k: Key)
    requires Initial(w) && Possible(w, run) && RoutedAt(After(w, run), k)
    ensures PromotedAndKept(w, run, k)
  {
    InitialIsSafe(w);
    RouteHistory(w, run, k);
  }

  // ---------------------------------------------------------------- a rekey continues its own promotion

  /** The probe of `g` has promoted to `endpoint`, or its confirm6 worker waits with that endpoint. */
  predicate AtEndpoint(j: Job, endpoint: string) {
    (j.probe.Promoted? && j.probe.endpoint == endpoint) || (j.confirm.Waiting? && j.confirm.endpoint == endpoint)
  }

  /** Generation `g` is past its promotion to `endpoint`, before the rekey, and still the current one. */
  predicate Pending(w: World, g: nat, endpoint: string) {
    g in w.jobs && AtEndpoint(w.jobs[g], endpoint) && Current(At(w.store, w.jobs[g].key), g)
  }

  lemma PendingIsRouted(w: World, g: nat, endpoint: string)
    requires Safe(w) && Pending(w, g, endpoint)
    ensures RoutedAt(w, w.jobs[g].key)
  {
    assert CellInv(At(w.store, w.jobs[g].key)) && JobInv(At(w.store, w.jobs[g].key), g, w.jobs[g]);
  }

  /** A generation becomes current only when it is launched. */
  lemma StaysCurrent(w: World, e: Event, k: Key, g: nat)
    requires Safe(w) && Enabled(w, e) && Current(At(Next(w, e).store, k), g) && g <= w.store.gen
    ensures Current(At(w.store, k), g)
  {
    if WorksOn(w, e, k) {
      var j := w.jobs[e.g];
      assert CellInv(At(w.store, k)) && JobInv(At(w.store, k), e.g, j);
      if e.ProbeWork? {
        ProbeStepKeeps(At(w.store, k), e.g, j, e.act, w.clock);
        PutAt(w.store, k, Worked(w, e.g, e.act).cell, k);
      } else {
        ConfirmStepKeeps(At(w.store, k), e.g, j, e.act, w.clock);
        PutAt(w.store, k, Rekeyed(w, e.g, e.act).cell, k);
      }
    } else {
      StepOutside(w, e, k);
    }
  }

  /** The step promotes `k` under generation `g` to `endpoint`. */
  ghost predicate PromotesTo(w: World, e: Event, k: Key, g: nat, endpoint: string) {
    Promotes(w, e, k) && e.g == g && Next(w, e).jobs[g].probe.endpoint == endpoint
  }

  lemma ProbeComesTo(c: Cell, g: nat, j: Job, act: Act, now: real, endpoint: string)
    requires CellInv(c) && JobInv(c, g, j) && AtEndpoint(ProbeStep(c, g, j, act, now).job, endpoint)
    ensures AtEndpoint(j, endpoint)
            || (var r := ProbeStep(c, g, j, act, now);
                && j.probe.Seen? && ClaimedIn(c, g, Probe) && r.job.probe.Promoted? && r.job.probe.endpoint == endpoint
                && j.probe.baseline < j.probe.latest <= Latest(c.peer))
  {
  }

  lemma ConfirmComesTo(c: Cell, g: nat, j: Job, act: Act, now: real, endpoint: string)
    requires AtEndpoint(ConfirmStep(c, g, j, act, now).job, endpoint)
    ensures AtEndpoint(j, endpoint)
  {
  }

  lemma PendingComesFrom(w: World, e: Event, g: nat, endpoint: string)
    requires Safe(w) && Enabled(w, e) && Pending(Next(w, e), g, endpoint)
    ensures g in w.jobs && Next(w, e).jobs[g].key == w.jobs[g].key
    ensures Pending(w, g, endpoint) || PromotesTo(w, e, w.jobs[g].key, g, endpoint)
  {
    if (e.ProbeWork? || e.ConfirmWork?) && e.g == g {
      var j := w.jobs[g];
      var c := At(w.store, j.key);
      assert CellInv(c) && JobInv(c, g, j);
      if e.ProbeWork? {
        ProbeStepKeeps(c, g, j, e.act, w.clock);
        ProbeComesTo(c, g, j, e.act, w.clock, endpoint);
      } else {
        ConfirmStepKeeps(c, g, j, e.act, w.clock);
        ConfirmComesTo(c, g, j, e.act, w.clock, endpoint);
      }
    } else {
      OtherJobsStay(w, e, g);
    }
    StaysCurrent(w, e, w.jobs[g].key, g);
  }

  /** A promotion of `k` by `g` to `endpoint` happens in the run, and its route is there ever since. */
  ghost predicate PromotedTo(w: World, run: seq<Event>, k: Key, g: nat, endpoint: string)
    requires Possible(w, run)
    decreases |run|
  {
    && run != []
    && ( || (PromotesTo(w, run[0], k, g, endpoint) && RoutedThroughout(Next(w, run[0]), run[1..], k))
         || PromotedTo(Next(w, run[0]), run[1..], k, g, endpoint))
  }

  lemma {:induction false} PendingHistory(w: World, run: seq<Event>, g: nat, endpoint: string)
    requires Safe(w) && Possible(w, run) && Pending(After(w, run), g, endpoint)
    ensures var k := After(w, run).jobs[g].key;
            || PromotedTo(w, run, k, g, endpoint)
            || (Pending(w, g, endpoint) && w.jobs[g].key == k && RoutedThroughout(w, run, k))
    decreases |run|
  {
    if run == [] {
      PendingIsRouted(w, g, endpoint);
    } else {
      var w', k := Next(w, run[0]), After(w, run).jobs[g].key;
      NextKeeps(w, run[0]);
      PendingHistory(w', run[1..], g, endpoint);
      if !PromotedTo(w', run[1..], k, g, endpoint) {
        PendingComesFrom(w, run[0], g, endpoint);
        if Pending(w, g, endpoint) { PendingIsRouted(w, g, endpoint); }
      }
    }
  }

  /**
   * A rekey re-creates only a route that its own generation has promoted to the endpoint it is about, and
   * that was never withdrawn since.
   */
  lemma RekeyContinuesPromotion(w: World, run: seq<Event>, g: nat, endpoint: string)
    requires Initial(w) && Possible(w, run) && g in After(w, run).jobs
    requires After(w, run).jobs[g].confirm == Waiting(endpoint)
    requires ConfirmReady(At(After(w, run).store, After(w, run).jobs[g].key), g, endpoint)
    ensures PromotedTo(w, run, After(w, run).jobs[g].key, g, endpoint)
  {
    InitialIsSafe(w);
    PendingHistory(w, run, g, endpoint);
  }

  // ---------------------------------------------------------------- routes only in direct or confirm6

  /** No remove command fails in this step. */
  predicate RemovesSucceed(e: Event) {
    match e
    case OfferIn(_, _, _, wgOk) => wgOk
    case RemoveIn(_, _, wgOk) => wgOk
    case Monitor(_, _, fails) => fails == {}
    case Cleanup(_, _, fails) => fails == {}
    case ProbeWork(_, act) => act.Go? ==> act.wg.removed
    case ConfirmWork(_, act) => act.Go? ==> act.wg.removed
    case _ => true
  }

  predicate NoStray(s: Store) {
    forall k :: k in s.table ==> !s.table[k].stray
  }

  predicate CleanPeer(p: Option<WgPeer>) {
    p.Some? ==> !p.value.stray
  }

  lemma PutNoStray(s: Store, k: Key, c: Cell)
    requires NoStray(s) && CleanPeer(c.peer)
    ensures NoStray(Put(s, k, c))
  {
  }

  lemma SteerNoStray(c: Cell, o: Offer, now: real)
    requires CleanPeer(c.peer) && c.st.Some?
    ensures CleanPeer(Steer(c, o, now, true).cell.peer)
  {
  }

  lemma OfferNoStray(c: Cell, o: Offer, now: real)
    requires CleanPeer(c.peer)
    ensures CleanPeer(HandleOffer(c, o, now, true).cell.peer)
  {
    if o.candidates != [] && !IsStale(c, o) && !ChangesStart(c, o) {
      var based := Rebase(c, o, now, true).cell;
      SteerNoStray(based.(st := Some(Header(based.st.value, o, now))), o, now);
    }
  }

  lemma {:induction false} PassNoStray(s: Store, order: seq<Key>, now: real)
    requires NoStray(s)
    ensures NoStray(MonitorPass(s, order, now, {}).store)
    decreases |order|
  {
    if order == [] {
    } else if order[0] !in s.states {
      PassNoStray(s, order[1..], now);
    } else {
      var r := MonitorKey(At(s, order[0]), now, true);
      PutNoStray(s, order[0], r.cell);
      PassNoStray(Put(s, order[0], r.cell), order[1..], now);
    }
  }

  lemma {:induction false} CleanupNoStray(s: Store, order: seq<Key>, active: set<Key>)
    requires NoStray(s)
    ensures NoStray(CleanupPass(s, order, active, {}))
    decreases |order|
  {
    if order == [] {
    } else if order[0] in s.states && s.states[order[0]].controller == Initiator && order[0] !in active {
      PutNoStray(s, order[0], CleanupKey(At(s, order[0]), true));
      CleanupNoStray(Put(s, order[0], CleanupKey(At(s, order[0]), true)), order[1..], active);
    } else {
      CleanupNoStray(s, order[1..], active);
    }
  }

  lemma StepNoStray(w: World, e: Event)
    requires NoStray(w.store) && Enabled(w, e) && RemovesSucceed(e)
    ensures NoStray(Next(w, e).store)
  {
    match e
    case OfferIn(k, o, now, _) =>
      OfferNoStray(At(w.store, k), o, now);
      PutNoStray(w.store, k, HandleOffer(At(w.store, k), o, now, true).cell);
    case RemoveIn(k, m, _) => PutNoStray(w.store, k, HandleRemove(At(w.store, k), m, w.clock, true).cell);
    case Monitor(order, now, _) => PassNoStray(w.store, order, now);
    case Cleanup(order, active, _) => CleanupNoStray(w.store, order, active);
    case ProbeWork(g, act) => WorkedNoStray(w, g, act);
    case ConfirmWork(g, act) => RekeyedNoStray(w, g, act);
    case _ =>
  }

  lemma WorkedNoStray(w: World, g: nat, act: Act)
    requires NoStray(w.store) && g in w.jobs && Removes(act)
    ensures NoStray(PutJob(w, g, Worked(w, g, act)).store)
  {
  }

  lemma RekeyedNoStray(w: World, g: nat, act: Act)
    requires NoStray(w.store) && g in w.jobs && Removes(act)
    ensures NoStray(PutJob(w, g, Rekeyed(w, g, act)).store)
  {
  }

  lemma {:induction false} RunNoStray(w: World, run: seq<Event>)
    requires NoStray(w.store) && Possible(w, run) && forall i :: 0 <= i < |run| ==> RemovesSucceed(run[i])
    ensures NoStray(After(w, run).store)
    decreases |run|
  {
    if run != [] {
      StepNoStray(w, run[0]);
      RunNoStray(Next(w, run[0]), run[1..]);
    }
  }

  /** When removes succeed, exactly the modes direct and confirm6 have a route. */
  lemma ModeTellsTheRoute(w: World, run: seq<Event>, k: Key)
    requires Initial(w) && Possible(w, run) && forall i :: 0 <= i < |run| ==> RemovesSucceed(run[i])
    ensures var c := At(After(w, run).store, k);
            Routed(c.peer) <==> c.st.Some? && (c.st.value.mode == Direct || c.st.value.mode == Confirm6)
  {
    InitialIsSafe(w);
    RunKeepsSafe(w, run);
    RunNoStray(w, run);
    assert CellInv(At(After(w, run).store, k));
  }
}
