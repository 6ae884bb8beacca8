/** How a confirm6 worker can lose its claim while its generation stays current. */
module RekeyTheorems {
  import opened Basics
  import opened Candidates
  import opened PeerRegions
  import opened PeerInvariants
  import opened AgentMachine
  import opened AgentInvariants
  import opened ClaimTheorems
  import opened ProbeTheorems

  /** A repeated offer of the same session, instance and candidates that finds the rekeyed route fresh. */
  predicate TakenByOffer(c: Cell, o: Offer, now: real)
    requires c.st.Some?
  {
    && o.candidates != [] && c.st.value.sessionId == o.sessionId && !ChangesStart(c, o) && !InstanceChanged(c, o)
    && c.st.value.signature == Signature(o.candidates) && Healthy(c.peer, now)
  }

  /** A lost control session that finds the rekeyed route fresh. */
  predicate TakenByRemove(c: Cell, m: Removal, now: real)
    requires c.st.Some?
  {
    c.st.value.sessionId == m.sessionId && c.st.value.ip == m.ip && m.reason == Expired && Healthy(c.peer, now)
  }

  /** A lease that has run out over a fresh route. */
  predicate TakenByPass(c: Cell, now: real)
    requires c.st.Some?
  {
    !c.st.value.controlExpired && c.st.value.lease != 0.0 && now >= c.st.value.lease && Healthy(c.peer, now)
  }

  /** The generation is still the worker's, but the claim is gone. */
  predicate Bereft(d: Cell, g: nat) {
    Current(d, g) && !ClaimedIn(d, g, Confirm6)
  }

  lemma OfferTakes(c: Cell, o: Offer, now: real, wgOk: bool, g: nat)
    requires CellInv(c) && ClaimedIn(c, g, Confirm6)
    ensures Bereft(HandleOffer(c, o, now, wgOk).cell, g) <==> TakenByOffer(c, o, now)
  {
    if o.candidates != [] && !IsStale(c, o) && !ChangesStart(c, o) {
      var based := Rebase(c, o, now, wgOk);
      if !based.aborted {
        SteerTakes(based.cell.(st := Some(Header(based.cell.st.value, o, now))), o, now, wgOk, g);
      }
    }
  }

  lemma SteerTakes(c: Cell, o: Offer, now: real, wgOk: bool, g: nat)
    requires c.st.Some? && (Current(c, g) ==> ClaimedIn(c, g, Confirm6)) && g <= c.gen
    ensures Bereft(Steer(c, o, now, wgOk).cell, g)
            <==> Current(c, g) && c.st.value.signature == Signature(o.candidates) && Healthy(c.peer, now)
  {
  }

  lemma RemoveTakes(c: Cell, m: Removal, now: real, wgOk: bool, g: nat)
    requires CellInv(c) && ClaimedIn(c, g, Confirm6)
    ensures Bereft(HandleRemove(c, m, now, wgOk).cell, g) <==> TakenByRemove(c, m, now)
  {
  }

  lemma PassTakes(c: Cell, now: real, wgOk: bool, g: nat)
    requires CellInv(c) && ClaimedIn(c, g, Confirm6)
    ensures Bereft(MonitorKey(c, now, wgOk).cell, g) <==> TakenByPass(c, now)
  {
  }

  /** The pass gets as far as `k`. */
  predicate Reaches(s: Store, order: seq<Key>, now: real, fails: set<Key>, k: Key)
    decreases |order|
  {
    && order != []
    && ( || order[0] == k
         || (order[0] !in s.states && Reaches(s, order[1..], now, fails, k))
         || (order[0] in s.states
             && var r := MonitorKey(At(s, order[0]), now, order[0] !in fails);
             !r.aborted && Reaches(Put(s, order[0], r.cell), order[1..], now, fails, k)))
  }

  lemma {:induction false} MonitorTakes(s: Store, order: seq<Key>, now: real, fails: set<Key>, k: Key, g: nat)
    requires CellsOk(s) && ClaimedIn(At(s, k), g, Confirm6)
    requires forall i, j :: 0 <= i < j < |order| ==> order[i] != order[j]
    ensures Bereft(At(MonitorPass(s, order, now, fails).store, k), g)
            <==> Reaches(s, order, now, fails, k) && TakenByPass(At(s, k), now)
    decreases |order|
  {
    if order == [] {
    } else if order[0] !in s.states {
      MonitorTakes(s, order[1..], now, fails, k, g);
    } else {
      var c := At(s, order[0]);
      assert CellInv(c);
      var r := MonitorKey(c, now, order[0] !in fails);
      MonitorRegion(c, now, order[0] !in fails);
      PutKeepsCells(s, order[0], r.cell);
      PutAt(s, order[0], r.cell, k);
      var s1 := Put(s, order[0], r.cell);
      if order[0] == k {
        PassTakes(c, now, k !in fails, g);
        if !r.aborted { PassFrame(s1, order[1..], now, fails, k); }
      } else if !r.aborted {
        MonitorTakes(s1, order[1..], now, fails, k, g);
      }
    }
  }

  lemma {:induction false} CleanupTakesAll(s: Store, order: seq<Key>, active: set<Key>, fails: set<Key>, k: Key)
    ensures var d := At(CleanupPass(s, order, active, fails), k); d.st.None? || d.st == At(s, k).st
    decreases |order|
  {
    if order == [] {
    } else if order[0] in s.states && s.states[order[0]].controller == Initiator && order[0] !in active {
      var d := CleanupKey(At(s, order[0]), order[0] !in fails);
      PutAt(s, order[0], d, k);
      CleanupTakesAll(Put(s, order[0], d), order[1..], active, fails, k);
    } else {
      CleanupTakesAll(s, order[1..], active, fails, k);
    }
  }

  /** The step takes the claim of `k` from its rekey worker and leaves the generation. */
  predicate Takes(w: World, e: Event, k: Key)
    requires k in w.store.states
  {
    var c := At(w.store, k);
    match e
    case OfferIn(j, o, now, _) => j == k && TakenByOffer(c, o, now)
    case RemoveIn(j, m, _) => j == k && TakenByRemove(c, m, w.clock)
    case Monitor(order, now, fails) => Reaches(w.store, order, now, fails, k) && TakenByPass(c, now)
    case _ => false
  }

  lemma WorkersTakeNothing(w: World, e: Event, g: nat)
    requires Safe(w) && Enabled(w, e) && g in w.jobs && ClaimedIn(At(w.store, w.jobs[g].key), g, Confirm6)
    requires e.ProbeWork? || (e.ConfirmWork? && e.g != g)
    ensures At(Next(w, e).store, w.jobs[g].key).st == At(w.store, w.jobs[g].key).st
  {
    var k, j := w.jobs[g].key, w.jobs[e.g];
    var c := At(w.store, j.key);
    assert CellInv(c) && JobInv(c, e.g, j) && JobInv(At(w.store, k), g, w.jobs[g]);
    if e.ProbeWork? {
      ProbeStepKeeps(c, e.g, j, e.act, w.clock);
      PutAt(w.store, j.key, Worked(w, e.g, e.act).cell, k);
    } else {
      ConfirmStepKeeps(c, e.g, j, e.act, w.clock);
      PutAt(w.store, j.key, Rekeyed(w, e.g, e.act).cell, k);
    }
  }

  /**
   * A rekey worker under the current generation loses its claim to someone else in exactly three ways:
   * a repeated offer, an expired remove, or a pass after the lease, each of which finds the route that the
   * worker has re-created already fresh and makes it an ordinary direct route.
   */
  lemma RekeyClaimEndsExactly(w: World, e: Event, g: nat)
    requires Safe(w) && Enabled(w, e) && g in w.jobs && ClaimedIn(At(w.store, w.jobs[g].key), g, Confirm6)
    requires !(e.ConfirmWork? && e.g == g)
    ensures Bereft(At(Next(w, e).store, w.jobs[g].key), g) <==> Takes(w, e, w.jobs[g].key)
  {
    var k := w.jobs[g].key;
    var c := At(w.store, k);
    assert CellInv(c);
    match e
    case OfferIn(j, o, now, wgOk) =>
      if j == k { OfferTakes(c, o, now, wgOk, g); }
      PutAt(w.store, j, HandleOffer(At(w.store, j), o, now, wgOk).cell, k);
    case RemoveIn(j, m, wgOk) =>
      if j == k { RemoveTakes(c, m, w.clock, wgOk, g); }
      PutAt(w.store, j, HandleRemove(At(w.store, j), m, w.clock, wgOk).cell, k);
    case Monitor(order, now, fails) => MonitorTakes(w.store, order, now, fails, k, g);
    case Cleanup(order, active, fails) => CleanupTakesAll(w.store, order, active, fails, k);
    case ProbeWork(_, _) => WorkersTakeNothing(w, e, g);
    case ConfirmWork(_, _) => WorkersTakeNothing(w, e, g);
    case _ =>
  }

  // ---------------------------------------------------------------- only a new handshake answers a rekey

  /** The step re-creates the peer of `g` without any handshake. */
  predicate Recreates(w: World, e: Event, g: nat) {
    && Enabled(w, e) && e.ConfirmWork? && e.g == g && w.jobs[g].confirm.Waiting? && Next(w, e).jobs[g].confirm.Rekeying?
    && At(Next(w, e).store, w.jobs[g].key).peer.Some? && Latest(At(Next(w, e).store, w.jobs[g].key).peer) == 0.0
  }

  /** `g` re-creates the peer `k` in the run, and a handshake of `k` comes after that. */
  predicate RecreatedThenAnswered(w: World, run: seq<Event>, g: nat, k: Key)
    requires Possible(w, run)
    decreases |run|
  {
    && run != []
    && ( || (Recreates(w, run[0], g) && HandshakeIn(run[1..], k, 0.0))
         || RecreatedThenAnswered(Next(w, run[0]), run[1..], g, k))
  }

  lemma RekeyingComesFrom(w: World, e: Event, g: nat)
    requires Safe(w) && Enabled(w, e) && g in Next(w, e).jobs && Next(w, e).jobs[g].confirm.Rekeying?
    ensures g in w.jobs && Next(w, e).jobs[g].key == w.jobs[g].key
    ensures w.jobs[g].confirm.Rekeying? || Recreates(w, e, g)
  {
    if (e.ProbeWork? || e.ConfirmWork?) && e.g == g {
      var j := w.jobs[g];
      if e.ConfirmWork? {
        PutAt(w.store, j.key, Rekeyed(w, g, e.act).cell, j.key);
      } else {
        ProbeNoNewer(At(w.store, j.key), g, j, e.act, w.clock);
      }
    } else {
      OtherJobsStay(w, e, g);
    }
  }

  lemma {:induction false} RekeyHistory(w: World, run: seq<Event>, g: nat)
    requires Safe(w) && Possible(w, run) && g in After(w, run).jobs && After(w, run).jobs[g].confirm.Rekeying?
    requires 0.0 < Latest(At(After(w, run).store, After(w, run).jobs[g].key).peer)
    ensures var k := After(w, run).jobs[g].key;
            RecreatedThenAnswered(w, run, g, k) || (g in w.jobs && w.jobs[g].confirm.Rekeying? && w.jobs[g].key == k)
    decreases |run|
  {
    if run != [] {
      var w', k := Next(w, run[0]), After(w, run).jobs[g].key;
      NextKeeps(w, run[0]);
      RekeyHistory(w', run[1..], g);
      if !RecreatedThenAnswered(w', run[1..], g, k) {
        RekeyingComesFrom(w, run[0], g);
        if !w.jobs[g].confirm.Rekeying? { LatestRises(w', run[1..], k, 0.0); }
      }
    }
  }

  /**
   * A rekey that takes an answer has re-created the peer first, and a handshake came after that: the session
   * that is confirmed is a new one.
   */
  lemma RekeyFollowsHandshake(w: World, run: seq<Event>, g: nat, act: Act)
    requires Initial(w) && Possible(w, run) && g in After(w, run).jobs && After(w, run).jobs[g].confirm.Rekeying?
    requires Next(After(w, run), ConfirmWork(g, act)).jobs[g].confirm.Answered?
    ensures RecreatedThenAnswered(w, run, g, After(w, run).jobs[g].key)
  {
    var c := At(After(w, run).store, After(w, run).jobs[g].key);
    InitialIsSafe(w);
    RunNoneNegative(w, run);
    assert Latest(c.peer) != 0.0;
    RekeyHistory(w, run, g);
  }
}
