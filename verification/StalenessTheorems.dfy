/** How old the handshake behind an installed /32 can be. */
module StalenessTheorems {
  import opened Basics
  import opened Candidates
  import opened PeerRegions
  import opened PeerInvariants
  import opened AgentMachine
  import opened AgentInvariants
  import opened ClaimTheorems
  import opened SessionTheorems

  /** A confirm6 phase is running: its peer was created anew and has no handshake yet. */
  predicate Rekeying(c: Cell) {
    c.st.Some? && c.st.value.mode == Confirm6 && c.st.value.running
  }

  /** An installed route that the monitor looks after. */
  predicate Covered(c: Cell) {
    Routed(c.peer) && c.st.Some? && !Rekeying(c)
  }

  /** A covered route has no handshake before `floor`. */
  predicate RouteSince(c: Cell, floor: real) {
    Covered(c) ==> Latest(c.peer) >= floor
  }

  /** The age that a complete monitor pass leaves behind, and some slack. */
  function Floor(w: World, slack: real): real {
    w.lastPass - DIRECT_MAX_AGE - slack
  }

  /**
   * An offer makes a covered route of one that was not covered: it finds an orphaned or rekeyed route
   * fresh by its own time stamp, or its remove command fails.
   */
  predicate TakesOver(c: Cell, o: Offer, now: real, wgOk: bool)
    requires c.peer.Some?
  {
    var listed := EndpointListed(o.candidates, c.peer.value.endpoint);
    && o.candidates != [] && !IsStale(c, o) && !ChangesStart(c, o)
    && if c.st.None? then (Fresh(c.peer, now) && listed) || !wgOk
       else if InstanceChanged(c, o) then !wgOk
       else if Fresh(c.peer, now) then c.st.value.signature == Signature(o.candidates) || listed || !wgOk
       else !wgOk && (c.st.value.sessionId != o.sessionId || c.st.value.signature != Signature(o.candidates))
  }

  /**
   * The step leaves a route of `k` whose handshake is too old: a worker that still holds its claim
   * programs it late, the end of a rekey fails to remove it, or an offer takes it over.
   */
  predicate Late(w: World, e: Event, k: Key, slack: real) {
    var c := At(w.store, k);
    && Latest(c.peer) < Floor(w, slack)
    && match e
       case ProbeWork(g, act) =>
         && g in w.jobs && w.jobs[g].key == k && w.jobs[g].probe.Seen?
         && act.Go? && act.wg.programmed && Claimed(c, g)
       case ConfirmWork(g, act) =>
         && g in w.jobs && w.jobs[g].key == k && ClaimedIn(c, g, Confirm6) && act.Go?
         && ( || (w.jobs[g].confirm.Answered? && act.wg.programmed)
              || ((w.jobs[g].confirm.TimedOut? || w.jobs[g].confirm.Ending?) && !act.wg.removed))
       case OfferIn(j, o, now, wgOk) =>
         j == k && Routed(c.peer) && !Covered(c) && TakesOver(c, o, now, wgOk)
       case _ => false
  }

  /** The route of `k` is as fresh as the last complete pass makes it. */
  predicate FreshFor(w: World, k: Key, slack: real) {
    RouteSince(At(w.store, k), Floor(w, slack))
  }

  // ---------------------------------------------------------------- regions

  lemma SignatureIsSomething(cs: seq<Candidate>)
    requires cs != []
    ensures Signature(cs) != ""
  {
    assert Name(cs[0].kind) != "";
  }

  /** An offer leaves a route that is too old exactly if it takes it over. */
  lemma OfferRoute(c: Cell, o: Offer, now: real, wgOk: bool, floor: real)
    requires CellInv(c) && RouteSince(c, floor)
    ensures RouteSince(HandleOffer(c, o, now, wgOk).cell, floor)
            <==> !(Routed(c.peer) && Latest(c.peer) < floor && !Covered(c) && TakesOver(c, o, now, wgOk))
  {
    if o.candidates != [] && !IsStale(c, o) && !ChangesStart(c, o) {
      SignatureIsSomething(o.candidates);
      var based := Rebase(c, o, now, wgOk);
      if !based.aborted {
        SteerRoute(based.cell.(st := Some(Header(based.cell.st.value, o, now))), o, now, wgOk, floor);
      }
    }
  }

  /** From the signature test on. */
  lemma SteerRoute(c: Cell, o: Offer, now: real, wgOk: bool, floor: real)
    requires c.st.Some?
    ensures RouteSince(Steer(c, o, now, wgOk).cell, floor)
            <==> !(Routed(c.peer) && Latest(c.peer) < floor
                   && if Fresh(c.peer, now)
                      then c.st.value.signature == Signature(o.candidates) || !wgOk
                           || EndpointListed(o.candidates, c.peer.value.endpoint)
                      else !wgOk && (!Rekeying(c) || c.st.value.signature != Signature(o.candidates)))
  {
  }

  lemma RemoveRoute(c: Cell, m: Removal, now: real, wgOk: bool, floor: real)
    requires RouteSince(c, floor) && floor <= now - DIRECT_MAX_AGE
    ensures RouteSince(HandleRemove(c, m, now, wgOk).cell, floor)
  {
  }

  /** The monitor keeps a bound, and after it has come past a key the bound is its own time stamp. */
  lemma MonitorRouteAge(c: Cell, now: real, wgOk: bool, floor: real)
    requires CellInv(c) && c.st.Some? && floor <= now - DIRECT_MAX_AGE
    ensures var r := MonitorKey(c, now, wgOk);
            && (RouteSince(c, floor) ==> RouteSince(r.cell, floor))
            && (!r.aborted ==> RouteSince(r.cell, now - DIRECT_MAX_AGE))
  {
  }

  /** A pass keeps a bound for every key; a complete one makes its time stamp the bound. */
  lemma {:induction false} PassRoute(s: Store, order: seq<Key>, now: real, fails: set<Key>, k: Key, floor: real)
    requires CellsOk(s) && floor <= now - DIRECT_MAX_AGE
    requires forall i, j :: 0 <= i < j < |order| ==> order[i] != order[j]
    ensures var p := MonitorPass(s, order, now, fails);
            && (RouteSince(At(s, k), floor) ==> RouteSince(At(p.store, k), floor))
            && (k in order && !p.aborted ==> RouteSince(At(p.store, k), now - DIRECT_MAX_AGE))
    decreases |order|
  {
    if order == [] {
    } else if order[0] !in s.states {
      PassRoute(s, order[1..], now, fails, k, floor);
      if order[0] == k { PassFrame(s, order[1..], now, fails, k); }
    } else {
      var c := At(s, order[0]);
      assert CellInv(c);
      var r := MonitorKey(c, now, order[0] !in fails);
      MonitorRegion(c, now, order[0] !in fails);
      PutKeepsCells(s, order[0], r.cell);
      PutAt(s, order[0], r.cell, k);
      var s1 := Put(s, order[0], r.cell);
      if order[0] == k { MonitorRouteAge(c, now, order[0] !in fails, floor); }
      if !r.aborted {
        if order[0] == k {
          PassFrame(s1, order[1..], now, fails, k);
        } else {
          PassRoute(s1, order[1..], now, fails, k, floor);
        }
      }
    }
  }

  lemma {:induction false} CleanupRoute(s: Store, order: seq<Key>, active: set<Key>, fails: set<Key>, k: Key, floor: real)
    requires RouteSince(At(s, k), floor)
    ensures RouteSince(At(CleanupPass(s, order, active, fails), k), floor)
    decreases |order|
  {
    if order == [] {
    } else if order[0] in s.states && s.states[order[0]].controller == Initiator && order[0] !in active {
      var d := CleanupKey(At(s, order[0]), order[0] !in fails);
      PutAt(s, order[0], d, k);
      CleanupRoute(Put(s, order[0], d), order[1..], active, fails, k, floor);
    } else {
      CleanupRoute(s, order[1..], active, fails, k, floor);
    }
  }

  /** A probe leaves a route that is too old exactly by programming it late. */
  lemma ProbeRoute(c: Cell, g: nat, j: Job, act: Act, now: real, floor: real)
    requires CellInv(c) && JobInv(c, g, j) && RouteSince(c, floor)
    ensures RouteSince(ProbeStep(c, g, j, act, now).cell, floor)
            <==> !(Latest(c.peer) < floor && j.probe.Seen? && act.Go? && act.wg.programmed && Claimed(c, g))
  {
  }

  /** A rekey leaves one exactly by finalizing it late or by failing to remove it. */
  lemma RekeyRoute(c: Cell, g: nat, j: Job, act: Act, now: real, floor: real)
    requires CellInv(c) && JobInv(c, g, j) && RouteSince(c, floor)
    ensures RouteSince(ConfirmStep(c, g, j, act, now).cell, floor)
            <==> !(Latest(c.peer) < floor && ClaimedIn(c, g, Confirm6) && act.Go?
                   && ( || (j.confirm.Answered? && act.wg.programmed)
                        || ((j.confirm.TimedOut? || j.confirm.Ending?) && !act.wg.removed)))
  {
  }

  // ---------------------------------------------------------------- steps

  /** This pass looks after every key. */
  predicate CompletePass(w: World, e: Event) {
    e.Monitor? && !MonitorPass(w.store, e.order, e.now, e.fails).aborted
  }

  /** A complete pass makes every covered route fresh, whatever failed before it. */
  lemma CompletePassRefreshes(w: World, e: Event, k: Key, slack: real)
    requires Safe(w) && Enabled(w, e) && CompletePass(w, e) && 0.0 <= slack
    ensures FreshFor(Next(w, e), k, slack)
  {
    PassRoute(w.store, e.order, e.now, e.fails, k, e.now - DIRECT_MAX_AGE);
    if k !in e.order { PassFrame(w.store, e.order, e.now, e.fails, k); }
  }

  lemma WorkerStepFresh(w: World, e: Event, k: Key, slack: real)
    requires Safe(w) && Enabled(w, e) && FreshFor(w, k, slack) && (e.ProbeWork? || e.ConfirmWork?)
    ensures FreshFor(Next(w, e), k, slack) <==> !Late(w, e, k, slack)
  {
    var j := w.jobs[e.g];
    var c := At(w.store, j.key);
    assert CellInv(c) && JobInv(c, e.g, j);
    if e.ProbeWork? {
      ProbeStepKeeps(c, e.g, j, e.act, w.clock);
      PutAt(w.store, j.key, Worked(w, e.g, e.act).cell, k);
      if j.key == k { ProbeRoute(c, e.g, j, e.act, w.clock, Floor(w, slack)); }
    } else {
      ConfirmStepKeeps(c, e.g, j, e.act, w.clock);
      PutAt(w.store, j.key, Rekeyed(w, e.g, e.act).cell, k);
      if j.key == k { RekeyRoute(c, e.g, j, e.act, w.clock, Floor(w, slack)); }
    }
  }

  /** One step: a fresh route stays fresh exactly unless the step is late for its key. */
  lemma StepFresh(w: World, e: Event, k: Key, slack: real)
    requires Safe(w) && Enabled(w, e) && FreshFor(w, k, slack) && 0.0 <= slack && w.lastPass <= w.clock
    ensures FreshFor(Next(w, e), k, slack) <==> !Late(w, e, k, slack)
    ensures Next(w, e).lastPass <= Next(w, e).clock
  {
    var c, floor := At(w.store, k), Floor(w, slack);
    assert CellInv(c);
    match e
    case OfferIn(j, o, now, wgOk) =>
      if j == k { OfferRoute(c, o, now, wgOk, floor); }
      PutAt(w.store, j, HandleOffer(At(w.store, j), o, now, wgOk).cell, k);
    case RemoveIn(j, m, wgOk) =>
      if j == k { RemoveRoute(c, m, w.clock, wgOk, floor); }
      PutAt(w.store, j, HandleRemove(At(w.store, j), m, w.clock, wgOk).cell, k);
    case Monitor(order, now, fails) =>
      if CompletePass(w, e) {
        CompletePassRefreshes(w, e, k, slack);
      } else {
        PassRoute(w.store, order, now, fails, k, floor);
      }
    case Cleanup(order, active, fails) => CleanupRoute(w.store, order, active, fails, k, floor);
    case ProbeWork(_, _) => WorkerStepFresh(w, e, k, slack);
    case ConfirmWork(_, _) => WorkerStepFresh(w, e, k, slack);
    case _ =>
  }

  // ---------------------------------------------------------------- runs

  predicate LateSomewhere(w: World, run: seq<Event>, k: Key, slack: real)
    requires Possible(w, run)
    decreases |run|
  {
    run != [] && (Late(w, run[0], k, slack) || LateSomewhere(Next(w, run[0]), run[1..], k, slack))
  }

  /** At every point of the run, the route of `k` is no older than the last complete pass allows. */
  predicate AlwaysFresh(w: World, run: seq<Event>, k: Key, slack: real)
    requires Possible(w, run)
    decreases |run|
  {
    FreshFor(w, k, slack) && (run == [] || AlwaysFresh(Next(w, run[0]), run[1..], k, slack))
  }

  lemma {:induction false} FreshUnlessLate(w: World, run: seq<Event>, k: Key, slack: real)
    requires 0.0 <= slack && Safe(w) && w.lastPass <= w.clock && FreshFor(w, k, slack) && Possible(w, run)
    ensures AlwaysFresh(w, run, k, slack) <==> !LateSomewhere(w, run, k, slack)
    decreases |run|
  {
    if run != [] {
      StepFresh(w, run[0], k, slack);
      NextKeeps(w, run[0]);
      if Late(w, run[0], k, slack) {
        assert !AlwaysFresh(Next(w, run[0]), run[1..], k, slack);
      } else {
        FreshUnlessLate(Next(w, run[0]), run[1..], k, slack);
      }
    }
  }

  /**
   * From the start of the agent, the route of a key that has a state and is not being rekeyed is never
   * older than the last complete pass allows, exactly if no step is late for this key.
   */
  lemma StaleExactlyByLateSteps(w: World, run: seq<Event>, k: Key, slack: real)
    requires Initial(w) && Possible(w, run) && 0.0 <= slack
    ensures AlwaysFresh(w, run, k, slack) <==> !LateSomewhere(w, run, k, slack)
  {
    InitialIsSafe(w);
    FreshUnlessLate(w, run, k, slack);
  }

  /** A step was late for `k` and no complete pass has come since; `late` is the answer at the start. */
  predicate LateSincePass(w: World, run: seq<Event>, k: Key, slack: real, late: bool)
    requires Possible(w, run)
    decreases |run|
  {
    if run == [] then late
    else LateSincePass(Next(w, run[0]), run[1..], k, slack,
                       !CompletePass(w, run[0]) && (late || Late(w, run[0], k, slack)))
  }

  lemma {:induction false} FreshSincePass(w: World, run: seq<Event>, k: Key, slack: real, late: bool)
    requires 0.0 <= slack && Safe(w) && w.lastPass <= w.clock && Possible(w, run)
    requires (late || FreshFor(w, k, slack)) && !LateSincePass(w, run, k, slack, late)
    ensures FreshFor(After(w, run), k, slack)
    decreases |run|
  {
    if run != [] {
      var e := run[0];
      NextKeeps(w, e);
      LastPassStays(w, e);
      if CompletePass(w, e) {
        CompletePassRefreshes(w, e, k, slack);
      } else if !late {
        StepFresh(w, e, k, slack);
      }
      FreshSincePass(Next(w, e), run[1..], k, slack, !CompletePass(w, e) && (late || Late(w, e, k, slack)));
    }
  }

  lemma LastPassStays(w: World, e: Event)
    requires Enabled(w, e) && w.lastPass <= w.clock
    ensures Next(w, e).lastPass <= Next(w, e).clock
  {
  }

  /**
   * Whenever the last complete monitor pass is at most `d` seconds back, the /32 of every key that has a
   * state and is not being rekeyed rests on a handshake at most 180 + slack + d old, unless a step was
   * late for this key since that pass.  What failed before that pass does not matter.
   */
  lemma DirectIsNeverStale(w: World, run: seq<Event>, slack: real, d: real, k: Key)
    requires Initial(w) && Possible(w, run) && 0.0 <= slack && !LateSincePass(w, run, k, slack, false)
    requires After(w, run).clock <= After(w, run).lastPass + d && Covered(At(After(w, run).store, k))
    ensures After(w, run).clock - Latest(At(After(w, run).store, k).peer) <= 180.0 + slack + d
  {
    InitialIsSafe(w);
    FreshSincePass(w, run, k, slack, false);
  }

  // ---------------------------------------------------------------- orphans

  /** A route without a state. */
  predicate Orphaned(c: Cell) {
    Routed(c.peer) && c.st.None?
  }

  /** The cleanup gets to the state of `k` and fails to remove its peer. */
  predicate Abandons(w: World, e: Event, k: Key) {
    && e.Cleanup? && k in w.store.states && w.store.states[k].controller == Initiator
    && k !in e.active && k in e.fails
  }

  lemma {:induction false} PassOrphansNothing(s: Store, order: seq<Key>, now: real, fails: set<Key>, k: Key)
    requires CellsOk(s) && !Orphaned(At(s, k))
    ensures !Orphaned(At(MonitorPass(s, order, now, fails).store, k))
    decreases |order|
  {
    if order == [] {
    } else if order[0] !in s.states {
      PassOrphansNothing(s, order[1..], now, fails, k);
    } else {
      var c := At(s, order[0]);
      assert CellInv(c);
      var r := MonitorKey(c, now, order[0] !in fails);
      MonitorRegion(c, now, order[0] !in fails);
      PutKeepsCells(s, order[0], r.cell);
      PutAt(s, order[0], r.cell, k);
      if !r.aborted { PassOrphansNothing(Put(s, order[0], r.cell), order[1..], now, fails, k); }
    }
  }

  lemma {:induction false} CleanupOrphans(s: Store, order: seq<Key>, active: set<Key>, fails: set<Key>, k: Key)
    requires !Orphaned(At(s, k)) && (forall i, j :: 0 <= i < j < |order| ==> order[i] != order[j])
    ensures Orphaned(At(CleanupPass(s, order, active, fails), k))
            <==> Routed(At(s, k).peer) && k in s.states && s.states[k].controller == Initiator
                 && k in order && k !in active && k in fails
    decreases |order|
  {
    if order == [] {
    } else if order[0] in s.states && s.states[order[0]].controller == Initiator && order[0] !in active {
      var d := CleanupKey(At(s, order[0]), order[0] !in fails);
      PutAt(s, order[0], d, k);
      if order[0] == k {
        CleanupSkips(Put(s, k, d), order[1..], active, fails, k);
      } else {
        CleanupOrphans(Put(s, order[0], d), order[1..], active, fails, k);
      }
    } else {
      CleanupOrphans(s, order[1..], active, fails, k);
    }
  }

  lemma {:induction false} CleanupSkips(s: Store, order: seq<Key>, active: set<Key>, fails: set<Key>, k: Key)
    requires k !in order
    ensures var d := At(CleanupPass(s, order, active, fails), k); d.st == At(s, k).st && d.peer == At(s, k).peer
    decreases |order|
  {
    if order == [] {
    } else if order[0] in s.states && s.states[order[0]].controller == Initiator && order[0] !in active {
      var d := CleanupKey(At(s, order[0]), order[0] !in fails);
      PutAt(s, order[0], d, k);
      CleanupSkips(Put(s, order[0], d), order[1..], active, fails, k);
    } else {
      CleanupSkips(s, order[1..], active, fails, k);
    }
  }

  /** A route is orphaned in exactly one way: the cleanup of initiator states fails to remove it. */
  lemma OrphansComeFromCleanup(w: World, e: Event, k: Key)
    requires Safe(w) && Enabled(w, e) && !Orphaned(At(w.store, k))
    ensures Orphaned(At(Next(w, e).store, k)) <==> Routed(At(w.store, k).peer) && Abandons(w, e, k)
  {
    var c := At(w.store, k);
    assert CellInv(c);
    match e
    case OfferIn(j, o, now, wgOk) =>
      OfferKeepsState(At(w.store, j), o, now, wgOk);
      OfferRegion(At(w.store, k), o, now, wgOk);
      PutAt(w.store, j, HandleOffer(At(w.store, j), o, now, wgOk).cell, k);
    case RemoveIn(j, m, wgOk) => PutAt(w.store, j, HandleRemove(At(w.store, j), m, w.clock, wgOk).cell, k);
    case Monitor(order, now, fails) => PassOrphansNothing(w.store, order, now, fails, k);
    case Cleanup(order, active, fails) => CleanupOrphans(w.store, order, active, fails, k);
    case ProbeWork(_, _) => WorkersOrphanNothing(w, e, k);
    case ConfirmWork(_, _) => WorkersOrphanNothing(w, e, k);
    case _ =>
  }

  lemma OfferKeepsState(c: Cell, o: Offer, now: real, wgOk: bool)
    ensures c.st.Some? ==> HandleOffer(c, o, now, wgOk).cell.st.Some?
    ensures HandleOffer(c, o, now, wgOk).cell.st.None? ==> HandleOffer(c, o, now, wgOk).cell == c
  {
    if o.candidates != [] && !IsStale(c, o) && !ChangesStart(c, o) {
      var based := Rebase(c, o, now, wgOk);
      if !based.aborted {
        SteerKeepsControl(based.cell.(st := Some(Header(based.cell.st.value, o, now))), o, now, wgOk);
      }
    }
  }

  lemma WorkersOrphanNothing(w: World, e: Event, k: Key)
    requires Safe(w) && Enabled(w, e) && !Orphaned(At(w.store, k)) && (e.ProbeWork? || e.ConfirmWork?)
    ensures !Orphaned(At(Next(w, e).store, k))
  {
    var j := w.jobs[e.g];
    var c := At(w.store, j.key);
    assert CellInv(c) && JobInv(c, e.g, j);
    if e.ProbeWork? {
      ProbeStepKeeps(c, e.g, j, e.act, w.clock);
      PutAt(w.store, j.key, Worked(w, e.g, e.act).cell, k);
    } else {
      ConfirmStepKeeps(c, e.g, j, e.act, w.clock);
      PutAt(w.store, j.key, Rekeyed(w, e.g, e.act).cell, k);
    }
  }

  /** No pass, complete or not, ever looks at an orphaned route: its age is unbounded. */
  lemma OrphansAreNeverVisited(w: World, e: Event, k: Key)
    requires Safe(w) && Enabled(w, e) && e.Monitor? && Orphaned(At(w.store, k))
    ensures Orphaned(At(Next(w, e).store, k)) && At(Next(w, e).store, k).peer == At(w.store, k).peer
  {
    PassFrame(w.store, e.order, e.now, e.fails, k);
  }
}
