/** What offers do to a peer, and which session wins. */
module SessionTheorems {
  import opened Basics
  import opened Candidates
  import opened PeerRegions
  import opened PeerInvariants
  import opened AgentMachine
  import opened AgentInvariants
  import opened ClaimTheorems

  // ---------------------------------------------------------------- three situations

  predicate HealthyDirect(c: Cell, now: real) {
    c.st.Some? && c.st.value.mode == Direct && Healthy(c.peer, now) && !c.st.value.running
      && c.st.value.endpoint == c.peer.value.endpoint
  }

  predicate Probing(c: Cell) {
    c.st.Some? && c.st.value.mode == Probe && c.st.value.running && !Routed(c.peer)
  }

  predicate BackingOff(c: Cell, now: real) {
    c.st.Some? && !c.st.value.running && now < c.st.value.retryAfter && !Routed(c.peer)
      && (c.st.value.mode == Idle || c.st.value.mode == Probe)
  }

  /** The claim of `d` is the claim that `c` had. */
  predicate SameClaim(c: Cell, d: Cell) {
    c.st.Some? && d.st.Some? && c.st.value.running && c.st.value.generation == d.st.value.generation
  }

  /** What Settle sees: every decision of an offer goes through it. */
  lemma SteerOutcome(c: Cell, o: Offer, now: real, wgOk: bool)
    requires CellInv(c) && c.st.Some?
    ensures var r := Steer(c, o, now, wgOk);
            r.outcome.Accepted? ==>
              && (r.outcome.launch ==> Probing(r.cell) && c.gen < r.cell.st.value.generation)
              && (!r.outcome.launch ==>
                    || HealthyDirect(r.cell, now)
                    || (Probing(r.cell) && SameClaim(c, r.cell))
                    || BackingOff(r.cell, now))
  {
  }

  /**
   * An accepted offer leaves the peer in exactly one of three situations, whatever it was before, and
   * starts a worker exactly when it leaves a probe claim that was not there before.
   */
  lemma OfferSituations(c: Cell, o: Offer, now: real, wgOk: bool)
    requires CellInv(c) && HandleOffer(c, o, now, wgOk).outcome.Accepted?
    ensures var r := HandleOffer(c, o, now, wgOk);
            && (HealthyDirect(r.cell, now) || Probing(r.cell) || BackingOff(r.cell, now))
            && !(HealthyDirect(r.cell, now) && Probing(r.cell))
            && !(HealthyDirect(r.cell, now) && BackingOff(r.cell, now))
            && !(Probing(r.cell) && BackingOff(r.cell, now))
            && (r.outcome.launch <==> Probing(r.cell) && !SameClaim(c, r.cell))
  {
    var based := Rebase(c, o, now, wgOk);
    RebaseRegion(c, o, now, wgOk);
    var headed := based.cell.(st := Some(Header(based.cell.st.value, o, now)));
    ExternalTransitive(c, based.cell, headed, false);
    SteerOutcome(headed, o, now, wgOk);
  }

  // ---------------------------------------------------------------- sessions

  datatype Session = Session(id: string, started: nat)

  function SessionOf(c: Cell): Option<Session> {
    if c.st.None? then None else Some(Session(c.st.value.sessionId, c.st.value.started))
  }

  /** The session after an offer that meets no failing command. */
  function Newer(cur: Option<Session>, o: Offer): Session {
    if cur.Some? && cur.value.started != 0 && o.started <= cur.value.started then cur.value
    else Session(o.sessionId, o.started)
  }

  /** The state stays, and with it everything that control decisions read. */
  predicate KeepsControl(c: Cell, d: Cell) {
    && (d.st.Some? <==> c.st.Some?)
    && (c.st.Some? ==>
          && SessionOf(d) == SessionOf(c) && d.st.value.controller == c.st.value.controller
          && d.st.value.controlExpired == c.st.value.controlExpired && d.st.value.lease == c.st.value.lease)
  }

  lemma SteerKeepsControl(c: Cell, o: Offer, now: real, wgOk: bool)
    requires c.st.Some?
    ensures KeepsControl(c, Steer(c, o, now, wgOk).cell)
  {
  }

  lemma OfferSession(c: Cell, o: Offer, now: real, wgOk: bool)
    requires o.started > 0
    ensures var d := HandleOffer(c, o, now, wgOk).cell;
            && (SessionOf(d) == SessionOf(c)
                || (SessionOf(d) == Some(Session(o.sessionId, o.started)) && Newer(SessionOf(c), o).started == o.started))
            && (wgOk && o.candidates != [] && !ChangesStart(c, o) ==> SessionOf(d) == Some(Newer(SessionOf(c), o)))
  {
    if o.candidates != [] && !IsStale(c, o) && !ChangesStart(c, o) {
      var based := Rebase(c, o, now, wgOk);
      if !based.aborted {
        SteerKeepsControl(based.cell.(st := Some(Header(based.cell.st.value, o, now))), o, now, wgOk);
      }
    }
  }

  /** `d` has no state or the session, the controller and the lease of `c`; a lease may also be cleared. */
  predicate Inherits(c: Cell, d: Cell) {
    d.st.Some? ==>
      && SessionOf(d) == SessionOf(c) && d.st.value.controller == c.st.value.controller
      && (d.st.value.lease == c.st.value.lease || d.st.value.lease == 0.0)
  }

  lemma {:induction false} PassSession(s: Store, order: seq<Key>, now: real, fails: set<Key>, k: Key)
    ensures Inherits(At(s, k), At(MonitorPass(s, order, now, fails).store, k))
    decreases |order|
  {
    if order == [] {
    } else if order[0] !in s.states {
      PassSession(s, order[1..], now, fails, k);
    } else {
      var r := MonitorKey(At(s, order[0]), now, order[0] !in fails);
      assert Inherits(At(s, order[0]), r.cell);
      PutAt(s, order[0], r.cell, k);
      if !r.aborted { PassSession(Put(s, order[0], r.cell), order[1..], now, fails, k); }
    }
  }

  lemma {:induction false} CleanupSession(s: Store, order: seq<Key>, active: set<Key>, fails: set<Key>, k: Key)
    ensures Inherits(At(s, k), At(CleanupPass(s, order, active, fails), k))
    decreases |order|
  {
    if order == [] {
    } else if order[0] in s.states && s.states[order[0]].controller == Initiator && order[0] !in active {
      var d := CleanupKey(At(s, order[0]), order[0] !in fails);
      PutAt(s, order[0], d, k);
      CleanupSession(Put(s, order[0], d), order[1..], active, fails, k);
    } else {
      CleanupSession(s, order[1..], active, fails, k);
    }
  }

  lemma WorkKeepsControl(w: World, g: nat, r: JobResult, k: Key)
    requires KeepsControl(At(w.store, r.job.key), r.cell)
    ensures KeepsControl(At(w.store, k), At(PutJob(w, g, r).store, k))
  {
  }

  lemma ProbeKeepsControl(c: Cell, g: nat, j: Job, act: Act, now: real)
    ensures KeepsControl(c, ProbeStep(c, g, j, act, now).cell)
  {
  }

  lemma RekeyKeepsControl(c: Cell, g: nat, j: Job, act: Act, now: real)
    ensures KeepsControl(c, ConfirmStep(c, g, j, act, now).cell)
  {
  }

  lemma WorkersKeepControl(w: World, e: Event, k: Key)
    requires Enabled(w, e) && (e.ProbeWork? || e.ConfirmWork?)
    ensures KeepsControl(At(w.store, k), At(Next(w, e).store, k))
  {
    var j := w.jobs[e.g];
    var c := At(w.store, j.key);
    if e.ProbeWork? {
      ProbeKeepsControl(c, e.g, j, e.act, w.clock);
      assert Worked(w, e.g, e.act).job.key == j.key;
      WorkKeepsControl(w, e.g, Worked(w, e.g, e.act), k);
    } else {
      RekeyKeepsControl(c, e.g, j, e.act, w.clock);
      assert Rekeyed(w, e.g, e.act).job.key == j.key;
      WorkKeepsControl(w, e.g, Rekeyed(w, e.g, e.act), k);
    }
  }

  /** Only an offer for the key changes its session; every other step keeps it or drops the state. */
  lemma StepSession(w: World, e: Event, k: Key)
    requires Enabled(w, e) && !(e.OfferIn? && e.k == k)
    ensures Inherits(At(w.store, k), At(Next(w, e).store, k))
  {
    match e
    case OfferIn(j, o, now, wgOk) => PutAt(w.store, j, HandleOffer(At(w.store, j), o, now, wgOk).cell, k);
    case RemoveIn(j, m, wgOk) => PutAt(w.store, j, HandleRemove(At(w.store, j), m, w.clock, wgOk).cell, k);
    case Monitor(order, now, fails) => PassSession(w.store, order, now, fails, k);
    case Cleanup(order, active, fails) => CleanupSession(w.store, order, active, fails, k);
    case ProbeWork(_, _) => WorkersKeepControl(w, e, k);
    case ConfirmWork(_, _) => WorkersKeepControl(w, e, k);
    case _ =>
  }

  /** The state of `k` survives every step of the run. */
  predicate Survives(w: World, run: seq<Event>, k: Key)
    requires Possible(w, run)
    decreases |run|
  {
    run == [] || ((k in w.store.states ==> k in Next(w, run[0]).store.states) && Survives(Next(w, run[0]), run[1..], k))
  }

  /** While an entry lives, its start time never decreases, whatever is delivered or fails. */
  lemma {:induction false} StartNeverDecreases(w: World, run: seq<Event>, k: Key)
    requires Possible(w, run) && Survives(w, run, k) && k in w.store.states
    ensures k in After(w, run).store.states
    ensures w.store.states[k].started <= After(w, run).store.states[k].started
    decreases |run|
  {
    if run != [] {
      var w', e := Next(w, run[0]), run[0];
      assert At(w'.store, k).st == Some(w'.store.states[k]) && At(w.store, k).st == Some(w.store.states[k]);
      if e.OfferIn? && e.k == k {
        OfferSession(At(w.store, k), e.offer, e.now, e.wgOk);
        PutAt(w.store, k, HandleOffer(At(w.store, k), e.offer, e.now, e.wgOk).cell, k);
      } else {
        StepSession(w, e, k);
      }
      StartNeverDecreases(w', run[1..], k);
    }
  }

  // ---------------------------------------------------------------- confluence

  /** The sessions of the offers delivered for `k`, in order. */
  function Delivered(run: seq<Event>, k: Key): seq<Session> {
    if run == [] then []
    else (if run[0].OfferIn? && run[0].k == k then [Session(run[0].offer.sessionId, run[0].offer.started)] else [])
         + Delivered(run[1..], k)
  }

  /** Offers for `k` are valid and meet no failing command. */
  predicate CleanOffers(run: seq<Event>, k: Key) {
    forall i :: 0 <= i < |run| && run[i].OfferIn? && run[i].k == k ==> run[i].wgOk && run[i].offer.candidates != []
  }

  /** Session ids and start times correspond one to one. */
  predicate OneToOne(ss: set<Session>) {
    forall a, b :: a in ss && b in ss ==> (a.id == b.id <==> a.started == b.started)
  }

  predicate Positive(ss: set<Session>) {
    forall a :: a in ss ==> a.started > 0
  }

  function Elements(ss: seq<Session>): set<Session> {
    set a | a in ss
  }

  predicate IsNewest(a: Session, ss: set<Session>) {
    a in ss && forall b :: b in ss ==> b.started <= a.started
  }

  function Known(cur: Option<Session>): set<Session> {
    if cur.None? then {} else {cur.value}
  }

  function SessionAt(w: World, k: Key): Option<Session> {
    SessionOf(At(w.store, k))
  }

  /** One offer: the newest of what is known, delivered now or delivered later stays the newest. */
  lemma NewestAfterOffer(cur: Option<Session>, o: Offer, rest: set<Session>, a: Session)
    requires Positive(Known(cur)) && IsNewest(a, {Newer(cur, o)} + rest)
    ensures IsNewest(a, Known(cur) + ({Session(o.sessionId, o.started)} + rest))
  {
  }

  /** What is known after an offer is no more than what was known or delivered. */
  lemma OfferNarrows(cur: Option<Session>, o: Offer, rest: set<Session>)
    requires o.started > 0 && Positive(Known(cur))
    requires OneToOne(Known(cur) + ({Session(o.sessionId, o.started)} + rest))
    ensures OneToOne(Known(Some(Newer(cur, o))) + rest) && Positive(Known(Some(Newer(cur, o))))
    ensures OneToOne(Known(cur) + {Session(o.sessionId, o.started)})
  {
  }

  lemma OfferStep(w: World, e: Event, k: Key)
    requires Enabled(w, e) && e.OfferIn? && e.k == k && e.wgOk && e.offer.candidates != []
    requires OneToOne(Known(SessionAt(w, k)) + {Session(e.offer.sessionId, e.offer.started)})
    ensures SessionAt(Next(w, e), k) == Some(Newer(SessionAt(w, k), e.offer))
  {
    var c := At(w.store, k);
    OfferSession(c, e.offer, e.now, e.wgOk);
    PutAt(w.store, k, HandleOffer(c, e.offer, e.now, e.wgOk).cell, k);
  }

  lemma OtherStep(w: World, e: Event, k: Key)
    requires Enabled(w, e) && !(e.OfferIn? && e.k == k)
    requires k in w.store.states ==> k in Next(w, e).store.states
    ensures SessionAt(Next(w, e), k) == SessionAt(w, k)
  {
    StepSession(w, e, k);
  }

  lemma DeliveredCons(run: seq<Event>, k: Key)
    requires run != []
    ensures Elements(Delivered(run, k)) ==
            if run[0].OfferIn? && run[0].k == k
            then {Session(run[0].offer.sessionId, run[0].offer.started)} + Elements(Delivered(run[1..], k))
            else Elements(Delivered(run[1..], k))
  {
  }

  lemma {:induction false} NewestWins(w: World, run: seq<Event>, k: Key)
    requires Possible(w, run) && Survives(w, run, k) && CleanOffers(run, k)
    requires OneToOne(Known(SessionAt(w, k)) + Elements(Delivered(run, k)))
    requires Positive(Known(SessionAt(w, k)))
    requires k in w.store.states || Delivered(run, k) != []
    ensures k in After(w, run).store.states
    ensures IsNewest(SessionAt(After(w, run), k).value, Known(SessionAt(w, k)) + Elements(Delivered(run, k)))
    decreases |run|
  {
    if run != [] {
      var e, cur := run[0], SessionAt(w, k);
      var rest := Elements(Delivered(run[1..], k));
      DeliveredCons(run, k);
      if e.OfferIn? && e.k == k {
        OfferNarrows(cur, e.offer, rest);
        OfferStep(w, e, k);
        NewestWins(Next(w, e), run[1..], k);
        NewestAfterOffer(cur, e.offer, rest, SessionAt(After(w, run), k).value);
      } else {
        OtherStep(w, e, k);
        NewestWins(Next(w, e), run[1..], k);
      }
    }
  }

  /**
   * Two runs that deliver the same offers, in any order and with any other steps in between, end
   * with the same session as long as neither loses the state.
   */
  lemma DeliveryIsConfluent(w: World, run: seq<Event>, run': seq<Event>, k: Key)
    requires Possible(w, run) && Survives(w, run, k) && CleanOffers(run, k)
    requires Possible(w, run') && Survives(w, run', k) && CleanOffers(run', k)
    requires k !in w.store.states && Delivered(run, k) != []
    requires Elements(Delivered(run, k)) == Elements(Delivered(run', k)) && OneToOne(Elements(Delivered(run, k)))
    ensures SessionAt(After(w, run), k) == SessionAt(After(w, run'), k)
    ensures SessionAt(After(w, run), k).Some? && IsNewest(SessionAt(After(w, run), k).value, Elements(Delivered(run, k)))
  {
    var ss := Elements(Delivered(run, k));
    assert Delivered(run, k)[0] in ss;
    assert Delivered(run', k) != [];
    assert Known(SessionAt(w, k)) + ss == ss;
    NewestWins(w, run, k);
    NewestWins(w, run', k);
  }
}
