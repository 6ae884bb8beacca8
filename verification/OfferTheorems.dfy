/** What an offer does to a peer, told from the state before it, and which candidates a peer is probed with. */
module OfferTheorems {
  import opened Basics
  import opened Candidates
  import opened PeerRegions
  import opened PeerInvariants
  import opened AgentMachine
  import opened AgentInvariants
  import opened ClaimTheorems
  import opened PassTheorems

  // ---------------------------------------------------------------- one offer

  predicate OtherSession(c: Cell, o: Offer) {
    c.st.Some? && c.st.value.sessionId != o.sessionId
  }

  predicate OtherInstance(c: Cell, o: Offer) {
    c.st.Some? && o.instance != "" && c.st.value.instance != o.instance
  }

  /** The offer starts from a new state: first contact, another instance, or another session without a live path. */
  predicate StartsOver(c: Cell, o: Offer, now: real) {
    c.st.None? || OtherInstance(c, o) || (OtherSession(c, o) && !LivePath(c.peer, now))
  }

  /** What the peer is to be reached by has changed. */
  predicate ChangesTarget(c: Cell, o: Offer, now: real) {
    StartsOver(c, o, now) || c.st.value.signature != Signature(o.candidates)
  }

  predicate Lists(o: Offer, endpoint: string) {
    exists i :: 0 <= i < |o.candidates| && o.candidates[i].endpoint == endpoint
  }

  /** The peer entry has to go. */
  predicate DropsPeer(c: Cell, o: Offer, now: real) {
    && c.peer.Some?
    && ( || (c.st.Some? && StartsOver(c, o, now))
         || (ChangesTarget(c, o, now) && !(LivePath(c.peer, now) && Lists(o, c.peer.value.endpoint)))
         || (c.peer.value.routed && !LivePath(c.peer, now)))
  }

  /** Of the same session with another start, or of another session that is not newer. */
  predicate Delayed(c: Cell, o: Offer) {
    c.st.Some? && c.st.value.sessionId != o.sessionId && c.st.value.started != 0 && o.started <= c.st.value.started
  }

  predicate Contradicts(c: Cell, o: Offer) {
    c.st.Some? && c.st.value.sessionId == o.sessionId && c.st.value.started != 0 && o.started != c.st.value.started
  }

  lemma SignatureIsText(cs: seq<Candidate>)
    requires cs != []
    ensures Signature(cs) != ""
  {
    assert Name(cs[0].kind) != "";
  }

  // The second half of the region, from the signature on.

  predicate Retargets(c: Cell, o: Offer)
    requires c.st.Some?
  {
    c.st.value.signature != Signature(o.candidates)
  }

  predicate SteerDrops(c: Cell, o: Offer, now: real)
    requires c.st.Some?
  {
    && c.peer.Some?
    && ((Retargets(c, o) && !(LivePath(c.peer, now) && Lists(o, c.peer.value.endpoint))) || StalePath(c.peer, now))
  }

  /** What the peer is left with: a direct path, a new probe, or what it had. */
  predicate Leaves(c: Cell, o: Offer, now: real, resets: bool, d: Cell, launch: bool)
    requires c.st.Some? && d.st.Some?
  {
    var s, t := c.st.value, d.st.value;
    if d.peer.Some? && d.peer.value.routed then
      t.mode == Direct && t.endpoint == d.peer.value.endpoint && !t.running && !launch
    else
      && (launch <==> now >= t.retryAfter && (resets || !s.running))
      && t.endpoint == (if resets then "" else s.endpoint)
      && (if launch then t.mode == Probe && t.running && t.generation == d.gen
          else t.running == (!resets && s.running) && t.mode == (if resets then Idle else s.mode))
  }

  lemma RetargetExactly(c: Cell, o: Offer, now: real, wgOk: bool)
    requires c.st.Some?
    ensures var r, s := Retarget(c, o, now, wgOk), c.st.value;
            var drops := Retargets(c, o) && c.peer.Some? && !(LivePath(c.peer, now) && Lists(o, c.peer.value.endpoint));
            && (r.aborted <==> drops && !wgOk)
            && (!r.aborted ==>
                  && r.cell.peer == (if drops then None else c.peer)
                  && r.cell.st.value == s.(signature := Signature(o.candidates),
                       generation := r.cell.st.value.generation,
                       failures := if Retargets(c, o) then 0 else s.failures,
                       retryAfter := if Retargets(c, o) then 0.0 else s.retryAfter,
                       running := !Retargets(c, o) && s.running,
                       mode := r.cell.st.value.mode, endpoint := r.cell.st.value.endpoint)
                  && (if Retargets(c, o) then c.gen < r.cell.st.value.generation <= r.cell.gen else r.cell == c)
                  && (Retargets(c, o) && r.cell.peer.None? ==>
                        r.cell.st.value.mode == Idle && r.cell.st.value.endpoint == ""))
  {
  }

  lemma SettleExactly(c: Cell, now: real, wgOk: bool)
    requires c.st.Some?
    ensures var r, s := Settle(c, now, wgOk), c.st.value;
            && (r.aborted <==> StalePath(c.peer, now) && !wgOk)
            && (!r.aborted ==>
                  && r.cell.peer == (if StalePath(c.peer, now) then None else c.peer)
                  && (if LivePath(c.peer, now)
                      then r.cell == c.(st := Some(s.(mode := Direct, endpoint := c.peer.value.endpoint, running := false)))
                      else if StalePath(c.peer, now)
                      then r.cell.st.value == s.(generation := r.cell.gen, mode := Idle, endpoint := "",
                                                 retryAfter := 0.0, running := false) && r.cell.gen > c.gen
                      else r.cell == c))
  {
  }

  lemma SteerExactly(c: Cell, o: Offer, now: real, wgOk: bool)
    requires c.st.Some?
    ensures var r, s := Steer(c, o, now, wgOk), c.st.value;
            && (r.outcome.Aborted? <==> SteerDrops(c, o, now) && !wgOk)
            && (!r.outcome.Aborted? ==>
                  && r.outcome.Accepted? && r.cell.st.Some?
                  && r.cell.peer == (if SteerDrops(c, o, now) then None else c.peer)
                  && var t, resets := r.cell.st.value, Retargets(c, o) || StalePath(c.peer, now);
                  && t == s.(signature := Signature(o.candidates), generation := t.generation, running := t.running,
                             mode := t.mode, endpoint := t.endpoint,
                             failures := if Retargets(c, o) then 0 else s.failures,
                             retryAfter := if resets then 0.0 else s.retryAfter)
                  && Leaves(c, o, now, resets, r.cell, r.outcome.launch)
                  && (if resets || r.outcome.launch then c.gen < t.generation <= r.cell.gen
                      else t.generation == s.generation && r.cell.gen == c.gen))
  {
    var aimed := Retarget(c, o, now, wgOk);
    RetargetExactly(c, o, now, wgOk);
    if !aimed.aborted { SettleExactly(aimed.cell, now, wgOk); }
  }

  // The first half of the region, up to the header fields.

  lemma RebaseExactly(c: Cell, o: Offer, now: real, wgOk: bool)
    ensures var r, over := Rebase(c, o, now, wgOk), c.st.Some? && StartsOver(c, o, now);
            && (r.aborted <==> over && c.peer.Some? && !wgOk)
            && (!r.aborted ==>
                  && r.cell.peer == (if over then None else c.peer)
                  && (if StartsOver(c, o, now) then
                        && r.cell.st == Some(PeerState(o.controller, o.sessionId, o.started, o.instance, o.ip, Idle, "", [],
                                                       "", 0, 0.0, r.cell.gen, false, false, 0.0))
                        && r.cell.gen > c.gen
                      else if OtherSession(c, o) then
                        && r.cell.st.value
                           == c.st.value.(generation := r.cell.gen, running := false, mode := Direct,
                                          endpoint := c.peer.value.endpoint, failures := 0, retryAfter := 0.0)
                        && r.cell.gen > c.gen
                      else r.cell == c))
  {
  }

  lemma HeaderExactly(s: PeerState, o: Offer, now: real)
    ensures var t := Header(s, o, now);
            && t.candidates == o.candidates && t.ip == o.ip && t.controller == o.controller && !t.controlExpired
            && t.sessionId == o.sessionId && t.started == o.started
            && t.instance == (if o.instance != "" then o.instance else s.instance)
            && t == s.(candidates := t.candidates, ip := t.ip, controller := t.controller, sessionId := t.sessionId,
                       started := t.started, instance := t.instance, lease := t.lease, controlExpired := t.controlExpired)
  {
  }

  lemma ApplyExactly(c: Cell, o: Offer, now: real, wgOk: bool) returns (e: Cell)
    requires o.candidates != [] && !Delayed(c, o) && !Contradicts(c, o) && !Rebase(c, o, now, wgOk).aborted
    ensures var b := Rebase(c, o, now, wgOk).cell; e == b.(st := Some(Header(b.st.value, o, now)))
    ensures HandleOffer(c, o, now, wgOk) == Steer(e, o, now, wgOk)
  {
    var b := Rebase(c, o, now, wgOk);
    e := b.cell.(st := Some(Header(b.cell.st.value, o, now)));
  }

  /** The offer gets past the replacement of the state, and so to its fields. */
  predicate Reaches(c: Cell, o: Offer, now: real, wgOk: bool) {
    && o.candidates != [] && !Delayed(c, o) && !Contradicts(c, o)
    && !(c.st.Some? && StartsOver(c, o, now) && c.peer.Some? && !wgOk)
  }

  /** The fields that come from the offer. */
  predicate Records(s: PeerState, o: Offer) {
    && s.candidates == o.candidates && s.signature == Signature(o.candidates)
    && s.ip == o.ip && s.controller == o.controller && s.sessionId == o.sessionId && s.started == o.started
    && (o.instance != "" ==> s.instance == o.instance)
  }

  lemma SteerRecords(c: Cell, o: Offer, now: real, wgOk: bool)
    requires c.st.Some?
    ensures var d := Steer(c, o, now, wgOk).cell;
            && d.st.Some?
            && var s, t := c.st.value, d.st.value;
            && t.signature == Signature(o.candidates)
            && t.candidates == s.candidates && t.ip == s.ip && t.controller == s.controller
            && t.sessionId == s.sessionId && t.started == s.started && t.instance == s.instance
            && t.controlExpired == s.controlExpired
  {
    var aimed := Retarget(c, o, now, wgOk);
    assert aimed.aborted ==> aimed.cell.st.value.signature == Signature(o.candidates);
    RetargetExactly(c, o, now, wgOk);
    if !aimed.aborted { SettleExactly(aimed.cell, now, wgOk); }
  }

  /** What an offer that gets so far writes, whatever was there before, and whether or not a later command fails. */
  lemma OfferIsRecorded(c: Cell, o: Offer, now: real, wgOk: bool)
    requires Reaches(c, o, now, wgOk)
    ensures var d := HandleOffer(c, o, now, wgOk).cell;
            && d.st.Some? && Records(d.st.value, o) && !d.st.value.controlExpired
            && (o.instance == "" ==> d.st.value.instance == if StartsOver(c, o, now) then "" else c.st.value.instance)
  {
    RebaseExactly(c, o, now, wgOk);
    var e := ApplyExactly(c, o, now, wgOk);
    HeaderExactly(Rebase(c, o, now, wgOk).cell.st.value, o, now);
    SteerRecords(e, o, now, wgOk);
  }

  /** An offer that does not get so far leaves what was recorded. */
  lemma OfferIsNotRecorded(c: Cell, o: Offer, now: real, wgOk: bool)
    requires !Reaches(c, o, now, wgOk)
    ensures var d := HandleOffer(c, o, now, wgOk).cell;
            && (d.st.Some? <==> c.st.Some?)
            && (c.st.Some? ==> d.st.value == c.st.value.(generation := d.st.value.generation, running := d.st.value.running))
  {
    if o.candidates != [] && !Delayed(c, o) && !Contradicts(c, o) { RebaseExactly(c, o, now, wgOk); }
  }

  /** The state of a peer is started afresh by the offer, apart from a path that stays. */
  predicate Resets(c: Cell, o: Offer, now: real) {
    ChangesTarget(c, o, now) || StalePath(c.peer, now)
  }

  lemma RenewsExactly(c: Cell, o: Offer, now: real, wgOk: bool)
    requires o.candidates != [] && !Delayed(c, o) && !Contradicts(c, o)
    ensures HandleOffer(c, o, now, wgOk).outcome.Aborted? <==> DropsPeer(c, o, now) && !wgOk
    ensures HandleOffer(c, o, now, wgOk).outcome.Aborted? || HandleOffer(c, o, now, wgOk).outcome.Accepted?
  {
    SignatureIsText(o.candidates);
    RebaseExactly(c, o, now, wgOk);
    var b := Rebase(c, o, now, wgOk);
    if !b.aborted {
      HeaderExactly(b.cell.st.value, o, now);
      var e := ApplyExactly(c, o, now, wgOk);
      SteerExactly(e, o, now, wgOk);
    }
  }

  /** When an offer is refused, when a failing command ends it, and that it is accepted otherwise. */
  lemma OfferOutcome(c: Cell, o: Offer, now: real, wgOk: bool)
    ensures var r := HandleOffer(c, o, now, wgOk);
            if o.candidates == [] then r == OfferResult(c, Unavailable)
            else if Delayed(c, o) then r == OfferResult(c, Ignored)
            else if Contradicts(c, o) then r == OfferResult(c, StartChanged)
            else if DropsPeer(c, o, now) && !wgOk then r.outcome == Aborted
            else r.outcome.Accepted?
  {
    if o.candidates != [] && !Delayed(c, o) && !Contradicts(c, o) { RenewsExactly(c, o, now, wgOk); }
  }

  /**
   * What an accepted offer does to the path and to the claim.  The peer entry stays unless it has to go.  With
   * a live path the peer is direct and nothing is launched.  Without one a probe is launched exactly if none is
   * running, or the running one is out of date, and no back-off is pending that still counts.
   */
  lemma OfferActs(c: Cell, o: Offer, now: real, wgOk: bool)
    requires HandleOffer(c, o, now, wgOk).outcome.Accepted? && now >= 0.0
    ensures var r := HandleOffer(c, o, now, wgOk);
            && r.cell.st.Some?
            && r.cell.peer == (if DropsPeer(c, o, now) then None else c.peer)
            && var t, resets := r.cell.st.value, Resets(c, o, now);
            && (if r.cell.peer.Some? && r.cell.peer.value.routed then
                  && LivePath(c.peer, now) && t.mode == Direct && t.endpoint == c.peer.value.endpoint && !t.running
                  && !r.outcome.launch
                else
                  && (r.outcome.launch <==> resets || (!c.st.value.running && now >= c.st.value.retryAfter))
                  && (if r.outcome.launch then t.running && t.mode == Probe && t.generation == r.cell.gen
                      else t.running == c.st.value.running && t.mode == c.st.value.mode)
                  && t.endpoint == (if resets then "" else c.st.value.endpoint))
            && t.failures == (if ChangesTarget(c, o, now) || OtherSession(c, o) then 0 else c.st.value.failures)
            && t.retryAfter == (if resets || OtherSession(c, o) then 0.0 else c.st.value.retryAfter)
            && (if resets || OtherSession(c, o) || r.outcome.launch then c.gen < t.generation <= r.cell.gen
                else t.generation == c.st.value.generation && r.cell.gen == c.gen)
  {
    OfferOutcome(c, o, now, wgOk);
    SignatureIsText(o.candidates);
    RebaseExactly(c, o, now, wgOk);
    var e := ApplyExactly(c, o, now, wgOk);
    HeaderExactly(Rebase(c, o, now, wgOk).cell.st.value, o, now);
    SteerExactly(e, o, now, wgOk);
  }

  lemma ReplaceFails(c: Cell, o: Offer, now: real, wgOk: bool)
    requires Rebase(c, o, now, wgOk).aborted
    ensures var d := Rebase(c, o, now, wgOk).cell;
            && c.st.Some? && c.peer.Some? && d.peer == Some(c.peer.value.(stray := true)) && d.gen > c.gen
            && d.st == Some(c.st.value.(generation := d.gen, running := false))
  {
  }

  lemma RetargetFails(c: Cell, o: Offer, now: real, wgOk: bool)
    requires c.st.Some? && Retarget(c, o, now, wgOk).aborted
    ensures var d := Retarget(c, o, now, wgOk).cell;
            && c.peer.Some? && d.peer == Some(c.peer.value.(stray := true)) && d.gen > c.gen && Retargets(c, o)
            && d.st == Some(c.st.value.(signature := Signature(o.candidates), generation := d.gen, failures := 0,
                                        retryAfter := 0.0, running := false))
  {
  }

  lemma SettleFails(c: Cell, now: real, wgOk: bool)
    requires c.st.Some? && Settle(c, now, wgOk).aborted
    ensures c.peer.Some? && Settle(c, now, wgOk).cell == c.(peer := Some(c.peer.value.(stray := true)))
  {
  }

  /**
   * A failing command leaves the peer entry, with its route.  The claim is released under a new generation if
   * the offer brings another target, and kept otherwise.
   */
  lemma FailingOfferKeepsThePeer(c: Cell, o: Offer, now: real, wgOk: bool)
    requires HandleOffer(c, o, now, wgOk).outcome == Aborted
    ensures var d := HandleOffer(c, o, now, wgOk).cell;
            && c.peer.Some? && d.peer == Some(c.peer.value.(stray := true)) && d.st.Some?
            && (if ChangesTarget(c, o, now) then !d.st.value.running && d.st.value.generation == d.gen > c.gen
                else d.gen == c.gen && d.st.value.generation == c.st.value.generation
                     && d.st.value.running == c.st.value.running && d.st.value.mode == c.st.value.mode)
  {
    RebaseExactly(c, o, now, wgOk);
    var b := Rebase(c, o, now, wgOk);
    if b.aborted {
      ReplaceFails(c, o, now, wgOk);
    } else {
      SignatureIsText(o.candidates);
      HeaderExactly(b.cell.st.value, o, now);
      var e := ApplyExactly(c, o, now, wgOk);
      RetargetExactly(e, o, now, wgOk);
      if Retarget(e, o, now, wgOk).aborted {
        RetargetFails(e, o, now, wgOk);
      } else {
        SettleFails(Retarget(e, o, now, wgOk).cell, now, wgOk);
      }
    }
  }

  // ---------------------------------------------------------------- over runs

  /** The state, if it is still there, has the recorded fields of before. */
  predicate SameRecord(c: Cell, d: Cell) {
    d.st.Some? ==>
      && c.st.Some?
      && var s, t := c.st.value, d.st.value;
      t == s.(mode := t.mode, endpoint := t.endpoint, failures := t.failures, retryAfter := t.retryAfter,
              generation := t.generation, running := t.running, controlExpired := t.controlExpired, lease := t.lease)
  }

  lemma {:induction false} PassRecord(s: Store, order: seq<Key>, now: real, fails: set<Key>, k: Key)
    ensures SameRecord(At(s, k), At(MonitorPass(s, order, now, fails).store, k))
    decreases |order|
  {
    if order == [] {
    } else if order[0] !in s.states {
      PassRecord(s, order[1..], now, fails, k);
    } else {
      var r := MonitorKey(At(s, order[0]), now, order[0] !in fails);
      assert SameRecord(At(s, order[0]), r.cell);
      PutAt(s, order[0], r.cell, k);
      if !r.aborted { PassRecord(Put(s, order[0], r.cell), order[1..], now, fails, k); }
    }
  }

  lemma {:induction false} CleanupRecord(s: Store, order: seq<Key>, active: set<Key>, fails: set<Key>, k: Key)
    ensures SameRecord(At(s, k), At(CleanupPass(s, order, active, fails), k))
    decreases |order|
  {
    if order == [] {
    } else if order[0] in s.states && s.states[order[0]].controller == Initiator && order[0] !in active {
      var d := CleanupKey(At(s, order[0]), order[0] !in fails);
      PutAt(s, order[0], d, k);
      CleanupRecord(Put(s, order[0], d), order[1..], active, fails, k);
    } else {
      CleanupRecord(s, order[1..], active, fails, k);
    }
  }

  lemma ProbeRecord(c: Cell, g: nat, j: Job, act: Act, now: real)
    ensures SameRecord(c, ProbeStep(c, g, j, act, now).cell) && ProbeStep(c, g, j, act, now).job.key == j.key
  {
  }

  lemma ConfirmRecord(c: Cell, g: nat, j: Job, act: Act, now: real)
    ensures SameRecord(c, ConfirmStep(c, g, j, act, now).cell) && ConfirmStep(c, g, j, act, now).job.key == j.key
  {
  }

  /** Nothing but an offer for the key changes its recorded fields. */
  lemma StepRecord(w: World, e: Event, k: Key)
    requires Enabled(w, e) && !(e.OfferIn? && e.k == k)
    ensures SameRecord(At(w.store, k), At(Next(w, e).store, k))
  {
    match e
    case OfferIn(j, o, now, wgOk) => PutAt(w.store, j, HandleOffer(At(w.store, j), o, now, wgOk).cell, k);
    case RemoveIn(j, m, wgOk) => PutAt(w.store, j, HandleRemove(At(w.store, j), m, w.clock, wgOk).cell, k);
    case Monitor(order, now, fails) => PassRecord(w.store, order, now, fails, k);
    case Cleanup(order, active, fails) => CleanupRecord(w.store, order, active, fails, k);
    case ProbeWork(g, act) =>
      var j := w.jobs[g];
      ProbeRecord(At(w.store, j.key), g, j, act, w.clock);
      PutAt(w.store, j.key, Worked(w, g, act).cell, k);
    case ConfirmWork(g, act) =>
      var j := w.jobs[g];
      ConfirmRecord(At(w.store, j.key), g, j, act, w.clock);
      PutAt(w.store, j.key, Rekeyed(w, g, act).cell, k);
    case _ =>
  }

  /** The last offer that was recorded for the state of `k`, given the one that was when the run began. */
  function LastOffer(w: World, run: seq<Event>, k: Key, last: Option<Offer>): Option<Offer>
    requires Possible(w, run)
    decreases |run|
  {
    if run == [] then last
    else
      var e, w' := run[0], Next(w, run[0]);
      LastOffer(w', run[1..], k,
                if e.OfferIn? && e.k == k && Reaches(At(w.store, k), e.offer, e.now, e.wgOk) then Some(e.offer)
                else if k in w'.store.states then last else None)
  }

  /** The state of `k`, if there is one, carries what `last` brought. */
  predicate Carries(w: World, k: Key, last: Option<Offer>) {
    k in w.store.states ==> last.Some? && Records(w.store.states[k], last.value)
  }

  lemma {:induction false} RunCarries(w: World, run: seq<Event>, k: Key, last: Option<Offer>)
    requires Possible(w, run) && Carries(w, k, last)
    ensures Carries(After(w, run), k, LastOffer(w, run, k, last))
    decreases |run|
  {
    if run != [] {
      var e, w' := run[0], Next(w, run[0]);
      var c := At(w.store, k);
      var reaches := e.OfferIn? && e.k == k && Reaches(c, e.offer, e.now, e.wgOk);
      if e.OfferIn? && e.k == k {
        PutAt(w.store, k, HandleOffer(c, e.offer, e.now, e.wgOk).cell, k);
        if reaches {
          OfferIsRecorded(c, e.offer, e.now, e.wgOk);
        } else {
          OfferIsNotRecorded(c, e.offer, e.now, e.wgOk);
        }
      } else {
        StepRecord(w, e, k);
      }
      assert At(w'.store, k).st == Get(w'.store.states, k) && c.st == Get(w.store.states, k);
      var last' := if reaches then Some(e.offer) else if k in w'.store.states then last else None;
      assert Carries(w', k, last');
      RunCarries(w', run[1..], k, last');
    }
  }

  /** In every reachable state a peer carries the candidates and the identity of the last offer recorded for it. */
  lemma StateCarriesLastOffer(w: World, run: seq<Event>, k: Key)
    requires Initial(w) && Possible(w, run) && k in After(w, run).store.states
    ensures var last := LastOffer(w, run, k, None);
            last.Some? && Records(After(w, run).store.states[k], last.value)
  {
    RunCarries(w, run, k, None);
  }

  /** A probe that starts takes exactly those candidates, whenever between its launch and its loss it does. */
  lemma ProbeTakesLastOffer(w: World, run: seq<Event>, g: nat, act: Act)
    requires Initial(w) && Possible(w, run) && g in After(w, run).jobs && After(w, run).jobs[g].probe == Launched
    requires Claimed(At(After(w, run).store, After(w, run).jobs[g].key), g) && !act.Quit?
    ensures var w' := After(w, run);
            var last, j := LastOffer(w, run, w'.jobs[g].key, None), Next(w', ProbeWork(g, act)).jobs[g];
            last.Some? && last.value.candidates != [] && j.candidates == last.value.candidates && j.probe == Choosing(0)
  {
    StateCarriesLastOffer(w, run, After(w, run).jobs[g].key);
    InitialIsSafe(w);
    RunKeepsSafe(w, run);
    assert CellInv(At(After(w, run).store, After(w, run).jobs[g].key));
  }
}
