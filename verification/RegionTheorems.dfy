/** The other locked regions, told from the state before them; failures and how long they keep a peer waiting. */
module RegionTheorems {
  import opened Basics
  import opened Candidates
  import opened PeerRegions
  import opened PeerInvariants
  import opened AgentMachine
  import opened AgentInvariants
  import opened ClaimTheorems
  import opened PassTheorems
  import opened OfferTheorems

  // ---------------------------------------------------------------- removes

  /**
   * A remove acts only on the session and the address it names.  An expired session with a live path keeps it
   * and loses only its control; any other one loses its state and its peer, unless the command fails.
   */
  lemma RemoveActs(c: Cell, m: Removal, now: real, wgOk: bool)
    ensures var r := HandleRemove(c, m, now, wgOk);
            if c.st.None? || c.st.value.sessionId != m.sessionId || c.st.value.ip != m.ip
            then r == RemoveResult(c, Mismatch)
            else if m.reason == Expired && LivePath(c.peer, now)
            then r.outcome == Preserved && r.cell.peer == c.peer && r.cell.gen == c.gen
                 && r.cell.st == Some(c.st.value.(controlExpired := true, lease := 0.0, running := false, mode := Direct,
                                                  endpoint := c.peer.value.endpoint))
            else if c.peer.Some? && !wgOk
            then r.outcome == RemoveAborted && r.cell == c.(peer := Some(c.peer.value.(stray := true)))
            else r.outcome == Removed && r.cell.st.None? && r.cell.peer.None? && r.cell.gen > c.gen
  {
  }

  lemma {:induction false} CleanupActs(s: Store, order: seq<Key>, active: set<Key>, fails: set<Key>, k: Key)
    requires forall i, j :: 0 <= i < j < |order| ==> order[i] != order[j]
    ensures var c, d := At(s, k), At(CleanupPass(s, order, active, fails), k);
            if k in order && k !in active && c.st.Some? && c.st.value.controller == Initiator
            then d.st.None? && d.gen > c.gen
                 && d.peer == if k in fails && c.peer.Some? then Some(c.peer.value.(stray := true)) else None
            else d == c.(gen := d.gen) && d.gen >= c.gen
    decreases |order|
  {
    if order != [] {
      if order[0] in s.states && s.states[order[0]].controller == Initiator && order[0] !in active {
        var d := CleanupKey(At(s, order[0]), order[0] !in fails);
        PutAt(s, order[0], d, k);
        CleanupActs(Put(s, order[0], d), order[1..], active, fails, k);
      } else {
        CleanupActs(s, order[1..], active, fails, k);
      }
    }
  }

  // ---------------------------------------------------------------- failures

  /** The seconds that the n-th failure in a row keeps a peer waiting. */
  lemma DelaysGrow(n: nat)
    requires n > 0
    ensures RetryDelay(n) == if n == 1 then 3.0 else if n == 2 then 10.0 else if n == 3 then 30.0
                             else if n == 4 then 60.0 else 300.0
    ensures RetryDelay(n) <= RetryDelay(n + 1)
  {
  }

  /** One more failure in a row: the peer is idle and waits. */
  predicate OneMoreFailure(s: PeerState, t: PeerState, now: real) {
    && t == s.(mode := Idle, endpoint := "", failures := s.failures + 1, running := false,
               retryAfter := now + RetryDelay(s.failures + 1), generation := t.generation)
  }

  /** The peer is removed, or its remove has failed. */
  predicate PeerGone(c: Cell, d: Cell, ok: bool) {
    d.peer == if ok || c.peer.None? then None else Some(c.peer.value.(stray := true))
  }

  predicate Holds(c: Cell, g: nat, mode: Mode) {
    c.st.Some? && c.st.value.generation == g && c.st.value.running && c.st.value.mode == mode
  }

  /** When a probe fails: with the claim, after its last candidate, or when it leaves in any other way. */
  lemma ProbeFails(c: Cell, g: nat, j: Job, act: Act, now: real)
    requires CellInv(c) && JobInv(c, g, j)
    requires j.probe.Exhausted? || j.probe.Finishing?
    ensures var d := ProbeStep(c, g, j, act, now).cell;
            var leaves := if j.probe.Exhausted? then !act.Quit? else true;
            if Holds(c, g, Probe) && leaves
            then d.st.Some? && OneMoreFailure(c.st.value, d.st.value, now) && PeerGone(c, d, act.Go? ==> act.wg.removed)
                 && (if j.probe.Exhausted? then d.st.value.generation == g && d.gen == c.gen
                     else g < d.st.value.generation == d.gen && d.gen > c.gen)
            else d == c
  {
  }

  /** The counter goes one above itself and the generation it replaces. */
  lemma GenerationsCount(last: nat, previous: nat)
    ensures NextGen(last, previous) == if last < previous then previous + 1 else last + 1
  {
  }

  /** No region of a probe does anything without the claim or with a failing command. */
  lemma ProbeRegionsAsk(c: Cell, g: nat, endpoint: string, now: real, wgOk: bool)
    requires c.st.None? || c.st.value.generation != g || !c.st.value.running
    ensures ProbeSet(c, g, endpoint, wgOk) == c && ProbePromote(c, g, endpoint, wgOk) == c
    ensures ProbeExhaust(c, g, now, wgOk) == c
  {
  }

  lemma FailingProbeRegions(c: Cell, g: nat, endpoint: string)
    ensures ProbeSet(c, g, endpoint, false) == c && ProbePromote(c, g, endpoint, false) == c
  {
  }

  /** A worker whose list is empty gives its claim back, one that is done does nothing more. */
  lemma WorkersLeave(c: Cell, g: nat, j: Job, act: Act, now: real)
    ensures j.probe.Done? ==> ProbeStep(c, g, j, act, now) == JobResult(c, j)
    ensures j.probe.Finishing? ==> ProbeStep(c, g, j, act, now).job == j.(probe := Done)
    ensures j.probe.Exhausted? ==> ProbeStep(c, g, j, act, now).job == j.(probe := Finishing)
    ensures act.Quit? && !j.probe.Done? && !j.probe.Finishing? ==>
              ProbeStep(c, g, j, act, now) == JobResult(c, j.(probe := Finishing))
    ensures act.Quit? && j.confirm != NotStarted && !j.confirm.Ended? && !j.confirm.Ending? ==>
              ConfirmStep(c, g, j, act, now) == JobResult(c, j.(confirm := Ending))
    ensures j.probe.Empty? && !act.Quit? ==>
              && ProbeStep(c, g, j, act, now).job == j.(probe := Finishing)
              && ProbeStep(c, g, j, act, now).cell
                 == if Current(c, g) then c.(st := Some(c.st.value.(running := false, mode := Idle))) else c
  {
  }

  /** What the rekey worker does, step by step. */
  lemma RekeyActs(c: Cell, g: nat, j: Job, act: Act, now: real)
    requires CellInv(c) && JobInv(c, g, j) && !act.Quit?
    ensures var r := ConfirmStep(c, g, j, act, now);
            match j.confirm
            case NotStarted => r == JobResult(c, j)
            case Waiting(e) =>
              var wg := if act.Go? then act.wg else Wg(true, false, true);
              if !(Current(c, g) && c.st.value.mode == Direct && c.st.value.endpoint == e)
              then r.cell == c && r.job.confirm == Ending
              else if wg.removed && wg.programmed
              then r.job.confirm == Rekeying(e) && r.cell.peer == Some(WgPeer(e, true, 0.0, false)) && r.cell.gen == c.gen
                   && r.cell.st == Some(c.st.value.(mode := Confirm6, running := true))
              else r.job.confirm == Ending && r.cell.st.Some? && OneMoreFailure(c.st.value, r.cell.st.value, now)
                   && r.cell.st.value.generation == g && PeerGone(c, r.cell, wg.removed || wg.undone)
            case Rekeying(e) =>
              && r.cell == c
              && r.job.confirm == (if act.Deadline? then TimedOut
                                   else if c.peer.Some? && c.peer.value.latest != 0.0 && now - c.peer.value.latest <= 5.0
                                   then Answered(if c.peer.value.endpoint != "" then c.peer.value.endpoint else e)
                                   else Rekeying(e))
            case Answered(e) =>
              && r.job.confirm == Ending
              && (if Holds(c, g, Confirm6) && act.Go? && act.wg.programmed
                  then r.cell == Cell(Some(c.st.value.(mode := Direct, endpoint := e, failures := 0, retryAfter := 0.0,
                                                       running := false)),
                                      Some(WgPeer(e, true, Latest(c.peer), false)), c.gen)
                  else r.cell == c)
            case TimedOut =>
              && r.job.confirm == Ending
              && (if Holds(c, g, Confirm6)
                  then r.cell.st.Some? && OneMoreFailure(c.st.value, r.cell.st.value, now)
                       && r.cell.st.value.generation == g && PeerGone(c, r.cell, act.Go? ==> act.wg.removed)
                  else r.cell == c)
            case Ending =>
              && r.job.confirm == Ended
              && (if Holds(c, g, Confirm6)
                  then r.cell.st.Some? && OneMoreFailure(c.st.value, r.cell.st.value, now)
                       && g < r.cell.st.value.generation == r.cell.gen && PeerGone(c, r.cell, act.Go? ==> act.wg.removed)
                  else r.cell == c)
            case Ended => r == JobResult(c, j)
  {
  }

  // ---------------------------------------------------------------- waiting, over runs

  /** The peer of `k` waits until `until`: no probe has it, and it has no route. */
  predicate Waits(w: World, k: Key, until: real) {
    && k in w.store.states && !w.store.states[k].running && w.store.states[k].retryAfter == until
    && (w.store.states[k].mode == Idle || w.store.states[k].mode == Probe) && !Routed(At(w.store, k).peer)
  }

  /** The time is not up, and no offer brings the peer another target. */
  predicate TooEarly(w: World, e: Event, k: Key, until: real) {
    && (e.Monitor? ==> e.now < until)
    && (e.OfferIn? && e.k == k ==> 0.0 <= e.now < until && !ChangesTarget(At(w.store, k), e.offer, e.now))
  }

  lemma {:induction false} PassWaits(s: Store, order: seq<Key>, now: real, fails: set<Key>, k: Key, until: real)
    requires k in s.states ==> !s.states[k].running && s.states[k].retryAfter == until > now
                               && (s.states[k].mode == Idle || s.states[k].mode == Probe) && !Routed(At(s, k).peer)
    ensures var s' := MonitorPass(s, order, now, fails).store;
            k in s'.states ==> !s'.states[k].running && s'.states[k].retryAfter == until
                               && (s'.states[k].mode == Idle || s'.states[k].mode == Probe) && !Routed(At(s', k).peer)
    decreases |order|
  {
    if order == [] {
    } else if order[0] !in s.states {
      PassWaits(s, order[1..], now, fails, k, until);
    } else {
      var r := MonitorKey(At(s, order[0]), now, order[0] !in fails);
      var s1 := Put(s, order[0], r.cell);
      PutAt(s, order[0], r.cell, k);
      if order[0] == k { PassActs(At(s, k), now, k !in fails); }
      assert At(s, k).st == Get(s.states, k) && At(s1, k).st == Get(s1.states, k);
      if !r.aborted { PassWaits(s1, order[1..], now, fails, k, until); }
    }
  }

  lemma WorkersWait(c: Cell, g: nat, j: Job, act: Act, now: real)
    requires CellInv(c) && JobInv(c, g, j)
    requires c.st.Some? && !c.st.value.running && (c.st.value.mode == Idle || c.st.value.mode == Probe)
    ensures ProbeStep(c, g, j, act, now).cell == c || j.probe.Empty?
    ensures ConfirmStep(c, g, j, act, now).cell == c
  {
  }

  lemma StepWaits(w: World, e: Event, k: Key, until: real)
    requires Safe(w) && Enabled(w, e) && Waits(w, k, until) && TooEarly(w, e, k, until) && k in Next(w, e).store.states
    ensures Waits(Next(w, e), k, until)
  {
    var c, w' := At(w.store, k), Next(w, e);
    assert CellInv(c) && c.st == Some(w.store.states[k]) && At(w'.store, k).st == Some(w'.store.states[k]);
    match e
    case OfferIn(j, o, now, wgOk) =>
      PutAt(w.store, j, HandleOffer(At(w.store, j), o, now, wgOk).cell, k);
      if j == k {
        OfferOutcome(c, o, now, wgOk);
        if HandleOffer(c, o, now, wgOk).outcome.Accepted? { OfferActs(c, o, now, wgOk); }
      }
    case RemoveIn(j, m, wgOk) =>
      RemoveActs(At(w.store, j), m, w.clock, wgOk);
      PutAt(w.store, j, HandleRemove(At(w.store, j), m, w.clock, wgOk).cell, k);
    case Monitor(order, now, fails) => PassWaits(w.store, order, now, fails, k, until);
    case Cleanup(order, active, fails) => CleanupActs(w.store, order, active, fails, k);
    case ProbeWork(g, act) =>
      var j := w.jobs[g];
      assert JobInv(At(w.store, j.key), g, j);
      ProbeRecord(At(w.store, j.key), g, j, act, w.clock);
      if j.key == k { WorkersWait(c, g, j, act, w.clock); }
      PutAt(w.store, j.key, Worked(w, g, act).cell, k);
    case ConfirmWork(g, act) =>
      var j := w.jobs[g];
      assert JobInv(At(w.store, j.key), g, j);
      ConfirmRecord(At(w.store, j.key), g, j, act, w.clock);
      if j.key == k { WorkersWait(c, g, j, act, w.clock); }
      PutAt(w.store, j.key, Rekeyed(w, g, act).cell, k);
    case _ =>
  }

  predicate AlwaysTooEarly(w: World, run: seq<Event>, k: Key, until: real)
    requires Possible(w, run)
    decreases |run|
  {
    run == []
    || (&& TooEarly(w, run[0], k, until) && k in Next(w, run[0]).store.states
        && AlwaysTooEarly(Next(w, run[0]), run[1..], k, until))
  }

  /**
   * A peer that failed is left alone: as long as its state lives, its time is not up, and no offer brings it
   * another target, it is neither probed nor routed, whatever passes, offers, workers and commands do.
   */
  lemma {:induction false} FailedPeersWait(w: World, run: seq<Event>, k: Key, until: real)
    requires Safe(w) && Possible(w, run) && Waits(w, k, until) && AlwaysTooEarly(w, run, k, until)
    ensures Waits(After(w, run), k, until)
    decreases |run|
  {
    if run != [] {
      NextKeeps(w, run[0]);
      StepWaits(w, run[0], k, until);
      FailedPeersWait(Next(w, run[0]), run[1..], k, until);
    }
  }
}
