/** A probe tries its candidates one after the other, and takes no answer but a new handshake. */
module ProbeTheorems {
  import opened Basics
  import opened Candidates
  import opened PeerRegions
  import opened PeerInvariants
  import opened AgentMachine
  import opened AgentInvariants
  import opened ClaimTheorems
  import opened RouteTheorems
  import opened OfferTheorems

  // ---------------------------------------------------------------- one step

  /** The worker has its list and goes through it. */
  predicate Trying(j: Job) {
    !j.probe.Launched? && !j.probe.Empty? && !j.probe.Finishing? && !j.probe.Done?
  }

  /** It has left its loop. */
  predicate Left(j: Job) {
    j.probe.Empty? || j.probe.Finishing? || j.probe.Done?
  }

  /** The command of the step succeeds. */
  predicate Programs(act: Act) {
    act.Go? && act.wg.programmed
  }

  /**
   * While it waits for an answer of candidate `i`, a probe leaves only when the time is up, a handshake newer
   * than its baseline is there, the claim is lost, or it is told to quit.
   */
  lemma WaitingEndsExactly(c: Cell, g: nat, j: Job, act: Act, now: real, i: nat, b: real)
    requires j.probe == Polling(i, b) || j.probe == Querying(i, b)
    requires InRange(j)
    ensures var r := ProbeStep(c, g, j, act, now);
            && r.cell == c && r.job == j.(probe := r.job.probe)
            && (if act.Quit? then r.job.probe == Finishing
                else if j.probe.Querying? then
                  if c.peer.Some? && c.peer.value.latest > b
                  then r.job.probe.Seen? && r.job.probe.i == i && r.job.probe.baseline == b
                       && r.job.probe.latest == c.peer.value.latest
                       && r.job.probe.endpoint == (if c.peer.value.endpoint != "" then c.peer.value.endpoint
                                                   else j.candidates[i].endpoint)
                  else r.job.probe == Polling(i, b)
                else if act.Deadline? then r.job.probe == Choosing(i + 1)
                else if c.st.Some? && c.st.value.generation == g && c.st.value.running then r.job.probe == Querying(i, b)
                else r.job.probe == Finishing)
  {
  }

  /** The rest of the loop: what the worker does next while it has the claim, is not told to quit, and nothing fails. */
  lemma LoopGoesOn(c: Cell, g: nat, j: Job, act: Act, now: real)
    requires act.Go? && act.wg.programmed && c.st.Some? && c.st.value.generation == g && c.st.value.running && InRange(j)
    ensures var r := ProbeStep(c, g, j, act, now);
            && r.job == j.(probe := r.job.probe, candidates := r.job.candidates, confirm := r.job.confirm)
            && (j.probe.Launched? && c.st.value.candidates != [] ==>
                  r.job.probe == Choosing(0) && r.job.candidates == c.st.value.candidates)
            && (j.probe.Choosing? ==>
                  r.job.probe == if j.probe.i == |j.candidates| then Exhausted else Reading(j.probe.i))
            && (j.probe.Reading? ==>
                  r.job.probe == Ready(j.probe.i, if c.peer.Some? then c.peer.value.latest else 0.0))
            && (j.probe.Ready? ==>
                  r.job.probe == Polling(j.probe.i, j.probe.baseline)
                  && r.cell.st == Some(c.st.value.(mode := Probe, endpoint := j.candidates[j.probe.i].endpoint))
                  && r.cell.peer.Some? && r.cell.peer.value.endpoint == j.candidates[j.probe.i].endpoint
                  && r.cell.peer.value == (if c.peer.Some? then c.peer.value else WgPeer("", false, 0.0, false))
                                          .(endpoint := r.cell.peer.value.endpoint))
            && (j.probe.Seen? ==>
                  r.job.probe == Promoted(j.probe.i, j.probe.endpoint)
                  && r.cell.peer == Some(WgPeer(j.probe.endpoint, true, if c.peer.Some? then c.peer.value.latest else 0.0,
                                                false))
                  && r.cell.st == Some(c.st.value.(mode := Direct, endpoint := j.probe.endpoint, failures := 0,
                                                   retryAfter := 0.0, running := false)))
  {
  }

  /** The rekey is asked for exactly after the promotion of a host6 candidate, if the node has no global address. */
  lemma RekeyIsAskedFor(c: Cell, g: nat, j: Job, act: Act, now: real)
    requires j.probe.Promoted? && InRange(j) && !act.Quit?
    ensures var r := ProbeStep(c, g, j, act, now);
            && r.cell == c && r.job.probe == Finishing
            && r.job.confirm == if act.Go? && act.rekey && j.candidates[j.probe.i].kind == Host6
                                then Waiting(j.probe.endpoint) else j.confirm
  {
  }

  /** And what ends the loop early: to quit, to lose the claim where it is looked at, or a promotion that fails. */
  lemma LoopEndsExactly(c: Cell, g: nat, j: Job, act: Act, now: real)
    requires InRange(j) && Trying(j)
    ensures Left(ProbeStep(c, g, j, act, now).job)
            <==> || act.Quit? || j.probe.Promoted? || j.probe.Exhausted?
                 || (j.probe.Seen? && !Programs(act))
                 || (!(c.st.Some? && c.st.value.generation == g && c.st.value.running)
                     && ( || j.probe.Ready? || j.probe.Seen? || (j.probe.Polling? && !act.Deadline?)
                          || (j.probe.Choosing? && j.probe.i < |j.candidates|)))
    ensures j.probe.Ready? && !Programs(act) && !Left(ProbeStep(c, g, j, act, now).job) ==>
              ProbeStep(c, g, j, act, now).job.probe == Choosing(j.probe.i + 1)
  {
  }

  // ---------------------------------------------------------------- all candidates, in order

  /** The step is the turn of candidate `i` of `list`: the peer is aimed at it, or the command fails. */
  predicate Tries(w: World, e: Event, g: nat, list: seq<Candidate>, i: nat) {
    && Enabled(w, e) && e.ProbeWork? && e.g == g && w.jobs[g].candidates == list && i < |list|
    && w.jobs[g].probe.Ready? && w.jobs[g].probe.i == i && Claimed(At(w.store, w.jobs[g].key), g)
    && (Programs(e.act) ==>
          var d := At(Next(w, e).store, w.jobs[g].key);
          && d.peer.Some? && d.peer.value.endpoint == list[i].endpoint
          && d.st.Some? && d.st.value.endpoint == list[i].endpoint)
  }

  /** The run has the turns of the candidates from `i` to before `n`, in this order. */
  predicate TriesAll(w: World, run: seq<Event>, g: nat, list: seq<Candidate>, i: nat, n: nat)
    requires Possible(w, run)
    decreases |run|
  {
    i >= n
    || (run != [] && ( || (Tries(w, run[0], g, list, i) && TriesAll(Next(w, run[0]), run[1..], g, list, i + 1, n))
                       || TriesAll(Next(w, run[0]), run[1..], g, list, i, n)))
  }

  /** How many candidates have had their turn. */
  function Turns(j: Job): nat {
    match j.probe
    case Choosing(i) => i
    case Reading(i) => i
    case Ready(i, _) => i
    case Polling(i, _) => i + 1
    case Querying(i, _) => i + 1
    case Seen(i, _, _, _) => i + 1
    case Promoted(i, _) => i + 1
    case Exhausted => |j.candidates|
    case _ => 0
  }

  /** No turn is skipped: a step of the worker leaves the count, or is the turn that it adds. */
  lemma TurnsInOrder(c: Cell, g: nat, j: Job, act: Act, now: real)
    requires InRange(j)
    requires Trying(ProbeStep(c, g, j, act, now).job)
    ensures var r := ProbeStep(c, g, j, act, now);
            && r.job.key == j.key && Turns(r.job) <= |r.job.candidates|
            && (if j.probe.Launched? then Turns(r.job) == 0 else Trying(j) && r.job.candidates == j.candidates)
            && (Turns(r.job) == Turns(j)
                || (&& Turns(r.job) == Turns(j) + 1 && Turns(j) < |j.candidates| && j.probe.Ready? && Claimed(c, g)
                    && (Programs(act) ==>
                          && r.cell.peer.Some? && r.cell.peer.value.endpoint == j.candidates[Turns(j)].endpoint
                          && r.cell.st.Some? && r.cell.st.value.endpoint == j.candidates[Turns(j)].endpoint)))
  {
  }

  lemma OwnStepLeft(w: World, e: Event, g: nat)
    requires Enabled(w, e) && (e.ProbeWork? || e.ConfirmWork?) && e.g == g && Left(w.jobs[g])
    ensures Left(Next(w, e).jobs[g])
  {
  }

  /** What one step of the world does to the count of a worker that is in its loop after it. */
  lemma StepTurns(w: World, e: Event, g: nat)
    requires Safe(w) && Enabled(w, e) && g in Next(w, e).jobs && Trying(Next(w, e).jobs[g])
    ensures g in w.jobs && !Left(w.jobs[g])
    ensures var j, j' := w.jobs[g], Next(w, e).jobs[g];
            if j.probe.Launched? then Turns(j') == 0
            else j'.candidates == j.candidates
                 && (Turns(j') == Turns(j) || (Turns(j') == Turns(j) + 1 && Tries(w, e, g, j.candidates, Turns(j))))
  {
    if (e.ProbeWork? || e.ConfirmWork?) && e.g == g {
      var j := w.jobs[g];
      var c := At(w.store, j.key);
      assert JobInv(c, g, j);
      if e.ProbeWork? {
        TurnsInOrder(c, g, j, e.act, w.clock);
        PutAt(w.store, j.key, Worked(w, g, e.act).cell, j.key);
      } else {
        assert Rekeyed(w, g, e.act).job.probe == j.probe && Rekeyed(w, g, e.act).job.candidates == j.candidates;
      }
      if Left(j) { OwnStepLeft(w, e, g); }
    } else {
      OtherJobsStay(w, e, g);
    }
  }

  /** Where the count of `g` stands: nothing before its launch. */
  function TurnsAt(w: World, g: nat): nat {
    if g in w.jobs then Turns(w.jobs[g]) else 0
  }

  /** A step in front leaves the turns that follow, and adds its own. */
  lemma TurnsCons(w: World, run: seq<Event>, g: nat, list: seq<Candidate>, i: nat, j: nat, n: nat)
    requires Possible(w, run) && run != [] && TriesAll(Next(w, run[0]), run[1..], g, list, j, n)
    requires i == j || (i + 1 == j && Tries(w, run[0], g, list, i))
    ensures TriesAll(w, run, g, list, i, n)
  {
  }

  lemma StepTurnsAt(w: World, e: Event, g: nat)
    requires Safe(w) && Enabled(w, e)
    requires g in Next(w, e).jobs ==> !Left(Next(w, e).jobs[g])
    ensures g in w.jobs ==> !Left(w.jobs[g])
    ensures g in w.jobs && Trying(w.jobs[g]) ==>
              g in Next(w, e).jobs && Trying(Next(w, e).jobs[g]) && Next(w, e).jobs[g].candidates == w.jobs[g].candidates
    ensures TurnsAt(w, g) == TurnsAt(Next(w, e), g)
            || (TurnsAt(w, g) + 1 == TurnsAt(Next(w, e), g) && g in w.jobs
                && Tries(w, e, g, w.jobs[g].candidates, TurnsAt(w, g)) && g in Next(w, e).jobs
                && Trying(Next(w, e).jobs[g]) && Next(w, e).jobs[g].candidates == w.jobs[g].candidates)
  {
    if g in Next(w, e).jobs && Trying(Next(w, e).jobs[g]) {
      StepTurns(w, e, g);
    } else {
      StepBefore(w, e, g);
    }
  }

  lemma {:induction false} RunTurns(w: World, run: seq<Event>, g: nat)
    requires Safe(w) && Possible(w, run) && g in After(w, run).jobs && Trying(After(w, run).jobs[g])
    ensures var j := After(w, run).jobs[g];
            && (g in w.jobs ==> !Left(w.jobs[g]) && (Trying(w.jobs[g]) ==> w.jobs[g].candidates == j.candidates))
            && TriesAll(w, run, g, j.candidates, TurnsAt(w, g), Turns(j))
    decreases |run|
  {
    if run != [] {
      var w' := Next(w, run[0]);
      NextKeeps(w, run[0]);
      RunTurns(w', run[1..], g);
      StepTurnsAt(w, run[0], g);
      TurnsCons(w, run, g, After(w, run).jobs[g].candidates, TurnsAt(w, g), TurnsAt(w', g), Turns(After(w, run).jobs[g]));
    }
  }

  /** Before its loop a worker has no turns. */
  lemma StepBefore(w: World, e: Event, g: nat)
    requires Safe(w) && Enabled(w, e) && (g in Next(w, e).jobs ==> Next(w, e).jobs[g].probe.Launched?)
    ensures g in w.jobs ==> w.jobs[g].probe.Launched?
    ensures TurnsAt(w, g) == TurnsAt(Next(w, e), g) == 0
  {
    if (e.ProbeWork? || e.ConfirmWork?) && e.g == g {
    } else {
      OtherJobsStay(w, e, g);
    }
  }

  /**
   * A probe that gives up has had every one of its candidates: for each of them, in order, the run has a step
   * that aimed the peer at its endpoint, or tried to and failed.
   */
  lemma ExhaustedHasTriedAll(w: World, run: seq<Event>, g: nat)
    requires Initial(w) && Possible(w, run) && g in After(w, run).jobs && After(w, run).jobs[g].probe.Exhausted?
    ensures var list := After(w, run).jobs[g].candidates; TriesAll(w, run, g, list, 0, |list|)
  {
    InitialIsSafe(w);
    RunTurns(w, run, g);
  }

  /** One that has an answer of candidate `i` has had all before it, and that one last. */
  lemma AnsweredHasTriedAllBefore(w: World, run: seq<Event>, g: nat)
    requires Initial(w) && Possible(w, run) && g in After(w, run).jobs && After(w, run).jobs[g].probe.Seen?
    ensures var j := After(w, run).jobs[g]; TriesAll(w, run, g, j.candidates, 0, j.probe.i + 1)
  {
    InitialIsSafe(w);
    RunTurns(w, run, g);
  }

  // ---------------------------------------------------------------- only a new handshake counts

  /** The kernel has reported a handshake of `k` later than `b`. */
  predicate HandshakeIn(run: seq<Event>, k: Key, b: real) {
    exists i :: 0 <= i < |run| && run[i].Handshake? && run[i].k == k && run[i].at > b
  }

  /** The handshake that the table knows is the old one, or none. */
  predicate NoNewer(c: Cell, d: Cell) {
    Latest(d.peer) == Latest(c.peer) || Latest(d.peer) == 0.0
  }

  lemma SteerNoNewer(c: Cell, o: Offer, now: real, wgOk: bool)
    requires c.st.Some?
    ensures NoNewer(c, Steer(c, o, now, wgOk).cell)
  {
  }

  lemma OfferNoNewer(c: Cell, o: Offer, now: real, wgOk: bool)
    ensures NoNewer(c, HandleOffer(c, o, now, wgOk).cell)
  {
    if o.candidates != [] && !IsStale(c, o) && !ChangesStart(c, o) {
      var based := Rebase(c, o, now, wgOk);
      if !based.aborted {
        SteerNoNewer(based.cell.(st := Some(Header(based.cell.st.value, o, now))), o, now, wgOk);
      }
    }
  }

  lemma {:induction false} PassNoNewer(s: Store, order: seq<Key>, now: real, fails: set<Key>, k: Key)
    ensures NoNewer(At(s, k), At(MonitorPass(s, order, now, fails).store, k))
    decreases |order|
  {
    if order == [] {
    } else if order[0] !in s.states {
      PassNoNewer(s, order[1..], now, fails, k);
    } else {
      var r := MonitorKey(At(s, order[0]), now, order[0] !in fails);
      PutAt(s, order[0], r.cell, k);
      if !r.aborted { PassNoNewer(Put(s, order[0], r.cell), order[1..], now, fails, k); }
    }
  }

  lemma {:induction false} CleanupNoNewer(s: Store, order: seq<Key>, active: set<Key>, fails: set<Key>, k: Key)
    ensures NoNewer(At(s, k), At(CleanupPass(s, order, active, fails), k))
    decreases |order|
  {
    if order == [] {
    } else if order[0] in s.states && s.states[order[0]].controller == Initiator && order[0] !in active {
      var d := CleanupKey(At(s, order[0]), order[0] !in fails);
      PutAt(s, order[0], d, k);
      CleanupNoNewer(Put(s, order[0], d), order[1..], active, fails, k);
    } else {
      CleanupNoNewer(s, order[1..], active, fails, k);
    }
  }

  lemma ProbeNoNewer(c: Cell, g: nat, j: Job, act: Act, now: real)
    ensures NoNewer(c, ProbeStep(c, g, j, act, now).cell) && ProbeStep(c, g, j, act, now).job.key == j.key
  {
  }

  lemma ConfirmNoNewer(c: Cell, g: nat, j: Job, act: Act, now: real)
    ensures NoNewer(c, ConfirmStep(c, g, j, act, now).cell) && ConfirmStep(c, g, j, act, now).job.key == j.key
  {
  }

  /** No step but a handshake of the kernel makes the last handshake of a key newer. */
  lemma StepNoNewer(w: World, e: Event, k: Key)
    requires Enabled(w, e) && !(e.Handshake? && e.k == k)
    ensures NoNewer(At(w.store, k), At(Next(w, e).store, k))
  {
    match e
    case OfferIn(j, o, now, wgOk) =>
      OfferNoNewer(At(w.store, j), o, now, wgOk);
      PutAt(w.store, j, HandleOffer(At(w.store, j), o, now, wgOk).cell, k);
    case RemoveIn(j, m, wgOk) => PutAt(w.store, j, HandleRemove(At(w.store, j), m, w.clock, wgOk).cell, k);
    case Monitor(order, now, fails) => PassNoNewer(w.store, order, now, fails, k);
    case Cleanup(order, active, fails) => CleanupNoNewer(w.store, order, active, fails, k);
    case ProbeWork(g, act) =>
      var j := w.jobs[g];
      ProbeNoNewer(At(w.store, j.key), g, j, act, w.clock);
      PutAt(w.store, j.key, Worked(w, g, act).cell, k);
    case ConfirmWork(g, act) =>
      var j := w.jobs[g];
      ConfirmNoNewer(At(w.store, j.key), g, j, act, w.clock);
      PutAt(w.store, j.key, Rekeyed(w, g, act).cell, k);
    case _ =>
  }

  lemma {:induction false} LatestRises(w: World, run: seq<Event>, k: Key, b: real)
    requires Possible(w, run) && Latest(At(w.store, k).peer) <= b < Latest(At(After(w, run).store, k).peer) && 0.0 <= b
    ensures HandshakeIn(run, k, b)
    decreases |run|
  {
    var w' := Next(w, run[0]);
    if run[0].Handshake? && run[0].k == k && run[0].at > b {
    } else {
      if !(run[0].Handshake? && run[0].k == k) { StepNoNewer(w, run[0], k); }
      LatestRises(w', run[1..], k, b);
      var i :| 0 <= i < |run[1..]| && run[1..][i].Handshake? && run[1..][i].k == k && run[1..][i].at > b;
      assert run[i + 1] == run[1..][i];
    }
  }

  /** The worker of `g` has read the baseline `b`. */
  predicate Reads(j: Job, b: real) {
    match j.probe
    case Ready(_, c) => c == b
    case Polling(_, c) => c == b
    case Querying(_, c) => c == b
    case Seen(_, c, _, _) => c == b
    case _ => false
  }

  /** The step in which `g` reads that the last handshake is that of `b`. */
  predicate ReadsNow(w: World, e: Event, g: nat, b: real) {
    && Enabled(w, e) && e.ProbeWork? && e.g == g && w.jobs[g].probe.Reading?
    && Latest(At(w.store, w.jobs[g].key).peer) == b
  }

  /** `g` reads the baseline `b` in the run, and a later handshake of `k` comes after that. */
  predicate ReadThenAnswered(w: World, run: seq<Event>, g: nat, k: Key, b: real)
    requires Possible(w, run)
    decreases |run|
  {
    && run != []
    && ( || (ReadsNow(w, run[0], g, b) && HandshakeIn(run[1..], k, b))
         || ReadThenAnswered(Next(w, run[0]), run[1..], g, k, b))
  }

  lemma ReadsComesFrom(w: World, e: Event, g: nat, b: real)
    requires Safe(w) && Enabled(w, e) && g in Next(w, e).jobs && Reads(Next(w, e).jobs[g], b)
    ensures g in w.jobs && Next(w, e).jobs[g].key == w.jobs[g].key
    ensures Reads(w.jobs[g], b)
            || (ReadsNow(w, e, g, b) && At(Next(w, e).store, w.jobs[g].key).peer == At(w.store, w.jobs[g].key).peer)
  {
    if (e.ProbeWork? || e.ConfirmWork?) && e.g == g {
      var j := w.jobs[g];
      if e.ProbeWork? {
        ReadsStep(At(w.store, j.key), g, j, e.act, w.clock, b);
        PutAt(w.store, j.key, Worked(w, g, e.act).cell, j.key);
      }
    } else {
      OtherJobsStay(w, e, g);
    }
  }

  lemma ReadsStep(c: Cell, g: nat, j: Job, act: Act, now: real, b: real)
    requires Reads(ProbeStep(c, g, j, act, now).job, b)
    ensures ProbeStep(c, g, j, act, now).job.key == j.key
    ensures Reads(j, b)
            || (j.probe.Reading? && Latest(c.peer) == b && ProbeStep(c, g, j, act, now).cell == c)
  {
  }

  lemma {:induction false} ReadHistory(w: World, run: seq<Event>, g: nat, b: real)
    requires Safe(w) && Possible(w, run) && g in After(w, run).jobs && Reads(After(w, run).jobs[g], b) && 0.0 <= b
    requires b < Latest(At(After(w, run).store, After(w, run).jobs[g].key).peer)
    ensures var k := After(w, run).jobs[g].key;
            ReadThenAnswered(w, run, g, k, b) || (g in w.jobs && Reads(w.jobs[g], b) && w.jobs[g].key == k)
    decreases |run|
  {
    if run != [] {
      var w', k := Next(w, run[0]), After(w, run).jobs[g].key;
      NextKeeps(w, run[0]);
      ReadHistory(w', run[1..], g, b);
      if !ReadThenAnswered(w', run[1..], g, k, b) {
        ReadsComesFrom(w, run[0], g, b);
        if !Reads(w.jobs[g], b) { LatestRises(w', run[1..], k, b); }
      }
    }
  }

  predicate NoneNegative(w: World) {
    forall k :: k in w.store.table ==> w.store.table[k].latest >= 0.0
  }

  lemma {:induction false} RunNoneNegative(w: World, run: seq<Event>)
    requires Possible(w, run) && NoneNegative(w)
    ensures NoneNegative(After(w, run))
    decreases |run|
  {
    if run != [] {
      var w' := Next(w, run[0]);
      forall k | k in w'.store.table ensures w'.store.table[k].latest >= 0.0 {
        if !(run[0].Handshake? && run[0].k == k) { StepNoNewer(w, run[0], k); }
        assert At(w'.store, k).peer == Some(w'.store.table[k]);
        assert k in w.store.table ==> At(w.store, k).peer == Some(w.store.table[k]);
      }
      RunNoneNegative(w', run[1..]);
    }
  }

  /** Every baseline in use was read from the table. */
  ghost predicate BaselinesOk(w: World) {
    forall g, b :: g in w.jobs && Reads(w.jobs[g], b) ==> b >= 0.0
  }

  lemma {:induction false} RunBaselines(w: World, run: seq<Event>)
    requires Safe(w) && Possible(w, run) && NoneNegative(w) && BaselinesOk(w)
    ensures BaselinesOk(After(w, run))
    decreases |run|
  {
    if run != [] {
      var w' := Next(w, run[0]);
      NextKeeps(w, run[0]);
      RunNoneNegative(w, [run[0]]);
      assert After(w, [run[0]]) == w';
      forall g, b | g in w'.jobs && Reads(w'.jobs[g], b) ensures b >= 0.0 {
        ReadsComesFrom(w, run[0], g, b);
        var c := At(w.store, w.jobs[g].key);
        assert Latest(c.peer) >= 0.0;
      }
      RunBaselines(w', run[1..]);
    }
  }

  /**
   * Whatever a probe promotes, a handshake of its peer came after it had read its baseline, and later than
   * that: an old handshake never makes a route.
   */
  lemma PromotionFollowsHandshake(w: World, run: seq<Event>, e: Event, k: Key)
    requires Initial(w) && Possible(w, run) && Promotes(After(w, run), e, k)
    ensures ReadThenAnswered(w, run, e.g, k, After(w, run).jobs[e.g].probe.baseline)
  {
    var b := After(w, run).jobs[e.g].probe.baseline;
    InitialIsSafe(w);
    RunBaselines(w, run);
    assert Reads(After(w, run).jobs[e.g], b);
    ReadHistory(w, run, e.g, b);
  }

  // ---------------------------------------------------------------- the list is up to date

  /** A state under its old generation has its old signature. */
  lemma SteerKeepsSignature(c: Cell, o: Offer, now: real, wgOk: bool)
    requires c.st.Some? && c.st.value.generation <= c.gen
    ensures var d := Steer(c, o, now, wgOk).cell;
            d.st.Some? && (d.st.value.generation == c.st.value.generation ==> d.st.value.signature == c.st.value.signature)
            && (d.st.value.generation == c.st.value.generation || d.st.value.generation > c.gen)
  {
  }

  lemma OfferKeepsSignature(c: Cell, o: Offer, now: real, wgOk: bool)
    requires c.st.Some? ==> c.st.value.generation <= c.gen
    ensures var d := HandleOffer(c, o, now, wgOk).cell;
            d.st.Some? && d.st.value.generation <= c.gen ==> c.st.Some? && d.st.value.signature == c.st.value.signature
  {
    if o.candidates != [] && !IsStale(c, o) && !ChangesStart(c, o) {
      var based := Rebase(c, o, now, wgOk);
      if !based.aborted {
        SteerKeepsSignature(based.cell.(st := Some(Header(based.cell.st.value, o, now))), o, now, wgOk);
      }
    }
  }

  /** The list that the current worker goes through has the signature of the state. */
  predicate ListOk(w: World, g: nat) {
    g in w.jobs && Trying(w.jobs[g]) && Current(At(w.store, w.jobs[g].key), g) ==>
      Signature(w.jobs[g].candidates) == At(w.store, w.jobs[g].key).st.value.signature
  }

  lemma OwnStepList(c: Cell, g: nat, j: Job, act: Act, now: real)
    requires Trying(ProbeStep(c, g, j, act, now).job) && Current(ProbeStep(c, g, j, act, now).cell, g)
    ensures Current(c, g)
    ensures var r := ProbeStep(c, g, j, act, now);
            r.job.candidates == (if Trying(j) then j.candidates else c.st.value.candidates)
  {
  }

  /** The signature of a state that keeps its generation. */
  lemma SignatureStays(w: World, e: Event, k: Key, g: nat)
    requires Safe(w) && Enabled(w, e) && g <= w.store.gen
    requires Current(At(w.store, k), g) && Current(At(Next(w, e).store, k), g)
    ensures At(Next(w, e).store, k).st.value.signature == At(w.store, k).st.value.signature
  {
    var c := At(w.store, k);
    assert CellInv(c);
    if e.OfferIn? && e.k == k {
      OfferKeepsSignature(c, e.offer, e.now, e.wgOk);
      PutAt(w.store, k, HandleOffer(c, e.offer, e.now, e.wgOk).cell, k);
    } else {
      StepRecord(w, e, k);
    }
  }

  /** Where the list of a worker in its loop comes from. */
  lemma ListComesFrom(w: World, e: Event, g: nat)
    requires Safe(w) && Enabled(w, e) && g in Next(w, e).jobs && Trying(Next(w, e).jobs[g])
    requires Current(At(Next(w, e).store, Next(w, e).jobs[g].key), g)
    ensures g in w.jobs && Next(w, e).jobs[g].key == w.jobs[g].key && Current(At(w.store, w.jobs[g].key), g)
    ensures var j, c := w.jobs[g], At(w.store, w.jobs[g].key);
            Next(w, e).jobs[g].candidates == if Trying(j) then j.candidates else c.st.value.candidates
  {
    if (e.ProbeWork? || e.ConfirmWork?) && e.g == g {
      var j := w.jobs[g];
      var c := At(w.store, j.key);
      if e.ProbeWork? {
        ProbeRecord(c, g, j, e.act, w.clock);
        PutAt(w.store, j.key, Worked(w, g, e.act).cell, j.key);
        OwnStepList(c, g, j, e.act, w.clock);
      } else {
        ConfirmRecord(c, g, j, e.act, w.clock);
        assert Rekeyed(w, g, e.act).job.probe == j.probe && Rekeyed(w, g, e.act).job.candidates == j.candidates;
        StaysCurrent(w, e, j.key, g);
      }
    } else {
      OtherJobsStay(w, e, g);
      StaysCurrent(w, e, w.jobs[g].key, g);
    }
  }

  lemma StepList(w: World, e: Event, g: nat)
    requires Safe(w) && Enabled(w, e) && ListOk(w, g) && SignaturesOk(w)
    ensures ListOk(Next(w, e), g)
  {
    var w' := Next(w, e);
    if g in w'.jobs && Trying(w'.jobs[g]) && Current(At(w'.store, w'.jobs[g].key), g) {
      ListComesFrom(w, e, g);
      SignatureStays(w, e, w.jobs[g].key, g);
    }
  }

  predicate SignaturesOk(w: World) {
    forall k :: k in w.store.states ==> w.store.states[k].signature == Signature(w.store.states[k].candidates)
  }

  lemma StepSignatures(w: World, e: Event)
    requires Enabled(w, e) && SignaturesOk(w)
    ensures SignaturesOk(Next(w, e))
  {
    var w' := Next(w, e);
    forall k | k in w'.store.states ensures w'.store.states[k].signature == Signature(w'.store.states[k].candidates) {
      assert At(w'.store, k).st == Some(w'.store.states[k]);
      if e.OfferIn? && e.k == k {
        var c := At(w.store, k);
        PutAt(w.store, k, HandleOffer(c, e.offer, e.now, e.wgOk).cell, k);
        if Reaches(c, e.offer, e.now, e.wgOk) {
          OfferIsRecorded(c, e.offer, e.now, e.wgOk);
        } else {
          OfferIsNotRecorded(c, e.offer, e.now, e.wgOk);
        }
      } else {
        StepRecord(w, e, k);
      }
    }
  }

  lemma {:induction false} RunList(w: World, run: seq<Event>, g: nat)
    requires Safe(w) && Possible(w, run) && ListOk(w, g) && SignaturesOk(w)
    ensures ListOk(After(w, run), g)
    decreases |run|
  {
    if run != [] {
      NextKeeps(w, run[0]);
      StepList(w, run[0], g);
      StepSignatures(w, run[0]);
      RunList(Next(w, run[0]), run[1..], g);
    }
  }

  /** A probe that is still current goes through the types and endpoints of the last offer recorded for its peer. */
  lemma ProbeIsUpToDate(w: World, run: seq<Event>, g: nat)
    requires Initial(w) && Possible(w, run) && g in After(w, run).jobs && Trying(After(w, run).jobs[g])
    requires Current(At(After(w, run).store, After(w, run).jobs[g].key), g)
    ensures var j := After(w, run).jobs[g];
            var last := LastOffer(w, run, j.key, None);
            last.Some? && Signature(j.candidates) == Signature(last.value.candidates)
  {
    InitialIsSafe(w);
    RunList(w, run, g);
    StateCarriesLastOffer(w, run, After(w, run).jobs[g].key);
  }
}
