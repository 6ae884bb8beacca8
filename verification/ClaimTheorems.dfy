/** Claims, generations and ownership over whole runs of the agent. */
module ClaimTheorems {
  import opened Basics
  import opened PeerRegions
  import opened PeerInvariants
  import opened AgentMachine
  import opened AgentInvariants
  import opened PassTheorems

  lemma InitialIsSafe(w: World)
    requires Initial(w)
    ensures Safe(w) && ClaimsOk(w.store, w.jobs)
  {
  }

  lemma {:induction false} RunKeepsSafe(w: World, run: seq<Event>)
    requires Safe(w) && Possible(w, run)
    ensures Safe(After(w, run))
    decreases |run|
  {
    if run != [] {
      NextKeeps(w, run[0]);
      RunKeepsSafe(Next(w, run[0]), run[1..]);
    }
  }

  // ---------------------------------------------------------------- what one step can do to a key

  /** A step that is not taken by a worker of this key. */
  ghost predicate Outside(c: Cell, d: Cell) {
    && c.gen <= d.gen
    && (d.st.Some? ==>
          || (c.st.Some? && d.st.value.generation == c.st.value.generation)
          || c.gen < d.st.value.generation <= d.gen)
    && (d.st.Some? && d.st.value.running && d.st.value.generation <= c.gen ==>
          && c.st.Some? && c.st.value.running
          && d.st.value.generation == c.st.value.generation && d.st.value.mode == c.st.value.mode)
    && (Routed(d.peer) ==> Routed(c.peer))
  }

  lemma {:induction false} PassOutside(s: Store, order: seq<Key>, now: real, fails: set<Key>, k: Key)
    requires CellsOk(s)
    ensures Outside(At(s, k), At(MonitorPass(s, order, now, fails).store, k))
    decreases |order|
  {
    if order == [] {
    } else if order[0] !in s.states {
      PassOutside(s, order[1..], now, fails, k);
    } else {
      var c := At(s, order[0]);
      assert CellInv(c) && CellInv(At(s, k));
      var r := MonitorKey(c, now, order[0] !in fails);
      MonitorRegion(c, now, order[0] !in fails);
      PutKeepsCells(s, order[0], r.cell);
      PutAt(s, order[0], r.cell, k);
      if !r.aborted { PassOutside(Put(s, order[0], r.cell), order[1..], now, fails, k); }
    }
  }

  lemma {:induction false} CleanupOutside(s: Store, order: seq<Key>, active: set<Key>, fails: set<Key>, k: Key)
    requires CellsOk(s)
    ensures Outside(At(s, k), At(CleanupPass(s, order, active, fails), k))
    decreases |order|
  {
    if order == [] {
    } else if order[0] in s.states && s.states[order[0]].controller == Initiator && order[0] !in active {
      var c := At(s, order[0]);
      assert CellInv(c) && CellInv(At(s, k));
      CleanupRegion(c, order[0] !in fails);
      var d := CleanupKey(c, order[0] !in fails);
      PutKeepsCells(s, order[0], d);
      PutAt(s, order[0], d, k);
      CleanupOutside(Put(s, order[0], d), order[1..], active, fails, k);
    } else {
      CleanupOutside(s, order[1..], active, fails, k);
    }
  }

  predicate WorksOn(w: World, e: Event, k: Key) {
    || (e.ProbeWork? && e.g in w.jobs && w.jobs[e.g].key == k)
    || (e.ConfirmWork? && e.g in w.jobs && w.jobs[e.g].key == k)
  }

  lemma OfferOutside(w: World, j: Key, o: Offer, now: real, wgOk: bool, k: Key)
    requires Safe(w)
    ensures Outside(At(w.store, k), At(Put(w.store, j, HandleOffer(At(w.store, j), o, now, wgOk).cell), k))
  {
    assert CellInv(At(w.store, j)) && CellInv(At(w.store, k));
    OfferRegion(At(w.store, j), o, now, wgOk);
    PutAt(w.store, j, HandleOffer(At(w.store, j), o, now, wgOk).cell, k);
  }

  lemma RemoveOutside(w: World, j: Key, m: Removal, wgOk: bool, k: Key)
    requires Safe(w)
    ensures Outside(At(w.store, k), At(Put(w.store, j, HandleRemove(At(w.store, j), m, w.clock, wgOk).cell), k))
  {
  }

  lemma ProbeOutside(w: World, g: nat, act: Act, k: Key)
    requires Safe(w) && g in w.jobs && w.jobs[g].key != k
    ensures Outside(At(w.store, k), At(PutJob(w, g, Worked(w, g, act)).store, k))
  {
    var j := w.jobs[g];
    assert CellInv(At(w.store, j.key)) && CellInv(At(w.store, k)) && JobInv(At(w.store, j.key), g, j);
    ProbeStepKeeps(At(w.store, j.key), g, j, act, w.clock);
    PutAt(w.store, j.key, Worked(w, g, act).cell, k);
  }

  lemma ConfirmOutside(w: World, g: nat, act: Act, k: Key)
    requires Safe(w) && g in w.jobs && w.jobs[g].key != k
    ensures Outside(At(w.store, k), At(PutJob(w, g, Rekeyed(w, g, act)).store, k))
  {
  }

  lemma StepOutside(w: World, e: Event, k: Key)
    requires Safe(w) && Enabled(w, e) && !WorksOn(w, e, k)
    ensures Outside(At(w.store, k), At(Next(w, e).store, k))
  {
    assert CellInv(At(w.store, k));
    match e
    case Tick(_) =>
    case Handshake(_, _, _) =>
    case Roam(_, _) =>
    case OfferIn(j, o, now, wgOk) => OfferOutside(w, j, o, now, wgOk, k);
    case RemoveIn(j, m, wgOk) => RemoveOutside(w, j, m, wgOk, k);
    case Monitor(order, now, fails) => PassOutside(w.store, order, now, fails, k);
    case Cleanup(order, active, fails) => CleanupOutside(w.store, order, active, fails, k);
    case ProbeWork(g, act) => ProbeOutside(w, g, act, k);
    case ConfirmWork(g, act) => ConfirmOutside(w, g, act, k);
  }

  // ---------------------------------------------------------------- launches and generations

  lemma {:induction false} StartKeeps(jobs: map<nat, Job>, launches: seq<Launch>, g: nat)
    requires forall i :: 0 <= i < |launches| ==> launches[i].1 != g
    ensures g in Start(jobs, launches) <==> g in jobs
    ensures g in jobs ==> Start(jobs, launches)[g] == jobs[g]
    decreases |launches|
  {
    if launches != [] { StartKeeps(jobs[launches[0].1 := NewJob(launches[0].0)], launches[1..], g); }
  }

  lemma {:induction false} PassFrame(s: Store, order: seq<Key>, now: real, fails: set<Key>, k: Key)
    requires CellsOk(s) && k !in order
    ensures var s' := MonitorPass(s, order, now, fails).store;
            s.gen <= s'.gen && At(s', k) == At(s, k).(gen := s'.gen)
    decreases |order|
  {
    if order == [] {
    } else if order[0] !in s.states {
      PassFrame(s, order[1..], now, fails, k);
    } else {
      var c := At(s, order[0]);
      assert CellInv(c);
      var r := MonitorKey(c, now, order[0] !in fails);
      MonitorRegion(c, now, order[0] !in fails);
      PutKeepsCells(s, order[0], r.cell);
      PutAt(s, order[0], r.cell, k);
      if !r.aborted { PassFrame(Put(s, order[0], r.cell), order[1..], now, fails, k); }
    }
  }

  /** What the pass has promised for one launch: a claim under a generation never used before. */
  predicate Marked(before: nat, s: Store, l: Launch) {
    && before < l.1
    && l.0 in s.states && s.states[l.0].running && s.states[l.0].mode == Probe
    && s.states[l.0].generation == l.1
  }

  predicate AllMarked(before: nat, s: Store, launches: seq<Launch>) {
    forall i :: 0 <= i < |launches| ==> Marked(before, s, launches[i])
  }

  lemma {:induction false} PassLaunches(s: Store, order: seq<Key>, now: real, fails: set<Key>)
    requires CellsOk(s)
    requires forall i, j :: 0 <= i < j < |order| ==> order[i] != order[j]
    ensures var p := MonitorPass(s, order, now, fails); AllMarked(s.gen, p.store, p.launches)
    decreases |order|
  {
    if order == [] {
    } else if order[0] !in s.states {
      PassLaunches(s, order[1..], now, fails);
    } else {
      var k, c := order[0], At(s, order[0]);
      assert CellInv(c);
      var r := MonitorKey(c, now, k !in fails);
      MonitorRegion(c, now, k !in fails);
      var s1 := Put(s, k, r.cell);
      PutKeepsCells(s, k, r.cell);
      PutAt(s, k, r.cell, k);
      if !r.aborted {
        PassLaunches(s1, order[1..], now, fails);
        PassFrame(s1, order[1..], now, fails, k);
        var rest := MonitorPass(s1, order[1..], now, fails);
        assert At(rest.store, k).st == r.cell.st;
        assert r.launched ==> Marked(s.gen, rest.store, (k, r.cell.gen));
      }
    }
  }

  /** A new worker gets a generation above the counter; the earlier workers are still there. */
  lemma NewJobs(w: World, e: Event, g: nat)
    requires Safe(w) && Enabled(w, e)
    ensures g in w.jobs ==> g in Next(w, e).jobs && Next(w, e).jobs[g].key == w.jobs[g].key
    ensures g in Next(w, e).jobs && g !in w.jobs ==> w.store.gen < g
  {
    match e
    case OfferIn(k, o, now, wgOk) =>
      assert CellInv(At(w.store, k));
      OfferRegion(At(w.store, k), o, now, wgOk);
    case Monitor(order, now, fails) =>
      var p := MonitorPass(w.store, order, now, fails);
      PassLaunches(w.store, order, now, fails);
      if g <= w.store.gen {
        assert AllMarked(w.store.gen, p.store, p.launches);
        StartKeeps(w.jobs, p.launches, g);
      }
    case ProbeWork(h, act) =>
      assert CellInv(At(w.store, w.jobs[h].key));
      ProbeStepKeeps(At(w.store, w.jobs[h].key), h, w.jobs[h], act, w.clock);
    case ConfirmWork(h, act) =>
      assert CellInv(At(w.store, w.jobs[h].key));
      ConfirmStepKeeps(At(w.store, w.jobs[h].key), h, w.jobs[h], act, w.clock);
    case _ =>
  }

  lemma {:induction false} StartedOrThere(jobs: map<nat, Job>, launches: seq<Launch>, g: nat)
    requires g in Start(jobs, launches)
    ensures (g in jobs && Start(jobs, launches)[g] == jobs[g]) || exists k :: Start(jobs, launches)[g] == NewJob(k)
    decreases |launches|
  {
    if launches != [] { StartedOrThere(jobs[launches[0].1 := NewJob(launches[0].0)], launches[1..], g); }
  }

  /** Only its own steps change the record of a worker, and a new one has everything before it. */
  lemma OtherJobsStay(w: World, e: Event, g: nat)
    requires Safe(w) && Enabled(w, e) && !(e.ProbeWork? && e.g == g) && !(e.ConfirmWork? && e.g == g)
    ensures g in w.jobs ==> g in Next(w, e).jobs && Next(w, e).jobs[g] == w.jobs[g]
    ensures g in Next(w, e).jobs && g !in w.jobs ==> exists k :: Next(w, e).jobs[g] == NewJob(k)
  {
    match e
    case OfferIn(k, o, now, wgOk) =>
      assert CellInv(At(w.store, k));
      OfferRegion(At(w.store, k), o, now, wgOk);
    case Monitor(order, now, fails) =>
      var p := MonitorPass(w.store, order, now, fails);
      PassLaunches(w.store, order, now, fails);
      if !p.aborted {
        assert AllMarked(w.store.gen, p.store, p.launches);
        if g in w.jobs {
          StartKeeps(w.jobs, p.launches, g);
        } else if g in Start(w.jobs, p.launches) {
          StartedOrThere(w.jobs, p.launches, g);
        }
      }
    case _ =>
  }

  // ---------------------------------------------------------------- no claim is stranded

  /**
   * `worker_running` and the workers agree: a claim has a live worker of its own generation and of
   * the kind its mode says; a probe that is still at work under the current generation has the claim;
   * and a rekey worker that is at work under the current generation has it as long as the mode is still
   * its own, which RekeyTheorems makes exact.
   */
  predicate ClaimsMatchWorkers(w: World) {
    && (forall k :: k in w.store.states && w.store.states[k].running ==> HasWorker(w, k))
    && (forall g :: g in w.jobs && Working(w.jobs[g].probe) && Current(At(w.store, w.jobs[g].key), g)
          ==> ClaimedIn(At(w.store, w.jobs[g].key), g, Probe))
    && (forall g :: g in w.jobs && Current(At(w.store, w.jobs[g].key), g)
          ==> (ClaimedIn(At(w.store, w.jobs[g].key), g, Confirm6)
               <==> Confirming(w.jobs[g].confirm) && w.store.states[w.jobs[g].key].mode == Confirm6))
  }

  predicate HasWorker(w: World, k: Key)
    requires k in w.store.states
  {
    var s := w.store.states[k];
    && s.generation in w.jobs && w.jobs[s.generation].key == k
    && match s.mode
       case Probe =>
         && w.jobs[s.generation].confirm == NotStarted
         && (Working(w.jobs[s.generation].probe) || w.jobs[s.generation].probe == Finishing)
       case Confirm6 =>
         && Confirming(w.jobs[s.generation].confirm)
         && (w.jobs[s.generation].probe == Finishing || w.jobs[s.generation].probe == Done)
       case _ => false
  }

  lemma BackedIsLive(w: World)
    requires Safe(w) && ClaimsOk(w.store, w.jobs)
    ensures ClaimsMatchWorkers(w)
  {
    forall g | g in w.jobs && Current(At(w.store, w.jobs[g].key), g)
      ensures Working(w.jobs[g].probe) ==> ClaimedIn(At(w.store, w.jobs[g].key), g, Probe)
      ensures ClaimedIn(At(w.store, w.jobs[g].key), g, Confirm6)
              <==> Confirming(w.jobs[g].confirm) && w.store.states[w.jobs[g].key].mode == Confirm6
    {
      assert JobInv(At(w.store, w.jobs[g].key), g, w.jobs[g]);
    }
  }

  predicate Blocked(s: Store, k: Key, now: real, fails: set<Key>) {
    k in s.states && PassRemoves(At(s, k), now) && k in fails
  }

  predicate DueAt(s: Store, k: Key, now: real) {
    k in s.states && ProbeDue(At(s, k), now)
  }

  /** The first key of the pass whose remove is needed and fails, or the end. */
  function FirstBlocked(s: Store, order: seq<Key>, now: real, fails: set<Key>): (j: nat)
    ensures j <= |order| && (j < |order| ==> Blocked(s, order[j], now, fails))
    ensures forall i :: 0 <= i < j ==> !Blocked(s, order[i], now, fails)
  {
    if order == [] || Blocked(s, order[0], now, fails) then 0 else 1 + FirstBlocked(s, order[1..], now, fails)
  }

  /** A key that is due comes before the first key whose remove is needed and fails. */
  predicate Drops(w: World, e: Event) {
    && e.Monitor?
    && var j := FirstBlocked(w.store, e.order, e.now, e.fails);
    && j < |e.order|
    && exists i :: 0 <= i < j && DueAt(w.store, e.order[i], e.now)
  }

  /** Two stores that differ at most in the counter, as far as `order` goes. */
  predicate SameKeys(s: Store, s': Store, order: seq<Key>) {
    forall i :: 0 <= i < |order| ==> At(s', order[i]) == At(s, order[i]).(gen := s'.gen)
  }

  lemma {:induction false} SameFirst(s: Store, s': Store, order: seq<Key>, now: real, fails: set<Key>)
    requires SameKeys(s, s', order)
    ensures FirstBlocked(s', order, now, fails) == FirstBlocked(s, order, now, fails)
    decreases |order|
  {
    if order != [] {
      assert forall i :: 0 <= i < |order[1..]| ==> order[1..][i] == order[i + 1];
      SameFirst(s, s', order[1..], now, fails);
    }
  }

  /** Neither test looks at the counter. */
  lemma SameTests(s: Store, s': Store, k: Key, now: real, fails: set<Key>)
    requires At(s', k) == At(s, k).(gen := s'.gen)
    ensures Blocked(s', k, now, fails) <==> Blocked(s, k, now, fails)
    ensures DueAt(s', k, now) <==> DueAt(s, k, now)
  {
  }

  lemma {:induction false} PassStopsExactly(s: Store, order: seq<Key>, now: real, fails: set<Key>)
    requires forall i, j :: 0 <= i < j < |order| ==> order[i] != order[j]
    ensures var p, j := MonitorPass(s, order, now, fails), FirstBlocked(s, order, now, fails);
            && (p.aborted <==> j < |order|)
            && (p.launches != [] <==> exists i :: 0 <= i < j && DueAt(s, order[i], now))
    decreases |order|
  {
    if order != [] {
      var k, rest, j := order[0], order[1..], FirstBlocked(s, order, now, fails);
      var s1 := s;
      if k in s.states {
        PassOutcome(At(s, k), now, k !in fails);
        s1 := Put(s, k, MonitorKey(At(s, k), now, k !in fails).cell);
      }
      assert forall i :: 0 <= i < |rest| ==> rest[i] == order[i + 1];
      if j > 0 {
        SameFirst(s, s1, rest, now, fails);
        PassStopsExactly(s1, rest, now, fails);
        forall i | 0 <= i < |rest| ensures DueAt(s1, rest[i], now) <==> DueAt(s, rest[i], now) {
          SameTests(s, s1, rest[i], now, fails);
        }
        assert forall i :: 0 < i < j ==> order[i] == rest[i - 1];
      }
    }
  }

  lemma DropsExactly(w: World, e: Event)
    requires Enabled(w, e)
    ensures Drops(w, e) <==> LosesLaunch(w, e)
  {
    if e.Monitor? { PassStopsExactly(w.store, e.order, e.now, e.fails); }
  }

  /** A launch that is dropped leaves a claim without any worker of its generation. */
  lemma DroppedLaunchStrands(w: World, e: Event)
    requires Safe(w) && Enabled(w, e) && Drops(w, e)
    ensures var w' := Next(w, e);
            exists k :: k in w'.store.states && w'.store.states[k].running && !HasWorker(w', k)
  {
    DropsExactly(w, e);
    var p := MonitorPass(w.store, e.order, e.now, e.fails);
    PassLaunches(w.store, e.order, e.now, e.fails);
    assert Marked(w.store.gen, p.store, p.launches[0]);
    var k := p.launches[0].0;
    assert !HasWorker(Next(w, e), k);
  }

  /** Some monitor pass of the run drops a launch. */
  predicate DropsSomewhere(w: World, run: seq<Event>)
    requires Possible(w, run)
    decreases |run|
  {
    run != [] && (Drops(w, run[0]) || DropsSomewhere(Next(w, run[0]), run[1..]))
  }

  /** Claims and workers agree at every point of the run. */
  predicate AlwaysMatched(w: World, run: seq<Event>)
    requires Possible(w, run)
    decreases |run|
  {
    ClaimsMatchWorkers(w) && (run == [] || AlwaysMatched(Next(w, run[0]), run[1..]))
  }

  lemma {:induction false} MatchedUnlessDropped(w: World, run: seq<Event>)
    requires Possible(w, run) && Safe(w) && ClaimsOk(w.store, w.jobs)
    ensures AlwaysMatched(w, run) <==> !DropsSomewhere(w, run)
    decreases |run|
  {
    BackedIsLive(w);
    if run != [] {
      var w' := Next(w, run[0]);
      NextKeeps(w, run[0]);
      DropsExactly(w, run[0]);
      if Drops(w, run[0]) {
        DroppedLaunchStrands(w, run[0]);
        assert !ClaimsMatchWorkers(w');
      } else {
        MatchedUnlessDropped(w', run[1..]);
      }
    }
  }

  /** From the start of the agent, claims match workers forever exactly if no pass drops a launch. */
  lemma NoClaimIsStranded(w: World, run: seq<Event>)
    requires Initial(w) && Possible(w, run)
    ensures AlwaysMatched(w, run) <==> !DropsSomewhere(w, run)
  {
    InitialIsSafe(w);
    MatchedUnlessDropped(w, run);
  }

  /** No remove of a monitor pass fails. */
  predicate PassesSucceed(run: seq<Event>) {
    forall i :: 0 <= i < |run| && run[i].Monitor? ==> run[i].fails == {}
  }

  lemma {:induction false} NothingToDrop(w: World, run: seq<Event>)
    requires Possible(w, run) && PassesSucceed(run)
    ensures !DropsSomewhere(w, run)
    decreases |run|
  {
    if run != [] { NothingToDrop(Next(w, run[0]), run[1..]); }
  }

  /** In particular forever, if the removes of the monitor succeed, whatever else fails. */
  lemma SucceedingPassesStrandNothing(w: World, run: seq<Event>)
    requires Initial(w) && Possible(w, run) && PassesSucceed(run)
    ensures AlwaysMatched(w, run)
  {
    NothingToDrop(w, run);
    NoClaimIsStranded(w, run);
  }

  /**
   * The monitor never releases a probe claim, stranded or not, unless the lease has run out and the
   * peer could be removed.
   */
  lemma MonitorReleasesOnlyAtLeaseEnd(c: Cell, g: nat, now: real, wgOk: bool)
    requires CellInv(c) && ClaimedIn(c, g, Probe)
    ensures ClaimedIn(MonitorKey(c, now, wgOk).cell, g, Probe)
            <==> c.st.value.controlExpired || c.st.value.lease == 0.0 || now < c.st.value.lease
                 || (c.peer.Some? && !wgOk)
  {
  }

  // ---------------------------------------------------------------- generations

  /** Every generation in use, in a state or in a worker, is at most the counter. */
  lemma GenerationsAreBounded(w: World, k: Key, g: nat)
    requires Safe(w)
    ensures k in w.store.states ==> w.store.states[k].generation <= w.store.gen
    ensures g in w.jobs ==> g <= w.store.gen
  {
    assert CellInv(At(w.store, k));
  }

  lemma {:induction false} CounterGrows(w: World, run: seq<Event>)
    requires Safe(w) && Possible(w, run)
    ensures w.store.gen <= After(w, run).store.gen
    decreases |run|
  {
    if run != [] {
      StepCounter(w, run[0]);
      NextKeeps(w, run[0]);
      CounterGrows(Next(w, run[0]), run[1..]);
    }
  }

  lemma StepCounter(w: World, e: Event)
    requires Safe(w) && Enabled(w, e)
    ensures w.store.gen <= Next(w, e).store.gen
  {
    if e.ProbeWork? {
      var j := w.jobs[e.g];
      assert CellInv(At(w.store, j.key)) && JobInv(At(w.store, j.key), e.g, j);
      ProbeStepKeeps(At(w.store, j.key), e.g, j, e.act, w.clock);
    } else if e.ConfirmWork? {
      var j := w.jobs[e.g];
      assert CellInv(At(w.store, j.key)) && JobInv(At(w.store, j.key), e.g, j);
      ConfirmStepKeeps(At(w.store, j.key), e.g, j, e.act, w.clock);
    } else {
      StepOutside(w, e, "");
    }
  }

  /**
   * A worker launched at any later time has a generation above every generation that a state or a
   * worker had, also if the state was deleted and created again in between.
   */
  lemma LaunchesAreFresh(w: World, run: seq<Event>, e: Event, launched: nat, k: Key, g: nat)
    requires Safe(w) && Possible(w, run) && Enabled(After(w, run), e)
    requires launched in Next(After(w, run), e).jobs && launched !in After(w, run).jobs
    ensures k in w.store.states ==> w.store.states[k].generation < launched
    ensures g in w.jobs ==> g < launched
  {
    RunKeepsSafe(w, run);
    CounterGrows(w, run);
    NewJobs(After(w, run), e, launched);
    GenerationsAreBounded(w, k, g);
  }
}
