/** The invariant of the whole agent and its preservation by every step. */
module AgentInvariants {
  import opened Basics
  import opened Candidates
  import opened PeerRegions
  import opened PeerInvariants
  import opened AgentMachine

  predicate Current(c: Cell, g: nat) {
    c.st.Some? && c.st.value.generation == g
  }

  /** The probe is before its promotion and has not been told to leave. */
  predicate Working(p: ProbePc) {
    !p.Promoted? && !p.Finishing? && !p.Done?
  }

  predicate Confirming(p: ConfirmPc) {
    p.Rekeying? || p.Answered? || p.TimedOut? || p.Ending?
  }

  /** The candidate a probe is busy with exists. */
  predicate InRange(j: Job) {
    match j.probe
    case Choosing(i) => i <= |j.candidates|
    case Reading(i) => i < |j.candidates|
    case Ready(i, _) => i < |j.candidates|
    case Polling(i, _) => i < |j.candidates|
    case Querying(i, _) => i < |j.candidates|
    case Seen(i, _, _, _) => i < |j.candidates|
    case Promoted(i, _) => i < |j.candidates|
    case Empty => false
    case _ => true
  }

  /** What a probe has read from the table is still a lower bound for it. */
  predicate Knows(c: Cell, p: ProbePc) {
    match p
    case Ready(_, b) => b <= Latest(c.peer)
    case Polling(_, b) => b <= Latest(c.peer)
    case Querying(_, b) => b <= Latest(c.peer)
    case Seen(_, b, l, _) => b < l <= Latest(c.peer)
    case _ => true
  }

  /** How the workers of generation `g` fit the key they work for. */
  ghost predicate JobInv(c: Cell, g: nat, j: Job) {
    && InRange(j)
    && (j.confirm != NotStarted ==> j.probe == Finishing || j.probe == Done)
    && (Current(c, g) && Working(j.probe) ==> ClaimedIn(c, g, Probe))
    && (ClaimedIn(c, g, Probe) ==> j.confirm == NotStarted && (Working(j.probe) || j.probe == Finishing))
    && (ClaimedIn(c, g, Confirm6) ==> Confirming(j.confirm))
    && (Current(c, g) && c.st.value.mode == Confirm6 ==> c.st.value.running)
    && (Current(c, g) && (j.probe.Promoted? || j.confirm.Waiting?) ==> c.st.value.mode == Direct)
    && (Current(c, g) ==> Knows(c, j.probe))
  }

  // ---------------------------------------------------------------- worker steps

  /** All that a worker step of generation `g` can do to its key. */
  ghost predicate Internal(c: Cell, d: Cell, g: nat) {
    && c.gen <= d.gen
    && (!Current(c, g) ==> d == c)
    && (d.st.Some? <==> c.st.Some?)
    && (d.st.Some? ==>
          || d.st.value.generation == c.st.value.generation
          || (c.gen < d.st.value.generation <= d.gen && !d.st.value.running))
  }

  lemma ProbeStepKeeps(c: Cell, g: nat, j: Job, act: Act, now: real)
    requires CellInv(c) && JobInv(c, g, j) && g <= c.gen
    ensures var r := ProbeStep(c, g, j, act, now);
            CellInv(r.cell) && JobInv(r.cell, g, r.job) && Internal(c, r.cell, g) && r.job.key == j.key
  {
  }

  lemma ConfirmStepKeeps(c: Cell, g: nat, j: Job, act: Act, now: real)
    requires CellInv(c) && JobInv(c, g, j) && g <= c.gen
    ensures var r := ConfirmStep(c, g, j, act, now);
            CellInv(r.cell) && JobInv(r.cell, g, r.job) && Internal(c, r.cell, g) && r.job.key == j.key
  {
  }

  // ---------------------------------------------------------------- the world

  /** Every claim is backed by the workers of its generation, which work for the same key. */
  predicate Backed(k: Key, s: PeerState, jobs: map<nat, Job>) {
    s.running ==> s.generation in jobs && jobs[s.generation].key == k
  }

  ghost predicate CellsOk(s: Store) {
    forall k: Key :: CellInv(At(s, k))
  }

  ghost predicate JobsOk(s: Store, jobs: map<nat, Job>) {
    forall g :: g in jobs ==> g <= s.gen && JobInv(At(s, jobs[g].key), g, jobs[g])
  }

  predicate ClaimsOk(s: Store, jobs: map<nat, Job>) {
    forall k :: k in s.states ==> Backed(k, s.states[k], jobs)
  }

  /** What every step keeps, whatever fails. */
  ghost predicate Safe(w: World) {
    CellsOk(w.store) && JobsOk(w.store, w.jobs)
  }

  lemma PutAt(s: Store, k: Key, c: Cell, j: Key)
    ensures At(Put(s, k, c), j) == if j == k then c else At(s, j).(gen := c.gen)
  {
  }

  lemma PutSame(s: Store, k: Key)
    ensures Put(s, k, At(s, k)) == s
  {
  }

  // ---------------------------------------------------------------- regions entered from outside

  function LaunchInto(jobs: map<nat, Job>, k: Key, g: nat, launched: bool): map<nat, Job> {
    if launched then jobs[g := NewJob(k)] else jobs
  }

  lemma PutKeepsCells(s: Store, k: Key, d: Cell)
    requires CellsOk(s) && CellInv(d) && s.gen <= d.gen
    ensures CellsOk(Put(s, k, d))
  {
    forall j: Key ensures CellInv(At(Put(s, k, d), j)) {
      PutAt(s, k, d, j);
      assert CellInv(At(s, j));
    }
  }

  lemma ExternalKeepsJob(c: Cell, d: Cell, launched: bool, g: nat, j: Job)
    requires CellInv(c) && External(c, d, launched) && g <= c.gen && JobInv(c, g, j)
    ensures JobInv(d, g, j)
  {
  }

  lemma ExternalKeepsJobs(s: Store, jobs: map<nat, Job>, k: Key, d: Cell, launched: bool)
    requires CellsOk(s) && JobsOk(s, jobs) && External(At(s, k), d, launched)
    ensures JobsOk(Put(s, k, d), LaunchInto(jobs, k, d.gen, launched))
  {
    var s', jobs' := Put(s, k, d), LaunchInto(jobs, k, d.gen, launched);
    forall g | g in jobs' ensures g <= s'.gen && JobInv(At(s', jobs'[g].key), g, jobs'[g]) {
      var j := jobs'[g];
      PutAt(s, k, d, j.key);
      if g in jobs && jobs[g] == j {
        var c := At(s, j.key);
        assert CellInv(c) && JobInv(c, g, j);
        if j.key == k { ExternalKeepsJob(c, d, launched, g, j); }
      }
    }
  }

  lemma ExternalKeepsClaims(s: Store, jobs: map<nat, Job>, k: Key, d: Cell, launched: bool)
    requires CellsOk(s) && JobsOk(s, jobs) && ClaimsOk(s, jobs) && External(At(s, k), d, launched)
    ensures ClaimsOk(Put(s, k, d), LaunchInto(jobs, k, d.gen, launched))
  {
  }

  // ---------------------------------------------------------------- worker regions

  /** Workers write only their own key and their own record. */
  lemma WorkKeepsSafe(w: World, g: nat, r: JobResult)
    requires Safe(w) && g in w.jobs && r.job.key == w.jobs[g].key
    requires CellInv(r.cell) && JobInv(r.cell, g, r.job) && Internal(At(w.store, r.job.key), r.cell, g)
    ensures Safe(PutJob(w, g, r))
  {
    var k, w' := r.job.key, PutJob(w, g, r);
    PutKeepsCells(w.store, k, r.cell);
    forall h | h in w'.jobs ensures h <= w'.store.gen && JobInv(At(w'.store, w'.jobs[h].key), h, w'.jobs[h]) {
      PutAt(w.store, k, r.cell, w'.jobs[h].key);
      if h != g { assert JobInv(At(w.store, w.jobs[h].key), h, w.jobs[h]); }
    }
  }

  lemma WorkKeepsClaims(w: World, g: nat, r: JobResult)
    requires Safe(w) && ClaimsOk(w.store, w.jobs) && g in w.jobs && r.job.key == w.jobs[g].key
    requires Internal(At(w.store, r.job.key), r.cell, g)
    ensures ClaimsOk(PutJob(w, g, r).store, PutJob(w, g, r).jobs)
  {
  }

  lemma WorkKeeps(w: World, g: nat, r: JobResult)
    requires Safe(w) && g in w.jobs && r.job.key == w.jobs[g].key
    requires CellInv(r.cell) && JobInv(r.cell, g, r.job) && Internal(At(w.store, r.job.key), r.cell, g)
    ensures var w' := PutJob(w, g, r);
            Safe(w') && (ClaimsOk(w.store, w.jobs) ==> ClaimsOk(w'.store, w'.jobs))
  {
    WorkKeepsSafe(w, g, r);
    if ClaimsOk(w.store, w.jobs) { WorkKeepsClaims(w, g, r); }
  }

  // ---------------------------------------------------------------- the kernel

  /** Handshakes and roaming never remove an entry, a route or an earlier handshake. */
  lemma KernelKeepsSafe(w: World, k: Key, p: WgPeer)
    requires Safe(w) && k in w.store.table
    requires p == w.store.table[k].(latest := p.latest, endpoint := p.endpoint)
    requires w.store.table[k].latest <= p.latest
    ensures Safe(w.(store := w.store.(table := w.store.table[k := p])))
  {
    var w' := w.(store := w.store.(table := w.store.table[k := p]));
    forall j: Key ensures CellInv(At(w'.store, j)) {
      assert CellInv(At(w.store, j));
    }
    forall g | g in w'.jobs ensures g <= w'.store.gen && JobInv(At(w'.store, w'.jobs[g].key), g, w'.jobs[g]) {
      assert JobInv(At(w.store, w.jobs[g].key), g, w.jobs[g]);
    }
  }

  // ---------------------------------------------------------------- passes over all keys

  /** A monitor pass keeps the invariants once the workers it marked are started. */
  lemma {:induction false} PassKeeps(s: Store, jobs: map<nat, Job>, order: seq<Key>, now: real, fails: set<Key>)
    requires CellsOk(s) && JobsOk(s, jobs)
    ensures var p := MonitorPass(s, order, now, fails);
            && CellsOk(p.store) && JobsOk(p.store, Start(jobs, p.launches))
            && (ClaimsOk(s, jobs) ==> ClaimsOk(p.store, Start(jobs, p.launches)))
    decreases |order|
  {
    if order == [] {
    } else if order[0] !in s.states {
      PassKeeps(s, jobs, order[1..], now, fails);
    } else {
      var k, c := order[0], At(s, order[0]);
      assert CellInv(c);
      var r := MonitorKey(c, now, k !in fails);
      MonitorRegion(c, now, k !in fails);
      PutKeepsCells(s, k, r.cell);
      ExternalKeepsJobs(s, jobs, k, r.cell, r.launched);
      if ClaimsOk(s, jobs) { ExternalKeepsClaims(s, jobs, k, r.cell, r.launched); }
      if !r.aborted {
        PassKeeps(Put(s, k, r.cell), LaunchInto(jobs, k, r.cell.gen, r.launched), order[1..], now, fails);
      }
    }
  }

  /** Without the launches, the workers that were there before still fit. */
  lemma {:induction false} AbortedPassKeeps(s: Store, jobs: map<nat, Job>, order: seq<Key>, now: real, fails: set<Key>)
    requires CellsOk(s) && JobsOk(s, jobs)
    ensures JobsOk(MonitorPass(s, order, now, fails).store, jobs)
    decreases |order|
  {
    if order == [] {
    } else if order[0] !in s.states {
      AbortedPassKeeps(s, jobs, order[1..], now, fails);
    } else {
      var k, c := order[0], At(s, order[0]);
      assert CellInv(c);
      var r := MonitorKey(c, now, k !in fails);
      MonitorRegion(c, now, k !in fails);
      PutKeepsCells(s, k, r.cell);
      ExternalKeepsJobs(s, jobs, k, r.cell, r.launched);
      assert JobsOk(Put(s, k, r.cell), jobs) by {
        var jobs' := LaunchInto(jobs, k, r.cell.gen, r.launched);
        assert forall g :: g in jobs ==> g in jobs' && jobs'[g] == jobs[g];
      }
      if !r.aborted { AbortedPassKeeps(Put(s, k, r.cell), jobs, order[1..], now, fails); }
    }
  }

  lemma {:induction false} CleanupKeeps(s: Store, jobs: map<nat, Job>, order: seq<Key>, active: set<Key>, fails: set<Key>)
    requires CellsOk(s) && JobsOk(s, jobs)
    ensures var s' := CleanupPass(s, order, active, fails);
            CellsOk(s') && JobsOk(s', jobs) && (ClaimsOk(s, jobs) ==> ClaimsOk(s', jobs))
    decreases |order|
  {
    if order == [] {
    } else if order[0] in s.states && s.states[order[0]].controller == Initiator && order[0] !in active {
      var k, c := order[0], At(s, order[0]);
      assert CellInv(c);
      var d := CleanupKey(c, k !in fails);
      CleanupRegion(c, k !in fails);
      PutKeepsCells(s, k, d);
      ExternalKeepsJobs(s, jobs, k, d, false);
      if ClaimsOk(s, jobs) { ExternalKeepsClaims(s, jobs, k, d, false); }
      CleanupKeeps(Put(s, k, d), jobs, order[1..], active, fails);
    } else {
      CleanupKeeps(s, jobs, order[1..], active, fails);
    }
  }

  // ---------------------------------------------------------------- every step

  /** The monitor leaves its region by an exception after it has marked a worker for launch. */
  predicate LosesLaunch(w: World, e: Event) {
    && e.Monitor?
    && var p := MonitorPass(w.store, e.order, e.now, e.fails); p.aborted && p.launches != []
  }

  lemma OfferKeeps(w: World, k: Key, o: Offer, now: real, wgOk: bool)
    requires Safe(w) && now <= w.clock && o.started > 0
    ensures var w' := Next(w, OfferIn(k, o, now, wgOk));
            Safe(w') && (ClaimsOk(w.store, w.jobs) ==> ClaimsOk(w'.store, w'.jobs))
  {
    var c := At(w.store, k);
    assert CellInv(c);
    var r := HandleOffer(c, o, now, wgOk);
    OfferRegion(c, o, now, wgOk);
    PutKeepsCells(w.store, k, r.cell);
    ExternalKeepsJobs(w.store, w.jobs, k, r.cell, r.outcome == Accepted(true));
    if ClaimsOk(w.store, w.jobs) {
      ExternalKeepsClaims(w.store, w.jobs, k, r.cell, r.outcome == Accepted(true));
    }
  }

  lemma RemoveKeeps(w: World, k: Key, m: Removal, wgOk: bool)
    requires Safe(w)
    ensures var w' := Next(w, RemoveIn(k, m, wgOk));
            Safe(w') && (ClaimsOk(w.store, w.jobs) ==> ClaimsOk(w'.store, w'.jobs))
  {
    var c := At(w.store, k);
    assert CellInv(c);
    var r := HandleRemove(c, m, w.clock, wgOk);
    RemoveRegion(c, m, w.clock, wgOk);
    PutKeepsCells(w.store, k, r.cell);
    ExternalKeepsJobs(w.store, w.jobs, k, r.cell, false);
    if ClaimsOk(w.store, w.jobs) { ExternalKeepsClaims(w.store, w.jobs, k, r.cell, false); }
  }

  lemma ProbeKeeps(w: World, g: nat, act: Act)
    requires Safe(w) && g in w.jobs
    ensures var w' := PutJob(w, g, Worked(w, g, act));
            Safe(w') && (ClaimsOk(w.store, w.jobs) ==> ClaimsOk(w'.store, w'.jobs))
  {
    var c := At(w.store, w.jobs[g].key);
    assert CellInv(c) && JobInv(c, g, w.jobs[g]);
    ProbeStepKeeps(c, g, w.jobs[g], act, w.clock);
    WorkKeeps(w, g, Worked(w, g, act));
  }

  lemma ConfirmKeeps(w: World, g: nat, act: Act)
    requires Safe(w) && g in w.jobs
    ensures var w' := PutJob(w, g, Rekeyed(w, g, act));
            Safe(w') && (ClaimsOk(w.store, w.jobs) ==> ClaimsOk(w'.store, w'.jobs))
  {
    var c := At(w.store, w.jobs[g].key);
    assert CellInv(c) && JobInv(c, g, w.jobs[g]);
    ConfirmStepKeeps(c, g, w.jobs[g], act, w.clock);
    WorkKeeps(w, g, Rekeyed(w, g, act));
  }

  /** Every step keeps the safety invariant, and all but a lost launch keep the claims backed. */
  lemma NextKeeps(w: World, e: Event)
    requires Safe(w) && Enabled(w, e)
    ensures Safe(Next(w, e))
    ensures ClaimsOk(w.store, w.jobs) && !LosesLaunch(w, e) ==> ClaimsOk(Next(w, e).store, Next(w, e).jobs)
  {
    match e
    case Tick(_) =>
    case Handshake(k, at, endpoint) => KernelKeepsSafe(w, k, w.store.table[k].(latest := at, endpoint := endpoint));
    case Roam(k, endpoint) => KernelKeepsSafe(w, k, w.store.table[k].(endpoint := endpoint));
    case OfferIn(k, o, now, wgOk) => OfferKeeps(w, k, o, now, wgOk);
    case RemoveIn(k, m, wgOk) => RemoveKeeps(w, k, m, wgOk);
    case Monitor(order, now, fails) =>
      PassKeeps(w.store, w.jobs, order, now, fails);
      AbortedPassKeeps(w.store, w.jobs, order, now, fails);
    case Cleanup(order, active, fails) => CleanupKeeps(w.store, w.jobs, order, active, fails);
    case ProbeWork(g, act) => ProbeKeeps(w, g, act);
    case ConfirmWork(g, act) => ConfirmKeeps(w, g, act);
  }
}
