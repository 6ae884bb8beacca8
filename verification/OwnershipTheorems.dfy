/** A worker that has lost its key stays without it and never writes again. */
module OwnershipTheorems {
  import opened PeerRegions
  import opened PeerInvariants
  import opened AgentMachine
  import opened AgentInvariants
  import opened ClaimTheorems

  /** The three ways in which generation `g` can be out of the game. */
  datatype Loss =
    | Superseded      // the key has another generation, or no state at all
    | ProbeOut        // the probe of `g` has no claim
    | ConfirmOut      // the confirm6 worker of `g` is past its start and has no claim

  predicate Lost(w: World, g: nat, loss: Loss)
    requires g in w.jobs
  {
    var c := At(w.store, w.jobs[g].key);
    match loss
    case Superseded => !Current(c, g)
    case ProbeOut => !ClaimedIn(c, g, Probe)
    case ConfirmOut => w.jobs[g].confirm != NotStarted && !w.jobs[g].confirm.Waiting? && !ClaimedIn(c, g, Confirm6)
  }

  lemma ProbeLoses(c: Cell, g: nat, h: nat, j: Job, act: Act, now: real)
    requires CellInv(c) && JobInv(c, h, j) && h <= c.gen && g <= c.gen
    ensures var d := ProbeStep(c, h, j, act, now).cell;
            && (!Current(c, g) ==> !Current(d, g))
            && (!ClaimedIn(c, g, Probe) ==> !ClaimedIn(d, g, Probe))
            && (!ClaimedIn(c, g, Confirm6) ==> !ClaimedIn(d, g, Confirm6))
            && (!ClaimedIn(c, h, Probe) ==> d == c)
            && (j.confirm != NotStarted ==> ProbeStep(c, h, j, act, now).job.confirm == j.confirm)
  {
  }

  lemma ConfirmLoses(c: Cell, g: nat, h: nat, j: Job, act: Act, now: real)
    requires CellInv(c) && JobInv(c, h, j) && h <= c.gen && g <= c.gen
    ensures var d := ConfirmStep(c, h, j, act, now).cell;
            && (!Current(c, g) ==> !Current(d, g))
            && (!ClaimedIn(c, g, Probe) ==> !ClaimedIn(d, g, Probe))
            && (!ClaimedIn(c, g, Confirm6) && !(g == h && j.confirm.Waiting?) ==> !ClaimedIn(d, g, Confirm6))
            && (!ClaimedIn(c, h, Confirm6) && !j.confirm.Waiting? ==> d == c)
            && (!Current(c, h) ==> d == c)
            && (j.confirm != NotStarted && !j.confirm.Waiting? ==>
                  var k := ConfirmStep(c, h, j, act, now).job.confirm; k != NotStarted && !k.Waiting?)
  {
  }

  lemma LostStaysLostByWork(w: World, e: Event, g: nat, loss: Loss)
    requires Safe(w) && Enabled(w, e) && g in w.jobs && Lost(w, g, loss) && WorksOn(w, e, w.jobs[g].key)
    ensures g in Next(w, e).jobs && Next(w, e).jobs[g].key == w.jobs[g].key && Lost(Next(w, e), g, loss)
  {
    var j, c := w.jobs[e.g], At(w.store, w.jobs[e.g].key);
    assert CellInv(c) && JobInv(c, e.g, j) && g <= w.store.gen;
    if e.ProbeWork? {
      ProbeLoses(c, g, e.g, j, e.act, w.clock);
      ProbeStepKeeps(c, e.g, j, e.act, w.clock);
      PutAt(w.store, j.key, Worked(w, e.g, e.act).cell, j.key);
    } else {
      ConfirmLoses(c, g, e.g, j, e.act, w.clock);
      ConfirmStepKeeps(c, e.g, j, e.act, w.clock);
      PutAt(w.store, j.key, Rekeyed(w, e.g, e.act).cell, j.key);
    }
  }

  lemma OthersKeepTheJob(w: World, e: Event, g: nat)
    requires Safe(w) && Enabled(w, e) && g in w.jobs && !WorksOn(w, e, w.jobs[g].key)
    ensures g in Next(w, e).jobs && Next(w, e).jobs[g] == w.jobs[g]
  {
    match e
    case OfferIn(k, o, now, wgOk) =>
      assert CellInv(At(w.store, k));
      OfferRegion(At(w.store, k), o, now, wgOk);
    case Monitor(order, now, fails) =>
      var p := MonitorPass(w.store, order, now, fails);
      PassLaunches(w.store, order, now, fails);
      assert AllMarked(w.store.gen, p.store, p.launches);
      StartKeeps(w.jobs, p.launches, g);
    case _ =>
  }

  lemma StepKeepsLost(w: World, e: Event, g: nat, loss: Loss)
    requires Safe(w) && Enabled(w, e) && g in w.jobs && Lost(w, g, loss)
    ensures g in Next(w, e).jobs && Next(w, e).jobs[g].key == w.jobs[g].key && Lost(Next(w, e), g, loss)
  {
    if WorksOn(w, e, w.jobs[g].key) {
      LostStaysLostByWork(w, e, g, loss);
    } else {
      OthersKeepTheJob(w, e, g);
      StepOutside(w, e, w.jobs[g].key);
      assert g <= w.store.gen;
    }
  }

  /** The writes that a lost worker can no longer make. */
  predicate Forbidden(g: nat, loss: Loss, e: Event) {
    match loss
    case Superseded => (e.ProbeWork? || e.ConfirmWork?) && e.g == g
    case ProbeOut => e.ProbeWork? && e.g == g
    case ConfirmOut => e.ConfirmWork? && e.g == g
  }

  lemma LostWritesNothing(w: World, e: Event, g: nat, loss: Loss)
    requires Safe(w) && Enabled(w, e) && g in w.jobs && Lost(w, g, loss) && Forbidden(g, loss, e)
    ensures Next(w, e).store == w.store
  {
    var j, c := w.jobs[g], At(w.store, w.jobs[g].key);
    assert CellInv(c) && JobInv(c, g, j);
    if e.ProbeWork? {
      ProbeLoses(c, g, g, j, e.act, w.clock);
      ProbeStepKeeps(c, g, j, e.act, w.clock);
    } else {
      ConfirmLoses(c, g, g, j, e.act, w.clock);
      ConfirmStepKeeps(c, g, j, e.act, w.clock);
    }
    PutSame(w.store, j.key);
  }

  /**
   * Once a worker has lost its key, by replacement, removal, a new claim or the end of its own phase,
   * no later step of that worker changes a state or the peer table, whatever happens in between.
   */
  lemma {:induction false} LossIsFinal(w: World, run: seq<Event>, e: Event, g: nat, loss: Loss)
    requires Safe(w) && g in w.jobs && Lost(w, g, loss)
    requires Possible(w, run) && Enabled(After(w, run), e) && Forbidden(g, loss, e)
    ensures Next(After(w, run), e).store == After(w, run).store
    decreases |run|
  {
    if run == [] {
      LostWritesNothing(w, e, g, loss);
    } else {
      StepKeepsLost(w, run[0], g, loss);
      NextKeeps(w, run[0]);
      LossIsFinal(Next(w, run[0]), run[1..], e, g, loss);
    }
  }
}
