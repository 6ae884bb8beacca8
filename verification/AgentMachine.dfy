/**
 * The agent as a state machine: locked regions, background workers and the environment, interleaved
 * at every lock boundary.
 */
module AgentMachine {
  import opened Basics
  import opened Candidates
  import opened PeerRegions

  // ---------------------------------------------------------------- what the lock protects

  datatype Store = Store(states: map<Key, PeerState>, table: map<Key, WgPeer>, gen: nat)

  function At(s: Store, k: Key): Cell {
    Cell(Get(s.states, k), Get(s.table, k), s.gen)
  }

  function Put(s: Store, k: Key, c: Cell): Store {
    Store(Set(s.states, k, c.st), Set(s.table, k, c.peer), c.gen)
  }

  /** A worker to be started: its key and its generation. */
  type Launch = (Key, nat)

  datatype Pass = Pass(store: Store, launches: seq<Launch>, aborted: bool)

  /**
   * The locked loop of the monitor over `order`.  A remove command that fails for a key in `fails`
   * raises, which abandons the keys that are left.
   */
  function MonitorPass(s: Store, order: seq<Key>, now: real, fails: set<Key>): Pass
    decreases |order|
  {
    if order == [] then Pass(s, [], false)
    else if order[0] !in s.states then MonitorPass(s, order[1..], now, fails)
    else
      var r := MonitorKey(At(s, order[0]), now, order[0] !in fails);
      var s1 := Put(s, order[0], r.cell);
      if r.aborted then Pass(s1, [], true)
      else
        var rest := MonitorPass(s1, order[1..], now, fails);
        if r.launched then rest.(launches := [(order[0], r.cell.gen)] + rest.launches) else rest
  }

  /** The locked loop that drops initiator states outside `active`; failed removes are only logged. */
  function CleanupPass(s: Store, order: seq<Key>, active: set<Key>, fails: set<Key>): Store
    decreases |order|
  {
    if order == [] then s
    else if order[0] in s.states && s.states[order[0]].controller == Initiator && order[0] !in active then
      CleanupPass(Put(s, order[0], CleanupKey(At(s, order[0]), order[0] !in fails)), order[1..], active, fails)
    else CleanupPass(s, order[1..], active, fails)
  }

  // ---------------------------------------------------------------- workers

  /** Where a probe worker stands; `i` is the candidate index, `baseline` the handshake it read. */
  datatype ProbePc =
    | Launched
    | Empty
    | Choosing(i: nat)
    | Reading(i: nat)
    | Ready(i: nat, baseline: real)
    | Polling(i: nat, baseline: real)
    | Querying(i: nat, baseline: real)
    | Seen(i: nat, baseline: real, latest: real, endpoint: string)
    | Exhausted
    | Promoted(i: nat, endpoint: string)
    | Finishing
    | Done

  /** Where the confirm6 worker stands that a probe may start under its own generation. */
  datatype ConfirmPc =
    | NotStarted
    | Waiting(endpoint: string)
    | Rekeying(endpoint: string)
    | Answered(endpoint: string)
    | TimedOut
    | Ending
    | Ended

  /** The workers of one generation. */
  datatype Job = Job(key: Key, candidates: seq<Candidate>, probe: ProbePc, confirm: ConfirmPc)

  /**
   * What happens to a worker at its next step: it goes on, its polling window closes, or it leaves
   * because STOP is set or a query raised.
   */
  datatype Act = Go(wg: Wg, rekey: bool) | Deadline | Quit

  /** The remove command of this step, if it issues one, succeeds. */
  predicate Removes(act: Act) {
    act.Go? ==> act.wg.removed
  }

  datatype JobResult = JobResult(cell: Cell, job: Job)

  function NewJob(k: Key): Job {
    Job(k, [], Launched, NotStarted)
  }

  function ProbeStep(c: Cell, g: nat, j: Job, act: Act, now: real): JobResult {
    var end := JobResult(c, j.(probe := Finishing));
    if j.probe == Done then JobResult(c, j)
    else if j.probe == Finishing then
      JobResult(Epilogue(c, g, Probe, now, Removes(act)), j.(probe := Done))
    else if act.Quit? then end
    else match j.probe
      case Launched =>
        if !Claimed(c, g) then end
        else JobResult(c, j.(candidates := c.st.value.candidates,
                             probe := if c.st.value.candidates == [] then Empty else Choosing(0)))
      case Empty => JobResult(ProbeEmpty(c, g), j.(probe := Finishing))
      case Choosing(i) =>
        if i >= |j.candidates| then JobResult(c, j.(probe := Exhausted))
        else if Claimed(c, g) then JobResult(c, j.(probe := Reading(i)))
        else end
      case Reading(i) => JobResult(c, j.(probe := Ready(i, Latest(c.peer))))
      case Ready(i, b) =>
        if !Claimed(c, g) then end
        else if act.Go? && act.wg.programmed && i < |j.candidates| then
          JobResult(ProbeSet(c, g, j.candidates[i].endpoint, true), j.(probe := Polling(i, b)))
        else JobResult(c, j.(probe := Choosing(i + 1)))
      case Polling(i, b) =>
        if act.Deadline? then JobResult(c, j.(probe := Choosing(i + 1)))
        else if Claimed(c, g) then JobResult(c, j.(probe := Querying(i, b)))
        else end
      case Querying(i, b) =>
        if c.peer.None? || Latest(c.peer) <= b || i >= |j.candidates| then JobResult(c, j.(probe := Polling(i, b)))
        else
          var endpoint := if c.peer.value.endpoint != "" then c.peer.value.endpoint else j.candidates[i].endpoint;
          JobResult(c, j.(probe := Seen(i, b, Latest(c.peer), endpoint)))
      case Seen(i, b, l, endpoint) =>
        if Claimed(c, g) && act.Go? && act.wg.programmed then
          JobResult(ProbePromote(c, g, endpoint, true), j.(probe := Promoted(i, endpoint)))
        else end
      case Promoted(i, endpoint) =>
        if act.Go? && act.rekey && i < |j.candidates| && j.candidates[i].kind == Host6
        then JobResult(c, j.(probe := Finishing, confirm := Waiting(endpoint)))
        else end
      case Exhausted => JobResult(ProbeExhaust(c, g, now, Removes(act)), j.(probe := Finishing))
  }

  function ConfirmStep(c: Cell, g: nat, j: Job, act: Act, now: real): JobResult {
    var end := JobResult(c, j.(confirm := Ending));
    if j.confirm == NotStarted || j.confirm == Ended then JobResult(c, j)
    else if j.confirm == Ending then
      JobResult(Epilogue(c, g, Confirm6, now, Removes(act)), j.(confirm := Ended))
    else if act.Quit? then end
    else match j.confirm
      case Waiting(endpoint) =>
        var wg := if act.Go? then act.wg else Wg(true, false, true);
        JobResult(ConfirmStart(c, g, endpoint, now, wg),
                  j.(confirm := if ConfirmReady(c, g, endpoint) && wg.removed && wg.programmed
                                then Rekeying(endpoint) else Ending))
      case Rekeying(endpoint) =>
        if act.Deadline? then JobResult(c, j.(confirm := TimedOut))
        else if Latest(c.peer) == 0.0 || now - Latest(c.peer) > 5.0 then JobResult(c, j)
        else
          JobResult(c, j.(confirm := Answered(if c.peer.value.endpoint != "" then c.peer.value.endpoint
                                              else endpoint)))
      case Answered(endpoint) =>
        JobResult(ConfirmFinalize(c, g, endpoint, act.Go? && act.wg.programmed), j.(confirm := Ending))
      case TimedOut => JobResult(ConfirmTimeout(c, g, now, Removes(act)), j.(confirm := Ending))
  }

  // ---------------------------------------------------------------- the world

  /** `lastPass` is the time stamp of the last complete monitor pass. */
  datatype World = World(store: Store, clock: real, jobs: map<nat, Job>, lastPass: real)

  /**
   * One atomic step.  `now` of an offer or a monitor pass was read before the lock was taken, so it
   * may lag behind the clock.
   */
  datatype Event =
    | Tick(to: real)
    | Handshake(k: Key, at: real, endpoint: string)
    | Roam(k: Key, endpoint: string)
    | OfferIn(k: Key, offer: Offer, now: real, wgOk: bool)
    | RemoveIn(k: Key, removal: Removal, wgOk: bool)
    | Monitor(order: seq<Key>, now: real, fails: set<Key>)
    | Cleanup(order: seq<Key>, active: set<Key>, fails: set<Key>)
    | ProbeWork(g: nat, act: Act)
    | ConfirmWork(g: nat, act: Act)

  predicate Covers(order: seq<Key>, s: Store) {
    && (forall i, j :: 0 <= i < j < |order| ==> order[i] != order[j])
    && (forall i :: 0 <= i < |order| ==> order[i] in s.states)
    && (forall k :: k in s.states ==> k in order)
  }

  /** The environment: the clock and the kernel's handshakes never go back. */
  predicate Enabled(w: World, e: Event) {
    match e
    case Tick(to) => w.clock <= to
    case Handshake(k, at, _) =>
      k in w.store.table && 0.0 < at <= w.clock && w.store.table[k].latest <= at
    case Roam(k, _) => k in w.store.table
    case OfferIn(_, o, now, _) => now <= w.clock && o.started > 0
    case RemoveIn(_, _, _) => true
    case Monitor(order, now, _) => w.lastPass <= now <= w.clock && Covers(order, w.store)
    case Cleanup(order, _, _) => Covers(order, w.store)
    case ProbeWork(g, _) => g in w.jobs
    case ConfirmWork(g, _) => g in w.jobs
  }

  function Start(jobs: map<nat, Job>, launches: seq<Launch>): map<nat, Job>
    decreases |launches|
  {
    if launches == [] then jobs
    else Start(jobs[launches[0].1 := NewJob(launches[0].0)], launches[1..])
  }

  function PutJob(w: World, g: nat, r: JobResult): World {
    w.(store := Put(w.store, r.job.key, r.cell), jobs := w.jobs[g := r.job])
  }

  /** The next step of the probe of generation `g`. */
  function Worked(w: World, g: nat, act: Act): JobResult
    requires g in w.jobs
  {
    ProbeStep(At(w.store, w.jobs[g].key), g, w.jobs[g], act, w.clock)
  }

  /** The next step of the confirm6 worker of generation `g`. */
  function Rekeyed(w: World, g: nat, act: Act): JobResult
    requires g in w.jobs
  {
    ConfirmStep(At(w.store, w.jobs[g].key), g, w.jobs[g], act, w.clock)
  }

  function Next(w: World, e: Event): World
    requires Enabled(w, e)
  {
    match e
    case Tick(to) => w.(clock := to)
    case Handshake(k, at, endpoint) =>
      w.(store := w.store.(table := w.store.table[k := w.store.table[k].(latest := at, endpoint := endpoint)]))
    case Roam(k, endpoint) =>
      w.(store := w.store.(table := w.store.table[k := w.store.table[k].(endpoint := endpoint)]))
    case OfferIn(k, o, now, wgOk) =>
      var r := HandleOffer(At(w.store, k), o, now, wgOk);
      w.(store := Put(w.store, k, r.cell),
         jobs := if r.outcome == Accepted(true) then w.jobs[r.cell.gen := NewJob(k)] else w.jobs)
    case RemoveIn(k, m, wgOk) =>
      w.(store := Put(w.store, k, HandleRemove(At(w.store, k), m, w.clock, wgOk).cell))
    case Monitor(order, now, fails) =>
      var p := MonitorPass(w.store, order, now, fails);
      if p.aborted then w.(store := p.store)
      else w.(store := p.store, jobs := Start(w.jobs, p.launches), lastPass := now)
    case Cleanup(order, active, fails) => w.(store := CleanupPass(w.store, order, active, fails))
    case ProbeWork(g, act) => PutJob(w, g, Worked(w, g, act))
    case ConfirmWork(g, act) => PutJob(w, g, Rekeyed(w, g, act))
  }

  // ---------------------------------------------------------------- runs

  /** The agent starts without states and without dynamic peers. */
  predicate Initial(w: World) {
    w.store.states == map[] && w.store.table == map[] && w.jobs == map[] && w.lastPass <= w.clock
  }

  predicate Possible(w: World, run: seq<Event>)
    decreases |run|
  {
    run == [] || (Enabled(w, run[0]) && Possible(Next(w, run[0]), run[1..]))
  }

  function After(w: World, run: seq<Event>): World
    requires Possible(w, run)
    decreases |run|
  {
    if run == [] then w else After(Next(w, run[0]), run[1..])
  }
}
